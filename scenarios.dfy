/** Clients of the model that replay the repository's tests
    (PipelineTest.java, StepTest.java) and prove what those tests check,
    from the contracts of Steps and Pipelines alone. */
module Scenarios {
  import opened Outcomes
  import opened Steps
  import opened Pipelines

  /** String.toUpperCase(Locale.ROOT) on one character, for ASCII letters. */
  function UpperChar(c: char): char
  {
    if 'a' <= c <= 'z' then (c as int - 'a' as int + 'A' as int) as char else c
  }

  /** String.toUpperCase(Locale.ROOT), for ASCII letters. */
  function Upper(s: string): string
  {
    seq(|s|, i requires 0 <= i < |s| => UpperChar(s[i]))
  }

  /** The synchronous first step of PipelineTest.testProcess. */
  function HelloStep(): (step: Step<string>)
    ensures forall x :: step(x) == Ok("Hello, " + x)
  {
    SimpleSync((s: string) => "Hello, " + s)
  }

  /** The asynchronous step of PipelineTest.testProcess that appends "!". */
  function ExclaimStep(executor: Executor): (step: Step<string>)
    ensures forall x :: step(x) == Ok(x + "!")
  {
    SimpleAsync(Some(executor), (s: string) => s + "!").value
  }

  /** The asynchronous step of PipelineTest.testProcess that upper-cases. */
  function UpperStep(executor: Executor): (step: Step<string>)
    ensures forall x :: step(x) == Ok(Upper(x))
  {
    SimpleAsync(Some(executor), Upper).value
  }

  /** Steps that greet, exclaim and upper-case, composed in that order,
      shout a greeting at any input. */
  lemma GreetingFold(hello: Step<string>, exclaim: Step<string>, upper: Step<string>, x: string)
    requires forall y :: hello(y) == Ok("Hello, " + y)
    requires forall y :: exclaim(y) == Ok(y + "!")
    requires forall y :: upper(y) == Ok(Upper(y))
    ensures Fold([hello, exclaim, upper], Ok(x)) == Ok(Upper("Hello, " + x + "!"))
  {
    assert [hello, exclaim, upper][1..] == [exclaim, upper];
    assert [exclaim, upper][1..] == [upper] && [upper][1..] == [];
    calc {
      Fold([hello, exclaim, upper], Ok(x));
      Fold([exclaim, upper], Ok("Hello, " + x));
      Fold([upper], Ok("Hello, " + x + "!"));
      Fold([], Ok(Upper("Hello, " + x + "!")));
    }
  }

  /** The expected output of PipelineTest.testProcess: the greeting of
      "World", upper-cased. */
  lemma GreetingFoldOnWorld(hello: Step<string>, exclaim: Step<string>, upper: Step<string>)
    requires forall y :: hello(y) == Ok("Hello, " + y)
    requires forall y :: exclaim(y) == Ok(y + "!")
    requires forall y :: upper(y) == Ok(Upper(y))
    ensures Fold([hello, exclaim, upper], Ok("World")) == Ok("HELLO, WORLD!")
  {
    GreetingFold(hello, exclaim, upper, "World");
    var greeting := "Hello, " + "World" + "!";
    assert greeting == "Hello, World!";
    var u := Upper(greeting);
    assert |u| == 13;
    assert u[0] == 'H' && u[1] == 'E' && u[2] == 'L' && u[3] == 'L' && u[4] == 'O';
    assert u[5] == ',' && u[6] == ' ' && u[7] == 'W' && u[8] == 'O' && u[9] == 'R';
    assert u[10] == 'L' && u[11] == 'D' && u[12] == '!';
    assert u == "HELLO, WORLD!";
  }

  /** The steps of PipelineTest.testProcess, in the order the test's
      addLast, addLast, addFirst calls leave them; on "World" they compose to
      "HELLO, WORLD!". */
  method GreetingSteps(executor: Executor) returns (steps: seq<Step<string>>)
    ensures steps == [HelloStep(), ExclaimStep(executor), UpperStep(executor)]
    ensures Fold(steps, Ok("World")) == Ok("HELLO, WORLD!")
  {
    var hello, exclaim, upper := HelloStep(), ExclaimStep(executor), UpperStep(executor);
    GreetingFoldOnWorld(hello, exclaim, upper);
    steps := [hello, exclaim, upper];
  }

  /** StepTest: squaring through simpleSync and through simpleAsync gives
      9 -> 81 and -2 -> 4 either way. */
  method SquareScenario() returns (sync9: Raised<int>, syncMinus2: Raised<int>,
                                   async9: Raised<int>, asyncMinus2: Raised<int>)
    ensures sync9 == Returns(81) && syncMinus2 == Returns(4)
    ensures async9 == Returns(81) && asyncMinus2 == Returns(4)
  {
    var square := (i: int) => i * i;
    var syncStep := SimpleSync(square);
    sync9 := Join(syncStep(9));
    syncMinus2 := Join(syncStep(-2));
    var built := SimpleAsync(Some(Executor("single-thread")), square);
    var asyncStep := built.value;
    async9 := Join(asyncStep(9));
    asyncMinus2 := Join(asyncStep(-2));
  }

  /** PipelineTest.testEmpty: a new pipeline has size 0, is empty and
      resolves "foo" to "foo". */
  method EmptyScenario() returns (size: nat, empty: bool, result: Outcome<string>)
    ensures size == 0 && empty && result == Ok("foo")
  {
    var pipeline := new Pipeline<string>();
    size := pipeline.Size();
    empty := pipeline.IsEmpty();
    ghost var calls;
    result, calls := pipeline.Process("foo");
  }

  /** The order PipelineTest.testProcess builds: addLast(s1), addLast(s2),
      addFirst(s0) run the steps as [s0, s1, s2], size 3; null arguments in
      between change nothing; a second addFirst goes in front of the first. */
  method InsertionOrderScenario<T>(s0: Step<T>, s1: Step<T>, s2: Step<T>, s3: Step<T>)
    returns (order: seq<Step<T>>, size: nat, laterOrder: seq<Step<T>>)
    ensures order == [s0, s1, s2] && size == 3
    ensures laterOrder == [s3, s0, s1, s2]
  {
    var pipeline := new Pipeline<T>();
    pipeline.AddLast(Some(s1));
    pipeline.AddFirst(None);
    pipeline.AddLast(Some(s2));
    pipeline.AddLast(None);
    pipeline.AddFirst(Some(s0));
    order := pipeline.steps;
    size := pipeline.Size();
    pipeline.AddFirst(Some(s3));
    laterOrder := pipeline.steps;
  }

  /** A pipeline filled as PipelineTest.testProcess fills it: addLast(s1),
      addLast(s2), addFirst(s0) leave the steps in the order [s0, s1, s2]. */
  method InTestOrder<T>(s0: Step<T>, s1: Step<T>, s2: Step<T>) returns (pipeline: Pipeline<T>)
    ensures fresh(pipeline) && pipeline.steps == [s0, s1, s2]
  {
    pipeline := new Pipeline<T>();
    pipeline.AddLast(Some(s1));
    pipeline.AddLast(Some(s2));
    pipeline.AddFirst(Some(s0));
  }

  /** PipelineTest.testProcess: two addLast calls and then an addFirst leave
      the test's steps in the order [hello, exclaim, upper], size 3, and
      processJoin("World") returns "HELLO, WORLD!". */
  method HelloWorldScenario(executor: Executor)
    returns (order: seq<Step<string>>, size: nat, empty: bool, result: Raised<string>)
    ensures order == [HelloStep(), ExclaimStep(executor), UpperStep(executor)]
    ensures size == 3 && !empty
    ensures result == Returns("HELLO, WORLD!")
  {
    var steps := GreetingSteps(executor);
    var pipeline := InTestOrder(steps[0], steps[1], steps[2]);
    order := pipeline.steps;
    size := pipeline.Size();
    empty := pipeline.IsEmpty();
    result := pipeline.ProcessJoin("World");
  }

  /** PipelineTest.testException and testExceptionAsync: a step that passes
      its input on, put in front of a step whose processor throws, makes the
      pipeline fail with that very exception after both steps have run. */
  method ExceptionScenario(async: bool) returns (result: Outcome<string>, ghost calls: nat)
    ensures result == Fail(Error("java.lang.Exception", "Expected exception"))
    ensures calls == 2
  {
    var thrown := Error("java.lang.Exception", "Expected exception");
    var throwing: Processor<string> := s => Throws(thrown);
    var executor := Some(Executor("fixed-pool-5"));
    var failing := if async then Async(executor, Some(throwing)) else Sync(Some(throwing));
    var passOn := if async then SimpleAsync(executor, (s: string) => s).value
                  else SimpleSync((s: string) => s);
    var pipeline := new Pipeline<string>();
    pipeline.AddLast(Some(failing.value));
    pipeline.AddFirst(Some(passOn));
    result, calls := pipeline.Process("foo");
    var steps := pipeline.steps;
    assert steps[..1] == [passOn];
    assert Join(failing.value("foo")) == Throws(thrown);
    FirstFailureIsFinal(steps, "foo", 1, "foo", thrown);
  }
}
