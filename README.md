# pipeline — a verified value-level model

This project models the two classes of the `io.github.mjcro.pipeline` Java
library:

- **Step** (`Step.java`): a unit of work whose only operation, `handle`, turns
  an input into a deferred result of the same type. The static factories
  `sync`, `simpleSync`, `async` and `simpleAsync` wrap a user processor. They
  catch whatever the processor throws, so no exception of the processor
  escapes `handle`. (An `async` step's `handle` can still throw when the
  executor refuses the task; see "Left out".)
- **Pipeline** (`Pipeline.java`): an ordered list of steps. It is filled by
  `addFirst` and `addLast`, both of which ignore `null`. `size` counts the
  steps. `process` chains the steps' deferred results left to right with
  `thenCompose`, and `processJoin` waits for that result.

The `CompletableFuture` is replaced by the value it resolves to:

- `Outcome<T>` is `Ok(value)` or `Fail(error)`.
- `Raised<T>` is what a synchronous Java call does: `Returns(value)` or
  `Throws(error)`.
- `Settle` (the try/catch inside `sync`) turns a `Raised` into an `Outcome`.
  `Join` (`CompletableFuture.join`) turns it back. The two are inverses.
- A Step is a total function `T -> Outcome<T>`. A processor
  (`ExceptionalUnaryOperator`) is a function `T -> Raised<T>`.
- `null` is `Option.None`. `Objects.requireNonNull(x, name)` becomes
  `Throws(NullPointer(name))` from the factory.

Files:

- `outcomes.dfy` (module `Outcomes`): `Option`, `Error`, `Raised`, `Outcome`,
  `Settle`, `Join`, `ThenCompose`.
- `steps.dfy` (module `Steps`): the Step type and its four factories.
- `pipelines.dfy` (module `Pipelines`): `Collections.reverse` as the function
  `Reversed` and its lemmas; the reference semantics `Fold`, which is Kleisli
  composition over `Outcome`; `Invoked`, the number of `handle` calls a run
  makes; and the class `Pipeline`.
- `scenarios.dfy` (module `Scenarios`): the repository's tests replayed as
  client code, proved from the contracts above.

`Pipeline` is a class with a `steps: seq<Step<T>>` field. `AddFirst` keeps the
source's reverse, append, reverse sequence of updates. `Process` keeps the
source's `for` loop, including the `current == null` sentinel, which is
modelled as `Option<Outcome<T>>`. It is proved equal to `Fold(steps, Ok(data))`.
Its ghost result `calls` counts the `handle` invocations and is proved equal to
`Invoked(steps, Ok(data))`. `Size()` is `|steps|`. `IsEmpty()` is
`Size() == 0`; this is an assumption, because the default `isEmpty()` of the
`WithSize` interface is not part of this model.

Two facts about the error paths of the code:

- The code wraps failures in `CompletionException`. The supplier built by `async`
  rethrows the processor's exception inside one (`Step.java:56`), `thenCompose`
  relays a failure wrapped in one, and `join` throws one. The model carries
  only the original cause; see "Left out".
- `sync` catches every `Throwable` (`Step.java:26`), while the supplier built by
  `async` catches only `Exception` (`Step.java:55`). `supplyAsync` still turns
  any other throwable into a failed future, so at the value level both
  factories end the same way. The model treats them alike.

## Model

| member | source | states |
|---|---|---|
| Outcomes.Join | src/main/java/io/github/mjcro/pipeline/Pipeline.java:75-77 | joining an outcome returns exactly when it is a success, and settling the joined call gives the outcome back (join is the inverse of sync's try/catch) |
| Outcomes.JoinSettle | src/main/java/io/github/mjcro/pipeline/Step.java:23-28 | settling a call (completed future on return, failed future on throw) and joining it recovers the returned value or the very error thrown |
| Steps.Sync | src/main/java/io/github/mjcro/pipeline/Step.java:21-30 | a null processor is rejected at construction with NullPointerException("processor"); otherwise a step is built whose handle never throws and whose joined result on every input is exactly the processor's call, the same value or the same error |
| Steps.SimpleSync | src/main/java/io/github/mjcro/pipeline/Step.java:38-40 | the step built from a total function f succeeds on every input with f applied to it |
| Steps.Async | src/main/java/io/github/mjcro/pipeline/Step.java:49-59 | a null executor is rejected first (NullPointerException("executor")), then a null processor (NullPointerException("processor")); otherwise the step's joined result on every input is exactly the processor's call |
| Steps.SimpleAsync | src/main/java/io/github/mjcro/pipeline/Step.java:68-70 | a null executor is rejected; otherwise the step succeeds on every input with f applied to it |
| Steps.AsyncAgreesWithSync | src/main/java/io/github/mjcro/pipeline/Step.java:21-59 | given an executor, async and sync are rejected in the same cases with the same error, and their steps resolve to the same outcome on every input |
| Pipelines.ReversedOfAppend | src/main/java/io/github/mjcro/pipeline/Pipeline.java:25-27 | reversing a concatenation reverses both parts and swaps them, so appending after a reversal becomes prepending once reversed back |
| Pipelines.ReversedLength | src/main/java/io/github/mjcro/pipeline/Pipeline.java:25 | reversing keeps the number of steps |
| Pipelines.ReversedTwice | src/main/java/io/github/mjcro/pipeline/Pipeline.java:25 | reversing twice gives the list back; this only characterizes `Collections.reverse`, since `addFirst` always appends between its two reversals |
| Pipelines.PrependByDoubleReverse | src/main/java/io/github/mjcro/pipeline/Pipeline.java:24-28 | reverse, append x, reverse is the same as putting x in front of the original list |
| Pipelines.FailAbsorbs | src/main/java/io/github/mjcro/pipeline/Pipeline.java:63 | a failure passes unchanged through any later steps, and none of them is invoked |
| Pipelines.FoldAppend | src/main/java/io/github/mjcro/pipeline/Pipeline.java:58-66 | composing a concatenation of step lists is composing the first list and then the second, and the invocation counts add up |
| Pipelines.FoldSnoc | src/main/java/io/github/mjcro/pipeline/Pipeline.java:63 | one more step at the end is composed with the result so far with thenCompose, and is invoked exactly when that result is a success |
| Pipelines.FirstFailureIsFinal | src/main/java/io/github/mjcro/pipeline/Pipeline.java:58-66 | if steps 0..k-1 succeed and step k fails with e, the whole run fails with that same e, and exactly k+1 steps are invoked: no step after k runs |
| Pipelines.FailureHasFirstFailingStep | src/main/java/io/github/mjcro/pipeline/Pipeline.java:58-66 | conversely, a run that fails has a first failing step: the last one invoked, with every earlier step successful, and its error is the run's error |
| Pipelines.SuccessInvokesAll | src/main/java/io/github/mjcro/pipeline/Pipeline.java:58-66 | a successful run has invoked every step |
| Pipelines.Pipeline.constructor | src/main/java/io/github/mjcro/pipeline/Pipeline.java:16 | a new pipeline has no steps |
| Pipelines.Pipeline.AddFirst | src/main/java/io/github/mjcro/pipeline/Pipeline.java:23-29 | a non-null step ends up in front of all the previous steps, which keep their order, and the size grows by one; a null step leaves the steps unchanged |
| Pipelines.Pipeline.AddLast | src/main/java/io/github/mjcro/pipeline/Pipeline.java:36-40 | a non-null step ends up after all the previous steps, and the size grows by one; a null step leaves the steps unchanged |
| Pipelines.Pipeline.Process | src/main/java/io/github/mjcro/pipeline/Pipeline.java:53-67 | the sentinel loop resolves to the left-to-right composition Fold(steps, Ok(data)), which is Ok(data) on an empty pipeline, and it invokes exactly Invoked(steps, Ok(data)) handles |
| Pipelines.Pipeline.ProcessJoin | src/main/java/io/github/mjcro/pipeline/Pipeline.java:75-77 | returns v exactly when the composition is Ok(v), and otherwise throws the composition's error |
| Scenarios.HelloStep | src/test/java/io/github/mjcro/pipeline/PipelineTest.java:26 | the simpleSync step of the test prepends "Hello, " on every input |
| Scenarios.ExclaimStep | src/test/java/io/github/mjcro/pipeline/PipelineTest.java:24 | the simpleAsync step of the test appends "!" on every input |
| Scenarios.UpperStep | src/test/java/io/github/mjcro/pipeline/PipelineTest.java:25 | the simpleAsync step of the test upper-cases every input |
| Scenarios.GreetingFold | src/test/java/io/github/mjcro/pipeline/PipelineTest.java:24-30 | greeting, exclaiming and upper-casing, composed in that order, turn any x into the upper-cased "Hello, " + x + "!" |
| Scenarios.GreetingFoldOnWorld | src/test/java/io/github/mjcro/pipeline/PipelineTest.java:30 | on "World" those three steps compose to "HELLO, WORLD!" |
| Scenarios.GreetingSteps | src/test/java/io/github/mjcro/pipeline/PipelineTest.java:22-26 | returns exactly the test's hello (simpleSync), exclaim and upper (simpleAsync) steps, in execution order, and they compose "World" to "HELLO, WORLD!" |
| Scenarios.SquareScenario | src/test/java/io/github/mjcro/pipeline/StepTest.java:11-33 | squaring through simpleSync and through simpleAsync gives 9 to 81 and -2 to 4 |
| Scenarios.EmptyScenario | src/test/java/io/github/mjcro/pipeline/PipelineTest.java:13-18 | a new pipeline has size 0, is empty, and resolves "foo" to "foo" |
| Scenarios.InsertionOrderScenario | src/test/java/io/github/mjcro/pipeline/PipelineTest.java:24-28 | addLast(s1), addLast(s2), addFirst(s0) give order [s0, s1, s2] and size 3, null insertions in between change nothing, and a later addFirst(s3) goes in front |
| Scenarios.HelloWorldScenario | src/test/java/io/github/mjcro/pipeline/PipelineTest.java:21-32 | the test pipeline holds exactly the test's hello, exclaim and upper steps in that order, has size 3, is not empty, and processJoin("World") returns "HELLO, WORLD!" |
| Scenarios.InTestOrder | src/test/java/io/github/mjcro/pipeline/PipelineTest.java:23-26 | a new pipeline filled with addLast(s1), addLast(s2), addFirst(s0) holds exactly [s0, s1, s2] |
| Scenarios.ExceptionScenario | src/test/java/io/github/mjcro/pipeline/PipelineTest.java:35-77 | with a pass-through step before a throwing step, sync or async, process fails with the thrown Exception("Expected exception") after exactly two handle invocations |

Members without a contract of their own are definitions that the rows above
state properties of:

- `Settle` is the try/catch of `sync` (`Step.java:23-28`).
- `ThenCompose` is `thenCompose` (`Pipeline.java:63`).
- `Fold` and `Invoked` are the reference semantics of `process`.
- `Reversed` is `Collections.reverse`.
- `Size` and `IsEmpty` are `size()` (`Pipeline.java:43-45`) and `isEmpty()`.
- `FromUnaryOperator` is `ExceptionalUnaryOperator.fromUnaryOperator`.
- `SupplyAsync` is `CompletableFuture.supplyAsync`.
- `Upper` and `UpperChar` are `toUpperCase(Locale.ROOT)`.

## Left out

- Threads, executors and scheduling: an `Executor` is only a name, and an
  asynchronous step is modelled by the outcome it resolves to. Which thread runs
  a step is not modelled, so the thread-name assertions of `StepTest` are left
  out. Concurrent `process` calls and races between building and processing are
  left out too. So is a refused submission: `supplyAsync` (`Step.java:52`)
  hands the task to the executor before `handle` returns, and an executor
  that refuses it (a `ThreadPoolExecutor` after `shutdown()`, say) makes an
  `async` step's `handle` throw `RejectedExecutionException`. As the first
  step that makes `process` throw (`Pipeline.java:61`); as a later step
  `thenCompose` turns it into a failed future. The model's async steps always
  run their processor.
- The `CompletionException` envelope is not modelled. The Java code wraps
  errors in it in three places: the supplier built by `async` rethrows the cause
  inside one, `thenCompose` relays a failure wrapped in one, and `join` throws
  one. A failure in the model always carries the original error.
- Pipelines.Pipeline.ProcessJoin: does not model blocking; it unwraps an
  already resolved outcome and throws the original error rather than a
  `CompletionException`.
- `Error` keeps only a class name and a message. The Throwable class hierarchy,
  and so the `Exception`/`Throwable` difference between `async` and `sync`, is
  not modelled.
- Pipelines.Pipeline.Process: only steps whose `handle` never throws and never
  returns `null` are modelled. The factories build such steps as far as the
  processor's exceptions go; an `async` step whose executor refuses the task
  is the exception, as the executors line says. `Step`
  is a public interface, and for a hand-written step the loop
  (`Pipeline.java:58-66`) does more than the model states. If the first
  step's `handle` throws, `process` itself throws, since that call is outside
  any try. If a later `handle` throws or returns `null`, `thenCompose` turns it
  into a failed future. If the first step returns a `null` future, `current`
  is still `null`, so the second step is applied to the original `data` and
  the first step's result is lost; a one-step pipeline then returns `null`.
- Steps.SimpleSync and Steps.SimpleAsync: the `UnaryOperator` is assumed not to
  throw. In Java an unchecked exception from it becomes a failed step
  (`Step.java:26`, `Step.java:55`), while the model promises success.
- Steps.Sync, Steps.SimpleSync, Steps.Async, Steps.SimpleAsync and
  Steps.AsyncAgreesWithSync: the element type must be one without allocated
  references (`T(!new)`), because their contracts quantify over every input.
  Java accepts any reference type.
- `ExceptionalUnaryOperator.fromUnaryOperator` and `WithSize.isEmpty` are not
  part of this model. The first is taken to lift a total function, and the
  second is taken to be `size() == 0`. `simpleSync` and `simpleAsync` are
  therefore given a non-null function. What `fromUnaryOperator(null)` does is
  not modelled.
- A processor that returns `null` is a value like any other of type `T`.
  `size()`'s `int` range is not modelled, since the list is unbounded.
- Scenarios.Upper and Scenarios.UpperChar: `toUpperCase(Locale.ROOT)` is
  modelled for ASCII letters only, which is all the tests use.
- The side-effect flag of `PipelineTest.testException` is not modelled. It
  starts `true` and its assertions run inside an ignored `whenComplete`
  callback, so it checks nothing. The ghost invocation count of `Process`
  states what the flag was meant to show.
