/** The Step contract and its factories (Step.java).

    A Step's only capability is `handle : T -> deferred T`. At the value level
    a deferred result is an Outcome, so a Step is a total function
    `T -> Outcome<T>`: it has no way to throw. The factories establish this
    for their processor's exceptions by catching them; an executor that
    refuses an async task is not modelled. */
module Steps {
  import opened Outcomes

  /** A Step: handle(in) is the resolved outcome of the deferred result. */
  type Step<!T> = T -> Outcome<T>

  /** An ExceptionalUnaryOperator: apply(in) returns a value or throws. */
  type Processor<!T> = T -> Raised<T>

  /** An Executor. Only its identity is modelled: which thread runs the
      work has no effect on the value that is computed. */
  datatype Executor = Executor(name: string)

  /** ExceptionalUnaryOperator.fromUnaryOperator: a total function seen as a
      processor that never throws. */
  function FromUnaryOperator<T>(f: T -> T): Processor<T>
  {
    x => Returns(f(x))
  }

  /** CompletableFuture.supplyAsync at the value level: the supplier runs on
      the executor and the future settles with what the supplier did. */
  function SupplyAsync<T>(executor: Executor, supplier: () -> Raised<T>): Outcome<T>
  {
    Settle(supplier())
  }

  /** Step.sync: a null processor is rejected when the step is built;
      otherwise handle(in) never throws, and joining it reproduces the
      processor's call exactly, the same value or the very same error. */
  function Sync<T(!new)>(processor: Option<Processor<T>>): (r: Raised<Step<T>>)
    ensures processor.None? ==> r == Throws(NullPointer("processor"))
    ensures processor.Some? ==> r.Returns?
    ensures processor.Some? ==> forall x :: Join(r.value(x)) == processor.value(x)
  {
    match processor
    case None => Throws(NullPointer("processor"))
    case Some(p) =>
      var step: Step<T> := x => Settle(p(x));
      forall x ensures Join(step(x)) == p(x) {
        JoinSettle(p(x));
      }
      Returns(step)
  }

  /** Step.simpleSync: the step always succeeds, with f applied to its input. */
  function SimpleSync<T(!new)>(f: T -> T): (step: Step<T>)
    ensures forall x :: step(x) == Ok(f(x))
  {
    var built := Sync(Some(FromUnaryOperator(f)));
    built.value
  }

  /** Step.async: a null executor, then a null processor, is rejected when
      the step is built; otherwise no exception of the processor escapes
      handle(in) and, once the executor has run the processor, joining it
      reproduces the processor's call exactly. An executor that refuses the
      task is not modelled. */
  function Async<T(!new)>(executor: Option<Executor>, processor: Option<Processor<T>>): (r: Raised<Step<T>>)
    ensures executor.None? ==> r == Throws(NullPointer("executor"))
    ensures executor.Some? && processor.None? ==> r == Throws(NullPointer("processor"))
    ensures executor.Some? && processor.Some? ==> r.Returns?
    ensures executor.Some? && processor.Some? ==>
              forall x :: Join(r.value(x)) == processor.value(x)
  {
    match executor
    case None => Throws(NullPointer("executor"))
    case Some(ex) =>
      match processor
      case None => Throws(NullPointer("processor"))
      case Some(p) =>
        var step: Step<T> := x => SupplyAsync(ex, () => p(x));
        forall x ensures Join(step(x)) == p(x) {
          JoinSettle(p(x));
        }
        Returns(step)
  }

  /** Step.simpleAsync: a null executor is rejected when the step is built;
      otherwise the step always succeeds, with f applied to its input. */
  function SimpleAsync<T(!new)>(executor: Option<Executor>, f: T -> T): (r: Raised<Step<T>>)
    ensures executor.None? ==> r == Throws(NullPointer("executor"))
    ensures executor.Some? ==> r.Returns? && forall x :: r.value(x) == Ok(f(x))
  {
    Async(executor, Some(FromUnaryOperator(f)))
  }

  /** Once an executor is supplied, an asynchronous step is built or
      rejected exactly as the synchronous one, and on every input both
      resolve to the same outcome: success with the processor's value, or
      failure with the error it raised. */
  lemma AsyncAgreesWithSync<T(!new)>(executor: Executor, processor: Option<Processor<T>>, x: T)
    ensures Async(Some(executor), processor).Returns? == Sync(processor).Returns?
    ensures Async(Some(executor), processor).Throws? ==>
              Async(Some(executor), processor) == Sync(processor)
    ensures Async(Some(executor), processor).Returns? ==>
              Async(Some(executor), processor).value(x) == Sync(processor).value(x)
  {
  }
}
