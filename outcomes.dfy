/** Value-level stand-ins for the two ways a Java call can end and for the
    resolved state of a CompletableFuture.

    - Raised<T> is what a synchronous call does: it returns a value or throws.
    - Outcome<T> is what a completed future holds: a value or a failure.

    The library turns the first into the second inside Step.sync (a try/catch
    around the processor) and the second back into the first in
    Pipeline.processJoin (CompletableFuture.join). */
module Outcomes {

  /** The conventional stand-in for a Java reference that may be null. */
  datatype Option<+T> = None | Some(value: T)

  /** A Java Throwable, reduced to its class name and message. */
  datatype Error = Error(className: string, message: string)

  /** The exception Objects.requireNonNull(x, name) throws for a null x. */
  function NullPointer(name: string): Error
  {
    Error("java.lang.NullPointerException", name)
  }

  /** A synchronous call: it returns a value or it throws an error. */
  datatype Raised<+T> = Returns(value: T) | Throws(error: Error)

  /** The resolved state of a deferred (future) result. */
  datatype Outcome<+T> = Ok(value: T) | Fail(error: Error)

  /** A completed future for a returned value, a failed future for a thrown
      error: the try/catch of Step.sync around its processor. */
  function Settle<T>(r: Raised<T>): Outcome<T>
  {
    match r
    case Returns(v) => Ok(v)
    case Throws(e) => Fail(e)
  }

  /** CompletableFuture.join at the value level: the value of a successful
      future is returned, the failure of a failed one is thrown. Joining a
      settled call gives back what the call did. */
  function Join<T>(o: Outcome<T>): (r: Raised<T>)
    ensures Settle(r) == o
    ensures r.Returns? <==> o.Ok?
  {
    match o
    case Ok(v) => Returns(v)
    case Fail(e) => Throws(e)
  }

  /** Settling a call and then joining it loses nothing: the returned value
      and the very error thrown are both recovered. */
  lemma JoinSettle<T>(r: Raised<T>)
    ensures Join(Settle(r)) == r
  {
  }

  /** CompletableFuture.thenCompose at the value level: a success feeds its
      value to the next handler, a failure is passed on and the handler is
      never applied. */
  function ThenCompose<T>(o: Outcome<T>, handle: T -> Outcome<T>): Outcome<T>
  {
    match o
    case Ok(v) => handle(v)
    case Fail(e) => Fail(e)
  }
}
