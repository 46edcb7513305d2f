/** The Pipeline (Pipeline.java): an ordered, mutable list of steps, built by
    inserting at either end and then run by composing the steps' deferred
    results left to right. */
module Pipelines {
  import opened Outcomes
  import opened Steps

  /* ---------- Collections.reverse ---------- */

  /** The list that Collections.reverse leaves behind: the last element
      first, followed by the reversal of the rest. */
  function Reversed<S>(s: seq<S>): seq<S>
  {
    if |s| == 0 then [] else [s[|s| - 1]] + Reversed(s[..|s| - 1])
  }

  /** Reversing keeps the length. */
  lemma {:induction false} ReversedLength<S>(s: seq<S>)
    ensures |Reversed(s)| == |s|
  {
    if |s| > 0 {
      ReversedLength(s[..|s| - 1]);
    }
  }

  /** Reversing a concatenation reverses the parts and swaps them. */
  lemma {:induction false} ReversedOfAppend<S>(a: seq<S>, b: seq<S>)
    ensures Reversed(a + b) == Reversed(b) + Reversed(a)
  {
    if |b| == 0 {
      assert a + b == a;
    } else {
      var front := b[..|b| - 1];
      assert (a + b)[..|a + b| - 1] == a + front;
      ReversedOfAppend(a, front);
    }
  }

  /** Reversing twice gives the list back. This only characterizes
      Reversed: addFirst always appends between its two reversals. */
  lemma {:induction false} ReversedTwice<S>(s: seq<S>)
    ensures Reversed(Reversed(s)) == s
  {
    if |s| > 0 {
      var front, last := s[..|s| - 1], s[|s| - 1];
      ReversedOfAppend([last], Reversed(front));
      ReversedTwice(front);
      assert Reversed([last]) == [last] by {
        assert [last][..0] == [];
      }
      assert front + [last] == s;
    }
  }

  /** The double reversal of addFirst is a prepend: reversing, appending x
      and reversing again puts x in front of the original list. */
  lemma PrependByDoubleReverse<S>(s: seq<S>, x: S)
    ensures Reversed(Reversed(s) + [x]) == [x] + s
  {
    ReversedOfAppend(Reversed(s), [x]);
    ReversedTwice(s);
    assert Reversed([x]) == [x] by {
      assert [x][..0] == [];
    }
  }

  /* ---------- Sequential composition of steps ---------- */

  /** The reference semantics of process: Kleisli composition of the steps,
      left to right, starting from an outcome. The first failure is final and
      no later step is applied to anything. */
  function Fold<T>(steps: seq<Step<T>>, start: Outcome<T>): Outcome<T>
  {
    if steps == [] then start else Fold(steps[1..], ThenCompose(start, steps[0]))
  }

  /** How many steps have their handle invoked when the steps are composed
      from the given outcome: a step is invoked only on a success. */
  function Invoked<T>(steps: seq<Step<T>>, start: Outcome<T>): nat
  {
    if steps == [] then 0
    else match start
      case Fail(_) => 0
      case Ok(v) => 1 + Invoked(steps[1..], steps[0](v))
  }

  /** A failure passes through any number of later steps unchanged, and
      none of them is invoked. */
  lemma {:induction false} FailAbsorbs<T>(steps: seq<Step<T>>, e: Error)
    ensures Fold(steps, Fail(e)) == Fail(e)
    ensures Invoked(steps, Fail(e)) == 0
  {
    if steps != [] {
      FailAbsorbs(steps[1..], e);
    }
  }

  /** Composing a concatenation is composing its parts one after the other,
      and the invocations add up. */
  lemma {:induction false} FoldAppend<T>(a: seq<Step<T>>, b: seq<Step<T>>, start: Outcome<T>)
    ensures Fold(a + b, start) == Fold(b, Fold(a, start))
    ensures Invoked(a + b, start) == Invoked(a, start) + Invoked(b, Fold(a, start))
  {
    if a == [] {
      assert a + b == b;
    } else {
      assert (a + b)[0] == a[0] && (a + b)[1..] == a[1..] + b;
      if start.Fail? {
        FailAbsorbs(a + b, start.error);
        FailAbsorbs(a, start.error);
        FailAbsorbs(b, start.error);
      } else {
        FoldAppend(a[1..], b, ThenCompose(start, a[0]));
      }
    }
  }

  /** One more step on the end composes with the result so far, and is
      invoked exactly when the result so far is a success. */
  lemma FoldSnoc<T>(steps: seq<Step<T>>, last: Step<T>, start: Outcome<T>)
    ensures Fold(steps + [last], start) == ThenCompose(Fold(steps, start), last)
    ensures Invoked(steps + [last], start)
              == Invoked(steps, start) + (if Fold(steps, start).Ok? then 1 else 0)
  {
    FoldAppend(steps, [last], start);
    var mid := Fold(steps, start);
    assert [last][1..] == [];
    if mid.Fail? {
      FailAbsorbs([last], mid.error);
    }
  }

  /** Short-circuit: when steps 0..k-1 succeed and step k fails with e, the
      whole composition fails with that very e, and exactly the steps 0..k
      are invoked: no step after k ever runs. */
  lemma {:induction false} FirstFailureIsFinal<T>(steps: seq<Step<T>>, data: T, k: nat, v: T, e: Error)
    requires k < |steps|
    requires Fold(steps[..k], Ok(data)) == Ok(v)
    requires steps[k](v) == Fail(e)
    ensures Fold(steps, Ok(data)) == Fail(e)
    ensures Invoked(steps, Ok(data)) == k + 1
  {
    if k == 0 {
      FailAbsorbs(steps[1..], e);
    } else {
      var next := steps[0](data);
      if next.Fail? {
        FailAbsorbs(steps[..k][1..], next.error);
        assert false;
      }
      assert steps[..k][1..] == steps[1..][..k - 1];
      FirstFailureIsFinal(steps[1..], next.value, k - 1, v, e);
    }
  }

  /** Conversely, a composition that starts from a success and fails has a
      first failing step: it is the last one invoked, every step before it
      succeeded, and its failure is the one reported. */
  lemma {:induction false} FailureHasFirstFailingStep<T>(steps: seq<Step<T>>, data: T)
    requires Fold(steps, Ok(data)).Fail?
    ensures var k := Invoked(steps, Ok(data)) - 1;
            0 <= k < |steps| && Fold(steps[..k], Ok(data)).Ok? &&
            steps[k](Fold(steps[..k], Ok(data)).value) == Fold(steps, Ok(data))
  {
    var next := steps[0](data);
    if next.Fail? {
      assert steps[..0] == [];
      FailAbsorbs(steps[1..], next.error);
    } else {
      var rest := steps[1..];
      FailureHasFirstFailingStep(rest, next.value);
      var j := Invoked(rest, Ok(next.value)) - 1;
      assert steps[..j + 1] == [steps[0]] + rest[..j];
      assert steps[..j + 1][1..] == rest[..j];
    }
  }

  /** A composition that starts from a success and succeeds has invoked
      every step. */
  lemma {:induction false} SuccessInvokesAll<T>(steps: seq<Step<T>>, data: T)
    requires Fold(steps, Ok(data)).Ok?
    ensures Invoked(steps, Ok(data)) == |steps|
  {
    if steps != [] {
      var next := steps[0](data);
      if next.Fail? {
        FailAbsorbs(steps[1..], next.error);
      } else {
        SuccessInvokesAll(steps[1..], next.value);
      }
    }
  }

  /* ---------- The pipeline object ---------- */

  class Pipeline<T> {
    /** The steps, in execution order. */
    var steps: seq<Step<T>>

    /** An empty pipeline. */
    constructor ()
      ensures steps == []
    {
      steps := [];
    }

    /** The number of installed steps. */
    function Size(): nat
      reads this
    {
      |steps|
    }

    /** isEmpty, taken as size() == 0. */
    predicate IsEmpty()
      reads this
    {
      Size() == 0
    }

    /** addFirst: a present step goes in front of all the others, by reversing
        the list, appending, and reversing back; an absent (null) step leaves
        the pipeline as it was. */
    method AddFirst(step: Option<Step<T>>)
      modifies this
      ensures step.Some? ==> steps == [step.value] + old(steps)
      ensures step.None? ==> steps == old(steps)
      ensures Size() == old(Size()) + (if step.Some? then 1 else 0)
    {
      if step.Some? {
        ghost var before := steps;
        steps := Reversed(steps);
        steps := steps + [step.value];
        steps := Reversed(steps);
        PrependByDoubleReverse(before, step.value);
      }
    }

    /** addLast: a present step goes after all the others; an absent (null)
        step leaves the pipeline as it was. */
    method AddLast(step: Option<Step<T>>)
      modifies this
      ensures step.Some? ==> steps == old(steps) + [step.value]
      ensures step.None? ==> steps == old(steps)
      ensures Size() == old(Size()) + (if step.Some? then 1 else 0)
    {
      if step.Some? {
        steps := steps + [step.value];
      }
    }

    /** process: an empty pipeline resolves to the input unchanged; otherwise
        the first step gets the input and each later step the previous step's
        success value, and the first failure is the result. The loop keeps the
        source's null sentinel for "no result yet" (None). The ghost count
        `calls` is the number of handle invocations the run makes. */
    method Process(data: T) returns (r: Outcome<T>, ghost calls: nat)
      ensures r == Fold(steps, Ok(data))
      ensures IsEmpty() ==> r == Ok(data)
      ensures calls == Invoked(steps, Ok(data))
    {
      if IsEmpty() {
        return Ok(data), 0;
      }
      var current: Option<Outcome<T>> := None;
      calls := 0;
      for i := 0 to |steps|
        invariant i == 0 <==> current.None?
        invariant i > 0 ==> current == Some(Fold(steps[..i], Ok(data)))
        invariant calls == Invoked(steps[..i], Ok(data))
      {
        var handler := steps[i];
        FoldSnoc(steps[..i], handler, Ok(data));
        assert steps[..i + 1] == steps[..i] + [handler];
        if current.None? {
          current := Some(handler(data));
          calls := 1;
        } else {
          if current.value.Ok? {
            calls := calls + 1;
          }
          current := Some(ThenCompose(current.value, handler));
        }
      }
      assert steps[..|steps|] == steps;
      r := current.value;
    }

    /** processJoin: returns v exactly when process resolves to Ok(v), and
        throws the very error of a failed process otherwise. */
    method ProcessJoin(data: T) returns (r: Raised<T>)
      ensures r.Returns? <==> Fold(steps, Ok(data)).Ok?
      ensures r.Returns? ==> r.value == Fold(steps, Ok(data)).value
      ensures r.Throws? ==> r.error == Fold(steps, Ok(data)).error
    {
      var outcome, _ := Process(data);
      r := Join(outcome);
    }
  }
}
