/**
 Histories of operations on a concurrent container, with linearization points.

 A log records calls, linearization points (`Took`) and returns.  It is well formed when in every
 thread each call takes effect once, after the call and before its return, and returns that very
 result.  Replaying the linearization points in their order on a sequential container then says
 whether the concurrent one is linearizable.
 */
module Histories {
  import opened Prelude

  type Value(==, 0, !new)

  /** The operations of the stack and of the two-lock queue; what they return is an optional value. */
  datatype Op = Push(v: Value) | Pop

  datatype Event<O, R> =
    | Called(t: nat, op: O)
    | Took(t: nat, op: O, res: R)
    | Returned(t: nat, op: O, res: R)

  type OpEvent = Event<Op, Option<Value>>

  /** What a sequential container does on one operation; None when the recorded result is not what it would answer. */
  type Sequential<!C, !O, !R> = (C, O, R) -> Option<C>

  /** The latest event of thread t. */
  function Last<O, R>(log: seq<Event<O, R>>, t: nat): Option<Event<O, R>> {
    if log == [] then None
    else if log[|log| - 1].t == t then Some(log[|log| - 1])
    else Last(log[..|log| - 1], t)
  }

  /** The event may follow what its thread did last: calls, linearization points and returns alternate. */
  predicate Follows<O(==), R(==)>(log: seq<Event<O, R>>, e: Event<O, R>) {
    match e
    case Called(t, op) => Last(log, t).None? || Last(log, t).value.Returned?
    case Took(t, op, res) => Last(log, t) == Some(Called(t, op))
    case Returned(t, op, res) => Last(log, t) == Some(Took(t, op, res))
  }

  predicate WellFormed<O(==), R(==)>(log: seq<Event<O, R>>) {
    log == [] || (WellFormed(log[..|log| - 1]) && Follows(log[..|log| - 1], log[|log| - 1]))
  }

  /** The sequential container after the linearization points of the log, in their order. */
  function Replay<C, O, R>(start: C, log: seq<Event<O, R>>, apply: Sequential<C, O, R>): Option<C> {
    if log == [] then Some(start)
    else
      var before := Replay(start, log[..|log| - 1], apply);
      match log[|log| - 1]
      case Took(_, op, res) => if before.Some? then apply(before.value, op, res) else None
      case _ => before
  }

  lemma LastAfter<O, R>(log: seq<Event<O, R>>, e: Event<O, R>)
    ensures forall t :: Last(log + [e], t) == if t == e.t then Some(e) else Last(log, t)
  {
    assert (log + [e])[..|log|] == log;
  }

  lemma WellFormedAfter<O, R>(log: seq<Event<O, R>>, e: Event<O, R>)
    requires WellFormed(log) && Follows(log, e)
    ensures WellFormed(log + [e])
  {
    assert (log + [e])[..|log|] == log;
  }

  lemma ReplayAfter<C, O, R>(start: C, log: seq<Event<O, R>>, e: Event<O, R>, apply: Sequential<C, O, R>)
    requires Replay(start, log, apply).Some?
    ensures Replay(start, log + [e], apply)
            == if e.Took? then apply(Replay(start, log, apply).value, e.op, e.res) else Replay(start, log, apply)
  {
    assert (log + [e])[..|log|] == log;
  }

  /** What the container held when the i-th operation took effect, and that the answer is the one it gives then. */
  lemma {:induction false} ReplayAt<C, O, R>(start: C, log: seq<Event<O, R>>, apply: Sequential<C, O, R>, i: nat)
    returns (c: C)
    requires Replay(start, log, apply).Some? && i < |log| && log[i].Took?
    ensures Replay(start, log[..i], apply) == Some(c) && apply(c, log[i].op, log[i].res).Some?
    ensures Replay(start, log[..i + 1], apply) == apply(c, log[i].op, log[i].res)
  {
    var m := |log| - 1;
    if i == m {
      assert log[..i + 1] == log;
      c := Replay(start, log[..i], apply).value;
    } else {
      assert log[..m][..i] == log[..i] && log[..m][..i + 1] == log[..i + 1];
      c := ReplayAt(start, log[..m], apply, i);
    }
  }

  /** Thread t has no event after position k. */
  predicate QuietAfter<O, R>(log: seq<Event<O, R>>, k: nat, t: nat) {
    forall i :: k < i < |log| ==> log[i].t != t
  }

  lemma {:induction false} LastIsThere<O, R>(log: seq<Event<O, R>>, t: nat) returns (k: nat)
    requires Last(log, t).Some?
    ensures k < |log| && log[k] == Last(log, t).value && log[k].t == t && QuietAfter(log, k, t)
  {
    var m := |log| - 1;
    if log[m].t == t { k := m; } else { k := LastIsThere(log[..m], t); }
  }

  /** Each return has its linearization point before it and that its call before it, of the same operation. */
  lemma {:induction false} Bracketed<O, R>(log: seq<Event<O, R>>, i: nat) returns (k: nat)
    requires WellFormed(log) && i < |log| && !log[i].Called?
    ensures k < i && QuietAfter(log[..i], k, log[i].t) && log[k].t == log[i].t && log[k].op == log[i].op
    ensures log[i].Took? ==> log[k].Called?
    ensures log[i].Returned? ==> log[k] == Took(log[i].t, log[i].op, log[i].res)
  {
    if i == |log| - 1 { k := LastIsThere(log[..i], log[i].t); }
    else {
      assert log[..|log| - 1][..i] == log[..i];
      k := Bracketed(log[..|log| - 1], i);
    }
  }

  // ---------------------------------------------------------------- running to the end of a call

  /**
   From log to log' thread t has done no more than what is left of the call it is in: return, if its operation has taken
   effect, and otherwise take effect on the container as it stands and return that result.
   */
  ghost predicate Finished<C, O, R>(log: seq<Event<O, R>>, log': seq<Event<O, R>>, t: nat, c: C, c': C,
                                    apply: Sequential<C, O, R>) {
    match Last(log, t)
    case Some(Called(_, op)) =>
      |log'| == |log| + 2 && log'[|log| + 1].Returned? &&
      var res := log'[|log| + 1].res;
      log' == log + [Took(t, op, res), Returned(t, op, res)] && apply(c, op, res) == Some(c')
    case Some(Took(_, op, res)) => log' == log + [Returned(t, op, res)] && c' == c
    case _ => log' == log && c' == c
  }

  /** An event of thread t that is no call is a step towards the end of its call. */
  lemma FinishedAfter<C, O, R>(start: C, log: seq<Event<O, R>>, e: Event<O, R>, log': seq<Event<O, R>>, t: nat,
                               c: C, c1: C, c': C, apply: Sequential<C, O, R>)
    requires WellFormed(log + [e]) && e.t == t && !e.Called?
    requires Replay(start, log, apply) == Some(c) && Replay(start, log + [e], apply) == Some(c1)
    requires Finished(log + [e], log', t, c1, c', apply)
    ensures Finished(log, log', t, c, c', apply)
  {
    assert (log + [e])[..|log|] == log;
    LastAfter(log, e);
    ReplayAfter(start, log, e, apply);
  }
}
