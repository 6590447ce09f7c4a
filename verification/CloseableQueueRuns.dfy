/** What every run of the closeable queue does: first in first out, no wake-up lost, no deadlock. */
module CloseableQueueRuns {
  import opened Prelude
  import opened Histories
  import opened CloseableQueue

  /** The two steps that take a value when there is one. */
  lemma TakeStepKeeps(s: Sound, t: nat, call: Request)
    requires t < |s.pcs| && ((s.pcs[t].TryBody? && call.TryPop?) || (s.pcs[t].WaitPop? && call.WaitAndPop?))
    ensures Ok(StepTake(s, t, call))
  {
    assert ThreadOk(s, t);
    if s.queue == [] { Plain(s, StepTake(s, t, call), t, Unlocking(s.pcs[t], call, None)); }
    else { PopKeeps(s, t, call); }
  }

  /** `wait_and_pop` looks whether it has to sleep. */
  lemma CheckStepKeeps(s: Sound, t: nat, act: Action)
    requires t < |s.pcs| && s.pcs[t].WaitCheck?
    ensures Ok(Next(s, t, act))
  {
    var pc := Next(s, t, act).pcs[t];
    if s.closed || s.queue != [] { Plain(s, Next(s, t, act), t, pc); } else { SleepKeeps(s, t, s.pcs[t].worker); }
  }

  lemma PushStepKeeps(s: Sound, t: nat, v: Value)
    requires t < |s.pcs| && s.pcs[t] == PushBody(v)
    ensures Ok(StepPush(s, t, v))
  {
    if s.closed { Plain(s, StepPush(s, t, v), t, PushUnlock(v, false)); } else { PushKeeps(s, t, v); }
  }

  lemma FinishStepKeeps(s: Sound, t: nat, call: Request, worker: bool, res: Option<Value>)
    requires t < |s.pcs| && s.pcs[t] == if call.TryPop? then TryDone(res) else Got(worker, res)
    requires call.TryPop? ==> !worker
    ensures Ok(Finish(s, t, call, worker, res))
  {
    assert ThreadOk(s, t);
    if res.Some? { FinishKeeps(s, t, call, worker, res.value); }
    else { Plain(s, Finish(s, t, call, worker, res), t, if worker then Stopped else Idle); }
  }

  lemma NotifyStepKeeps(s: Sound, t: nat, v: Value, act: Action)
    requires t < |s.pcs| && s.pcs[t] == NotifyOne(v)
    ensures Ok(StepNotify(s, t, v, act))
  {
    if act.Wake? && act.u < |s.pcs| && s.pcs[act.u].Sleeping? { WakeKeeps(s, t, act.u); }
    else if !Asleep(s.pcs) { NotifyNobodyKeeps(s, t); }
    LogAside(StepNotify(s, t, v, act), s.log);
  }

  lemma StepKeeps(s: Sound, t: nat, act: Action)
    requires t < |s.pcs|
    ensures Ok(Next(s, t, act))
  {
    match s.pcs[t]
    case PushBody(v) => PushStepKeeps(s, t, v);
    case PushUnlock(_, _) => ReleaseKeeps(s, t, act);
    case NotifyOne(v) => NotifyStepKeeps(s, t, v, act);
    case TryBody => TakeStepKeeps(s, t, TryPop);
    case TryUnlock(_) => ReleaseKeeps(s, t, act);
    case TryDone(res) => FinishStepKeeps(s, t, TryPop, false, res);
    case WaitCheck(_, _) => CheckStepKeeps(s, t, act);
    case WaitPop(_, _) => TakeStepKeeps(s, t, WaitAndPop);
    case WaitUnlock(_, _) => ReleaseKeeps(s, t, act);
    case Got(w, res) => FinishStepKeeps(s, t, WaitAndPop, w, res);
    case CloseBody => CloseKeeps(s, t);
    case CloseUnlock => ReleaseKeeps(s, t, act);
    case NotifyAll => NotifyAllKeeps(s, t);
    case _ => LockStepKeeps(s, t, act);
  }

  // ---------------------------------------------------------------- linearizability

  /** The sequential queue that can be closed. */
  datatype Contents = Contents(queue: seq<Value>, closed: bool)

  const EMPTY := Contents([], false)

  function OnCloseable(c: Contents, call: Request, answer: Answer): Option<Contents> {
    match call
    case Put(v) =>
      if c.closed then (if answer == Refused then Some(c) else None)
      else if answer == Accepted then Some(c.(queue := c.queue + [v])) else None
    case Close => if answer == Nothing then Some(c.(closed := true)) else None
    case _ =>
      if c.queue != [] then (if answer == Gave(Some(c.queue[0])) then Some(c.(queue := c.queue[1..])) else None)
      else if answer == Gave(None) && (call.WaitAndPop? ==> c.closed) then Some(c) else None
  }

  /** What a thread at pc did last, for a thread inside a call. */
  function Expected(t: nat, pc: Pc): LogEvent
    requires !Outside(pc)
  {
    match pc
    case PushLock(v) => Called(t, Put(v))
    case PushBody(v) => Called(t, Put(v))
    case PushUnlock(v, accepted) => Took(t, Put(v), if accepted then Accepted else Refused)
    case NotifyOne(v) => Took(t, Put(v), Accepted)
    case TryLock => Called(t, TryPop)
    case TryBody => Called(t, TryPop)
    case TryUnlock(res) => Took(t, TryPop, Gave(res))
    case TryDone(res) => Took(t, TryPop, Gave(res))
    case WaitUnlock(_, res) => Took(t, WaitAndPop, Gave(res))
    case Got(_, res) => Took(t, WaitAndPop, Gave(res))
    case CloseLock => Called(t, Close)
    case CloseBody => Called(t, Close)
    case CloseUnlock => Took(t, Close, Nothing)
    case NotifyAll => Took(t, Close, Nothing)
    case _ => Called(t, WaitAndPop)
  }

  /** Not inside any call. */
  predicate Outside(pc: Pc) { pc.Idle? || pc.Looping? || pc.Stopped? }

  ghost predicate ThreadLogged(s: State, t: nat)
    requires t < |s.pcs|
  {
    var last := Last(s.log, t);
    if Outside(s.pcs[t]) then last.None? || last.value.Returned? else last == Some(Expected(t, s.pcs[t]))
  }

  ghost predicate LogOk(s: State) {
    && WellFormed(s.log)
    && Replay(EMPTY, s.log, OnCloseable) == Some(Contents(s.queue, s.closed))
    && forall t {:trigger ThreadLogged(s, t)} :: 0 <= t < |s.pcs| ==> ThreadLogged(s, t)
  }

  /** No thread but t does more than wake up. */
  ghost predicate WakesOnly(s: State, s': State, t: nat) {
    && |s'.pcs| == |s.pcs|
    && forall u :: 0 <= u < |s.pcs| && u != t ==> s'.pcs[u] == s.pcs[u] || s'.pcs[u] == Awake(s.pcs[u])
  }

  lemma OthersLogged(s: State, s': State, t: nat)
    requires LogOk(s) && WakesOnly(s, s', t)
    requires forall u :: 0 <= u < |s.pcs| && u != t ==> Last(s'.log, u) == Last(s.log, u)
    ensures forall u {:trigger ThreadLogged(s', u)} :: 0 <= u < |s.pcs| && u != t ==> ThreadLogged(s', u)
  {
    forall u | 0 <= u < |s.pcs| && u != t ensures ThreadLogged(s', u) { assert ThreadLogged(s, u); }
  }

  lemma Silent(s: State, s': State, t: nat)
    requires t < |s.pcs| && LogOk(s) && WakesOnly(s, s', t) && s'.log == s.log
    requires s'.queue == s.queue && s'.closed == s.closed && ThreadLogged(s', t)
    ensures LogOk(s')
  {
    OthersLogged(s, s', t);
    forall u | 0 <= u < |s'.pcs| ensures ThreadLogged(s', u) {}
  }

  lemma Speaks(s: State, s': State, t: nat, e: LogEvent)
    requires t < |s.pcs| && LogOk(s) && WakesOnly(s, s', t)
    requires s'.log == s.log + [e] && e.t == t && Follows(s.log, e)
    requires var c, c' := Contents(s.queue, s.closed), Contents(s'.queue, s'.closed);
      if e.Took? then OnCloseable(c, e.op, e.res) == Some(c') else c' == c
    requires Last(s.log + [e], t) == Some(e) ==> ThreadLogged(s', t)
    ensures LogOk(s')
  {
    LastAfter(s.log, e);
    WellFormedAfter(s.log, e);
    ReplayAfter(EMPTY, s.log, e, OnCloseable);
    OthersLogged(s, s', t);
    forall u | 0 <= u < |s'.pcs| ensures ThreadLogged(s', u) {}
  }

  lemma CallLogs(s: State, t: nat, act: Action)
    requires t < |s.pcs| && LogOk(s) && s.pcs[t].Idle?
    ensures LogOk(Call(s, t, act))
  {
    var s' := Call(s, t, act);
    assert ThreadLogged(s, t);
    match act
    case CallPush(v) => Speaks(s, s', t, Called(t, Put(v)));
    case CallTry => Speaks(s, s', t, Called(t, TryPop));
    case CallWait => Speaks(s, s', t, Called(t, WaitAndPop));
    case CallClose => Speaks(s, s', t, Called(t, Close));
    case Work => Silent(s, s', t);
    case _ =>
  }

  lemma PushLogs(s: State, t: nat, v: Value)
    requires t < |s.pcs| && LogOk(s) && s.pcs[t] == PushBody(v)
    ensures LogOk(StepPush(s, t, v))
  {
    assert ThreadLogged(s, t);
    Speaks(s, StepPush(s, t, v), t, Took(t, Put(v), if s.closed then Refused else Accepted));
  }

  lemma NotifyLogs(s: State, t: nat, v: Value, act: Action)
    requires t < |s.pcs| && LogOk(s) && s.pcs[t] == NotifyOne(v)
    ensures LogOk(StepNotify(s, t, v, act))
  {
    assert ThreadLogged(s, t);
    var s' := StepNotify(s, t, v, act);
    if s' != s { Speaks(s, s', t, Returned(t, Put(v), Accepted)); }
  }

  lemma TakeLogs(s: State, t: nat, call: Request)
    requires t < |s.pcs| && LogOk(s) && ((s.pcs[t].TryBody? && call.TryPop?) || (s.pcs[t].WaitPop? && call.WaitAndPop?))
    requires call.WaitAndPop? ==> s.closed || s.queue != []
    ensures LogOk(StepTake(s, t, call))
  {
    assert ThreadLogged(s, t);
    Speaks(s, StepTake(s, t, call), t, Took(t, call, Gave(if s.queue == [] then None else Some(s.queue[0]))));
  }

  lemma FinishLogs(s: State, t: nat, call: Request, worker: bool, res: Option<Value>)
    requires t < |s.pcs| && LogOk(s) && (call.TryPop? || call.WaitAndPop?)
    requires s.pcs[t] == if call.TryPop? then TryDone(res) else Got(worker, res)
    ensures LogOk(Finish(s, t, call, worker, res))
  {
    assert ThreadLogged(s, t);
    Speaks(s, Finish(s, t, call, worker, res), t, Returned(t, call, Gave(res)));
  }

  lemma CloseLogs(s: State, t: nat, act: Action)
    requires t < |s.pcs| && LogOk(s) && (s.pcs[t].CloseBody? || s.pcs[t].NotifyAll?)
    ensures LogOk(Next(s, t, act))
  {
    assert ThreadLogged(s, t);
    Speaks(s, Next(s, t, act), t, if s.pcs[t].CloseBody? then Took(t, Close, Nothing) else Returned(t, Close, Nothing));
  }

  lemma RefuseLogs(s: State, t: nat, act: Action)
    requires t < |s.pcs| && LogOk(s) && (s.pcs[t].PushUnlock? || s.pcs[t].Looping?)
    ensures LogOk(Next(s, t, act))
  {
    assert ThreadLogged(s, t);
    var pc, s' := s.pcs[t], Next(s, t, act);
    if pc.Looping? { Speaks(s, s', t, Called(t, WaitAndPop)); }
    else if pc.accepted { Silent(s, s', t); }
    else { Speaks(s, s', t, Returned(t, Put(pc.v), Refused)); }
  }

  lemma LockLogs(s: State, t: nat, act: Action)
    requires t < |s.pcs| && LogOk(s) && (s.pcs[t].PushLock? || s.pcs[t].TryLock? || s.pcs[t].CloseLock?)
    ensures LogOk(Next(s, t, act))
  {
    assert ThreadLogged(s, t);
    Silent(s, Next(s, t, act), t);
  }

  lemma UnlockLogs(s: State, t: nat, act: Action)
    requires t < |s.pcs| && LogOk(s) && (s.pcs[t].TryUnlock? || s.pcs[t].WaitUnlock? || s.pcs[t].CloseUnlock?)
    ensures LogOk(Next(s, t, act))
  {
    assert ThreadLogged(s, t);
    Silent(s, Next(s, t, act), t);
  }

  lemma CheckLogs(s: State, t: nat, act: Action)
    requires t < |s.pcs| && LogOk(s) && s.pcs[t].WaitCheck?
    ensures LogOk(Next(s, t, act))
  {
    assert ThreadLogged(s, t);
    Silent(s, Next(s, t, act), t);
  }

  lemma WaitLogs(s: State, t: nat, act: Action)
    requires t < |s.pcs| && LogOk(s) && (s.pcs[t].WaitLock? || s.pcs[t].Sleeping? || s.pcs[t].Woken?)
    ensures LogOk(Next(s, t, act))
  {
    assert ThreadLogged(s, t);
    Silent(s, Next(s, t, act), t);
  }

  lemma StepLogs(s: Sound, t: nat, act: Action)
    requires t < |s.pcs| && LogOk(s)
    ensures LogOk(Next(s, t, act))
  {
    match s.pcs[t]
    case Idle => CallLogs(s, t, act);
    case PushBody(v) => PushLogs(s, t, v);
    case PushUnlock(_, _) => RefuseLogs(s, t, act);
    case NotifyOne(v) => NotifyLogs(s, t, v, act);
    case TryBody => TakeLogs(s, t, TryPop);
    case TryUnlock(_) => UnlockLogs(s, t, act);
    case TryDone(res) => FinishLogs(s, t, TryPop, false, res);
    case WaitLock(_) => WaitLogs(s, t, act);
    case WaitCheck(_, _) => CheckLogs(s, t, act);
    case Sleeping(_) => WaitLogs(s, t, act);
    case Woken(_) => WaitLogs(s, t, act);
    case WaitPop(_, _) =>
      assert ThreadOk(s, t);
      TakeLogs(s, t, WaitAndPop);
    case WaitUnlock(_, _) => UnlockLogs(s, t, act);
    case Got(w, res) => FinishLogs(s, t, WaitAndPop, w, res);
    case Stopped =>
    case CloseUnlock => UnlockLogs(s, t, act);
    case Looping => RefuseLogs(s, t, act);
    case CloseBody => CloseLogs(s, t, act);
    case NotifyAll => CloseLogs(s, t, act);
    case _ => LockLogs(s, t, act);
  }

  lemma {:induction false} RunsOn(s: Sound, schedule: seq<Choice>) returns (s': Sound)
    requires LogOk(s)
    ensures s' == Run(s, schedule) && LogOk(s')
    decreases |schedule|
  {
    s' := s;
    if schedule != [] {
      var c := schedule[0];
      if c.t < |s.pcs| {
        StepKeeps(s, c.t, c.act);
        StepLogs(s, c.t, c.act);
        s' := Next(s, c.t, c.act);
      }
      s' := RunsOn(s', schedule[1..]);
    }
  }

  // ---------------------------------------------------------------- the values pushed and popped

  /** The values of the accepted pushes, in the order of the linearization points. */
  function Puts(log: seq<LogEvent>): seq<Value> {
    if log == [] then [] else Puts(log[..|log| - 1]) + PutBy(log[|log| - 1])
  }

  function PutBy(e: LogEvent): seq<Value> { if e.Took? && e.op.Put? && e.res.Accepted? then [e.op.v] else [] }

  /** The values popped, in the order of the linearization points. */
  function Takes(log: seq<LogEvent>): seq<Value> {
    if log == [] then [] else Takes(log[..|log| - 1]) + TakenBy(log[|log| - 1])
  }

  function TakenBy(e: LogEvent): seq<Value> {
    if e.Took? && e.res.Gave? && e.res.res.Some? then [e.res.res.value] else []
  }

  lemma PutsAfter(log: seq<LogEvent>, e: LogEvent)
    ensures Puts(log + [e]) == Puts(log) + PutBy(e) && Takes(log + [e]) == Takes(log) + TakenBy(e)
  {
    assert (log + [e])[..|log|] == log;
  }

  /** The step records in `pushed` and `popped` what it records in the log. */
  predicate Agrees(s: State, s': State) {
    if s'.log == s.log then s'.pushed == s.pushed && s'.popped == s.popped
    else
      && |s'.log| == |s.log| + 1 && s'.log == s.log + [s'.log[|s.log|]]
      && s'.pushed == s.pushed + PutBy(s'.log[|s.log|]) && s'.popped == s.popped + TakenBy(s'.log[|s.log|])
  }

  lemma HolderAgrees(s: State, t: nat, act: Action)
    requires t < |s.pcs| && Critical(s.pcs[t])
    ensures Agrees(s, Next(s, t, act))
  {}

  lemma CallerAgrees(s: State, t: nat, act: Action)
    requires t < |s.pcs| && (s.pcs[t].Idle? || s.pcs[t].NotifyOne?)
    ensures Agrees(s, Next(s, t, act))
  {}

  lemma StepAgrees(s: State, t: nat, act: Action)
    requires t < |s.pcs|
    ensures Agrees(s, Next(s, t, act))
  {
    if Critical(s.pcs[t]) { HolderAgrees(s, t, act); }
    else if s.pcs[t].Idle? || s.pcs[t].NotifyOne? { CallerAgrees(s, t, act); }
  }

  lemma AgreesAfter(s: State, s': State)
    requires s.pushed == Puts(s.log) && s.popped == Takes(s.log) && Agrees(s, s')
    ensures s'.pushed == Puts(s'.log) && s'.popped == Takes(s'.log)
  {
    if s'.log != s.log { PutsAfter(s.log, s'.log[|s.log|]); }
  }

  lemma {:induction false} RunAgrees(s: State, schedule: seq<Choice>)
    requires s.pushed == Puts(s.log) && s.popped == Takes(s.log)
    ensures var s' := Run(s, schedule); s'.pushed == Puts(s'.log) && s'.popped == Takes(s'.log)
    decreases |schedule|
  {
    if schedule != [] {
      var s1 := Act(s, schedule[0]);
      if schedule[0].t < |s.pcs| {
        StepAgrees(s, schedule[0].t, schedule[0].act);
        AgreesAfter(s, s1);
      }
      RunAgrees(s1, schedule[1..]);
    }
  }

  // ---------------------------------------------------------------- main results

  lemma {:induction false} NothingHeld(pcs: seq<Pc>, n: nat, v: Value)
    requires n <= |pcs| && forall u :: 0 <= u < n ==> !Holds(pcs[u], v)
    ensures Held(pcs, n, v) == 0
  {
    if n > 0 { NothingHeld(pcs, n - 1, v); }
  }

  lemma InitOk(n: nat)
    ensures Ok(Init(n))
  {
    forall v ensures OnePlace(Init(n), v) { NothingHeld(Init(n).pcs, n, v); }
  }

  /** Every run of any number of threads keeps the invariant. */
  lemma EveryRun(n: nat, schedule: seq<Choice>) returns (s: Sound)
    ensures s == Run(Init(n), schedule) && LogOk(s)
  {
    InitOk(n);
    s := RunsOn(Init(n), schedule);
  }

  /** The linearization points of any run, in order, are a history of the sequential queue and end in its contents. */
  lemma Linearizable(n: nat, schedule: seq<Choice>)
    ensures var s := Run(Init(n), schedule);
      WellFormed(s.log) && Replay(EMPTY, s.log, OnCloseable) == Some(Contents(s.queue, s.closed))
  {
    var s := EveryRun(n, schedule);
  }

  /** Every return in any run follows its own call and its own linearization point, which had the same result. */
  lemma ReturnsExplained(n: nat, schedule: seq<Choice>, i: nat) returns (j: nat, k: nat)
    requires var log := Run(Init(n), schedule).log; i < |log| && log[i].Returned?
    ensures var log := Run(Init(n), schedule).log;
      && j < k < i && log[j] == Called(log[i].t, log[i].op) && log[k] == Took(log[i].t, log[i].op, log[i].res)
      && QuietAfter(log[..k], j, log[i].t) && QuietAfter(log[..i], k, log[i].t)
  {
    var s := EveryRun(n, schedule);
    k := Bracketed(s.log, i);
    j := Bracketed(s.log, k);
  }

  /**
   What each operation of a run met when it took effect: a push is refused exactly if the queue is closed, and otherwise
   its value is the last; `try_pop` returns nothing exactly if the queue is empty, `wait_and_pop` exactly if it is empty
   and closed; every other pop returns the front value and removes it.
   */
  lemma OperationsMet(n: nat, schedule: seq<Choice>, i: nat) returns (c: Contents, c': Contents)
    requires var log := Run(Init(n), schedule).log; i < |log| && log[i].Took?
    ensures var log := Run(Init(n), schedule).log;
      Replay(EMPTY, log[..i], OnCloseable) == Some(c) && Replay(EMPTY, log[..i + 1], OnCloseable) == Some(c')
    ensures var e := Run(Init(n), schedule).log[i];
      match e.op
      case Put(v) => if c.closed then e.res == Refused && c' == c
                     else e.res == Accepted && c' == Contents(c.queue + [v], false)
      case Close => c' == Contents(c.queue, true)
      case TryPop => if c.queue == [] then e.res == Gave(None) && c' == c
                     else e.res == Gave(Some(c.queue[0])) && c' == c.(queue := c.queue[1..])
      case WaitAndPop => if c.queue == [] then c.closed && e.res == Gave(None) && c' == c
                         else e.res == Gave(Some(c.queue[0])) && c' == c.(queue := c.queue[1..])
  {
    var s := EveryRun(n, schedule);
    c := ReplayAt(EMPTY, s.log, OnCloseable, i);
    c' := Replay(EMPTY, s.log[..i + 1], OnCloseable).value;
  }

  /**
   Values leave in the order they were pushed: those popped are a prefix of those of the accepted pushes, and the rest
   is queued.  At most one thread is inside the mutex.
   */
  lemma FirstInFirstOut(n: nat, schedule: seq<Choice>)
    ensures var s := Run(Init(n), schedule);
      && Takes(s.log) <= Puts(s.log) && Puts(s.log)[|Takes(s.log)|..] == s.queue
      && s.pushed == Puts(s.log) && s.popped == Takes(s.log)
      && forall t, u :: 0 <= t < |s.pcs| && 0 <= u < |s.pcs| && Critical(s.pcs[t]) && Critical(s.pcs[u]) ==> t == u
  {
    var s := EveryRun(n, schedule);
    RunAgrees(Init(n), schedule);
  }

  /**
   While anybody sleeps, each queued value has a pending notification or a woken consumer to itself, and a
   closed queue has a notify-all to come.
   */
  lemma SleepersAreSupplied(n: nat, schedule: seq<Choice>)
    requires Asleep(Run(Init(n), schedule).pcs)
    ensures var s := Run(Init(n), schedule);
      |s.queue| <= Supply(s.pcs, |s.pcs|) && (s.closed ==> SomeClosing(s.pcs))
  {
    var s := EveryRun(n, schedule);
  }

  /** A `wait_and_pop` that returns nothing found the queue closed and drained, and so it stays. */
  lemma GivesUpOnlyWhenDrained(n: nat, before: seq<Choice>, t: nat, after: seq<Choice>)
    requires var s := Run(Init(n), before); t < |s.pcs| && GaveUp(s.pcs[t])
    ensures var s := Run(Init(n), before); s.closed && s.popped == s.pushed
    ensures Run(Run(Init(n), before), after).pushed == Run(Init(n), before).pushed
  {
    var s := EveryRun(n, before);
    assert ThreadOk(s, t);
    StaysDrained(s, after);
  }

  lemma StaysDrainedStep(s: State, c: Choice)
    requires s.closed && s.queue == []
    ensures var s' := Act(s, c); s'.closed && s'.queue == [] && s'.pushed == s.pushed
  {
  }

  lemma {:induction false} StaysDrained(s: State, schedule: seq<Choice>)
    requires s.closed && s.queue == []
    ensures var s' := Run(s, schedule); s'.closed && s'.queue == [] && s'.pushed == s.pushed
    decreases |schedule|
  {
    if schedule != [] {
      StaysDrainedStep(s, schedule[0]);
      StaysDrained(Act(s, schedule[0]), schedule[1..]);
    }
  }

  /** Not inside any call, or stopped, or asleep. */
  predicate AtRest(pc: Pc) { pc.Idle? || pc.Stopped? || pc.Sleeping? }

  /** No wake-up is lost: with every thread at rest, a sleeper means that there is nothing to take and more may come. */
  lemma NoLostWakeUp(n: nat, schedule: seq<Choice>)
    requires var s := Run(Init(n), schedule); Asleep(s.pcs) && forall t :: 0 <= t < |s.pcs| ==> AtRest(s.pcs[t])
    ensures var s := Run(Init(n), schedule); s.queue == [] && !s.closed
  {
    var s := EveryRun(n, schedule);
    NoSupply(s.pcs, |s.pcs|);
  }

  lemma {:induction false} NoSupply(pcs: seq<Pc>, n: nat)
    requires n <= |pcs| && forall t :: 0 <= t < n ==> AtRest(pcs[t])
    ensures Supply(pcs, n) == 0
  {
    if n > 0 { NoSupply(pcs, n - 1); }
  }

  /** The step takes thread u to another program point. */
  predicate GoesOn(s: State, u: nat, act: Action)
    requires u < |s.pcs|
  {
    var s' := Next(s, u, act);
    !act.Spurious? && |s'.pcs| == |s.pcs| && s'.pcs[u] != s.pcs[u]
  }

  /** The holder of the mutex moves on. */
  lemma HolderMovesOn(s: State, u: nat, act: Action)
    requires u < |s.pcs| && Critical(s.pcs[u]) && !act.Spurious?
    ensures GoesOn(s, u, act)
  {
  }

  /** Any thread inside a call moves on when the mutex is free; `notify_one` wakes a sleeper if there is one. */
  lemma MovesOn(s: State, u: nat, act: Action)
    requires u < |s.pcs| && !AtRest(s.pcs[u]) && !Critical(s.pcs[u]) && s.owner.None? && !act.Spurious?
    requires s.pcs[u].NotifyOne? && Asleep(s.pcs) ==> act.Wake? && act.u < |s.pcs| && s.pcs[act.u].Sleeping?
    ensures GoesOn(s, u, act)
  {
  }

  /** No deadlock: while some thread does not rest, some thread has a step that is not a spurious wake-up. */
  lemma SomebodyCanStep(n: nat, schedule: seq<Choice>) returns (u: nat, act: Action)
    requires var s := Run(Init(n), schedule); exists t :: 0 <= t < |s.pcs| && !AtRest(s.pcs[t])
    ensures var s := Run(Init(n), schedule); u < |s.pcs| && !AtRest(s.pcs[u]) && GoesOn(s, u, act)
  {
    var s := EveryRun(n, schedule);
    u :| 0 <= u < |s.pcs| && !AtRest(s.pcs[u]);
    act := Go;
    if s.owner.Some? {
      u := s.owner.value;
      HolderMovesOn(s, u, act);
    } else {
      if s.pcs[u].NotifyOne? && Asleep(s.pcs) {
        var w: nat :| w < |s.pcs| && s.pcs[w].Sleeping?;
        act := Wake(w);
      }
      MovesOn(s, u, act);
    }
  }

  /** With all threads done and a worker stopped, every value pushed was handed out or processed exactly once. */
  lemma EverythingProcessed(n: nat, schedule: seq<Choice>)
    requires var s := Run(Init(n), schedule);
      && (forall t :: 0 <= t < |s.pcs| ==> s.pcs[t].Idle? || s.pcs[t].Stopped?)
      && exists t :: 0 <= t < |s.pcs| && s.pcs[t].Stopped?
    ensures var s := Run(Init(n), schedule);
      s.closed && multiset(s.pushed) == multiset(s.returned) + multiset(s.processed)
  {
    var s := EveryRun(n, schedule);
    var t :| 0 <= t < |s.pcs| && s.pcs[t].Stopped?;
    assert ThreadOk(s, t);
    assert s.popped == s.pushed;
    forall v ensures multiset(s.pushed)[v] == multiset(s.returned)[v] + multiset(s.processed)[v] {
      assert OnePlace(s, v);
      NothingHeld(s.pcs, |s.pcs|, v);
    }
  }

  // ---------------------------------------------------------------- workers

  /** The thread runs `worker_loop` or has left it. */
  predicate IsWorker(pc: Pc) {
    || pc.Looping? || pc.Stopped?
    || ((pc.WaitLock? || pc.WaitCheck? || pc.Sleeping? || pc.Woken? || pc.WaitPop? || pc.WaitUnlock? || pc.Got?)
        && pc.worker)
  }

  lemma NotifyWakes(s: State, t: nat, act: Action)
    requires t < |s.pcs| && (s.pcs[t].NotifyOne? || s.pcs[t].NotifyAll?)
    ensures WakesOnly(s, Next(s, t, act), t)
  {}

  lemma HolderWakesNobody(s: State, t: nat, act: Action)
    requires t < |s.pcs| && Critical(s.pcs[t])
    ensures WakesOnly(s, Next(s, t, act), t)
  {}

  lemma OthersWake(s: State, t: nat, act: Action)
    requires t < |s.pcs|
    ensures WakesOnly(s, Next(s, t, act), t)
  {
    if s.pcs[t].NotifyOne? || s.pcs[t].NotifyAll? { NotifyWakes(s, t, act); }
    else if Critical(s.pcs[t]) { HolderWakesNobody(s, t, act); }
  }

  lemma WaiterStays(s: State, t: nat, act: Action)
    requires t < |s.pcs| && IsWorker(s.pcs[t])
    requires var pc := s.pcs[t]; pc.Looping? || pc.Stopped? || pc.Got? || pc.WaitPop? || pc.WaitUnlock?
    ensures |Next(s, t, act).pcs| == |s.pcs| && IsWorker(Next(s, t, act).pcs[t])
  {}

  lemma LookerStays(s: State, t: nat, act: Action)
    requires t < |s.pcs| && IsWorker(s.pcs[t])
    requires var pc := s.pcs[t]; pc.WaitLock? || pc.WaitCheck? || pc.Sleeping? || pc.Woken?
    ensures |Next(s, t, act).pcs| == |s.pcs| && IsWorker(Next(s, t, act).pcs[t])
  {}

  lemma StaysWorker(s: State, c: Choice, t: nat)
    requires t < |s.pcs| && IsWorker(s.pcs[t])
    ensures |Act(s, c).pcs| == |s.pcs| && IsWorker(Act(s, c).pcs[t])
  {
    if c.t != t {
      if c.t < |s.pcs| { OthersWake(s, c.t, c.act); }
    } else if s.pcs[t].WaitLock? || s.pcs[t].WaitCheck? || s.pcs[t].Sleeping? || s.pcs[t].Woken? {
      LookerStays(s, t, c.act);
    } else {
      WaiterStays(s, t, c.act);
    }
  }

  lemma {:induction false} WorkersStay(s: State, schedule: seq<Choice>, t: nat)
    requires t < |s.pcs| && IsWorker(s.pcs[t])
    ensures t < |Run(s, schedule).pcs| && IsWorker(Run(s, schedule).pcs[t])
    decreases |schedule|
  {
    if schedule != [] {
      StaysWorker(s, schedule[0], t);
      WorkersStay(Act(s, schedule[0]), schedule[1..], t);
    }
  }

  lemma {:induction false} RunAppend(s: State, first: seq<Choice>, second: seq<Choice>)
    ensures Run(s, first + second) == Run(Run(s, first), second)
    decreases |first|
  {
    if first == [] {
      assert first + second == second;
    } else {
      assert (first + second)[0] == first[0] && (first + second)[1..] == first[1..] + second;
      RunAppend(Act(s, first[0]), first[1..], second);
    }
  }

  /** A worker stays a worker for the rest of the run, and leaves its loop only with the queue closed and drained. */
  lemma WorkerLeavesWhenDrained(n: nat, before: seq<Choice>, t: nat, after: seq<Choice>) returns (s: State, s': Sound)
    ensures s == Run(Init(n), before) && s' == Run(s, after)
    ensures t < |s.pcs| && IsWorker(s.pcs[t]) ==>
      && t < |s'.pcs| && IsWorker(s'.pcs[t])
      && (s'.pcs[t].Stopped? ==> s'.closed && s'.queue == [] && s'.popped == s'.pushed)
  {
    s := Run(Init(n), before);
    RunAppend(Init(n), before, after);
    s' := EveryRun(n, before + after);
    if t < |s.pcs| && IsWorker(s.pcs[t]) {
      WorkersStay(s, after, t);
      assert ThreadOk(s', t);
    }
  }

  // ---------------------------------------------------------------- a thread that runs alone ends its call

  /** k steps of thread t with one action. */
  function Goes(t: nat, act: Action, k: nat): seq<Choice> {
    if k == 0 then [] else [Choice(t, act)] + Goes(t, act, k - 1)
  }

  lemma RunGo(s: State, t: nat, act: Action, k: nat)
    requires t < |s.pcs| && k > 0
    ensures Run(s, Goes(t, act, k)) == Run(Next(s, t, act), Goes(t, act, k - 1))
  {
    assert Goes(t, act, k)[1..] == Goes(t, act, k - 1);
  }

  /** No other thread holds the mutex. */
  predicate Unblocked(s: State, t: nat) { s.owner.None? || s.owner == Some(t) }

  /** A `wait_and_pop` that is asleep, or has still to look and will find the queue empty and open. */
  predicate WillSleep(s: State, pc: Pc) {
    pc.Sleeping? || ((pc.WaitLock? || pc.Woken? || pc.WaitCheck?) && !s.closed && s.queue == [])
  }

  /** How many steps of its own a thread at pc is from the end of its call, or from sleep, if nobody else moves. */
  function StepsLeft(s: State, pc: Pc): nat {
    match pc
    case PushLock(_) => if s.closed then 3 else 4
    case PushBody(_) => if s.closed then 2 else 3
    case PushUnlock(_, accepted) => if accepted then 2 else 1
    case NotifyOne(_) => 1
    case TryLock => 4
    case TryBody => 3
    case TryUnlock(_) => 2
    case TryDone(_) => 1
    case WaitLock(_) => if WillSleep(s, pc) then 2 else 5
    case Woken(_) => if WillSleep(s, pc) then 2 else 5
    case WaitCheck(_, _) => if WillSleep(s, pc) then 1 else 4
    case WaitPop(_, _) => 3
    case WaitUnlock(_, _) => 2
    case Got(_, _) => 1
    case CloseLock => 4
    case CloseBody => 3
    case CloseUnlock => 2
    case NotifyAll => 1
    case _ => 0
  }

  /** The action names a sleeper to wake, if there is one. */
  predicate Named(s: State, act: Action) {
    !act.Spurious? && (Asleep(s.pcs) ==> act.Wake? && act.u < |s.pcs| && s.pcs[act.u].Sleeping?)
  }

  ghost predicate GetsOn(s: State, s': State, t: nat, act: Action)
    requires t < |s.pcs|
  {
    && WakesOnly(s, s', t) && Unblocked(s', t)
    && StepsLeft(s', s'.pcs[t]) == StepsLeft(s, s.pcs[t]) - 1
    && (StepsLeft(s', s'.pcs[t]) > 0 ==> Named(s', act))
    && (WillSleep(s', s'.pcs[t]) <==> WillSleep(s, s.pcs[t]))
    && (WillSleep(s, s.pcs[t]) ==> s'.log == s.log && s'.queue == s.queue && s'.closed == s.closed)
    && (IsWorker(s'.pcs[t]) <==> IsWorker(s.pcs[t]))
    && (s'.log == s.log || RecordsOne(s.log, s'.log, t))
  }

  predicate RecordsOne(log: seq<LogEvent>, log': seq<LogEvent>, t: nat) {
    |log'| == |log| + 1 && log' == log + [log'[|log|]] && log'[|log|].t == t && !log'[|log|].Called?
  }

  /** The thread moves on, and nobody falls asleep. */
  lemma StaysNamed(s: State, s': State, t: nat, act: Action)
    requires t < |s.pcs| == |s'.pcs| && Named(s, act) && s'.pcs == s.pcs[t := s'.pcs[t]]
    requires !s'.pcs[t].Sleeping? && !s.pcs[t].Sleeping?
    ensures Named(s', act)
  {
    if Asleep(s'.pcs) {
      var u :| 0 <= u < |s'.pcs| && s'.pcs[u].Sleeping?;
      assert s.pcs[u].Sleeping?;
    }
  }

  lemma PushGetsOn(s: State, t: nat, act: Action)
    requires t < |s.pcs| && Unblocked(s, t) && Named(s, act) && (s.pcs[t].PushLock? ==> s.owner.None?)
    requires var pc := s.pcs[t]; pc.PushLock? || pc.PushBody? || pc.PushUnlock?
    ensures GetsOn(s, Next(s, t, act), t, act)
  {
    StaysNamed(s, Next(s, t, act), t, act);
  }

  lemma NotifyGetsOn(s: State, t: nat, act: Action)
    requires t < |s.pcs| && Unblocked(s, t) && Named(s, act) && s.pcs[t].NotifyOne?
    ensures GetsOn(s, Next(s, t, act), t, act)
  {}

  lemma TryGetsOn(s: State, t: nat, act: Action)
    requires t < |s.pcs| && Unblocked(s, t) && Named(s, act) && (s.pcs[t].TryLock? ==> s.owner.None?)
    requires var pc := s.pcs[t]; pc.TryLock? || pc.TryBody? || pc.TryUnlock?
    ensures GetsOn(s, Next(s, t, act), t, act)
  {
    StaysNamed(s, Next(s, t, act), t, act);
  }

  lemma LookGetsOn(s: State, t: nat, act: Action)
    requires t < |s.pcs| && Unblocked(s, t) && Named(s, act) && (!s.pcs[t].WaitCheck? ==> s.owner.None?)
    requires var pc := s.pcs[t]; pc.WaitLock? || pc.Woken? || pc.WaitCheck?
    ensures GetsOn(s, Next(s, t, act), t, act)
  {
    if !Next(s, t, act).pcs[t].Sleeping? { StaysNamed(s, Next(s, t, act), t, act); }
  }

  lemma TakeGetsOn(s: State, t: nat, act: Action)
    requires t < |s.pcs| && Unblocked(s, t) && Named(s, act) && (s.pcs[t].WaitPop? || s.pcs[t].WaitUnlock?)
    ensures GetsOn(s, Next(s, t, act), t, act)
  {
    StaysNamed(s, Next(s, t, act), t, act);
  }

  lemma FinishGetsOn(s: State, t: nat, act: Action)
    requires t < |s.pcs| && Unblocked(s, t) && Named(s, act) && (s.pcs[t].TryDone? || s.pcs[t].Got?)
    ensures GetsOn(s, Next(s, t, act), t, act)
  {}

  lemma CloseGetsOn(s: State, t: nat, act: Action)
    requires t < |s.pcs| && Unblocked(s, t) && Named(s, act) && (s.pcs[t].CloseLock? ==> s.owner.None?)
    requires var pc := s.pcs[t]; pc.CloseLock? || pc.CloseBody? || pc.CloseUnlock? || pc.NotifyAll?
    ensures GetsOn(s, Next(s, t, act), t, act)
  {
    if !s.pcs[t].NotifyAll? { StaysNamed(s, Next(s, t, act), t, act); }
  }

  lemma AllGetOn(s: Sound, t: nat, act: Action)
    requires t < |s.pcs| && Unblocked(s, t) && Named(s, act) && StepsLeft(s, s.pcs[t]) > 0
    ensures GetsOn(s, Next(s, t, act), t, act)
  {
    assert !Critical(s.pcs[t]) ==> s.owner.None?;
    match s.pcs[t]
    case PushLock(_) => PushGetsOn(s, t, act);
    case PushBody(_) => PushGetsOn(s, t, act);
    case PushUnlock(_, _) => PushGetsOn(s, t, act);
    case NotifyOne(_) => NotifyGetsOn(s, t, act);
    case TryLock => TryGetsOn(s, t, act);
    case TryBody => TryGetsOn(s, t, act);
    case TryUnlock(_) => TryGetsOn(s, t, act);
    case TryDone(_) => FinishGetsOn(s, t, act);
    case WaitLock(_) => LookGetsOn(s, t, act);
    case Woken(_) => LookGetsOn(s, t, act);
    case WaitCheck(_, _) => LookGetsOn(s, t, act);
    case WaitPop(_, _) => TakeGetsOn(s, t, act);
    case WaitUnlock(_, _) => TakeGetsOn(s, t, act);
    case Got(_, _) => FinishGetsOn(s, t, act);
    case _ => CloseGetsOn(s, t, act);
  }

  /** How the call of thread t ends if it runs alone; other threads do no more than wake up. */
  ghost predicate EndsAs(s: State, s': State, t: nat)
    requires t < |s.pcs|
  {
    && WakesOnly(s, s', t) && s'.owner.None? && (IsWorker(s'.pcs[t]) <==> IsWorker(s.pcs[t]))
    && if WillSleep(s, s.pcs[t]) then
         s'.pcs[t].Sleeping? && s'.log == s.log && s'.queue == s.queue && s'.closed == s.closed
       else
         Outside(s'.pcs[t])
         && Finished(s.log, s'.log, t, Contents(s.queue, s.closed), Contents(s'.queue, s'.closed), OnCloseable)
  }

  lemma EndsAtOnce(s: Sound, t: nat)
    requires t < |s.pcs| && LogOk(s) && Unblocked(s, t) && StepsLeft(s, s.pcs[t]) == 0
    ensures EndsAs(s, s, t)
  {
    assert ThreadLogged(s, t);
  }

  lemma EndsAfter(s: State, s1: State, s': State, t: nat, act: Action)
    requires t < |s.pcs| && GetsOn(s, s1, t, act) && LogOk(s) && LogOk(s1) && EndsAs(s1, s', t)
    ensures EndsAs(s, s', t)
  {
    if s1.log != s.log && !WillSleep(s, s.pcs[t]) {
      FinishedAfter(EMPTY, s.log, s1.log[|s.log|], s'.log, t, Contents(s.queue, s.closed),
                    Contents(s1.queue, s1.closed), Contents(s'.queue, s'.closed), OnCloseable);
    }
  }

  lemma {:induction false} EndsAlone(s: Sound, t: nat, act: Action, k: nat) returns (s': Sound)
    requires t < |s.pcs| && LogOk(s) && Unblocked(s, t) && k == StepsLeft(s, s.pcs[t]) && (k > 0 ==> Named(s, act))
    ensures s' == Run(s, Goes(t, act, k)) && EndsAs(s, s', t)
    decreases k
  {
    if k == 0 {
      EndsAtOnce(s, t);
      s' := s;
    } else {
      StepKeeps(s, t, act);
      StepLogs(s, t, act);
      AllGetOn(s, t, act);
      RunGo(s, t, act, k);
      var s1: Sound := Next(s, t, act);
      s' := EndsAlone(s1, t, act, k - 1);
      EndsAfter(s, s1, s', t, act);
    }
  }

  lemma AtMostFive(s: State, pc: Pc)
    ensures StepsLeft(s, pc) <= 5
  {}

  /**
   From every reachable state in which no other thread holds the mutex, a thread that runs alone ends its call within
   five steps, wherever in it it was, unless it is a `wait_and_pop` that finds the queue empty and open: that one sleeps
   and has changed nothing.  What has not yet taken effect takes effect on the queue as it was when the thread began to
   run alone.  A worker is then between two calls, or has left its loop.
   */
  lemma AloneItEnds(n: nat, schedule: seq<Choice>, t: nat, act: Action) returns (s: Sound, k: nat)
    ensures s == Run(Init(n), schedule) && k <= 5
    ensures t < |s.pcs| && Unblocked(s, t) && Named(s, act) ==> EndsAs(s, Run(s, Goes(t, act, k)), t)
  {
    s := EveryRun(n, schedule);
    k := 0;
    if t < |s.pcs| && Unblocked(s, t) && Named(s, act) {
      k := StepsLeft(s, s.pcs[t]);
      AtMostFive(s, s.pcs[t]);
      var _ := EndsAlone(s, t, act, k);
    }
  }

  // ---------------------------------------------------------------- a worker that runs alone

  lemma Overwritten(pcs: seq<Pc>, t: nat, first: Pc, second: Pc)
    requires t < |pcs|
    ensures pcs[t := first][t := second] == pcs[t := second]
  {}

  /** The call of `wait_and_pop` up to the look at the queue. */
  lemma LooksAlone(s: State, t: nat, k: nat)
    requires t < |s.pcs| && s.pcs[t].Looping? && s.owner.None? && k >= 2
    ensures Run(s, Goes(t, Go, k))
            == Run(s.(pcs := s.pcs[t := WaitCheck(true, false)], owner := Some(t),
                      log := s.log + [Called(t, WaitAndPop)]), Goes(t, Go, k - 2))
  {
    var s1 := Next(s, t, Go);
    RunGo(s, t, Go, k);
    RunGo(s1, t, Go, k - 1);
    Overwritten(s.pcs, t, WaitLock(true), WaitCheck(true, false));
  }

  /** What taking the front, or seeing that there is none, does. */
  function Taken(s: State, t: nat): State {
    if s.queue == [] then s.(log := s.log + [Took(t, WaitAndPop, Gave(None))])
    else TakeFront(s).(log := s.log + [Took(t, WaitAndPop, Gave(Some(s.queue[0])))])
  }

  function Front(queue: seq<Value>): Option<Value> { if queue == [] then None else Some(queue[0]) }

  lemma TakesAlone(s: State, t: nat, k: nat)
    requires t < |s.pcs| && s.pcs[t] == WaitCheck(true, false) && (s.closed || s.queue != []) && k >= 3
    ensures Run(s, Goes(t, Go, k))
            == Run(Taken(s, t).(pcs := s.pcs[t := Got(true, Front(s.queue))], owner := None), Goes(t, Go, k - 3))
  {
    var s1 := s.(pcs := s.pcs[t := WaitPop(true, false)]);
    RunGo(s, t, Go, k);
    RunGo(s1, t, Go, k - 1);
    Overwritten(s.pcs, t, WaitPop(true, false), WaitUnlock(true, Front(s.queue)));
    var s2 := Taken(s, t).(pcs := s.pcs[t := WaitUnlock(true, Front(s.queue))]);
    assert Next(s1, t, Go) == s2;
    RunGo(s2, t, Go, k - 2);
    Overwritten(s.pcs, t, WaitUnlock(true, Front(s.queue)), Got(true, Front(s.queue)));
  }

  /** One round of the loop of a worker that runs alone and finds a job. */
  lemma OneJob(s: State, t: nat, k: nat) returns (s': State)
    requires t < |s.pcs| && s.pcs[t].Looping? && s.owner.None? && s.queue != [] && k >= 6
    ensures Run(s, Goes(t, Go, k)) == Run(s', Goes(t, Go, k - 6))
    ensures s'.pcs == s.pcs && s'.owner.None? && s'.queue == s.queue[1..] && s'.closed == s.closed
    ensures s'.processed == s.processed + [s.queue[0]] && s'.returned == s.returned
  {
    LooksAlone(s, t, k);
    var s1 := s.(pcs := s.pcs[t := WaitCheck(true, false)], owner := Some(t), log := s.log + [Called(t, WaitAndPop)]);
    TakesAlone(s1, t, k - 2);
    Overwritten(s.pcs, t, WaitCheck(true, false), Got(true, Some(s.queue[0])));
    var s2 := Taken(s1, t).(pcs := s.pcs[t := Got(true, Some(s.queue[0]))], owner := None);
    RunGo(s2, t, Go, k - 5);
    s' := Next(s2, t, Go);
    Overwritten(s.pcs, t, Got(true, Some(s.queue[0])), Looping);
  }

  /** The last round: the worker stops or goes to sleep. */
  lemma NoJob(s: State, t: nat, k: nat) returns (s': State)
    requires t < |s.pcs| && s.pcs[t].Looping? && s.owner.None? && s.queue == [] && k == (if s.closed then 6 else 3)
    ensures Run(s, Goes(t, Go, k)) == s'
    ensures s'.pcs == s.pcs[t := if s.closed then Stopped else Sleeping(true)]
    ensures s'.queue == [] && s'.closed == s.closed && s'.processed == s.processed && s'.returned == s.returned
  {
    LooksAlone(s, t, k);
    var s1 := s.(pcs := s.pcs[t := WaitCheck(true, false)], owner := Some(t), log := s.log + [Called(t, WaitAndPop)]);
    if s.closed {
      TakesAlone(s1, t, k - 2);
      Overwritten(s.pcs, t, WaitCheck(true, false), Got(true, None));
      var s2 := Taken(s1, t).(pcs := s.pcs[t := Got(true, None)], owner := None);
      RunGo(s2, t, Go, k - 5);
      s' := Next(s2, t, Go);
      Overwritten(s.pcs, t, Got(true, None), Stopped);
    } else {
      RunGo(s1, t, Go, k - 2);
      s' := Next(s1, t, Go);
      Overwritten(s.pcs, t, WaitCheck(true, false), Sleeping(true));
    }
  }

  lemma FirstAndRest(done: seq<Value>, queue: seq<Value>)
    requires queue != []
    ensures done + [queue[0]] + queue[1..] == done + queue
  {}

  /**
   A worker that runs alone from between two calls processes every queued job in order, and then stops, if the queue is
   closed, or goes to sleep.
   */
  lemma {:induction false} WorkerAloneDrains(s: State, t: nat, k: nat) returns (s': State)
    requires t < |s.pcs| && s.pcs[t].Looping? && s.owner.None?
    requires k == 6 * |s.queue| + if s.closed then 6 else 3
    ensures s' == Run(s, Goes(t, Go, k))
    ensures s'.queue == [] && s'.processed == s.processed + s.queue && s'.returned == s.returned
    ensures s'.pcs == s.pcs[t := if s.closed then Stopped else Sleeping(true)] && s'.closed == s.closed
    decreases |s.queue|
  {
    if s.queue == [] {
      s' := NoJob(s, t, k);
    } else {
      var s1 := OneJob(s, t, k);
      s' := WorkerAloneDrains(s1, t, k - 6);
      FirstAndRest(s.processed, s.queue);
    }
  }
}
