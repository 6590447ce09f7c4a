/**
 The closeable blocking queue and its worker threads, as a step machine.

 Any number of threads call `push`, `try_pop`, `wait_and_pop` and `close`, or run `worker_loop`.
 Taking the mutex, the work done under it, releasing it and notifying are steps of their own, and
 steps of different threads interleave in any order.  Going to sleep releases the mutex in the same
 step, as a condition variable promises; a sleeper wakes when it is notified or for no reason at
 all, and then has to take the mutex again.  `woken` remembers that a consumer holding the mutex has slept.

 A thread that runs `worker_loop` calls `wait_and_pop` again and again: at `Looping` it is between two
 calls, and at `Stopped` it has left the loop.

 `pushed`, `popped`, `returned`, `processed` and `log` are history variables: the steps only append to
 them.  `log` records the calls, linearization points and returns.
 */
module CloseableQueue {
  import opened Prelude
  import opened Histories

  datatype Request = Put(v: Value) | TryPop | WaitAndPop | Close

  /** `Refused` is the exception that `push` throws. */
  datatype Answer = Accepted | Refused | Gave(res: Option<Value>) | Nothing

  type LogEvent = Event<Request, Answer>

  datatype Pc =
    | Idle
    | PushLock(v: Value)
    | PushBody(v: Value)
    | PushUnlock(v: Value, accepted: bool)
    | NotifyOne(v: Value)
    | TryLock
    | TryBody
    | TryUnlock(res: Option<Value>)
    | TryDone(res: Option<Value>)
    | WaitLock(worker: bool)
    | WaitCheck(worker: bool, woken: bool)
    | Sleeping(worker: bool)
    | Woken(worker: bool)
    | WaitPop(worker: bool, woken: bool)
    | WaitUnlock(worker: bool, res: Option<Value>)
    | Got(worker: bool, res: Option<Value>)
    | Looping
    | Stopped
    | CloseLock
    | CloseBody
    | CloseUnlock
    | NotifyAll

  datatype State = State(
    queue: seq<Value>, closed: bool, owner: Option<nat>, pcs: seq<Pc>,
    pushed: seq<Value>, popped: seq<Value>, returned: seq<Value>, processed: seq<Value>, log: seq<LogEvent>)

  /** An idle thread calls; `Wake` names the sleeper `notify_one` wakes, `Spurious` wakes a sleeper for no reason. */
  datatype Action = CallPush(v: Value) | CallTry | CallWait | Work | CallClose | Go | Wake(u: nat) | Spurious

  // ---------------------------------------------------------------- the steps

  function Goto(s: State, t: nat, pc: Pc): State
    requires t < |s.pcs|
  {
    s.(pcs := s.pcs[t := pc])
  }

  function Acquire(s: State, t: nat, pc: Pc): State
    requires t < |s.pcs|
  {
    if s.owner.None? then Goto(s.(owner := Some(t)), t, pc) else s
  }

  function Release(s: State, t: nat, pc: Pc): State
    requires t < |s.pcs|
  {
    Goto(s.(owner := None), t, pc)
  }

  function TakeFront(s: State): State
    requires s.queue != []
  {
    s.(queue := s.queue[1..], popped := s.popped + [s.queue[0]])
  }

  function Logged(s: State, e: LogEvent): State {
    s.(log := s.log + [e])
  }

  predicate Asleep(pcs: seq<Pc>) { exists u :: 0 <= u < |pcs| && pcs[u].Sleeping? }

  function Awake(pc: Pc): Pc { if pc.Sleeping? then Woken(pc.worker) else pc }

  function AllAwake(pcs: seq<Pc>): seq<Pc> {
    seq(|pcs|, u requires 0 <= u < |pcs| => Awake(pcs[u]))
  }

  function Next(s: State, t: nat, act: Action): State
    requires t < |s.pcs|
  {
    match s.pcs[t]
    case Idle => Call(s, t, act)
    case PushLock(v) => Acquire(s, t, PushBody(v))
    case PushBody(v) => StepPush(s, t, v)
    case PushUnlock(v, accepted) =>
      if accepted then Release(s, t, NotifyOne(v)) else Logged(Release(s, t, Idle), Returned(t, Put(v), Refused))
    case NotifyOne(v) => StepNotify(s, t, v, act)
    case TryLock => Acquire(s, t, TryBody)
    case TryBody => StepTake(s, t, TryPop)
    case TryUnlock(res) => Release(s, t, TryDone(res))
    case TryDone(res) => Finish(s, t, TryPop, false, res)
    case WaitLock(w) => Acquire(s, t, WaitCheck(w, false))
    case WaitCheck(w, woken) =>
      if s.closed || s.queue != [] then Goto(s, t, WaitPop(w, woken)) else Release(s, t, Sleeping(w))
    case Sleeping(w) => if act.Spurious? then Goto(s, t, Woken(w)) else s
    case Woken(w) => Acquire(s, t, WaitCheck(w, true))
    case WaitPop(w, _) => StepTake(s, t, WaitAndPop)
    case WaitUnlock(w, res) => Release(s, t, Got(w, res))
    case Got(w, res) => Finish(s, t, WaitAndPop, w, res)
    case Looping => Logged(Goto(s, t, WaitLock(true)), Called(t, WaitAndPop))
    case Stopped => s
    case CloseLock => Acquire(s, t, CloseBody)
    case CloseBody => Logged(Goto(s.(closed := true), t, CloseUnlock), Took(t, Close, Nothing))
    case CloseUnlock => Release(s, t, NotifyAll)
    case NotifyAll => Logged(s.(pcs := AllAwake(s.pcs)[t := Idle]), Returned(t, Close, Nothing))
  }

  function Call(s: State, t: nat, act: Action): State
    requires t < |s.pcs|
  {
    match act
    case CallPush(v) => Logged(Goto(s, t, PushLock(v)), Called(t, Put(v)))
    case CallTry => Logged(Goto(s, t, TryLock), Called(t, TryPop))
    case CallWait => Logged(Goto(s, t, WaitLock(false)), Called(t, WaitAndPop))
    case Work => Goto(s, t, Looping)
    case CallClose => Logged(Goto(s, t, CloseLock), Called(t, Close))
    case _ => s
  }

  /** `push` under the mutex. */
  function StepPush(s: State, t: nat, v: Value): State
    requires t < |s.pcs|
  {
    if s.closed then Logged(Goto(s, t, PushUnlock(v, false)), Took(t, Put(v), Refused))
    else Logged(Goto(s.(queue := s.queue + [v], pushed := s.pushed + [v]), t, PushUnlock(v, true)),
                Took(t, Put(v), Accepted))
  }

  function StepNotify(s: State, t: nat, v: Value, act: Action): State
    requires t < |s.pcs|
  {
    if act.Wake? && act.u < |s.pcs| && s.pcs[act.u].Sleeping? then
      Logged(Goto(Goto(s, act.u, Awake(s.pcs[act.u])), t, Idle), Returned(t, Put(v), Accepted))
    else if !Asleep(s.pcs) then Logged(Goto(s, t, Idle), Returned(t, Put(v), Accepted))
    else s
  }

  /** The end of both pops under the mutex: nothing, or the front value. */
  function StepTake(s: State, t: nat, call: Request): State
    requires t < |s.pcs| && (call.TryPop? || s.pcs[t].WaitPop?)
  {
    var res := if s.queue == [] then None else Some(s.queue[0]);
    Logged(Goto(if s.queue == [] then s else TakeFront(s), t, Unlocking(s.pcs[t], call, res)), Took(t, call, Gave(res)))
  }

  function Unlocking(pc: Pc, call: Request, res: Option<Value>): Pc
    requires call.TryPop? || pc.WaitPop?
  {
    if call.TryPop? then TryUnlock(res) else WaitUnlock(pc.worker, res)
  }

  /** A pop is over.  A worker processes its job and asks for the next one, and leaves its loop when it got none. */
  function Finish(s: State, t: nat, call: Request, worker: bool, res: Option<Value>): State
    requires t < |s.pcs|
  {
    var s1 := Logged(s, Returned(t, call, Gave(res)));
    if res.None? then Goto(s1, t, if worker then Stopped else Idle)
    else if worker then Goto(s1.(processed := s.processed + [res.value]), t, Looping)
    else Goto(s1.(returned := s.returned + [res.value]), t, Idle)
  }

  function Init(n: nat): State {
    State([], false, None, seq(n, _ => Idle), [], [], [], [], [])
  }

  datatype Choice = Choice(t: nat, act: Action)

  function Act(s: State, c: Choice): State {
    if c.t < |s.pcs| then Next(s, c.t, c.act) else s
  }

  /** The state after a schedule; entries naming no thread are skipped. */
  function Run(s: State, schedule: seq<Choice>): State
    decreases |schedule|
  {
    if schedule == [] then s else Run(Act(s, schedule[0]), schedule[1..])
  }

  // ---------------------------------------------------------------- counting

  /** A pending notification: the thread has pushed a value and is still to notify one sleeper of it. */
  predicate Notifies(pc: Pc) { (pc.PushUnlock? && pc.accepted) || pc.NotifyOne? }

  /** A woken consumer: it has slept, and has since neither taken a value nor found that there is none to take. */
  predicate WokenConsumer(pc: Pc) { pc.Woken? || ((pc.WaitCheck? || pc.WaitPop?) && pc.woken) }

  predicate Supplies(pc: Pc) { Notifies(pc) || WokenConsumer(pc) }

  function Supply(pcs: seq<Pc>, n: nat): nat
    requires n <= |pcs|
  {
    if n == 0 then 0 else Supply(pcs, n - 1) + if Supplies(pcs[n - 1]) then 1 else 0
  }

  /** The thread has taken v from the queue and not yet handed it on. */
  predicate Holds(pc: Pc, v: Value) {
    (pc.TryUnlock? || pc.TryDone? || pc.WaitUnlock? || pc.Got?) && pc.res == Some(v)
  }

  function Held(pcs: seq<Pc>, n: nat, v: Value): nat
    requires n <= |pcs|
  {
    if n == 0 then 0 else Held(pcs, n - 1, v) + if Holds(pcs[n - 1], v) then 1 else 0
  }

  lemma {:induction false} SupplyUpdate(pcs: seq<Pc>, t: nat, pc: Pc, n: nat)
    requires t < |pcs| && n <= |pcs|
    ensures Supply(pcs[t := pc], n)
            == Supply(pcs, n)
               + if t < n then (if Supplies(pc) then 1 else 0) - (if Supplies(pcs[t]) then 1 else 0) else 0
  {
    if n > 0 { SupplyUpdate(pcs, t, pc, n - 1); }
  }

  lemma {:induction false} HeldUpdate(pcs: seq<Pc>, t: nat, pc: Pc, n: nat, v: Value)
    requires t < |pcs| && n <= |pcs|
    ensures Held(pcs[t := pc], n, v)
            == Held(pcs, n, v)
               + if t < n then (if Holds(pc, v) then 1 else 0) - (if Holds(pcs[t], v) then 1 else 0) else 0
  {
    if n > 0 { HeldUpdate(pcs, t, pc, n - 1, v); }
  }

  lemma {:induction false} AwakeCounts(pcs: seq<Pc>, n: nat, v: Value)
    requires n <= |pcs|
    ensures Supply(AllAwake(pcs), n) >= Supply(pcs, n) && Held(AllAwake(pcs), n, v) == Held(pcs, n, v)
  {
    if n > 0 { AwakeCounts(pcs, n - 1, v); }
  }

  // ---------------------------------------------------------------- the invariant

  /** The program points between taking the mutex and releasing it. */
  predicate Critical(pc: Pc) {
    pc.PushBody? || pc.PushUnlock? || pc.TryBody? || pc.TryUnlock? || pc.WaitCheck? || pc.WaitPop? || pc.WaitUnlock?
    || pc.CloseBody? || pc.CloseUnlock?
  }

  /** A `wait_and_pop` that gave up. */
  predicate GaveUp(pc: Pc) {
    pc.Stopped? || ((pc.WaitUnlock? || pc.Got?) && pc.res.None?)
  }

  predicate Closing(pc: Pc) { pc.CloseUnlock? || pc.NotifyAll? }

  predicate SomeClosing(pcs: seq<Pc>) { exists u :: 0 <= u < |pcs| && Closing(pcs[u]) }

  ghost predicate Exclusive(s: State) {
    forall t :: 0 <= t < |s.pcs| ==> (Critical(s.pcs[t]) <==> s.owner == Some(t))
  }

  /** While anybody sleeps, a queued value has someone coming for it, and a closed queue is about to wake all. */
  ghost predicate NoneForgotten(s: State) {
    Asleep(s.pcs) ==> |s.queue| <= Supply(s.pcs, |s.pcs|) && (s.closed ==> SomeClosing(s.pcs))
  }

  /** Values leave in the order they came, and each taken value is in one place. */
  ghost predicate Conserved(s: State) {
    && s.pushed == s.popped + s.queue
    && forall v {:trigger OnePlace(s, v)} :: OnePlace(s, v)
  }

  predicate OnePlace(s: State, v: Value) {
    multiset(s.popped)[v] == multiset(s.returned)[v] + multiset(s.processed)[v] + Held(s.pcs, |s.pcs|, v)
  }

  ghost predicate ThreadOk(s: State, t: nat)
    requires t < |s.pcs|
  {
    && (GaveUp(s.pcs[t]) ==> s.closed && s.queue == [])
    && (s.pcs[t].WaitPop? ==> s.closed || s.queue != [])
    && (Closing(s.pcs[t]) ==> s.closed)
  }

  ghost predicate Ok(s: State) {
    && Exclusive(s) && NoneForgotten(s) && Conserved(s)
    && (s.owner.Some? ==> s.owner.value < |s.pcs|)
    && forall t {:trigger ThreadOk(s, t)} :: 0 <= t < |s.pcs| ==> ThreadOk(s, t)
  }

  type Sound = s: State | Ok(s) ghost witness Init(0)

  // ---------------------------------------------------------------- each step keeps it

  function Bit(b: bool): int { if b then 1 else 0 }

  /** Thread t moves to pc, nobody else moves, and nobody falls asleep. */
  lemma CountsMove(s: Sound, s': State, t: nat, pc: Pc)
    requires t < |s.pcs| && s'.pcs == s.pcs[t := pc] && !pc.Sleeping?
    requires s'.queue == [] || |s'.queue| - |s.queue| <= Bit(Supplies(pc)) - Bit(Supplies(s.pcs[t]))
    requires s'.closed ==> Closing(pc) || (s.closed && !Closing(s.pcs[t]))
    ensures NoneForgotten(s')
  {
    SupplyUpdate(s.pcs, t, pc, |s.pcs|);
    if Asleep(s'.pcs) {
      var u :| 0 <= u < |s'.pcs| && s'.pcs[u].Sleeping?;
      assert s.pcs[u].Sleeping? && Asleep(s.pcs);
      if s'.closed && !Closing(pc) {
        var w :| 0 <= w < |s.pcs| && Closing(s.pcs[w]);
        assert Closing(s'.pcs[w]);
      }
      assert Closing(pc) ==> Closing(s'.pcs[t]);
    }
  }

  /** What the others rely on: only the mutex holder changes the queue or `closed`, and a closed queue stays closed. */
  lemma OthersOk(s: Sound, s': State, t: nat, pc: Pc)
    requires t < |s.pcs| && s'.pcs == s.pcs[t := pc] && ThreadOk(s', t)
    requires (s'.queue == s.queue && s'.closed == s.closed) || Critical(s.pcs[t])
    requires s.closed ==> s'.closed && (s.queue == [] ==> s'.queue == [])
    requires s'.owner == s.owner || (s.owner == None && s'.owner == Some(t)) || (s.owner == Some(t) && s'.owner == None)
    requires Critical(pc) <==> s'.owner == Some(t)
    ensures Exclusive(s') && (s'.owner.Some? ==> s'.owner.value < |s'.pcs|)
    ensures forall u {:trigger ThreadOk(s', u)} :: 0 <= u < |s'.pcs| ==> ThreadOk(s', u)
  {
    forall u | 0 <= u < |s'.pcs| ensures ThreadOk(s', u) { assert u != t ==> ThreadOk(s, u); }
  }

  /** A step that moves no value. */
  lemma StillConserved(s: Sound, s': State, t: nat, pc: Pc)
    requires t < |s.pcs| && s'.pcs == s.pcs[t := pc] && forall v :: Holds(pc, v) <==> Holds(s.pcs[t], v)
    requires s'.queue == s.queue && s'.pushed == s.pushed && s'.popped == s.popped
    requires s'.returned == s.returned && s'.processed == s.processed
    ensures Conserved(s')
  {
    forall v ensures OnePlace(s', v) {
      assert OnePlace(s, v);
      HeldUpdate(s.pcs, t, pc, |s.pcs|, v);
    }
  }

  /** A step that only moves thread t, perhaps over the mutex. */
  lemma Plain(s: Sound, s': State, t: nat, pc: Pc)
    requires t < |s.pcs| && s' == s.(pcs := s.pcs[t := pc], owner := s'.owner, log := s'.log) && !pc.Sleeping?
    requires Supplies(s.pcs[t]) ==> Supplies(pc) || s.queue == []
    requires Closing(s.pcs[t]) ==> Closing(pc)
    requires forall v :: Holds(pc, v) <==> Holds(s.pcs[t], v)
    requires s'.owner == s.owner || (s.owner == None && s'.owner == Some(t)) || (s.owner == Some(t) && s'.owner == None)
    requires Critical(pc) <==> s'.owner == Some(t)
    requires ThreadOk(s', t)
    ensures Ok(s')
  {
    CountsMove(s, s', t, pc);
    OthersOk(s, s', t, pc);
    StillConserved(s, s', t, pc);
  }

  /** The log is of no account for the invariant. */
  lemma LogAside(s: State, log: seq<LogEvent>)
    requires Ok(s.(log := log))
    ensures Ok(s)
  {
    forall v ensures OnePlace(s, v) { assert OnePlace(s.(log := log), v); }
    forall u | 0 <= u < |s.pcs| ensures ThreadOk(s, u) { assert ThreadOk(s.(log := log), u); }
  }

  lemma PushKeeps(s: Sound, t: nat, v: Value)
    requires t < |s.pcs| && s.pcs[t] == PushBody(v) && !s.closed
    ensures Ok(StepPush(s, t, v))
  {
    var pc := PushUnlock(v, true);
    var s' := StepPush(s, t, v);
    CountsMove(s, s', t, pc);
    OthersOk(s, s', t, pc);
    StillConserved(s, s'.(queue := s.queue, pushed := s.pushed), t, pc);
    forall x ensures OnePlace(s', x) { assert OnePlace(s'.(queue := s.queue, pushed := s.pushed), x); }
  }

  /** The front value goes from the queue into the hands of thread t. */
  lemma TakenConserved(s: Sound, s': State, t: nat, pc: Pc)
    requires t < |s.pcs| && s.queue != [] && s' == Goto(TakeFront(s), t, pc).(log := s'.log)
    requires forall x :: Holds(pc, x) <==> x == s.queue[0]
    requires forall x :: !Holds(s.pcs[t], x)
    ensures Conserved(s')
  {
    forall x ensures OnePlace(s', x) {
      assert OnePlace(s, x);
      HeldUpdate(s.pcs, t, pc, |s.pcs|, x);
      assert multiset(s.popped + [s.queue[0]]) == multiset(s.popped) + multiset{s.queue[0]};
    }
    assert s.queue == [s.queue[0]] + s.queue[1..];
  }

  /** The mutex holder takes the front value. */
  lemma PopKeeps(s: Sound, t: nat, call: Request)
    requires t < |s.pcs| && s.queue != []
    requires (s.pcs[t].TryBody? && call.TryPop?) || (s.pcs[t].WaitPop? && call.WaitAndPop?)
    ensures Ok(StepTake(s, t, call))
  {
    var s' := StepTake(s, t, call);
    var pc := Unlocking(s.pcs[t], call, Some(s.queue[0]));
    assert ThreadOk(s, t);
    CountsMove(s, s', t, pc);
    OthersOk(s, s', t, pc);
    TakenConserved(s, s', t, pc);
  }

  lemma FinishKeeps(s: Sound, t: nat, call: Request, worker: bool, v: Value)
    requires t < |s.pcs| && s.pcs[t] == if call.TryPop? then TryDone(Some(v)) else Got(worker, Some(v))
    ensures Ok(Finish(s, t, call, worker, Some(v)))
  {
    var s' := Finish(s, t, call, worker, Some(v));
    var pc := s'.pcs[t];
    assert s'.pcs == s.pcs[t := pc] && ThreadOk(s, t);
    CountsMove(s, s', t, pc);
    OthersOk(s, s', t, pc);
    forall x ensures OnePlace(s', x) {
      assert OnePlace(s, x);
      HeldUpdate(s.pcs, t, pc, |s.pcs|, x);
      assert multiset(s.returned + [v]) == multiset(s.returned) + multiset{v};
      assert multiset(s.processed + [v]) == multiset(s.processed) + multiset{v};
    }
  }

  /** Going to sleep: the mutex holder has just seen an empty, open queue. */
  lemma SleepKeeps(s: Sound, t: nat, w: bool)
    requires t < |s.pcs| && s.pcs[t].WaitCheck? && s.pcs[t].worker == w && !s.closed && s.queue == []
    ensures Ok(Release(s, t, Sleeping(w)))
  {
    var s' := Release(s, t, Sleeping(w));
    OthersOk(s, s', t, Sleeping(w));
    StillConserved(s, s', t, Sleeping(w));
  }

  lemma CloseKeeps(s: Sound, t: nat)
    requires t < |s.pcs| && s.pcs[t].CloseBody?
    ensures Ok(Logged(Goto(s.(closed := true), t, CloseUnlock), Took(t, Close, Nothing)))
  {
    var s' := Logged(Goto(s.(closed := true), t, CloseUnlock), Took(t, Close, Nothing));
    CountsMove(s, s', t, CloseUnlock);
    OthersOk(s, s', t, CloseUnlock);
    StillConserved(s, s', t, CloseUnlock);
  }

  /** A notification may go when there is one supplier more than needed. */
  lemma NotifiedKeeps(s: Sound, t: nat)
    requires t < |s.pcs| && s.pcs[t].NotifyOne? && |s.queue| < Supply(s.pcs, |s.pcs|)
    ensures Ok(Goto(s, t, Idle))
  {
    var s' := Goto(s, t, Idle);
    OthersOk(s, s', t, Idle);
    StillConserved(s, s', t, Idle);
    SupplyUpdate(s.pcs, t, Idle, |s.pcs|);
    if Asleep(s'.pcs) {
      var w :| 0 <= w < |s'.pcs| && s'.pcs[w].Sleeping?;
      assert s.pcs[w].Sleeping?;
      if s.closed {
        var z :| 0 <= z < |s.pcs| && Closing(s.pcs[z]);
        assert Closing(s'.pcs[z]);
      }
    }
  }

  /** `notify_one` with somebody asleep: one supplier goes, another comes. */
  lemma WakeKeeps(s: Sound, t: nat, u: nat)
    requires t < |s.pcs| && u < |s.pcs| && s.pcs[t].NotifyOne? && s.pcs[u].Sleeping?
    ensures Ok(Goto(Goto(s, u, Awake(s.pcs[u])), t, Idle))
  {
    assert ThreadOk(s, u) && Asleep(s.pcs);
    Plain(s, Goto(s, u, Awake(s.pcs[u])), u, Awake(s.pcs[u]));
    SupplyUpdate(s.pcs, u, Awake(s.pcs[u]), |s.pcs|);
    NotifiedKeeps(Goto(s, u, Awake(s.pcs[u])), t);
  }

  /** `notify_one` with nobody asleep. */
  lemma NotifyNobodyKeeps(s: Sound, t: nat)
    requires t < |s.pcs| && s.pcs[t].NotifyOne? && !Asleep(s.pcs)
    ensures Ok(Goto(s, t, Idle))
  {
    var s' := Goto(s, t, Idle);
    OthersOk(s, s', t, Idle);
    StillConserved(s, s', t, Idle);
    forall u | 0 <= u < |s'.pcs| ensures !s'.pcs[u].Sleeping? { assert !s.pcs[u].Sleeping?; }
  }

  lemma NotifyAllKeeps(s: Sound, t: nat)
    requires t < |s.pcs| && s.pcs[t].NotifyAll?
    ensures Ok(Logged(s.(pcs := AllAwake(s.pcs)[t := Idle]), Returned(t, Close, Nothing)))
  {
    var s' := Logged(s.(pcs := AllAwake(s.pcs)[t := Idle]), Returned(t, Close, Nothing));
    assert !Asleep(s'.pcs);
    forall u | 0 <= u < |s'.pcs| ensures ThreadOk(s', u) { assert ThreadOk(s, u); }
    forall x ensures OnePlace(s', x) {
      assert OnePlace(s, x);
      AwakeCounts(s.pcs, |s.pcs|, x);
      HeldUpdate(AllAwake(s.pcs), t, Idle, |s.pcs|, x);
    }
  }

  /** The steps that release the mutex. */
  lemma ReleaseKeeps(s: Sound, t: nat, act: Action)
    requires t < |s.pcs|
    requires s.pcs[t].PushUnlock? || s.pcs[t].TryUnlock? || s.pcs[t].WaitUnlock? || s.pcs[t].CloseUnlock?
    ensures Ok(Next(s, t, act))
  {
    var s' := Next(s, t, act);
    assert ThreadOk(s, t);
    Plain(s, s', t, s'.pcs[t]);
  }

  /** The steps that take the mutex, start a call or wake for no reason. */
  lemma LockStepKeeps(s: Sound, t: nat, act: Action)
    requires t < |s.pcs|
    requires var pc := s.pcs[t];
      pc.Idle? || pc.PushLock? || pc.TryLock? || pc.WaitLock? || pc.Sleeping? || pc.Woken? || pc.Looping?
      || pc.Stopped? || pc.CloseLock?
    ensures Ok(Next(s, t, act))
  {
    var s' := Next(s, t, act);
    assert ThreadOk(s, t);
    if s' != s { Plain(s, s', t, s'.pcs[t]); }
  }
}
