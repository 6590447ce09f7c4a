/** What every run of the two-lock queue does: it is linearizable, race-free and free of deadlock. */
module TwoLockQueueRuns {
  import opened Prelude
  import opened Histories
  import opened TwoLockQueue

  lemma StepKeeps(s: Sound, t: nat, act: Action) returns (s': Sound)
    requires t < |s.pcs|
    ensures s' == Next(s, t, act)
  {
    var pc := s.pcs[t];
    if pc.Idle? { s' := IdleKeeps(s, t, act); }
    else if pc.Asleep? { s' := AsleepKeeps(s, t, act); }
    else {
      NextPlain(s, t, act);
      if InHead(pc) { s' := FindStepKeeps(s, t); }
      else if pc.PopLock? { s' := PopLockKeeps(s, t); }
      else if pc.ReadData? { s' := ReadDataKeeps(s, t); }
      else if pc.Free? { s' := FreeKeeps(s, t); }
      else if pc.Done? { s' := DoneKeeps(s, t); }
      else { s' := PushStepKeeps(s, t); }
    }
  }

  // ---------------------------------------------------------------- linearizability

  /** The sequential queue. */
  function OnQueue(queue: seq<Value>, op: Op, res: Option<Value>): Option<seq<Value>> {
    match op
    case Push(v) => if res.None? then Some(queue + [v]) else None
    case Pop =>
      if queue == [] then (if res.None? then Some([]) else None)
      else if res == Some(queue[0]) then Some(queue[1..]) else None
  }

  /** The abstract queue: the data of all linked nodes but the dummy. */
  ghost function Queue(s: State): seq<Value>
    requires ChainOk(s)
  {
    seq(|s.chain| - 1, i requires 0 <= i < |s.chain| - 1 => assert LinkAt(s, i); s.heap[s.chain[i]].data.value)
  }

  /** What a thread at pc did last, for a thread that is not idle. */
  function Expected(s: State, t: nat, pc: Pc): OpEvent
    requires !pc.Idle? && s.chain != []
  {
    match pc
    case PushLock(_, v) => Called(t, Push(v))
    case PushData(_, v) => Called(t, Push(v))
    case PushNext(_, v) => Called(t, Push(v))
    case PushTail(_, v) => Called(t, Push(v))
    case PushUnlock(v) => Took(t, Push(v), None)
    case TailUnlock(m, seen) => if !m.wait && seen == s.chain[0] then Took(t, Pop, None) else Called(t, Pop)
    case Compare(m, seen) => if !m.wait && seen == s.chain[0] then Took(t, Pop, None) else Called(t, Pop)
    case GiveUp => Took(t, Pop, None)
    case PopUnlock(_, _, gone) => Took(t, Pop, DataAt(s, gone))
    case ReadData(_, gone) => Took(t, Pop, DataAt(s, gone))
    case Free(_, res, _) => Took(t, Pop, res)
    case Done(_, op, res) => Took(t, op, res)
    case _ => Called(t, Pop)
  }

  function DataAt(s: State, a: Addr): Option<Value> {
    if a in s.heap then s.heap[a].data else None
  }

  ghost predicate ThreadLogged(s: State, t: nat)
    requires t < |s.pcs| && s.chain != []
  {
    var pc := s.pcs[t];
    var last := Last(s.log, t);
    if pc.Idle? then last.None? || last.value.Returned?
    else
      && (pc.TailUnlock? || pc.Compare? ==> s.headLock == Some(t))
      && (pc.PopUnlock? || pc.ReadData? ==> pc.gone in s.phase && s.phase[pc.gone] == Unlinked(t))
      && last == Some(Expected(s, t, pc))
  }

  ghost predicate LogOk(s: State) {
    && ChainOk(s)
    && WellFormed(s.log)
    && Replay([], s.log, OnQueue) == Some(Queue(s))
    && forall t :: 0 <= t < |s.pcs| ==> ThreadLogged(s, t)
  }

  /** Thread t disturbs neither the head while another owns it nor another's unlinked node. */
  ghost predicate Spares(s: State, s': State, t: nat)
    requires t < |s.pcs| && s.chain != []
  {
    && |s'.pcs| == |s.pcs| && s'.pcs == s.pcs[t := s'.pcs[t]]
    && s'.chain != [] && (s'.chain[0] == s.chain[0] || s.headLock == Some(t))
    && LocksOf(s.headLock, s'.headLock, t)
    && forall a :: a in s.phase && s.phase[a].Unlinked? && s.phase[a].owner != t ==> SameNode(s, s', a)
  }

  ghost predicate SameNode(s: State, s': State, a: Addr) {
    DataAt(s', a) == DataAt(s, a) && a in s.phase && a in s'.phase && s'.phase[a] == s.phase[a]
  }

  lemma OthersLogged(s: State, s': State, t: nat)
    requires t < |s.pcs| && LogOk(s) && Spares(s, s', t)
    requires s'.log == s.log || (|s'.log| == |s.log| + 1 && s.log < s'.log && s'.log[|s.log|].t == t)
    ensures forall u :: 0 <= u < |s.pcs| && u != t ==> ThreadLogged(s', u)
  {
    if s'.log != s.log {
      assert s'.log == s.log + [s'.log[|s.log|]];
      LastAfter(s.log, s'.log[|s.log|]);
    }
    forall u | 0 <= u < |s.pcs| && u != t ensures ThreadLogged(s', u) {
      assert ThreadLogged(s, u);
      if s.pcs[u].PopUnlock? || s.pcs[u].ReadData? { assert SameNode(s, s', s.pcs[u].gone); }
    }
  }

  lemma QueueKept(s: State, s': State)
    requires ChainOk(s) && ChainOk(s') && s'.chain == s.chain
    requires forall i :: 0 <= i < |s.chain| - 1 ==> s'.heap[s.chain[i]].data == s.heap[s.chain[i]].data
    ensures Queue(s') == Queue(s)
  {
    forall i | 0 <= i < |s.chain| - 1 ensures Queue(s')[i] == Queue(s)[i] {
      assert LinkAt(s, i) && LinkAt(s', i);
    }
  }

  lemma Silent(s: State, s': State, t: nat)
    requires t < |s.pcs| && LogOk(s) && Spares(s, s', t)
    requires s'.log == s.log && ThreadLogged(s', t) && ChainOk(s') && Queue(s') == Queue(s)
    ensures LogOk(s')
  {
    OthersLogged(s, s', t);
  }

  lemma Speaks(s: State, s': State, t: nat, e: OpEvent)
    requires t < |s.pcs| && LogOk(s) && Spares(s, s', t)
    requires s'.log == s.log + [e] && e.t == t && Follows(s.log, e) && ChainOk(s')
    requires if e.Took? then OnQueue(Queue(s), e.op, e.res) == Some(Queue(s')) else Queue(s') == Queue(s)
    requires Last(s.log + [e], t) == Some(e) ==> ThreadLogged(s', t)
    ensures LogOk(s')
  {
    LastAfter(s.log, e);
    WellFormedAfter(s.log, e);
    ReplayAfter([], s.log, e, OnQueue);
    OthersLogged(s, s', t);
  }

  lemma CallLogs(s: State, t: nat, act: Action, s': State)
    requires t < |s.pcs| && LogOk(s) && s.heap.Keys == s.phase.Keys && s.pcs[t].Idle?
    requires s' == Next(s, t, act) && ChainOk(s')
    ensures LogOk(s')
  {
    match act
    case CallPush(v, p) => if p !in s.heap { CallPushLogs(s, t, v, p, s'); }
    case CallPop(m) =>
      assert ThreadLogged(s, t);
      QueueKept(s, s');
      Speaks(s, s', t, Called(t, Pop));
    case _ =>
  }

  lemma CallPushLogs(s: State, t: nat, v: Value, p: Addr, s': State)
    requires t < |s.pcs| && LogOk(s) && s.heap.Keys == s.phase.Keys && s.pcs[t].Idle? && p !in s.heap
    requires s' == Next(s, t, CallPush(v, p)) && ChainOk(s')
    ensures LogOk(s')
  {
    assert ThreadLogged(s, t);
    QueueKept(s, s');
    assert Spares(s, s', t);
    Speaks(s, s', t, Called(t, Push(v)));
  }

  lemma LinkLogs(s: State, t: nat, p: Addr, v: Value, s': State)
    requires t < |s.pcs| && LogOk(s) && s.heap.Keys == s.phase.Keys && s.pcs[t] == PushTail(p, v)
    requires s.heap[s.tail].data == Some(v) && p in s.phase && s.phase[p] == Private(t)
    requires s' == Next(s, t, Go) && ChainOk(s')
    ensures LogOk(s')
  {
    assert ThreadLogged(s, t);
    QueueLonger(s, s', p, v);
    Speaks(s, s', t, Took(t, Push(v), None));
  }

  lemma QueueLonger(s: State, s': State, p: Addr, v: Value)
    requires ChainOk(s) && ChainOk(s') && s'.heap == s.heap && s'.chain == s.chain + [p]
    requires s.heap[s.tail].data == Some(v)
    ensures Queue(s') == Queue(s) + [v]
  {
    forall i | 0 <= i < |s.chain| - 1 ensures Queue(s')[i] == Queue(s)[i] {
      assert LinkAt(s, i) && LinkAt(s', i);
    }
    assert LinkAt(s', |s.chain| - 1);
  }

  /** The tail read is the head: at this moment the queue is empty, which settles that a `try_pop` gets nothing. */
  lemma SeesEmptyLogs(s: State, t: nat, m: Mode, s': State)
    requires t < |s.pcs| && LogOk(s) && s.pcs[t] == TailRead(m) && !m.wait
    requires s.headLock == Some(t) && |s.chain| == 1
    requires s' == Logged(Goto(s, t, TailUnlock(m, s.tail)), Took(t, Pop, None)) && ChainOk(s')
    ensures LogOk(s')
  {
    assert ThreadLogged(s, t);
    QueueKept(s, s');
    Speaks(s, s', t, Took(t, Pop, None));
  }

  lemma SeesTailLogs(s: State, t: nat, m: Mode, s': State)
    requires t < |s.pcs| && LogOk(s) && s.pcs[t] == TailRead(m)
    requires s.headLock == Some(t) && (m.wait || s.tail != s.chain[0])
    requires s' == Goto(s, t, TailUnlock(m, s.tail)) && ChainOk(s')
    ensures LogOk(s')
  {
    assert ThreadLogged(s, t);
    QueueKept(s, s');
    Silent(s, s', t);
  }

  lemma QueueShorter(s: State, s': State)
    requires ChainOk(s) && ChainOk(s') && |s.chain| > 1 && s'.chain == s.chain[1..]
    requires forall a :: a in s.heap && a != s.chain[0] ==> a in s'.heap && s'.heap[a].data == s.heap[a].data
    ensures Queue(s') == Queue(s)[1..] && Some(Queue(s)[0]) == s.heap[s.chain[0]].data
  {
    forall i | 0 <= i < |s'.chain| - 1 ensures Queue(s')[i] == Queue(s)[i + 1] {
      assert LinkAt(s, i + 1) && LinkAt(s', i);
    }
    assert LinkAt(s, 0);
  }

  lemma AdvanceLogs(s: State, t: nat, m: Mode, res: Option<Value>, gone: Addr, s': State)
    requires t < |s.pcs| && LogOk(s) && s.heap.Keys == s.phase.Keys && s.pcs[t] == Advance(m, res, gone)
    requires s.headLock == Some(t) && |s.chain| > 1 && gone == s.chain[0]
    requires s' == Next(s, t, Go) && ChainOk(s')
    ensures LogOk(s')
  {
    assert ThreadLogged(s, t);
    QueueShorter(s, s');
    AdvanceSpares(s, t, m, res, gone, s');
    Speaks(s, s', t, Took(t, Pop, s.heap[gone].data));
  }

  lemma AdvanceSpares(s: State, t: nat, m: Mode, res: Option<Value>, gone: Addr, s': State)
    requires t < |s.pcs| && s.pcs[t] == Advance(m, res, gone) && gone in s.heap && gone in s.phase
    requires s.phase[gone] == Linked && s.headLock == Some(t) && s.chain != [] && s'.chain != []
    requires s' == Next(s, t, Go)
    ensures Spares(s, s', t)
  {}

  lemma DoneLogs(s: State, t: nat, s': State)
    requires t < |s.pcs| && LogOk(s) && s.pcs[t].Done? && s' == Next(s, t, Go) && ChainOk(s')
    ensures LogOk(s')
  {
    assert ThreadLogged(s, t);
    QueueKept(s, s');
    Speaks(s, s', t, Returned(t, s.pcs[t].op, s.pcs[t].res));
  }

  predicate Recording(pc: Pc) { pc.Idle? || pc.PushTail? || pc.TailRead? || pc.Advance? || pc.Done? }

  predicate ChangesNode(pc: Pc) { pc.PushData? || pc.PushNext? || pc.Free? }

  ghost predicate QuietReady(s: State, t: nat)
    requires t < |s.pcs| && s.chain != []
  {
    var pc := s.pcs[t];
    && (InHead(pc) ==> s.headLock == Some(t))
    && (pc.Compare? ==> s.head == Some(s.chain[0]))
    && (pc.PopUnlock? && pc.m.early ==> pc.res == DataAt(s, pc.gone))
  }

  ghost predicate QuietStep(s: State, s': State, t: nat)
    requires t < |s.pcs|
  {
    && |s'.pcs| == |s.pcs| && s'.pcs == s.pcs[t := s'.pcs[t]] && s'.chain == s.chain && s'.log == s.log
    && s'.heap == s.heap && s'.phase == s.phase && LocksOf(s.headLock, s'.headLock, t)
  }

  lemma QuietFrame(s: State, t: nat, act: Action)
    requires t < |s.pcs| && (InHead(s.pcs[t]) ==> s.headLock == Some(t))
    requires !Recording(s.pcs[t]) && !ChangesNode(s.pcs[t])
    ensures QuietStep(s, Next(s, t, act), t)
  {
    if InHead(s.pcs[t]) {
      NextPlain(s, t, act);
      QuietHead(s, t);
    } else {
      QuietOutside(s, t, act);
    }
  }

  lemma QuietOutside(s: State, t: nat, act: Action)
    requires t < |s.pcs| && !InHead(s.pcs[t]) && !Recording(s.pcs[t]) && !ChangesNode(s.pcs[t])
    ensures QuietStep(s, Next(s, t, act), t)
  {}

  lemma QuietHead(s: State, t: nat)
    requires t < |s.pcs| && InHead(s.pcs[t]) && s.headLock == Some(t)
    requires !s.pcs[t].TailRead? && !s.pcs[t].Advance?
    ensures QuietStep(s, Next(s, t, Go), t)
  {}

  lemma QuietThread(s: State, t: nat, act: Action)
    requires t < |s.pcs| && s.chain != [] && ThreadLogged(s, t) && QuietReady(s, t)
    requires !Recording(s.pcs[t]) && !ChangesNode(s.pcs[t]) && QuietStep(s, Next(s, t, act), t)
    requires !Next(s, t, act).fault
    ensures ThreadLogged(Next(s, t, act), t)
  {
    if InHead(s.pcs[t]) {
      NextPlain(s, t, act);
      QuietHeadThread(s, t);
    }
  }

  lemma QuietHeadThread(s: State, t: nat)
    requires t < |s.pcs| && s.chain != [] && ThreadLogged(s, t) && QuietReady(s, t)
    requires InHead(s.pcs[t]) && !s.pcs[t].TailRead? && !s.pcs[t].Advance? && QuietStep(s, Next(s, t, Go), t)
    requires !Next(s, t, Go).fault
    ensures ThreadLogged(Next(s, t, Go), t)
  {
    if Comparing(s.pcs[t]) { QuietCompareThread(s, t); } else { QuietTakeThread(s, t); }
  }

  predicate Comparing(pc: Pc) { pc.TailLock? || pc.TailUnlock? || pc.Compare? }

  lemma QuietCompareThread(s: State, t: nat)
    requires t < |s.pcs| && s.chain != [] && ThreadLogged(s, t) && QuietReady(s, t)
    requires Comparing(s.pcs[t]) && QuietStep(s, Next(s, t, Go), t)
    ensures ThreadLogged(Next(s, t, Go), t)
  {}

  lemma QuietTakeThread(s: State, t: nat)
    requires t < |s.pcs| && s.chain != [] && ThreadLogged(s, t) && QuietReady(s, t)
    requires s.pcs[t].GiveUp? || s.pcs[t].CopyOut? || s.pcs[t].MoveHead? || s.pcs[t].PopUnlock?
    requires QuietStep(s, Next(s, t, Go), t) && !Next(s, t, Go).fault
    ensures ThreadLogged(Next(s, t, Go), t)
  {}

  /** A step that records nothing and changes no node. */
  lemma QuietLogs(s: State, t: nat, act: Action, s': State)
    requires t < |s.pcs| && LogOk(s) && !Recording(s.pcs[t]) && !ChangesNode(s.pcs[t]) && QuietReady(s, t)
    requires s' == Next(s, t, act) && !s'.fault && ChainOk(s')
    ensures LogOk(s')
  {
    assert ThreadLogged(s, t);
    QuietFrame(s, t, act);
    QuietThread(s, t, act);
    QueueKept(s, s');
    Silent(s, s', t);
  }

  lemma NodeLogs(s: State, t: nat, act: Action, s': State)
    requires t < |s.pcs| && LogOk(s) && s.heap.Keys == s.phase.Keys && ChangesNode(s.pcs[t])
    requires s.pcs[t].Free? ==> s.pcs[t].gone in s.phase && s.phase[s.pcs[t].gone] == Unlinked(t)
    requires s' == Next(s, t, act) && !s'.fault && ChainOk(s')
    ensures LogOk(s')
  {
    assert ThreadLogged(s, t);
    QueueKept(s, s');
    Silent(s, s', t);
  }

  lemma StepChain(s: Sound, t: nat, act: Action)
    requires t < |s.pcs|
    ensures !Next(s, t, act).fault && ChainOk(Next(s, t, act))
  {
    var s' := StepKeeps(s, t, act);
  }

  lemma StepLogs(s: Sound, t: nat, act: Action)
    requires t < |s.pcs| && LogOk(s)
    ensures LogOk(Next(s, t, act))
  {
    var s' := Next(s, t, act);
    StepChain(s, t, act);
    assert ThreadOk(s, t);
    match s.pcs[t]
    case Idle => CallLogs(s, t, act, s');
    case PushTail(p, v) => LinkLogs(s, t, p, v, s');
    case TailRead(m) =>
      if s.head == Some(s.tail) && !m.wait { SeesEmptyLogs(s, t, m, s'); } else { SeesTailLogs(s, t, m, s'); }
    case Advance(m, res, gone) => AdvanceLogs(s, t, m, res, gone, s');
    case Done(_, _, _) => DoneLogs(s, t, s');
    case _ => UnrecordedLogs(s, t, act, s');
  }

  lemma UnrecordedLogs(s: Sound, t: nat, act: Action, s': State)
    requires t < |s.pcs| && LogOk(s) && !Recording(s.pcs[t]) && s' == Next(s, t, act) && !s'.fault && ChainOk(s')
    ensures LogOk(s')
  {
    assert ThreadOk(s, t);
    if ChangesNode(s.pcs[t]) { NodeLogs(s, t, act, s'); } else { QuietLogs(s, t, act, s'); }
  }

  // ---------------------------------------------------------------- main results

  lemma {:induction false} RunsOn(s: Sound, schedule: seq<Choice>) returns (s': Sound)
    requires LogOk(s)
    ensures s' == Run(s, schedule) && LogOk(s')
    decreases |schedule|
  {
    s' := s;
    if schedule != [] {
      var c := schedule[0];
      if c.t < |s.pcs| {
        s' := StepKeeps(s, c.t, c.act);
        StepLogs(s, c.t, c.act);
      }
      s' := RunsOn(s', schedule[1..]);
    }
  }

  /** Every run of any number of threads keeps the invariant and the log in order. */
  lemma EveryRun(n: nat, d: Addr, schedule: seq<Choice>) returns (s: Sound)
    ensures s == Run(Init(n, d), schedule) && LogOk(s)
  {
    InitOk(n, d);
    assert Queue(Init(n, d)) == [];
    s := RunsOn(Init(n, d), schedule);
  }

  /** No step of any run follows a null pointer or touches a freed node. */
  lemma NeverTouchesFreedMemory(n: nat, d: Addr, schedule: seq<Choice>)
    ensures !Run(Init(n, d), schedule).fault
  {
    var s := EveryRun(n, d, schedule);
  }

  /** In every reachable state the nodes lead from the head to the dummy at the tail, and all before it hold data. */
  lemma HeadReachesTail(n: nat, d: Addr, schedule: seq<Choice>)
    ensures var s := Run(Init(n, d), schedule);
      && s.chain != [] && s.chain[|s.chain| - 1] == s.tail && s.tail in s.heap
      && (s.head.Some? ==> s.head.value == s.chain[0])
      && (s.headLock.None? ==> s.head.Some?)
      && (s.tailLock.None? ==> s.heap[s.tail] == Node(None, None))
      && forall i :: 0 <= i < |s.chain| - 1 ==>
           s.chain[i] in s.heap && s.heap[s.chain[i]].data.Some? && s.heap[s.chain[i]].next == Some(s.chain[i + 1])
  {
    var s := EveryRun(n, d, schedule);
    forall i | 0 <= i < |s.chain| - 1
      ensures s.heap[s.chain[i]].data.Some? && s.heap[s.chain[i]].next == Some(s.chain[i + 1])
    {
      assert LinkAt(s, i);
    }
  }

  /** The node whose fields the next step of a thread at pc reads, writes or frees. */
  function Uses(s: State, pc: Pc): set<Addr> {
    if pc.PushData? || pc.PushNext? then {s.tail}
    else if pc.CopyOut? && s.head.Some? then {s.head.value}
    else if pc.Advance? || pc.ReadData? || pc.Free? then {pc.gone}
    else {}
  }

  /**
   A stale `get_tail` is safe: no two threads are ever about to use the same node, although a
   pusher works under the tail lock only and a popper under the head lock only or under none.
   */
  lemma NoTwoUseOneNode(n: nat, d: Addr, schedule: seq<Choice>, t: nat, u: nat)
    requires var s := Run(Init(n, d), schedule); t < |s.pcs| && u < |s.pcs| && t != u
    ensures var s := Run(Init(n, d), schedule); Uses(s, s.pcs[t]) !! Uses(s, s.pcs[u])
  {
    var s := EveryRun(n, d, schedule);
    assert ThreadOk(s, t) && ThreadOk(s, u);
    UsesWhat(s, t);
    UsesWhat(s, u);
  }

  /** A pusher uses the tail, a popper the first of several nodes or a node of its own. */
  lemma UsesWhat(s: Sound, t: nat)
    requires t < |s.pcs|
    ensures forall a :: a in Uses(s, s.pcs[t]) ==>
      if InTail(s.pcs[t]) then a == s.tail && a in s.phase && s.phase[a] == Linked
      else if InHead(s.pcs[t]) then |s.chain| > 1 && a == s.chain[0] != s.tail && a in s.phase && s.phase[a] == Linked
      else a in s.phase && s.phase[a] == Unlinked(t)
  {
    assert ThreadOk(s, t);
  }

  /** The linearization points of any run, in order, are a history of the sequential queue that ends in the chain. */
  lemma Linearizable(n: nat, d: Addr, schedule: seq<Choice>)
    ensures var s := Run(Init(n, d), schedule);
      WellFormed(s.log) && ChainOk(s) && Replay([], s.log, OnQueue) == Some(Queue(s))
  {
    var s := EveryRun(n, d, schedule);
  }

  /** Every return in any run follows its own call and its own linearization point, which had the same result. */
  lemma ReturnsExplained(n: nat, d: Addr, schedule: seq<Choice>, i: nat) returns (j: nat, k: nat)
    requires var log := Run(Init(n, d), schedule).log; i < |log| && log[i].Returned?
    ensures var log := Run(Init(n, d), schedule).log;
      && j < k < i && log[j] == Called(log[i].t, log[i].op) && log[k] == Took(log[i].t, log[i].op, log[i].res)
      && QuietAfter(log[..k], j, log[i].t) && QuietAfter(log[..i], k, log[i].t)
  {
    var s := EveryRun(n, d, schedule);
    k := Bracketed(s.log, i);
    j := Bracketed(s.log, k);
  }

  /** The values pushed, in the order of the linearization points. */
  function Pushed(log: seq<OpEvent>): seq<Value> {
    if log == [] then []
    else
      var e := log[|log| - 1];
      Pushed(log[..|log| - 1]) + if e.Took? && e.op.Push? then [e.op.v] else []
  }

  /** The values popped, in the order of the linearization points. */
  function Popped(log: seq<OpEvent>): seq<Value> {
    if log == [] then []
    else
      var e := log[|log| - 1];
      Popped(log[..|log| - 1]) + if e.Took? && e.op.Pop? && e.res.Some? then [e.res.value] else []
  }

  lemma {:induction false} ReplayIsFifo(log: seq<OpEvent>)
    requires Replay([], log, OnQueue).Some?
    ensures Pushed(log) == Popped(log) + Replay([], log, OnQueue).value
  {
    if log != [] { ReplayIsFifo(log[..|log| - 1]); }
  }

  /** Values leave in the order they were pushed; what has not left is in the chain. */
  lemma FirstInFirstOut(n: nat, d: Addr, schedule: seq<Choice>)
    ensures var s := Run(Init(n, d), schedule); ChainOk(s) && Pushed(s.log) == Popped(s.log) + Queue(s)
  {
    var s := EveryRun(n, d, schedule);
    ReplayIsFifo(Run(Init(n, d), schedule).log);
  }

  /** `wait_and_pop` returns only with a value. */
  lemma WaitGetsSomething(n: nat, d: Addr, schedule: seq<Choice>, t: nat)
    requires var s := Run(Init(n, d), schedule);
      t < |s.pcs| && s.pcs[t].Done? && s.pcs[t].wait && s.pcs[t].op == Pop
    ensures Run(Init(n, d), schedule).pcs[t].res.Some?
  {
    var s := EveryRun(n, d, schedule);
    assert ThreadOk(Run(Init(n, d), schedule), t);
  }

  // ---------------------------------------------------------------- a thread that runs alone ends its call

  /** k steps of thread t. */
  function Goes(t: nat, k: nat): seq<Choice> {
    if k == 0 then [] else [Choice(t, Go)] + Goes(t, k - 1)
  }

  lemma RunGo(s: State, t: nat, k: nat)
    requires t < |s.pcs| && k > 0
    ensures Run(s, Goes(t, k)) == Run(Next(s, t, Go), Goes(t, k - 1))
  {
    assert Goes(t, k)[1..] == Goes(t, k - 1);
  }

  lemma {:induction false} GoNowhere(s: State, t: nat, k: nat)
    requires t < |s.pcs| && (s.pcs[t].Idle? || s.pcs[t].Asleep?)
    ensures Run(s, Goes(t, k)) == s
  {
    if k > 0 {
      RunGo(s, t, k);
      GoNowhere(s, t, k - 1);
    }
  }

  /** No other thread holds a lock. */
  predicate Unblocked(s: State, t: nat) {
    (s.headLock.None? || s.headLock == Some(t)) && (s.tailLock.None? || s.tailLock == Some(t))
  }

  /** A bound on the steps that thread t needs to end its call if nobody else moves. */
  function StepsLeft(pc: Pc): nat {
    match pc
    case Idle => 0
    case Asleep(_) => 0
    case Done(_, _, _) => 1
    case PushLock(_, _) => 6
    case PushData(_, _) => 5
    case PushNext(_, _) => 4
    case PushTail(_, _) => 3
    case PushUnlock(_) => 2
    case PopLock(_) => 12
    case TailLock(_) => 11
    case TailRead(_) => 10
    case TailUnlock(_, _) => 9
    case Compare(_, _) => 8
    case GiveUp => 2
    case CopyOut(_) => 7
    case MoveHead(_, _) => 6
    case Advance(_, _, _) => 5
    case PopUnlock(_, _, _) => 4
    case ReadData(_, _) => 3
    case Free(_, _, _) => 2
  }

  lemma AtMostTwelve(pc: Pc)
    ensures StepsLeft(pc) <= 12
  {}

  /** A waiting pop that is asleep, has read a tail that is the head, or has still to read it and the queue is empty. */
  predicate WillSleep(s: State, t: nat)
    requires t < |s.pcs|
  {
    var pc := s.pcs[t];
    || pc.Asleep?
    || ((pc.PopLock? || pc.TailLock? || pc.TailRead?) && pc.m.wait && |s.chain| == 1)
    || ((pc.TailUnlock? || pc.Compare?) && pc.m.wait && s.head == Some(pc.seen))
  }

  /** What a step of thread t alone does: it gets on with its call, and whether that ends in sleep is settled. */
  ghost predicate GetsOn(s: State, s': State, t: nat)
    requires t < |s.pcs|
  {
    && |s'.pcs| == |s.pcs| && s'.pcs == s.pcs[t := s'.pcs[t]]
    && StepsLeft(s'.pcs[t]) < StepsLeft(s.pcs[t]) && Unblocked(s', t)
    && (WillSleep(s', t) <==> WillSleep(s, t)) && (WillSleep(s, t) ==> s'.log == s.log)
    && (s'.log == s.log || RecordsOne(s.log, s'.log, t))
  }

  predicate RecordsOne(log: seq<OpEvent>, log': seq<OpEvent>, t: nat) {
    |log'| == |log| + 1 && log' == log + [log'[|log|]] && log'[|log|].t == t && !log'[|log|].Called?
  }

  lemma PushGetsOn(s: State, t: nat)
    requires t < |s.pcs| && Unblocked(s, t) && !Next(s, t, Go).fault && (s.pcs[t].PushLock? ==> s.tailLock.None?)
    requires var pc := s.pcs[t]; pc.PushLock? || pc.PushData? || pc.PushNext? || pc.PushTail? || pc.PushUnlock?
    ensures GetsOn(s, Next(s, t, Go), t)
  {}

  /** Whether the queue is empty is seen by comparing the head with the tail. */
  ghost predicate EmptyIsSeen(s: State) {
    s.chain != [] && (|s.chain| == 1 <==> s.chain[0] == s.tail)
  }

  lemma LockGetsOn(s: State, t: nat)
    requires t < |s.pcs| && Unblocked(s, t)
    requires (s.pcs[t].PopLock? && s.headLock.None?) || (s.pcs[t].TailLock? && s.tailLock.None?)
    ensures GetsOn(s, Next(s, t, Go), t)
  {}

  lemma ReadGetsOn(s: State, t: nat)
    requires t < |s.pcs| && Unblocked(s, t) && EmptyIsSeen(s) && s.pcs[t].TailRead? && s.head == Some(s.chain[0])
    ensures GetsOn(s, Next(s, t, Go), t)
  {}

  lemma CompareGetsOn(s: State, t: nat)
    requires t < |s.pcs| && Unblocked(s, t) && s.pcs[t].Compare?
    ensures GetsOn(s, Next(s, t, Go), t)
  {}

  lemma ReleaseGetsOn(s: State, t: nat)
    requires t < |s.pcs| && Unblocked(s, t) && s.pcs[t].TailUnlock?
    ensures GetsOn(s, Next(s, t, Go), t)
  {}

  lemma TakeGetsOn(s: State, t: nat)
    requires t < |s.pcs| && Unblocked(s, t) && !Next(s, t, Go).fault
    requires var pc := s.pcs[t]; pc.GiveUp? || pc.CopyOut? || pc.MoveHead? || pc.Advance?
    ensures GetsOn(s, Next(s, t, Go), t)
  {}

  lemma LeaveGetsOn(s: State, t: nat)
    requires t < |s.pcs| && Unblocked(s, t) && !Next(s, t, Go).fault
    requires var pc := s.pcs[t]; pc.PopUnlock? || pc.ReadData? || pc.Free? || pc.Done?
    ensures GetsOn(s, Next(s, t, Go), t)
  {}

  /** How the call of thread t ends if it runs alone. */
  ghost predicate EndsAs(s: State, s': State, t: nat)
    requires t < |s.pcs| && ChainOk(s) && ChainOk(s')
  {
    && s'.headLock.None? && s'.tailLock.None?
    && if WillSleep(s, t) then
         |s'.pcs| == |s.pcs| && s'.pcs == s.pcs[t := s'.pcs[t]] && s'.pcs[t].Asleep?
         && s'.log == s.log && Queue(s') == Queue(s)
       else s'.pcs == s.pcs[t := Idle] && Finished(s.log, s'.log, t, Queue(s), Queue(s'), OnQueue)
  }

  lemma EndsAfter(s: Sound, s1: Sound, s': Sound, t: nat)
    requires t < |s.pcs| && GetsOn(s, s1, t) && LogOk(s) && LogOk(s1) && LogOk(s') && EndsAs(s1, s', t)
    ensures EndsAs(s, s', t)
  {
    if s1.log != s.log && !WillSleep(s, t) {
      FinishedAfter([], s.log, s1.log[|s.log|], s'.log, t, Queue(s), Queue(s1), Queue(s'), OnQueue);
    }
  }

  lemma EndsAtOnce(s: Sound, t: nat)
    requires t < |s.pcs| && LogOk(s) && Unblocked(s, t) && (s.pcs[t].Idle? || s.pcs[t].Asleep?)
    ensures EndsAs(s, s, t)
  {
    assert ThreadOk(s, t) && ThreadLogged(s, t);
  }

  /** What the invariant says that thread t needs to get on. */
  lemma Ready(s: Sound, t: nat)
    requires t < |s.pcs| && Unblocked(s, t)
    ensures EmptyIsSeen(s) && (s.pcs[t].TailRead? ==> s.head == Some(s.chain[0]))
    ensures s.pcs[t].PushLock? || s.pcs[t].TailLock? ==> s.tailLock.None?
    ensures s.pcs[t].PopLock? ==> s.headLock.None?
  {
    assert ThreadOk(s, t);
    assert |s.chain| > 1 ==> s.chain[0] != s.chain[|s.chain| - 1];
  }

  lemma AllGetOn(s: Sound, t: nat)
    requires t < |s.pcs| && Unblocked(s, t) && !AtRest(s.pcs[t]) && !Next(s, t, Go).fault
    ensures GetsOn(s, Next(s, t, Go), t)
  {
    Ready(s, t);
    match s.pcs[t]
    case PushLock(_, _) => PushGetsOn(s, t);
    case PushData(_, _) => PushGetsOn(s, t);
    case PushNext(_, _) => PushGetsOn(s, t);
    case PushTail(_, _) => PushGetsOn(s, t);
    case PushUnlock(_) => PushGetsOn(s, t);
    case PopLock(_) => LockGetsOn(s, t);
    case TailLock(_) => LockGetsOn(s, t);
    case TailRead(_) => ReadGetsOn(s, t);
    case TailUnlock(_, _) => ReleaseGetsOn(s, t);
    case Compare(_, _) => CompareGetsOn(s, t);
    case GiveUp => TakeGetsOn(s, t);
    case CopyOut(_) => TakeGetsOn(s, t);
    case MoveHead(_, _) => TakeGetsOn(s, t);
    case Advance(_, _, _) => TakeGetsOn(s, t);
    case _ => LeaveGetsOn(s, t);
  }

  lemma GoesOnAlone(s: Sound, t: nat, k: nat) returns (s1: Sound)
    requires t < |s.pcs| && LogOk(s) && Unblocked(s, t) && k >= StepsLeft(s.pcs[t]) && !AtRest(s.pcs[t])
    ensures k > 0 && GetsOn(s, s1, t) && LogOk(s1)
    ensures Run(s, Goes(t, k)) == Run(s1, Goes(t, k - 1))
  {
    s1 := StepKeeps(s, t, Go);
    StepLogs(s, t, Go);
    AllGetOn(s, t);
    RunGo(s, t, k);
  }

  lemma {:induction false} EndsAlone(s: Sound, t: nat, k: nat) returns (s': Sound)
    requires t < |s.pcs| && LogOk(s) && Unblocked(s, t) && k >= StepsLeft(s.pcs[t])
    ensures s' == Run(s, Goes(t, k)) && LogOk(s') && EndsAs(s, s', t)
    decreases k
  {
    if AtRest(s.pcs[t]) {
      GoNowhere(s, t, k);
      EndsAtOnce(s, t);
      s' := s;
    } else {
      var s1 := GoesOnAlone(s, t, k);
      s' := EndsAlone(s1, t, k - 1);
      EndsAfter(s, s1, s', t);
    }
  }

  /**
   From every reachable state in which no other thread holds a lock, a thread that runs alone has ended its call after
   at most twelve steps, wherever in it it was, unless it is a `wait_and_pop` that finds the queue empty: that one is
   asleep and has changed nothing.  If its operation had not yet taken effect, it takes effect on the queue as it was
   when the thread began to run alone.
   */
  lemma AloneItEnds(n: nat, d: Addr, schedule: seq<Choice>, t: nat, k: nat) returns (s: Sound, s': State)
    requires k >= 12
    ensures s == Run(Init(n, d), schedule) && s' == Run(s, Goes(t, k))
    ensures t < |s.pcs| && Unblocked(s, t) ==> ChainOk(s') && EndsAs(s, s', t)
  {
    s := EveryRun(n, d, schedule);
    s' := Run(s, Goes(t, k));
    if t < |s.pcs| && Unblocked(s, t) {
      AtMostTwelve(s.pcs[t]);
      var _ := EndsAlone(s, t, k);
    }
  }

  /** An operation that is called and that nobody interrupts. */
  function Alone(t: nat, act: Action, k: nat): seq<Choice> { [Choice(t, act)] + Goes(t, k) }

  lemma RunAlone(s: State, t: nat, act: Action, k: nat)
    requires t < |s.pcs|
    ensures Run(s, Alone(t, act, k)) == Run(Next(s, t, act), Goes(t, k))
  {
    assert Alone(t, act, k)[1..] == Goes(t, k);
  }

  /** The operation that the action calls. */
  function Calls(act: Action): Op
    requires act.CallPop? || act.CallPush?
  {
    if act.CallPush? then Push(act.v) else Pop
  }

  lemma CallRecords(s: State, t: nat, act: Action)
    requires t < |s.pcs| && s.pcs[t].Idle? && (act.CallPop? || (act.CallPush? && act.addr !in s.heap))
    ensures var s1 := Next(s, t, act);
      && |s1.pcs| == |s.pcs| && s1.pcs == s.pcs[t := s1.pcs[t]] && s1.log == s.log + [Called(t, Calls(act))]
      && s1.headLock == s.headLock && s1.tailLock == s.tailLock && s1.chain == s.chain
      && s1.pcs[t] == if act.CallPop? then PopLock(act.m) else PushLock(act.addr, act.v)
  {}

  /** An uninterrupted operation sleeps, if it is to wait on an empty queue; otherwise it takes effect and ends. */
  ghost predicate CallOutcome(s: State, s': State, t: nat, act: Action)
    requires t < |s.pcs| && ChainOk(s) && ChainOk(s') && (act.CallPop? || act.CallPush?)
  {
    var op, log := Calls(act), s'.log;
    if act.CallPop? && act.m.wait && Queue(s) == [] then
      |s'.pcs| == |s.pcs| && s'.pcs[t].Asleep? && Queue(s') == [] && log == s.log + [Called(t, op)]
    else
      && |log| == |s.log| + 3 && log[|s.log| + 2].Returned? && s'.pcs == s.pcs
      && var res := log[|s.log| + 2].res;
         log == s.log + [Called(t, op), Took(t, op, res), Returned(t, op, res)]
         && OnQueue(Queue(s), op, res) == Some(Queue(s'))
  }

  lemma CallAlone(s: Sound, t: nat, act: Action, k: nat) returns (s': Sound)
    requires t < |s.pcs| && LogOk(s) && s.pcs[t].Idle? && s.headLock.None? && s.tailLock.None? && k >= 12
    requires act.CallPop? || (act.CallPush? && act.addr !in s.heap)
    ensures s' == Run(s, Alone(t, act, k)) && CallOutcome(s, s', t, act)
  {
    var s1 := StepKeeps(s, t, act);
    StepLogs(s, t, act);
    RunAlone(s, t, act, k);
    CallRecords(s, t, act);
    AtMostTwelve(s1.pcs[t]);
    s' := EndsAlone(s1, t, k);
    CallEnds(s, s1, s', t, act);
  }

  lemma CallEnds(s: State, s1: State, s': State, t: nat, act: Action)
    requires t < |s.pcs| && LogOk(s) && LogOk(s1) && ChainOk(s') && s.pcs[t].Idle? && (act.CallPop? || act.CallPush?)
    requires |s1.pcs| == |s.pcs| && s1.pcs == s.pcs[t := s1.pcs[t]] && s1.log == s.log + [Called(t, Calls(act))]
    requires s1.chain == s.chain && s1.pcs[t] == if act.CallPop? then PopLock(act.m) else PushLock(act.addr, act.v)
    requires EndsAs(s1, s', t)
    ensures CallOutcome(s, s', t, act)
  {
    ReplayAfter([], s.log, Called(t, Calls(act)), OnQueue);
    LastAfter(s.log, Called(t, Calls(act)));
    assert |Queue(s)| == |s.chain| - 1;
  }

  /**
   In every reachable state with both locks free, an operation that an idle thread calls and nobody interrupts ends at
   once: a push appends its value, a pop of any kind returns the front value and removes it; on an empty queue `try_pop`
   returns nothing and `wait_and_pop` goes to sleep.
   */
  lemma OperationAlone(n: nat, d: Addr, schedule: seq<Choice>, t: nat, act: Action, k: nat)
    returns (s: Sound, s': State)
    requires k >= 12 && (act.CallPop? || act.CallPush?)
    ensures s == Run(Init(n, d), schedule) && s' == Run(s, Alone(t, act, k))
    ensures t < |s.pcs| && s.pcs[t].Idle? && s.headLock.None? && s.tailLock.None?
            && (act.CallPush? ==> act.addr !in s.heap) ==>
      ChainOk(s') && CallOutcome(s, s', t, act)
  {
    s := EveryRun(n, d, schedule);
    s' := Run(s, Alone(t, act, k));
    if t < |s.pcs| && s.pcs[t].Idle? && s.headLock.None? && s.tailLock.None?
       && (act.CallPush? ==> act.addr !in s.heap) {
      var _ := CallAlone(s, t, act, k);
    }
  }

  /** What the outcome comes to for each operation. */
  lemma OutcomeOf(s: State, s': State, t: nat, act: Action)
    requires t < |s.pcs| && ChainOk(s) && ChainOk(s') && (act.CallPop? || act.CallPush?) && CallOutcome(s, s', t, act)
    ensures act.CallPush? ==> Queue(s') == Queue(s) + [act.v] && Last(s'.log, t) == Some(Returned(t, Push(act.v), None))
    ensures act.CallPop? && Queue(s) != [] ==>
      Queue(s') == Queue(s)[1..] && Last(s'.log, t) == Some(Returned(t, Pop, Some(Queue(s)[0])))
    ensures act.CallPop? && Queue(s) == [] && !act.m.wait ==>
      Queue(s') == [] && Last(s'.log, t) == Some(Returned(t, Pop, None))
  {}

  /** A waiting pop that is woken on a queue that is not empty, and then runs alone, returns the front value. */
  lemma WokenAlone(n: nat, d: Addr, schedule: seq<Choice>, t: nat, k: nat) returns (s: Sound, s': State)
    requires k >= 12
    ensures s == Run(Init(n, d), schedule) && s' == Run(s, Alone(t, Wake, k))
    ensures t < |s.pcs| && s.pcs[t].Asleep? && s.headLock.None? && s.tailLock.None? && |s.chain| > 1 ==>
      ChainOk(s') && WokenOutcome(s, s', t)
  {
    s := EveryRun(n, d, schedule);
    s' := Run(s, Alone(t, Wake, k));
    if t < |s.pcs| && s.pcs[t].Asleep? && s.headLock.None? && s.tailLock.None? && |s.chain| > 1 {
      var _ := WokenEnds(s, t, k);
    }
  }

  ghost predicate WokenOutcome(s: State, s': State, t: nat)
    requires t < |s.pcs| && ChainOk(s) && ChainOk(s') && |s.chain| > 1
  {
    var res := Some(Queue(s)[0]);
    && s'.pcs == s.pcs[t := Idle] && Queue(s') == Queue(s)[1..]
    && s'.log == s.log + [Took(t, Pop, res), Returned(t, Pop, res)]
  }

  lemma WokenEnds(s: Sound, t: nat, k: nat) returns (s': Sound)
    requires t < |s.pcs| && LogOk(s) && s.pcs[t].Asleep? && s.headLock.None? && s.tailLock.None? && |s.chain| > 1
    requires k >= 12
    ensures s' == Run(s, Alone(t, Wake, k)) && WokenOutcome(s, s', t)
  {
    var s1 := Wakes(s, t, k);
    AtMostTwelve(s1.pcs[t]);
    s' := EndsAlone(s1, t, k);
    Resumed(s, s1, s', t);
  }

  lemma WakeMoves(s: State, t: nat)
    requires t < |s.pcs| && s.pcs[t].Asleep?
    ensures Next(s, t, Wake) == Goto(s, t, PopLock(s.pcs[t].m))
  {}

  lemma Wakes(s: Sound, t: nat, k: nat) returns (s1: Sound)
    requires t < |s.pcs| && LogOk(s) && s.pcs[t].Asleep?
    ensures s1 == Goto(s, t, PopLock(s.pcs[t].m)) && LogOk(s1)
    ensures Run(s, Alone(t, Wake, k)) == Run(s1, Goes(t, k))
  {
    WakeMoves(s, t);
    s1 := AsleepKeeps(s, t, Wake);
    StepLogs(s, t, Wake);
    RunAlone(s, t, Wake, k);
  }

  lemma Resumed(s: State, s1: State, s': State, t: nat)
    requires t < |s.pcs| && LogOk(s) && s.pcs[t].Asleep? && |s.chain| > 1
    requires s1 == Goto(s, t, PopLock(s.pcs[t].m)) && ChainOk(s1) && ChainOk(s') && EndsAs(s1, s', t)
    ensures WokenOutcome(s, s', t)
  {
    assert ThreadLogged(s, t);
    QueueKept(s, s1);
  }

  /** The step is the one in which thread t falls asleep. */
  predicate FallsAsleep(s: State, t: nat, act: Action)
    requires t < |s.pcs|
  {
    var s' := Next(s, t, act);
    !s.pcs[t].Asleep? && |s'.pcs| == |s.pcs| && s'.pcs[t].Asleep?
  }

  lemma StaysAwake(s: State, t: nat, act: Action)
    requires t < |s.pcs| && !InHead(s.pcs[t])
    ensures !FallsAsleep(s, t, act)
  {}

  lemma StaysAwakeInHead(s: State, t: nat)
    requires t < |s.pcs| && InHead(s.pcs[t]) && !s.pcs[t].Compare?
    ensures !FallsAsleep(s, t, Go)
  {}

  /** A thread falls asleep exactly if it waits and the tail it has read under the head lock is the head. */
  lemma SleepsOnHeadOnly(n: nat, d: Addr, schedule: seq<Choice>, t: nat, act: Action) returns (s: Sound)
    ensures s == Run(Init(n, d), schedule)
    ensures t < |s.pcs| ==>
      (FallsAsleep(s, t, act) <==>
       && s.pcs[t].Compare? && s.pcs[t].m.wait && s.headLock == Some(t)
       && s.head == Some(s.pcs[t].seen) && s.pcs[t].seen == s.chain[0])
  {
    s := EveryRun(n, d, schedule);
    if t < |s.pcs| {
      assert ThreadOk(s, t);
      if !InHead(s.pcs[t]) { StaysAwake(s, t, act); }
      else if !s.pcs[t].Compare? {
        NextPlain(s, t, act);
        StaysAwakeInHead(s, t);
      }
    }
  }

  /** Not inside any call, or asleep. */
  predicate AtRest(pc: Pc) { pc.Idle? || pc.Asleep? }

  /** The next step of thread u takes it to another program point. */
  predicate GoesOn(s: State, u: nat)
    requires u < |s.pcs|
  {
    var s' := Next(s, u, Go);
    |s'.pcs| == |s.pcs| && s'.pcs[u] != s.pcs[u]
  }

  /** No deadlock, as the head lock is always taken first: while some thread does not rest, some thread can go on. */
  lemma SomebodyCanStep(n: nat, d: Addr, schedule: seq<Choice>) returns (u: nat)
    requires var s := Run(Init(n, d), schedule); exists t :: 0 <= t < |s.pcs| && !AtRest(s.pcs[t])
    ensures var s := Run(Init(n, d), schedule);
      u < |s.pcs| && !AtRest(s.pcs[u]) && GoesOn(s, u)
  {
    var s := EveryRun(n, d, schedule);
    u := SomebodyGoesOn(s);
  }

  lemma SomebodyGoesOn(s: Sound) returns (u: nat)
    requires exists t :: 0 <= t < |s.pcs| && !AtRest(s.pcs[t])
    ensures u < |s.pcs| && !AtRest(s.pcs[u]) && GoesOn(s, u)
  {
    u :| 0 <= u < |s.pcs| && !AtRest(s.pcs[u]);
    if s.tailLock.Some? { u := s.tailLock.value; }
    else if s.headLock.Some? { u := s.headLock.value; }
    assert ThreadOk(s, u);
    StepChain(s, u, Go);
    OnlyLocksBlock(s, u);
  }

  lemma OnlyLocksBlock(s: State, u: nat)
    requires u < |s.pcs| && !AtRest(s.pcs[u]) && !Next(s, u, Go).fault
    requires s.pcs[u].PushLock? || s.pcs[u].TailLock? ==> s.tailLock.None?
    requires s.pcs[u].PopLock? ==> s.headLock.None?
    ensures GoesOn(s, u)
  {
    if InHead(s.pcs[u]) { HeadGoesOn(s, u); }
  }

  lemma HeadGoesOn(s: State, u: nat)
    requires u < |s.pcs| && InHead(s.pcs[u]) && !Next(s, u, Go).fault && (s.pcs[u].TailLock? ==> s.tailLock.None?)
    ensures GoesOn(s, u)
  {}

  /** Once no operation is running, the allocated nodes are exactly the linked ones: every popped node was freed. */
  lemma QuiescentOwnsOnlyChain(s: Sound)
    requires forall t :: 0 <= t < |s.pcs| ==> AtRest(s.pcs[t])
    ensures forall a :: a in s.heap <==> a in s.chain
    ensures s.headLock.None? && s.tailLock.None?
  {
    forall a | a in s.heap ensures a in s.chain { assert NodeOk(s, a); }
    assert s.headLock.None? || ThreadOk(s, s.headLock.value);
    assert s.tailLock.None? || ThreadOk(s, s.tailLock.value);
  }
}
