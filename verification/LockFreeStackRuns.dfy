/** What every run of the lock-free stack does: it is linearizable, frees what it popped and touches nothing freed. */
module LockFreeStackRuns {
  import opened Prelude
  import opened Histories
  import opened LockFreeStack

  lemma StepKeeps(s: Sound, t: nat, act: Action) returns (s': Sound)
    requires t < |s.pcs|
    ensures s' == Next(s, t, act)
  {
    match s.pcs[t]
    case Idle => s' := IdleKeeps(s, t, act);
    case PushLoad(_, _) => s' := PushLoadKeeps(s, t);
    case PushCas(_, _) => s' := PushCasKeeps(s, t, act);
    case PopLoad => s' := ObserveKeeps(s, t, Reserve(s.head), 0);
    case Reserve(seen) =>
      if seen.ptr.Null? { s' := GiveUpKeeps(s, t); }
      else if s.head == seen { s' := ReserveTopKeeps(s, t, seen.ptr.a); }
      else { s' := MissKeeps(s, t); }
    case Reserved(_, _) => s' := ReadNextKeeps(s, t);
    case PopCas(_, _, _) => s' := PopCasKeeps(s, t);
    case SwapData(_, _) => s' := SwapDataKeeps(s, t);
    case Transfer(_, _, _) => s' := TransferKeeps(s, t);
    case FreePopped(_, res) => s' := FreeKeeps(s, t, Done(Pop, res));
    case Release(_, _) => s' := ReleaseKeeps(s, t);
    case Fence(_, _) => s' := FenceKeeps(s, t);
    case FreeReleased(_, seen) => s' := FreeKeeps(s, t, Reserve(seen));
    case Done(_, _) => s' := DoneKeeps(s, t);
  }

  // ---------------------------------------------------------------- linearizability

  /** The sequential stack, top first. */
  function OnStack(stack: seq<Value>, op: Op, res: Option<Value>): Option<seq<Value>> {
    match op
    case Push(v) => if res.None? then Some([v] + stack) else None
    case Pop =>
      if stack == [] then (if res.None? then Some([]) else None)
      else if res == Some(stack[0]) then Some(stack[1..]) else None
  }

  ghost predicate Stocked(s: State) {
    forall i :: 0 <= i < |s.chain| ==>
      && s.chain[i] in s.heap && s.heap[s.chain[i]].data.Some?
      && s.chain[i] in s.phase && s.phase[s.chain[i]] == Linked
  }

  /** The abstract stack: the data along the chain from `head_`. */
  ghost function Stack(s: State): seq<Value>
    requires Stocked(s)
  {
    seq(|s.chain|, i requires 0 <= i < |s.chain| => s.heap[s.chain[i]].data.value)
  }

  /** What a thread at pc did last, for a thread that is not idle. */
  function Expected(s: State, t: nat, pc: Pc): OpEvent
    requires !pc.Idle? && (pc.SwapData? ==> pc.a in s.heap)
  {
    match pc
    case PushLoad(_, v) => Called(t, Push(v))
    case PushCas(_, v) => Called(t, Push(v))
    case PopLoad => Called(t, Pop)
    case Reserve(seen) => Looked(t, seen)
    case Reserved(_, _) => Called(t, Pop)
    case PopCas(_, _, _) => Called(t, Pop)
    case SwapData(a, _) => Took(t, Pop, s.heap[a].data)
    case Transfer(_, _, res) => Took(t, Pop, res)
    case FreePopped(_, res) => Took(t, Pop, res)
    case Release(_, seen) => Looked(t, seen)
    case Fence(_, seen) => Looked(t, seen)
    case FreeReleased(_, seen) => Looked(t, seen)
    case Done(op, res) => Took(t, op, res)
  }

  function Looked(t: nat, seen: Counted): OpEvent {
    if seen.ptr.Null? then Took(t, Pop, None) else Called(t, Pop)
  }

  ghost predicate ThreadLogged(s: State, t: nat)
    requires t < |s.pcs|
  {
    var pc := s.pcs[t];
    var last := Last(s.log, t);
    if pc.Idle? then last.None? || last.value.Returned?
    else
      && (pc.SwapData? ==> pc.a in s.heap && pc.a in s.phase && s.phase[pc.a] == Unlinked(t))
      && last == Some(Expected(s, t, pc))
  }

  ghost predicate LogOk(s: State) {
    && Stocked(s)
    && WellFormed(s.log)
    && Replay([], s.log, OnStack) == Some(Stack(s))
    && forall t :: 0 <= t < |s.pcs| ==> ThreadLogged(s, t)
  }

  ghost predicate Same(s: State, s': State, a: Addr) {
    && a in s.heap && a in s'.heap && s'.heap[a].data == s.heap[a].data
    && a in s.phase && a in s'.phase && s'.phase[a] == s.phase[a]
  }

  /** Thread t does not disturb the data that another thread's unlinked node still carries. */
  ghost predicate SparesUnlinked(s: State, s': State, t: nat) {
    forall a :: a in s.heap && a in s.phase && s.phase[a].Unlinked? && s.phase[a].owner != t ==> Same(s, s', a)
  }

  ghost predicate SparesLinked(s: State, s': State) {
    s'.chain == s.chain && forall a :: a in s.heap && a in s.phase && s.phase[a] == Linked ==> Same(s, s', a)
  }

  ghost predicate Moves(s: State, s': State, t: nat)
    requires t < |s.pcs|
  {
    |s'.pcs| == |s.pcs| && s'.pcs == s.pcs[t := s'.pcs[t]]
  }

  lemma OthersLogged(s: State, s': State, t: nat)
    requires t < |s.pcs| && LogOk(s) && SparesUnlinked(s, s', t) && Moves(s, s', t)
    requires s'.log == s.log || (s.log < s'.log && |s'.log| == |s.log| + 1 && s'.log[|s.log|].t == t)
    ensures forall u :: 0 <= u < |s.pcs| && u != t ==> ThreadLogged(s', u)
  {
    if s'.log != s.log {
      assert s'.log == s.log + [s'.log[|s.log|]];
      LastAfter(s.log, s'.log[|s.log|]);
    }
    forall u | 0 <= u < |s.pcs| && u != t ensures ThreadLogged(s', u) {
      assert ThreadLogged(s, u);
      if s.pcs[u].SwapData? { assert Same(s, s', s.pcs[u].a); }
    }
  }

  lemma StackKept(s: State, s': State)
    requires Stocked(s) && SparesLinked(s, s')
    ensures Stocked(s') && Stack(s') == Stack(s)
  {
    forall i | 0 <= i < |s.chain| ensures Same(s, s', s.chain[i]) {}
  }

  lemma Silent(s: State, s': State, t: nat)
    requires t < |s.pcs| && LogOk(s) && SparesUnlinked(s, s', t) && SparesLinked(s, s') && Moves(s, s', t)
    requires s'.log == s.log && ThreadLogged(s', t)
    ensures LogOk(s')
  {
    StackKept(s, s');
    OthersLogged(s, s', t);
  }

  lemma Speaks(s: State, s': State, t: nat, e: OpEvent)
    requires t < |s.pcs| && LogOk(s) && SparesUnlinked(s, s', t) && Moves(s, s', t)
    requires s'.log == s.log + [e] && e.t == t && Follows(s.log, e)
    requires if e.Took? then Stocked(s') && OnStack(Stack(s), e.op, e.res) == Some(Stack(s')) else SparesLinked(s, s')
    requires Last(s.log + [e], t) == Some(e) ==> ThreadLogged(s', t)
    ensures LogOk(s')
  {
    LastAfter(s.log, e);
    WellFormedAfter(s.log, e);
    ReplayAfter([], s.log, e, OnStack);
    if !e.Took? { StackKept(s, s'); }
    OthersLogged(s, s', t);
  }

  lemma ObserveLogs(s: State, t: nat, pc: Pc)
    requires t < |s.pcs| && LogOk(s) && s.head.ptr == PtrTo(s.chain, 0)
    requires Last(s.log, t) == Some(Called(t, Pop))
    requires (pc.Reserve? || pc.Release?) && pc.seen == s.head
    ensures LogOk(Observe(s, t, pc))
  {
    var s' := Observe(s, t, pc);
    StackKept(s, s');
    if s.head.ptr.Null? {
      Speaks(s, s', t, Took(t, Pop, None));
    } else {
      Silent(s, s', t);
    }
  }

  lemma IdleLogs(s: State, t: nat, act: Action)
    requires t < |s.pcs| && LogOk(s) && s.heap.Keys == s.phase.Keys && s.pcs[t].Idle?
    ensures LogOk(StepIdle(s, t, act))
  {
    var s' := StepIdle(s, t, act);
    assert ThreadLogged(s, t);
    match act
    case CallPush(v, p) => if p !in s.heap { Speaks(s, s', t, Called(t, Push(v))); }
    case CallPop => Speaks(s, s', t, Called(t, Pop));
    case _ =>
  }

  lemma PublishLogs(s: State, t: nat, p: Addr, v: Value, s': State)
    requires t < |s.pcs| && LogOk(s) && s.heap.Keys == s.phase.Keys && s.pcs[t] == PushCas(p, v)
    requires p in s.heap && s.phase[p] == Private(t) && s.heap[p].data == Some(v)
    requires s' == Logged(Goto(s.(head := Counted(1, At(p)), chain := [p] + s.chain, phase := s.phase[p := Linked]),
                               t, Done(Push(v), None)), Took(t, Push(v), None))
    ensures LogOk(s')
  {
    assert ThreadLogged(s, t);
    assert Stocked(s') && Stack(s') == [v] + Stack(s);
    Speaks(s, s', t, Took(t, Push(v), None));
  }

  lemma RetryLogs(s: State, t: nat, p: Addr, v: Value)
    requires t < |s.pcs| && LogOk(s) && s.heap.Keys == s.phase.Keys && s.pcs[t] == PushCas(p, v)
    requires p in s.heap && s.phase[p] == Private(t)
    ensures LogOk(s.(heap := s.heap[p := s.heap[p].(next := s.head)]))
  {
    assert ThreadLogged(s, t);
    Silent(s, s.(heap := s.heap[p := s.heap[p].(next := s.head)]), t);
  }

  lemma PopCasLogs(s: State, t: nat, a: Addr, ext: int, nxt: Counted)
    requires t < |s.pcs| && LogOk(s) && s.heap.Keys == s.phase.Keys && s.pcs[t] == PopCas(a, ext, nxt)
    requires s.head.ptr == PtrTo(s.chain, 0)
    requires forall i, j :: 0 <= i < j < |s.chain| ==> s.chain[i] != s.chain[j]
    ensures LogOk(StepPopCas(s, t, a, ext, nxt))
  {
    var s' := StepPopCas(s, t, a, ext, nxt);
    assert ThreadLogged(s, t);
    if s.head == Counted(ext, At(a)) {
      assert s.chain[0] == a;
      assert Stocked(s') && Stack(s') == Stack(s)[1..];
      Speaks(s, s', t, Took(t, Pop, s.heap[a].data));
    } else {
      ObserveLogs(s, t, Release(a, s.head));
    }
  }

  lemma ReserveLogs(s: State, t: nat, seen: Counted)
    requires t < |s.pcs| && LogOk(s) && s.head.ptr == PtrTo(s.chain, 0) && s.pcs[t] == Reserve(seen)
    ensures LogOk(StepReserve(s, t, seen))
  {
    assert ThreadLogged(s, t);
    if seen.ptr.Null? || s.head == seen {
      Silent(s, StepReserve(s, t, seen), t);
    } else {
      ObserveLogs(s, t, Reserve(s.head));
    }
  }

  /** A step that records nothing and is about node x only. */
  lemma NodeLogs(s: State, s': State, t: nat, x: Addr)
    requires t < |s.pcs| && LogOk(s) && s.heap.Keys == s.phase.Keys && Moves(s, s', t)
    requires s'.log == s.log && s'.chain == s.chain
    requires forall a :: a in s.heap && a != x ==> Same(s, s', a)
    requires x in s.heap ==>
      Same(s, s', x) || (s.phase[x] != Linked && (s.phase[x].Unlinked? ==> s.phase[x].owner == t))
    requires ThreadLogged(s', t)
    ensures LogOk(s')
  {
    Silent(s, s', t);
  }

  lemma PushLoadLogs(s: State, t: nat, act: Action)
    requires t < |s.pcs| && LogOk(s) && s.heap.Keys == s.phase.Keys && ThreadOk(s, t)
    requires s.pcs[t].PushLoad?
    ensures LogOk(Next(s, t, act))
  {
    assert ThreadLogged(s, t);
    NodeLogs(s, Next(s, t, act), t, s.pcs[t].p);
  }

  /** Reading `ptr->next` and the fence change no node. */
  lemma ReadLogs(s: State, t: nat, act: Action)
    requires t < |s.pcs| && LogOk(s) && s.heap.Keys == s.phase.Keys && ThreadOk(s, t)
    requires (s.pcs[t].Reserved? || s.pcs[t].Fence?)
    ensures LogOk(Next(s, t, act))
  {
    assert ThreadLogged(s, t);
    NodeLogs(s, Next(s, t, act), t, s.pcs[t].a);
  }

  lemma SwapDataLogs(s: State, t: nat, act: Action)
    requires t < |s.pcs| && LogOk(s) && s.heap.Keys == s.phase.Keys && ThreadOk(s, t)
    requires s.pcs[t].SwapData?
    ensures LogOk(Next(s, t, act))
  {
    assert ThreadLogged(s, t);
    NodeLogs(s, Next(s, t, act), t, s.pcs[t].a);
  }

  lemma TransferLogs(s: State, t: nat, act: Action)
    requires t < |s.pcs| && LogOk(s) && s.heap.Keys == s.phase.Keys && ThreadOk(s, t)
    requires s.pcs[t].Transfer?
    ensures LogOk(Next(s, t, act))
  {
    assert ThreadLogged(s, t);
    NodeLogs(s, Next(s, t, act), t, s.pcs[t].a);
  }

  lemma FreeLogs(s: State, t: nat, act: Action)
    requires t < |s.pcs| && LogOk(s) && s.heap.Keys == s.phase.Keys && ThreadOk(s, t)
    requires (s.pcs[t].FreePopped? || s.pcs[t].FreeReleased?)
    ensures LogOk(Next(s, t, act))
  {
    assert ThreadLogged(s, t);
    NodeLogs(s, Next(s, t, act), t, s.pcs[t].a);
  }

  lemma ReleaseLogs(s: State, t: nat, act: Action)
    requires t < |s.pcs| && LogOk(s) && s.heap.Keys == s.phase.Keys && ThreadOk(s, t)
    requires s.pcs[t].Release? && LastHolderMayFree(s, s.pcs[t].a)
    ensures LogOk(Next(s, t, act))
  {
    assert ThreadLogged(s, t);
    NodeLogs(s, Next(s, t, act), t, s.pcs[t].a);
  }

  /** A count of one that a holder gives back is the last reference to a node the popper has done with. */
  predicate LastHolderMayFree(s: State, a: Addr)
    requires s.heap.Keys == s.phase.Keys && a in s.heap
  {
    s.heap[a].internal == 1 ==> s.phase[a] == Transferred
  }

  lemma HolderMayFree(s: Sound, t: nat, a: Addr)
    requires t < |s.pcs| && a in s.heap && Holds(s.pcs[t], a)
    ensures LastHolderMayFree(s, a)
  {
    RefsPositive(s.pcs, t, |s.pcs|, a);
    assert NodeOk(s, a);
  }

  lemma PushCasLogs(s: Sound, t: nat, act: Action)
    requires t < |s.pcs| && LogOk(s) && s.pcs[t].PushCas?
    ensures LogOk(Next(s, t, act))
  {
    var p, v := s.pcs[t].p, s.pcs[t].v;
    assert ThreadOk(s, t) && NodeOk(s, p);
    if s.head == s.heap[p].next && act != Spurious { PublishLogs(s, t, p, v, Next(s, t, act)); }
    else { RetryLogs(s, t, p, v); }
  }

  lemma DoneLogs(s: State, t: nat, act: Action)
    requires t < |s.pcs| && LogOk(s) && s.pcs[t].Done?
    ensures LogOk(Next(s, t, act))
  {
    assert ThreadLogged(s, t);
    Speaks(s, Next(s, t, act), t, Returned(t, s.pcs[t].op, s.pcs[t].res));
  }

  lemma StepLogs(s: Sound, t: nat, act: Action)
    requires t < |s.pcs| && LogOk(s)
    ensures LogOk(Next(s, t, act))
  {
    assert ThreadOk(s, t);
    match s.pcs[t]
    case Idle => IdleLogs(s, t, act);
    case PushLoad(_, _) => PushLoadLogs(s, t, act);
    case PushCas(_, _) => PushCasLogs(s, t, act);
    case PopLoad =>
      assert ThreadLogged(s, t);
      ObserveLogs(s, t, Reserve(s.head));
    case Reserve(seen) => ReserveLogs(s, t, seen);
    case Reserved(_, _) => ReadLogs(s, t, act);
    case PopCas(a, ext, nxt) => PopCasLogs(s, t, a, ext, nxt);
    case SwapData(_, _) => SwapDataLogs(s, t, act);
    case Transfer(_, _, _) => TransferLogs(s, t, act);
    case FreePopped(_, _) => FreeLogs(s, t, act);
    case Release(a, _) =>
      HolderMayFree(s, t, a);
      ReleaseLogs(s, t, act);
    case Fence(_, _) => ReadLogs(s, t, act);
    case FreeReleased(_, _) => FreeLogs(s, t, act);
    case Done(_, _) => DoneLogs(s, t, act);
  }

  // ---------------------------------------------------------------- main results

  lemma {:induction false} RunsOn(s: Sound, schedule: seq<Choice>) returns (s': Sound)
    requires LogOk(s)
    ensures s' == Run(s, schedule) && LogOk(s')
    decreases |schedule|
  {
    s' := s;
    if schedule != [] {
      var c := schedule[0];
      if c.t < |s.pcs| {
        s' := StepKeeps(s, c.t, c.act);
        StepLogs(s, c.t, c.act);
      }
      s' := RunsOn(s', schedule[1..]);
    }
  }

  /** Every run of any number of threads keeps the accounting and the log in order. */
  lemma EveryRun(n: nat, schedule: seq<Choice>) returns (s: Sound)
    ensures s == Run(Init(n), schedule) && LogOk(s)
  {
    InitOk(n);
    assert Stack(Init(n)) == [];
    s := RunsOn(Init(n), schedule);
  }

  /** The threads that hold a reference to a. */
  function Holders(pcs: seq<Pc>, a: Addr): set<nat> {
    set t: nat | t < |pcs| && Holds(pcs[t], a)
  }

  lemma {:induction false} RefsAreHolders(pcs: seq<Pc>, n: nat, a: Addr)
    requires n <= |pcs|
    ensures RefsUpTo(pcs, n, a) == |Holders(pcs[..n], a)|
  {
    if n > 0 {
      RefsAreHolders(pcs, n - 1, a);
      var before, now := Holders(pcs[..n - 1], a), Holders(pcs[..n], a);
      assert now == before + if Holds(pcs[n - 1], a) then {n - 1} else {};
    }
  }

  /**
   The split counts in every reachable state.  Linked: external - 1 + internal counts the holders;
   unlinked but not yet transferred: the same with the external count the unlinking thread read,
   less its own reference; afterwards: internal alone.  A node about to be freed has no holder.
   */
  lemma CountsInEveryRun(n: nat, schedule: seq<Choice>)
    ensures var s := Run(Init(n), schedule);
      && s.heap.Keys == s.phase.Keys && ChainOk(s)
      && (forall i :: 0 <= i < |s.chain| ==>
            External(s, i) - 1 + s.heap[s.chain[i]].internal == |Holders(s.pcs, s.chain[i])|)
      && forall a :: a in s.heap ==>
           match s.phase[a]
           case Private(t) => Holders(s.pcs, a) == {}
           case Linked => a in s.chain
           case Unlinked(t) =>
             t < |s.pcs| && Unlinking(s.pcs[t]) && s.pcs[t].a == a &&
             s.pcs[t].ext - 2 + s.heap[a].internal == |Holders(s.pcs, a)|
           case Transferred => s.heap[a].internal == |Holders(s.pcs, a)| >= 1
           case Dying(t) => Holders(s.pcs, a) == {}
  {
    var s := EveryRun(n, schedule);
    assert s.pcs[..|s.pcs|] == s.pcs;
    forall a ensures Refs(s.pcs, a) == |Holders(s.pcs, a)| { RefsAreHolders(s.pcs, |s.pcs|, a); }
    forall i | 0 <= i < |s.chain|
      ensures External(s, i) - 1 + s.heap[s.chain[i]].internal == |Holders(s.pcs, s.chain[i])|
    {
      assert CountAt(s, i);
    }
    forall a | a in s.heap ensures NodeOk(s, a) {}
  }

  /** No step of any run dereferences a freed node or frees one twice. */
  lemma NeverTouchesFreedMemory(n: nat, schedule: seq<Choice>)
    ensures !Run(Init(n), schedule).fault
  {
    var s := EveryRun(n, schedule);
  }

  /** The linearization points of any run, in order, are a history of the sequential stack that ends in the chain. */
  lemma Linearizable(n: nat, schedule: seq<Choice>)
    ensures var s := Run(Init(n), schedule);
      WellFormed(s.log) && Stocked(s) && Replay([], s.log, OnStack) == Some(Stack(s))
  {
    var s := EveryRun(n, schedule);
  }

  /** Every return in any run follows its own call and its own linearization point, which had the same result. */
  lemma ReturnsExplained(n: nat, schedule: seq<Choice>, i: nat) returns (j: nat, k: nat)
    requires var log := Run(Init(n), schedule).log; i < |log| && log[i].Returned?
    ensures var log := Run(Init(n), schedule).log;
      && j < k < i && log[j] == Called(log[i].t, log[i].op) && log[k] == Took(log[i].t, log[i].op, log[i].res)
      && QuietAfter(log[..k], j, log[i].t) && QuietAfter(log[..i], k, log[i].t)
  {
    var s := EveryRun(n, schedule);
    k := Bracketed(s.log, i);
    j := Bracketed(s.log, k);
  }

  ghost predicate Quiescent(s: State) {
    forall t :: 0 <= t < |s.pcs| ==> s.pcs[t].Idle?
  }

  lemma NoHolders(s: State, a: Addr)
    requires Quiescent(s)
    ensures Refs(s.pcs, a) == 0
  {
    RefsZero(s.pcs, |s.pcs|, a);
  }

  /** Once no operation is running, the allocated nodes are exactly those on the chain: every popped node was freed. */
  lemma QuiescentOwnsOnlyChain(s: Sound)
    requires Quiescent(s)
    ensures forall a :: a in s.heap <==> a in s.chain
    ensures forall i :: 0 <= i < |s.chain| ==> External(s, i) - 1 + s.heap[s.chain[i]].internal == 0
  {
    forall a | a in s.heap ensures a in s.chain {
      NoHolders(s, a);
      assert NodeOk(s, a);
    }
    forall i | 0 <= i < |s.chain| ensures External(s, i) - 1 + s.heap[s.chain[i]].internal == 0 {
      NoHolders(s, s.chain[i]);
      assert CountAt(s, i);
    }
  }

  // ---------------------------------------------------------------- a thread that runs alone ends its call

  /** k steps of thread t. */
  function Goes(t: nat, k: nat): seq<Choice> {
    if k == 0 then [] else [Choice(t, Go)] + Goes(t, k - 1)
  }

  lemma RunGo(s: State, t: nat, k: nat)
    requires t < |s.pcs| && k > 0
    ensures Run(s, Goes(t, k)) == Run(Next(s, t, Go), Goes(t, k - 1))
  {
    assert Goes(t, k)[1..] == Goes(t, k - 1);
  }

  lemma {:induction false} GoIdle(s: State, t: nat, k: nat)
    requires t < |s.pcs| && s.pcs[t].Idle?
    ensures Run(s, Goes(t, k)) == s
  {
    if k > 0 {
      RunGo(s, t, k);
      GoIdle(s, t, k - 1);
    }
  }

  /** How many steps of its own thread t needs to end its call if nobody else moves. */
  function StepsLeft(s: State, t: nat): nat
    requires t < |s.pcs|
  {
    match s.pcs[t]
    case Idle => 0
    case PushLoad(_, _) => 3
    case PushCas(p, _) => if p in s.heap && s.heap[p].next == s.head then 2 else 3
    case PopLoad => 8
    case Reserve(seen) => ReserveSteps(s, seen)
    case Reserved(a, ext) => if s.head == Counted(ext, At(a)) then 6 else 12
    case PopCas(a, ext, _) => if s.head == Counted(ext, At(a)) then 5 else 11
    case SwapData(_, _) => 4
    case Transfer(_, _, _) => 3
    case FreePopped(_, _) => 2
    case Release(_, seen) => 3 + ReserveSteps(s, seen)
    case Fence(_, seen) => 2 + ReserveSteps(s, seen)
    case FreeReleased(_, seen) => 1 + ReserveSteps(s, seen)
    case Done(_, _) => 1
  }

  function ReserveSteps(s: State, seen: Counted): nat {
    if seen.ptr.Null? then 2 else if s.head == seen then 7 else 8
  }

  /** Each step of a thread that runs alone brings it nearer to the end of its call, in particular one that retries. */
  lemma StepsDown(s: Sound, t: nat)
    requires t < |s.pcs| && !s.pcs[t].Idle?
    ensures var s' := Next(s, t, Go);
      |s'.pcs| == |s.pcs| && StepsLeft(s', t) < StepsLeft(s, t)
  {
    assert ThreadOk(s, t);
    match s.pcs[t]
    case PopLoad => LookingDown(s, t);
    case Reserve(_) => LookingDown(s, t);
    case PopCas(_, _, _) => LookingDown(s, t);
    case Release(_, _) => LeavingDown(s, t);
    case Fence(_, _) => LeavingDown(s, t);
    case FreeReleased(_, _) => LeavingDown(s, t);
    case _ => OwnDown(s, t);
  }

  lemma LookingDown(s: State, t: nat)
    requires t < |s.pcs| && (s.pcs[t].PopLoad? || s.pcs[t].Reserve? || s.pcs[t].PopCas?)
    ensures var s' := Next(s, t, Go);
      |s'.pcs| == |s.pcs| && StepsLeft(s', t) < StepsLeft(s, t)
  {}

  lemma LeavingDown(s: State, t: nat)
    requires t < |s.pcs| && (s.pcs[t].Release? || s.pcs[t].Fence? || s.pcs[t].FreeReleased?) && s.pcs[t].a in s.heap
    ensures var s' := Next(s, t, Go);
      |s'.pcs| == |s.pcs| && StepsLeft(s', t) < StepsLeft(s, t)
  {}

  lemma OwnDown(s: State, t: nat)
    requires t < |s.pcs|
    requires var pc := s.pcs[t];
      || pc.Done? || (Pushing(pc) && pc.p in s.heap)
      || ((pc.Reserved? || Unlinking(pc) || pc.FreePopped?) && pc.a in s.heap)
    ensures var s' := Next(s, t, Go);
      |s'.pcs| == |s.pcs| && StepsLeft(s', t) < StepsLeft(s, t)
  {}

  /** Thread t moves and records at most one event, which is no call. */
  ghost predicate Records(s: State, s': State, t: nat)
    requires t < |s.pcs|
  {
    Moves(s, s', t) && (s'.log == s.log || RecordsOne(s.log, s'.log, t))
  }

  predicate RecordsOne(log: seq<OpEvent>, log': seq<OpEvent>, t: nat) {
    |log'| == |log| + 1 && log' == log + [log'[|log|]] && log'[|log|].t == t && !log'[|log|].Called?
  }

  lemma ObserveRecords(s: State, t: nat, pc: Pc)
    requires t < |s.pcs|
    ensures Records(s, Observe(s, t, pc), t)
  {}

  lemma PopRecords(s: State, t: nat)
    requires t < |s.pcs| && (s.pcs[t].PopLoad? || s.pcs[t].Reserve? || s.pcs[t].PopCas?)
    ensures Records(s, Next(s, t, Go), t)
  {
    var pc := s.pcs[t];
    ObserveRecords(s, t, Reserve(s.head));
    if pc.PopCas? { ObserveRecords(s, t, Release(pc.a, s.head)); }
  }

  lemma NodeRecords(s: State, t: nat)
    requires t < |s.pcs| && !s.pcs[t].PopLoad? && !s.pcs[t].Reserve? && !s.pcs[t].PopCas?
    ensures Records(s, Next(s, t, Go), t)
  {}

  lemma GoRecords(s: State, t: nat)
    requires t < |s.pcs|
    ensures Records(s, Next(s, t, Go), t)
  {
    if s.pcs[t].PopLoad? || s.pcs[t].Reserve? || s.pcs[t].PopCas? { PopRecords(s, t); } else { NodeRecords(s, t); }
  }

  /** One step of thread t alone, from which it ends its call as s' says. */
  lemma EndsAfter(s: Sound, s1: Sound, s': Sound, t: nat)
    requires t < |s.pcs| && s1 == Next(s, t, Go) && LogOk(s) && LogOk(s1) && LogOk(s')
    requires Finished(s1.log, s'.log, t, Stack(s1), Stack(s'), OnStack)
    ensures Finished(s.log, s'.log, t, Stack(s), Stack(s'), OnStack)
  {
    GoRecords(s, t);
    if s1.log != s.log {
      FinishedAfter([], s.log, s1.log[|s.log|], s'.log, t, Stack(s), Stack(s1), Stack(s'), OnStack);
    }
  }

  lemma {:induction false} EndsAlone(s: Sound, t: nat, k: nat) returns (s': Sound)
    requires t < |s.pcs| && LogOk(s) && k >= StepsLeft(s, t)
    ensures s' == Run(s, Goes(t, k)) && LogOk(s') && s'.pcs == s.pcs[t := Idle]
    ensures Finished(s.log, s'.log, t, Stack(s), Stack(s'), OnStack)
    decreases k
  {
    if s.pcs[t].Idle? {
      assert ThreadLogged(s, t);
      GoIdle(s, t, k);
      s' := s;
    } else {
      var s1 := GoesOn(s, t, k);
      s' := EndsAlone(s1, t, k - 1);
      EndsAfter(s, s1, s', t);
    }
  }

  lemma GoesOn(s: Sound, t: nat, k: nat) returns (s1: Sound)
    requires t < |s.pcs| && LogOk(s) && k >= StepsLeft(s, t) && !s.pcs[t].Idle?
    ensures k > 0 && s1 == Next(s, t, Go) && LogOk(s1) && Moves(s, s1, t) && StepsLeft(s1, t) < StepsLeft(s, t)
    ensures Run(s, Goes(t, k)) == Run(s1, Goes(t, k - 1))
  {
    StepsDown(s, t);
    s1 := StepKeeps(s, t, Go);
    StepLogs(s, t, Go);
    RunGo(s, t, k);
    GoRecords(s, t);
  }

  /**
   From every reachable state a thread that runs alone has ended its call after at most twelve steps, wherever in it it
   was.  If its operation had not yet taken effect, it takes effect on the stack as it was when the thread began to run
   alone: a push puts its value on top, a pop returns the top, or null if there is none.
   */
  lemma AloneItEnds(n: nat, schedule: seq<Choice>, t: nat, k: nat)
    requires t < |Run(Init(n), schedule).pcs| && k >= 12
    ensures var s := Run(Init(n), schedule); var s' := Run(s, Goes(t, k));
      && s'.pcs == s.pcs[t := Idle] && Stocked(s) && Stocked(s')
      && AloneOutcome(s.log, s'.log, t, Stack(s), Stack(s'))
  {
    var s := EveryRun(n, schedule);
    var s' := EndsAloneSoon(s, t, k);
  }

  lemma AtMostTwelve(s: State, t: nat)
    requires t < |s.pcs|
    ensures StepsLeft(s, t) <= 12
  {}

  lemma EndsAloneSoon(s: Sound, t: nat, k: nat) returns (s': Sound)
    requires t < |s.pcs| && LogOk(s) && k >= 12
    ensures s' == Run(s, Goes(t, k)) && s'.pcs == s.pcs[t := Idle] && Stocked(s')
    ensures AloneOutcome(s.log, s'.log, t, Stack(s), Stack(s'))
  {
    AtMostTwelve(s, t);
    s' := EndsAlone(s, t, k);
    Outcome(s.log, s'.log, t, Stack(s), Stack(s'));
  }

  /** What thread t, running alone, does to the log and to the stack until its call has ended. */
  ghost predicate AloneOutcome(log: seq<OpEvent>, log': seq<OpEvent>, t: nat, stack: seq<Value>, stack': seq<Value>) {
    var last: Option<OpEvent> := Last(log, t);
    match last
    case Some(Called(_, Push(v))) => log' == log + Ends(t, Push(v), None) && stack' == [v] + stack
    case Some(Called(_, Pop)) =>
      if stack == [] then log' == log + Ends(t, Pop, None) && stack' == []
      else log' == log + Ends(t, Pop, Some(stack[0])) && stack' == stack[1..]
    case Some(Took(_, op, res)) => log' == log + [Returned(t, op, res)] && stack' == stack
    case _ => log' == log && stack' == stack
  }

  lemma Outcome(log: seq<OpEvent>, log': seq<OpEvent>, t: nat, stack: seq<Value>, stack': seq<Value>)
    requires Finished(log, log', t, stack, stack', OnStack)
    ensures AloneOutcome(log, log', t, stack, stack')
  {}

  /** The operation takes effect and returns. */
  function Ends(t: nat, op: Op, res: Option<Value>): seq<OpEvent> {
    [Took(t, op, res), Returned(t, op, res)]
  }

  // ---------------------------------------------------------------- one operation alone

  /** One `pop` that no other thread interrupts; it needs the last steps only when it has a node to free. */
  function PopAlone(t: nat): seq<Choice> {
    [Choice(t, CallPop)] + Goes(t, 8)
  }

  lemma Overwritten(pcs: seq<Pc>, t: nat, first: Pc, second: Pc)
    requires t < |pcs|
    ensures pcs[t := first][t := second] == pcs[t := second]
  {}

  lemma RemovedAfter<T>(m: map<Addr, T>, a: Addr, x: T)
    ensures m[a := x] - {a} == m - {a}
  {}

  /** The first half of `pop`: read `head_` and reserve a reference to the top. */
  lemma ReserveAlone(s: State, t: nat, k: nat)
    requires k > 1 && t < |s.pcs| && s.pcs[t] == PopLoad && s.head.ptr.At?
    ensures var seen := Counted(s.head.ext + 1, s.head.ptr);
      Run(s, Goes(t, k)) == Run(s.(pcs := s.pcs[t := Reserved(s.head.ptr.a, seen.ext)], head := seen), Goes(t, k - 2))
  {
    var s1 := Goto(s, t, Reserve(s.head));
    RunGo(s, t, k);
    RunGo(s1, t, k - 1);
    Overwritten(s.pcs, t, Reserve(s.head), Reserved(s.head.ptr.a, s.head.ext + 1));
  }

  /** The second half, up to and including the CAS that unlinks the top. */
  lemma UnlinkAlone(s: State, t: nat, a: Addr, ext: int, k: nat)
    requires k > 1 && t < |s.pcs| && s.pcs[t] == Reserved(a, ext) && s.head == Counted(ext, At(a)) && a in s.heap
    ensures
      Run(s, Goes(t, k))
      == Run(s.(pcs := s.pcs[t := SwapData(a, ext)], head := s.heap[a].next,
                chain := if s.chain == [] then [] else s.chain[1..], phase := s.phase[a := Unlinked(t)],
                log := s.log + [Took(t, Pop, s.heap[a].data)]), Goes(t, k - 2))
  {
    var s1 := Goto(s, t, PopCas(a, ext, s.heap[a].next));
    RunGo(s, t, k);
    RunGo(s1, t, k - 1);
    Overwritten(s.pcs, t, s1.pcs[t], SwapData(a, ext));
  }

  lemma FreeAlone(s: State, t: nat, a: Addr, res: Option<Value>, k: nat)
    requires k == 2 && t < |s.pcs| && s.pcs[t] == FreePopped(a, res) && a in s.heap
    ensures Run(s, Goes(t, k))
            == s.(pcs := s.pcs[t := Idle], heap := s.heap - {a}, phase := s.phase - {a},
                  log := s.log + [Returned(t, Pop, res)])
  {
    var s1 := s.(pcs := s.pcs[t := Done(Pop, res)], heap := s.heap - {a}, phase := s.phase - {a});
    RunGo(s, t, k);
    assert Next(s, t, Go) == s1;
    RunGo(s1, t, k - 1);
    assert s1.pcs[t := Idle] == s.pcs[t := Idle];
  }

  /** The rest of `pop`: with no other holder the transfer leaves zero and the node is freed. */
  lemma DiscardAlone(s: State, t: nat, a: Addr, ext: int, k: nat)
    requires k == 4 && t < |s.pcs| && s.pcs[t] == SwapData(a, ext) && a in s.heap && s.heap[a].internal == -(ext - 2)
    ensures Run(s, Goes(t, k))
            == s.(pcs := s.pcs[t := Idle], heap := s.heap - {a}, phase := s.phase - {a},
                  log := s.log + [Returned(t, Pop, s.heap[a].data)])
  {
    var n := s.heap[a];
    var s1 := s.(pcs := s.pcs[t := Transfer(a, ext, n.data)], heap := s.heap[a := n.(data := None)]);
    RunGo(s, t, k);
    assert Next(s, t, Go) == s1;
    TransferAlone(s1, t, a, ext, n.data, k - 1);
    RemovedAfter(s.heap, a, s1.heap[a]);
    Overwritten(s.pcs, t, s1.pcs[t], Idle);
  }

  lemma TransferAlone(s: State, t: nat, a: Addr, ext: int, res: Option<Value>, k: nat)
    requires k == 3 && t < |s.pcs| && s.pcs[t] == Transfer(a, ext, res)
    requires a in s.heap && s.heap[a].internal == -(ext - 2)
    ensures Run(s, Goes(t, k))
            == s.(pcs := s.pcs[t := Idle], heap := s.heap - {a}, phase := s.phase - {a},
                  log := s.log + [Returned(t, Pop, res)])
  {
    var s1 := s.(pcs := s.pcs[t := FreePopped(a, res)], heap := s.heap[a := s.heap[a].(internal := 0)],
                 phase := s.phase[a := Dying(t)]);
    RunGo(s, t, k);
    assert Next(s, t, Go) == s1;
    FreeAlone(s1, t, a, res, k - 1);
    RemovedAfter(s.heap, a, s1.heap[a]);
    RemovedAfter(s.phase, a, Dying(t));
    Overwritten(s.pcs, t, FreePopped(a, res), Idle);
  }

  function PopEvents(t: nat, v: Value): seq<OpEvent> {
    [Called(t, Pop), Took(t, Pop, Some(v)), Returned(t, Pop, Some(v))]
  }

  /** The body of `pop`, of a node that nobody else holds. */
  lemma BodyAlone(s: State, t: nat, a: Addr, k: nat)
    requires k == 8 && t < |s.pcs| && s.pcs[t] == PopLoad && s.head.ptr == At(a) && a in s.heap && s.chain != []
    requires s.head.ext - 1 + s.heap[a].internal == 0
    ensures Run(s, Goes(t, k))
            == s.(pcs := s.pcs[t := Idle], head := s.heap[a].next, chain := s.chain[1..],
                  heap := s.heap - {a}, phase := s.phase - {a},
                  log := s.log + [Took(t, Pop, s.heap[a].data)] + [Returned(t, Pop, s.heap[a].data)])
  {
    var ext := s.head.ext + 1;
    ReserveAlone(s, t, k);
    var s2 := s.(pcs := s.pcs[t := Reserved(a, ext)], head := Counted(ext, At(a)));
    UnlinkAlone(s2, t, a, ext, k - 2);
    var s3 := s.(pcs := s.pcs[t := SwapData(a, ext)], head := s.heap[a].next, chain := s.chain[1..],
                 phase := s.phase[a := Unlinked(t)], log := s.log + [Took(t, Pop, s.heap[a].data)]);
    Overwritten(s.pcs, t, Reserved(a, ext), SwapData(a, ext));
    DiscardAlone(s3, t, a, ext, k - 4);
    Overwritten(s.pcs, t, SwapData(a, ext), Idle);
    RemovedAfter(s.phase, a, Unlinked(t));
  }

  /** An uninterrupted pop of a node that nobody else holds returns the top value and frees the node. */
  lemma PopAloneTakesTop(s: State, t: nat, a: Addr)
    requires t < |s.pcs| && s.pcs[t].Idle? && s.head.ptr == At(a) && a in s.heap && s.heap[a].data.Some?
    requires s.head.ext - 1 + s.heap[a].internal == 0 && s.chain != []
    ensures var s' := Run(s, PopAlone(t));
      && s'.pcs == s.pcs && s'.chain == s.chain[1..] && s'.heap == s.heap - {a}
      && s'.log == s.log + PopEvents(t, s.heap[a].data.value)
  {
    var s1 := s.(pcs := s.pcs[t := PopLoad], log := s.log + [Called(t, Pop)]);
    assert PopAlone(t)[1..] == Goes(t, 8);
    assert Act(s, Choice(t, CallPop)) == s1;
    BodyAlone(s1, t, a, 8);
    assert s1.pcs[t := Idle] == s.pcs;
  }

  function PushEvents(t: nat, v: Value): seq<OpEvent> {
    [Called(t, Push(v)), Took(t, Push(v), None), Returned(t, Push(v), None)]
  }

  /** One `emplace` that no other thread interrupts, with a new node at p. */
  function PushAlone(t: nat, v: Value, p: Addr): seq<Choice> {
    [Choice(t, CallPush(v, p))] + Goes(t, 3)
  }

  lemma StoredTwice(m: map<Addr, Node>, a: Addr, first: Node, second: Node)
    ensures m[a := first][a := second] == m[a := second]
  {}

  lemma PublishAlone(s: State, t: nat, v: Value, p: Addr, k: nat)
    requires k == 3 && t < |s.pcs| && s.pcs[t] == PushLoad(p, v)
    requires p in s.heap && s.heap[p] == Node(Some(v), 0, Counted(0, Null))
    ensures Run(s, Goes(t, k))
            == s.(pcs := s.pcs[t := Idle], head := Counted(1, At(p)), chain := [p] + s.chain,
                  heap := s.heap[p := Node(Some(v), 0, s.head)], phase := s.phase[p := Linked],
                  log := s.log + [Took(t, Push(v), None)] + [Returned(t, Push(v), None)])
  {
    var s1 := Goto(s.(heap := s.heap[p := Node(Some(v), 0, s.head)]), t, PushCas(p, v));
    RunGo(s, t, k);
    RunGo(s1, t, k - 1);
    var s2 := s1.(pcs := s.pcs[t := Done(Push(v), None)], head := Counted(1, At(p)), chain := [p] + s.chain,
                  phase := s.phase[p := Linked], log := s.log + [Took(t, Push(v), None)]);
    Overwritten(s.pcs, t, PushCas(p, v), Done(Push(v), None));
    assert Next(s1, t, Go) == s2;
    RunGo(s2, t, k - 2);
    Overwritten(s.pcs, t, Done(Push(v), None), Idle);
  }

  function NewNode(v: Value, next: Counted): Node { Node(Some(v), 0, next) }

  /** `emplace` is called and makes its node. */
  lemma CallPushAlone(s: State, t: nat, v: Value, p: Addr, k: nat)
    requires k == 3 && t < |s.pcs| && s.pcs[t].Idle? && p !in s.heap
    ensures Run(s, PushAlone(t, v, p))
            == Run(s.(pcs := s.pcs[t := PushLoad(p, v)], heap := s.heap[p := NewNode(v, Counted(0, Null))],
                      phase := s.phase[p := Private(t)], log := s.log + [Called(t, Push(v))]), Goes(t, k))
  {
    assert PushAlone(t, v, p)[1..] == Goes(t, k);
  }

  lemma Restored(pcs: seq<Pc>, t: nat, pc: Pc)
    requires t < |pcs| && pcs[t].Idle?
    ensures pcs[t := pc][t := Idle] == pcs
  {}

  lemma ThreeEvents(log: seq<OpEvent>, e0: OpEvent, e1: OpEvent, e2: OpEvent)
    ensures log + [e0] + [e1] + [e2] == log + [e0, e1, e2]
  {}

  /** An uninterrupted push puts its value on top and changes nothing below. */
  lemma PushAlonePuts(s: State, t: nat, v: Value, p: Addr)
    requires t < |s.pcs| && s.pcs[t].Idle? && p !in s.heap
    ensures var s' := Run(s, PushAlone(t, v, p));
      && s'.pcs == s.pcs && s'.chain == [p] + s.chain && s'.head == Counted(1, At(p))
      && s'.heap == s.heap[p := Node(Some(v), 0, s.head)]
      && s'.log == s.log + PushEvents(t, v)
  {
    var s1 := s.(pcs := s.pcs[t := PushLoad(p, v)], heap := s.heap[p := NewNode(v, Counted(0, Null))],
                 phase := s.phase[p := Private(t)], log := s.log + [Called(t, Push(v))]);
    CallPushAlone(s, t, v, p, 3);
    PublishAlone(s1, t, v, p, 3);
    Restored(s.pcs, t, PushLoad(p, v));
    StoredTwice(s.heap, p, NewNode(v, Counted(0, Null)), NewNode(v, s.head));
    ThreeEvents(s.log, Called(t, Push(v)), Took(t, Push(v), None), Returned(t, Push(v), None));
  }

  // ---------------------------------------------------------------- the destructor

  lemma AtRestTop(s: Sound, t: nat)
    requires Stocked(s) && Quiescent(s) && t < |s.pcs| && s.chain != []
    ensures var a := s.chain[0];
      s.pcs[t].Idle? && s.head.ptr == At(a) && a in s.heap && s.head.ext - 1 + s.heap[a].internal == 0
  {
    QuiescentOwnsOnlyChain(s);
    assert External(s, 0) == s.head.ext;
  }

  /** What an uninterrupted pop leaves in the log when it finds nothing. */
  function EmptyEvents(t: nat): seq<OpEvent> {
    [Called(t, Pop), Took(t, Pop, None), Returned(t, Pop, None)]
  }

  /** The body of a `pop` that reads a null `head_`. */
  lemma EmptyAlone(s: State, t: nat, k: nat)
    requires k >= 3 && t < |s.pcs| && s.pcs[t] == PopLoad && s.head.ptr.Null?
    ensures Run(s, Goes(t, k))
            == s.(pcs := s.pcs[t := Idle], log := s.log + [Took(t, Pop, None)] + [Returned(t, Pop, None)])
  {
    var s1 := s.(pcs := s.pcs[t := Reserve(s.head)], log := s.log + [Took(t, Pop, None)]);
    RunGo(s, t, k);
    RunGo(s1, t, k - 1);
    Overwritten(s.pcs, t, Reserve(s.head), Done(Pop, None));
    var s2 := s1.(pcs := s.pcs[t := Done(Pop, None)]);
    RunGo(s2, t, k - 2);
    Overwritten(s.pcs, t, Done(Pop, None), Idle);
    GoIdle(s.(pcs := s.pcs[t := Idle], log := s.log + [Took(t, Pop, None)] + [Returned(t, Pop, None)]), t, k - 3);
  }

  /** An uninterrupted pop of an empty stack returns nothing and changes nothing. */
  lemma PopAloneEmpty(s: State, t: nat)
    requires t < |s.pcs| && s.pcs[t].Idle? && s.head.ptr.Null?
    ensures Run(s, PopAlone(t)) == s.(log := s.log + EmptyEvents(t))
  {
    var s1 := s.(pcs := s.pcs[t := PopLoad], log := s.log + [Called(t, Pop)]);
    assert PopAlone(t)[1..] == Goes(t, 8);
    assert Act(s, Choice(t, CallPop)) == s1;
    EmptyAlone(s1, t, 8);
    Restored(s.pcs, t, PopLoad);
    ThreeEvents(s.log, Called(t, Pop), Took(t, Pop, None), Returned(t, Pop, None));
  }

  /** The latest `pop` of thread t has returned a null pointer. */
  predicate GotNull(s: State, t: nat) { Last(s.log, t) == Some(Returned(t, Pop, None)) }

  /** The destructor's loop: pop until null is returned.  None when that takes more than `turns` pops. */
  function Destroy(s: State, t: nat, turns: nat): Option<State>
    decreases turns
  {
    if turns == 0 then None
    else
      var s1 := Run(s, PopAlone(t));
      if GotNull(s1, t) then Some(s1) else Destroy(s1, t, turns - 1)
  }

  /** The events of that loop: every value is popped, then there is nothing. */
  function DrainEvents(t: nat, values: seq<Value>): seq<OpEvent> {
    if values == [] then EmptyEvents(t) else PopEvents(t, values[0]) + DrainEvents(t, values[1..])
  }

  lemma StackBelowTop(s: State, s1: State)
    requires Stocked(s) && Stocked(s1) && s.chain != [] && s1.chain == s.chain[1..]
    requires forall a :: a in s1.heap ==> a in s.heap && s1.heap[a].data == s.heap[a].data
    ensures Stack(s) == [s.heap[s.chain[0]].data.value] + Stack(s1)
  {
    forall i | 0 <= i < |s1.chain| ensures s1.chain[i] == s.chain[i + 1] {}
  }

  lemma LastIsReturn(s: State, t: nat, log: seq<OpEvent>, events: seq<OpEvent>)
    requires s.log == log + events && events != [] && events[|events| - 1].t == t
    ensures GotNull(s, t) <==> events[|events| - 1] == Returned(t, Pop, None)
  {}

  lemma DrainOne(s: Sound, t: nat, s1: State)
    requires LogOk(s) && Quiescent(s) && t < |s.pcs| && s.chain != []
    requires s1 == Run(s, PopAlone(t))
    ensures MemoryOk(s1) && LogOk(s1) && s1.pcs == s.pcs && s1.chain == s.chain[1..]
    ensures s1.log == s.log + PopEvents(t, Stack(s)[0]) && Stack(s1) == Stack(s)[1..]
  {
    var _ := RunsOn(s, PopAlone(t));
    AtRestTop(s, t);
    PopAloneTakesTop(s, t, s.chain[0]);
    StackBelowTop(s, s1);
  }

  /** A turn that pops a value is not the last. */
  lemma DestroyOne(s: Sound, t: nat, turns: nat) returns (s1: Sound)
    requires LogOk(s) && Quiescent(s) && t < |s.pcs| && s.chain != [] && turns > 0
    ensures LogOk(s1) && s1.pcs == s.pcs && Stack(s) != [] && Stack(s1) == Stack(s)[1..]
    ensures s1.log == s.log + PopEvents(t, Stack(s)[0])
    ensures Destroy(s, t, turns) == Destroy(s1, t, turns - 1)
  {
    var end := Run(s, PopAlone(t));
    DrainOne(s, t, end);
    LastIsReturn(end, t, s.log, PopEvents(t, Stack(s)[0]));
    s1 := end;
  }

  /** How the destructor's loop, cut off after `turns` turns, ends when it started with these values and this log. */
  predicate Emptied(end: Option<State>, t: nat, turns: nat, log: seq<OpEvent>, values: seq<Value>) {
    if turns <= |values| then end == None
    else
      end.Some? && end.value.heap == map[] && end.value.chain == [] && end.value.log == log + DrainEvents(t, values)
  }

  /** The last turn finds the stack empty, with nothing allocated. */
  lemma DestroyEmpty(s: Sound, t: nat, turns: nat)
    requires LogOk(s) && Quiescent(s) && t < |s.pcs| && s.chain == [] && turns > 0
    ensures Emptied(Destroy(s, t, turns), t, turns, s.log, Stack(s))
  {
    QuiescentOwnsOnlyChain(s);
    PopAloneEmpty(s, t);
    LastIsReturn(Run(s, PopAlone(t)), t, s.log, EmptyEvents(t));
  }

  lemma DestroyNothing(s: State, t: nat, log: seq<OpEvent>, values: seq<Value>)
    ensures Emptied(Destroy(s, t, 0), t, 0, log, values)
  {}

  lemma Associates<T>(a: seq<T>, b: seq<T>, c: seq<T>)
    ensures a + b + c == a + (b + c)
  {}

  lemma EmptiedMore(end: Option<State>, t: nat, turns: nat, log: seq<OpEvent>, values: seq<Value>, log1: seq<OpEvent>)
    requires turns > 0 && values != [] && log1 == log + PopEvents(t, values[0])
    requires Emptied(end, t, turns - 1, log1, values[1..])
    ensures Emptied(end, t, turns, log, values)
  {
    Associates(log, PopEvents(t, values[0]), DrainEvents(t, values[1..]));
  }

  /**
   The destructor run on a stack at rest ends with exactly one pop more than there are values: it has
   popped every value, top first, and leaves no node allocated.
   */
  lemma {:induction false} DestructorFreesAll(s: Sound, t: nat, turns: nat)
    requires LogOk(s) && Quiescent(s) && t < |s.pcs|
    ensures Emptied(Destroy(s, t, turns), t, turns, s.log, Stack(s))
    decreases turns
  {
    if turns == 0 {
      DestroyNothing(s, t, s.log, Stack(s));
    } else if s.chain == [] {
      DestroyEmpty(s, t, turns);
    } else {
      var s1 := DestroyOne(s, t, turns);
      DestructorFreesAll(s1, t, turns - 1);
      EmptiedMore(Destroy(s, t, turns), t, turns, s.log, Stack(s), s1.log);
    }
  }
}
