/**
 The queue with one lock for the head and one for the tail, as a step machine.

 Any number of threads run `push`, `try_pop` and `wait_and_pop`.  Taking a lock, every access to
 `head`, to `tail` and to a field of a node, releasing a lock and freeing a node are steps of their
 own, and steps of different threads interleave in any order.  `new` may hand out any address that
 is not allocated, in particular one that was freed a moment ago.  A step that follows a null
 pointer or touches an address that is not allocated sets `fault`.  A thread waiting on the
 condition variable may wake at any time, so `notify_one` needs no step.

 The steps never read `chain`, `phase` and `log`.  They are history variables: `chain` lists the
 nodes from the head to the dummy at the tail, `phase` says how far each allocated node is in its
 life, `log` records the calls, linearization points and returns.
 */
module TwoLockQueue {
  import opened Prelude
  import opened Histories

  type Addr = nat

  datatype Node = Node(data: Option<Value>, next: Option<Addr>)

  /** `wait`: sleep while the queue is empty.  `early`: the overload that copies the value out before unlinking. */
  datatype Mode = Mode(wait: bool, early: bool)

  datatype Pc =
    | Idle
    | PushLock(p: Addr, v: Value)
    | PushData(p: Addr, v: Value)
    | PushNext(p: Addr, v: Value)
    | PushTail(p: Addr, v: Value)
    | PushUnlock(v: Value)
    | PopLock(m: Mode)
    | TailLock(m: Mode)
    | TailRead(m: Mode)
    | TailUnlock(m: Mode, seen: Addr)
    | Compare(m: Mode, seen: Addr)
    | Asleep(m: Mode)
    | GiveUp
    | CopyOut(m: Mode)
    | MoveHead(m: Mode, res: Option<Value>)
    | Advance(m: Mode, res: Option<Value>, gone: Addr)
    | PopUnlock(m: Mode, res: Option<Value>, gone: Addr)
    | ReadData(m: Mode, gone: Addr)
    | Free(m: Mode, res: Option<Value>, gone: Addr)
    | Done(wait: bool, op: Op, res: Option<Value>)

  /** The life of a node: made by a pusher, linked from head to tail, unlinked by a popper. */
  datatype Phase = Private(owner: nat) | Linked | Unlinked(owner: nat)

  datatype State = State(
    head: Option<Addr>, tail: Addr, heap: map<Addr, Node>, headLock: Option<nat>, tailLock: Option<nat>,
    pcs: seq<Pc>, fault: bool, chain: seq<Addr>, phase: map<Addr, Phase>, log: seq<OpEvent>)

  /** A free thread may start a call; a sleeper goes on at `Wake`. */
  datatype Action = CallPush(v: Value, addr: Addr) | CallPop(m: Mode) | Go | Wake

  // ---------------------------------------------------------------- the steps

  function Goto(s: State, t: nat, pc: Pc): State
    requires t < |s.pcs|
  {
    s.(pcs := s.pcs[t := pc])
  }

  function Logged(s: State, e: OpEvent): State {
    s.(log := s.log + [e])
  }

  function TakeHead(s: State, t: nat, pc: Pc): State
    requires t < |s.pcs|
  {
    if s.headLock.None? then Goto(s.(headLock := Some(t)), t, pc) else s
  }

  function TakeTail(s: State, t: nat, pc: Pc): State
    requires t < |s.pcs|
  {
    if s.tailLock.None? then Goto(s.(tailLock := Some(t)), t, pc) else s
  }

  function Next(s: State, t: nat, act: Action): State
    requires t < |s.pcs|
  {
    match s.pcs[t]
    case Idle => StepIdle(s, t, act)
    case PushLock(p, v) => TakeTail(s, t, PushData(p, v))
    case PushData(p, v) => StepPushData(s, t, p, v)
    case PushNext(p, v) => StepPushNext(s, t, p, v)
    case PushTail(p, v) =>
      Logged(Goto(s.(tail := p, chain := s.chain + [p], phase := s.phase[p := Linked]), t, PushUnlock(v)),
             Took(t, Push(v), None))
    case PushUnlock(v) => Goto(s.(tailLock := None), t, Done(false, Push(v), None))
    case PopLock(m) => TakeHead(s, t, TailLock(m))
    case TailLock(m) => TakeTail(s, t, TailRead(m))
    case TailRead(m) => StepTailRead(s, t, m)
    case TailUnlock(m, seen) => Goto(s.(tailLock := None), t, Compare(m, seen))
    case Compare(m, seen) => StepCompare(s, t, m, seen)
    case Asleep(m) => if act.Wake? then Goto(s, t, PopLock(m)) else s
    case GiveUp => Goto(s.(headLock := None), t, Done(false, Pop, None))
    case CopyOut(m) =>
      if s.head.Some? && s.head.value in s.heap && s.heap[s.head.value].data.Some? then
        Goto(s, t, MoveHead(m, s.heap[s.head.value].data))
      else s.(fault := true)
    case MoveHead(m, res) =>
      if s.head.Some? then Goto(s.(head := None), t, Advance(m, res, s.head.value)) else s.(fault := true)
    case Advance(m, res, gone) => StepAdvance(s, t, m, res, gone)
    case PopUnlock(m, res, gone) =>
      Goto(s.(headLock := None), t, if m.early then Free(m, res, gone) else ReadData(m, gone))
    case ReadData(m, gone) =>
      if gone in s.heap then Goto(s, t, Free(m, s.heap[gone].data, gone)) else s.(fault := true)
    case Free(m, res, gone) =>
      if gone in s.heap then
        Goto(s.(heap := s.heap - {gone}, phase := s.phase - {gone}), t, Done(m.wait, Pop, res))
      else s.(fault := true)
    case Done(_, op, res) => Logged(Goto(s, t, Idle), Returned(t, op, res))
  }

  function StepIdle(s: State, t: nat, act: Action): State
    requires t < |s.pcs|
  {
    match act
    case CallPush(v, p) =>
      if p in s.heap then s
      else Logged(Goto(s.(heap := s.heap[p := Node(None, None)], phase := s.phase[p := Private(t)]), t, PushLock(p, v)),
                  Called(t, Push(v)))
    case CallPop(m) => Logged(Goto(s, t, PopLock(m)), Called(t, Pop))
    case _ => s
  }

  /** `tail->data = new_data` */
  function StepPushData(s: State, t: nat, p: Addr, v: Value): State
    requires t < |s.pcs|
  {
    if s.tail in s.heap then
      Goto(s.(heap := s.heap[s.tail := s.heap[s.tail].(data := Some(v))]), t, PushNext(p, v))
    else s.(fault := true)
  }

  /** `tail->next = std::move(p)` */
  function StepPushNext(s: State, t: nat, p: Addr, v: Value): State
    requires t < |s.pcs|
  {
    if s.tail in s.heap then
      Goto(s.(heap := s.heap[s.tail := s.heap[s.tail].(next := Some(p))]), t, PushTail(p, v))
    else s.(fault := true)
  }

  /** `get_tail` reads `tail`; what it shows settles that a `try_pop` finds nothing. */
  function StepTailRead(s: State, t: nat, m: Mode): State
    requires t < |s.pcs|
  {
    var s1 := Goto(s, t, TailUnlock(m, s.tail));
    if s.head == Some(s.tail) && !m.wait then Logged(s1, Took(t, Pop, None)) else s1
  }

  /** `head.get() == get_tail()`; waiting releases the head lock. */
  function StepCompare(s: State, t: nat, m: Mode, seen: Addr): State
    requires t < |s.pcs|
  {
    if s.head == Some(seen) then
      if m.wait then Goto(s.(headLock := None), t, Asleep(m)) else Goto(s, t, GiveUp)
    else Goto(s, t, if m.early then CopyOut(m) else MoveHead(m, None))
  }

  /** `head = std::move(old_head->next)` */
  function StepAdvance(s: State, t: nat, m: Mode, res: Option<Value>, gone: Addr): State
    requires t < |s.pcs|
  {
    if gone in s.heap then
      Logged(Goto(s.(head := s.heap[gone].next, heap := s.heap[gone := s.heap[gone].(next := None)],
                     chain := if s.chain == [] then [] else s.chain[1..], phase := s.phase[gone := Unlinked(t)]),
                  t, PopUnlock(m, res, gone)),
             Took(t, Pop, s.heap[gone].data))
    else s.(fault := true)
  }

  /** A queue of one dummy node at address d, and n threads. */
  function Init(n: nat, d: Addr): State {
    State(Some(d), d, map[d := Node(None, None)], None, None, seq(n, _ => Idle), false, [d], map[d := Linked], [])
  }

  datatype Choice = Choice(t: nat, act: Action)

  function Act(s: State, c: Choice): State {
    if c.t < |s.pcs| then Next(s, c.t, c.act) else s
  }

  /** The state after a schedule; entries naming no thread are skipped. */
  function Run(s: State, schedule: seq<Choice>): State
    decreases |schedule|
  {
    if schedule == [] then s else Run(Act(s, schedule[0]), schedule[1..])
  }

  // ---------------------------------------------------------------- the invariant

  predicate InHead(pc: Pc) {
    pc.TailLock? || pc.TailRead? || pc.TailUnlock? || pc.Compare? || pc.GiveUp? || pc.CopyOut? || pc.MoveHead? ||
    pc.Advance? || pc.PopUnlock?
  }

  predicate InTail(pc: Pc) {
    pc.PushData? || pc.PushNext? || pc.PushTail? || pc.PushUnlock? || pc.TailRead? || pc.TailUnlock?
  }

  datatype Claim = Claim(a: Addr, phase: Phase)

  /** The node that belongs to thread t alone, and what it is. */
  function Claims(pc: Pc, t: nat): Option<Claim> {
    if pc.PushLock? || pc.PushData? || pc.PushNext? || pc.PushTail? then Some(Claim(pc.p, Private(t)))
    else if pc.PopUnlock? || pc.ReadData? || pc.Free? then Some(Claim(pc.gone, Unlinked(t)))
    else None
  }

  /** Nodes from head to tail, once each; all but the last hold data and lead to the next. */
  ghost predicate ChainOk(s: State) {
    && s.chain != [] && s.tail == s.chain[|s.chain| - 1]
    && (forall i :: 0 <= i < |s.chain| ==>
          s.chain[i] in s.heap && s.chain[i] in s.phase && s.phase[s.chain[i]] == Linked)
    && (forall i, j :: 0 <= i < j < |s.chain| ==> s.chain[i] != s.chain[j])
    && forall i {:trigger LinkAt(s, i)} :: 0 <= i < |s.chain| - 1 ==> LinkAt(s, i)
  }

  predicate LinkAt(s: State, i: nat)
    requires i + 1 < |s.chain| && s.chain[i] in s.heap
  {
    s.heap[s.chain[i]].data.Some? && s.heap[s.chain[i]].next == Some(s.chain[i + 1])
  }

  /** What the owner of a lock is doing; Idle when the lock is free. */
  function OwnerPc(s: State, lock: Option<nat>): Pc {
    if lock.Some? && lock.value < |s.pcs| then s.pcs[lock.value] else Idle
  }

  /** `head` leads to the first node, unless its owner is advancing it; a tail seen under the head lock stays linked. */
  ghost predicate HeadOk(s: State)
    requires ChainOk(s)
  {
    var pc := OwnerPc(s, s.headLock);
    && s.head == (if pc.Advance? then None else Some(s.chain[0]))
    && (pc.TailUnlock? || pc.Compare? ==> pc.seen in s.chain)
    && (pc.CopyOut? || pc.MoveHead? || pc.Advance? ==> |s.chain| > 1)
    && (pc.MoveHead? || pc.Advance? ==> pc.m.early ==> pc.res == s.heap[s.chain[0]].data)
    && (pc.Advance? ==> pc.gone == s.chain[0])
  }

  /** The dummy node is empty, except for what the pusher that owns the tail lock has stored in it. */
  ghost predicate TailOk(s: State)
    requires ChainOk(s)
  {
    var pc := OwnerPc(s, s.tailLock);
    && s.heap[s.tail].data == (if pc.PushNext? || pc.PushTail? then Some(pc.v) else None)
    && s.heap[s.tail].next == (if pc.PushTail? then Some(pc.p) else None)
  }

  ghost predicate NodeOk(s: State, a: Addr)
    requires s.heap.Keys == s.phase.Keys && a in s.heap
  {
    match s.phase[a]
    case Private(t) => t < |s.pcs| && Claims(s.pcs[t], t) == Some(Claim(a, Private(t))) && s.heap[a] == Node(None, None)
    case Linked => a in s.chain
    case Unlinked(t) =>
      t < |s.pcs| && Claims(s.pcs[t], t) == Some(Claim(a, Unlinked(t))) && s.heap[a].data.Some? && s.heap[a].next.None?
  }

  ghost predicate ThreadOk(s: State, t: nat)
    requires t < |s.pcs|
  {
    var pc := s.pcs[t];
    && (InHead(pc) <==> s.headLock == Some(t))
    && (InTail(pc) <==> s.tailLock == Some(t))
    && (Claims(pc, t).Some? ==>
          var c := Claims(pc, t).value; c.a in s.heap && c.a in s.phase && s.phase[c.a] == c.phase)
    && ((pc.PopUnlock? && pc.m.early) || pc.Free? ==> pc.res == s.heap[pc.gone].data)
    && (pc.Done? && pc.wait && pc.op == Pop ==> pc.res.Some?)
  }

  ghost predicate MemoryOk(s: State) {
    && !s.fault
    && s.heap.Keys == s.phase.Keys
    && ChainOk(s) && HeadOk(s) && TailOk(s)
    && (s.headLock.Some? ==> s.headLock.value < |s.pcs|)
    && (s.tailLock.Some? ==> s.tailLock.value < |s.pcs|)
    && (forall a :: a in s.heap ==> NodeOk(s, a))
    && forall t :: 0 <= t < |s.pcs| ==> ThreadOk(s, t)
  }

  lemma InitOk(n: nat, d: Addr)
    ensures MemoryOk(Init(n, d))
  {}

  type Sound = s: State | MemoryOk(s) witness Init(0, 0)

  // ---------------------------------------------------------------- framing: a step is about one address

  /** Thread t moves, and of the heap and the phases only the entry of x may change. */
  ghost predicate Touches(s: State, s': State, t: nat, x: Addr)
    requires t < |s.pcs|
  {
    && !s'.fault
    && |s'.pcs| == |s.pcs| && s'.pcs == s.pcs[t := s'.pcs[t]]
    && s.heap.Keys == s.phase.Keys && s'.heap.Keys == s'.phase.Keys
    && (Claims(s.pcs[t], t).None? || Claims(s'.pcs[t], t) == Claims(s.pcs[t], t) || Claims(s.pcs[t], t).value.a == x)
    && (x in s.phase ==> s.phase[x] in {Linked, Private(t), Unlinked(t)})
    && forall a :: a != x ==> Unchanged(s, s', a)
  }

  ghost predicate Unchanged(s: State, s': State, a: Addr)
    requires s.heap.Keys == s.phase.Keys && s'.heap.Keys == s'.phase.Keys
  {
    && (a in s.heap <==> a in s'.heap)
    && (a in s.heap ==> s'.heap[a] == s.heap[a] && s'.phase[a] == s.phase[a])
    && (a in s.chain <==> a in s'.chain)
  }

  /** Thread t may take or leave a lock; nobody else's changes. */
  ghost predicate LocksOf(lock: Option<nat>, lock': Option<nat>, t: nat) {
    lock' == lock || (lock' in {None, Some(t)} && lock in {None, Some(t)})
  }

  lemma NodesElsewhere(s: Sound, s': State, t: nat, x: Addr)
    requires t < |s.pcs| && Touches(s, s', t, x)
    ensures forall a :: a in s'.heap && a != x ==> NodeOk(s', a)
  {
    forall a | a in s'.heap && a != x ensures NodeOk(s', a) {
      assert Unchanged(s, s', a) && NodeOk(s, a);
    }
  }

  lemma ThreadsElsewhere(s: Sound, s': State, t: nat, x: Addr)
    requires t < |s.pcs| && Touches(s, s', t, x)
    requires LocksOf(s.headLock, s'.headLock, t) && LocksOf(s.tailLock, s'.tailLock, t)
    ensures forall u :: 0 <= u < |s.pcs| && u != t ==> ThreadOk(s', u)
  {
    forall u | 0 <= u < |s.pcs| && u != t ensures ThreadOk(s', u) {
      assert ThreadOk(s, u);
      if Claims(s.pcs[u], u).Some? {
        assert Unchanged(s, s', Claims(s.pcs[u], u).value.a);
      }
    }
  }

  /** The chain stays, and so does what its nodes but the last carry. */
  lemma ChainElsewhere(s: Sound, s': State, t: nat, x: Addr)
    requires t < |s.pcs| && Touches(s, s', t, x)
    requires s'.tail == s.tail && s'.chain == s.chain
    requires x in s.chain ==> x == s.tail && x in s'.phase && s'.phase[x] == Linked
    ensures ChainOk(s')
  {
    forall i | 0 <= i < |s.chain|
      ensures s.chain[i] in s'.heap && s'.phase[s.chain[i]] == Linked
      ensures i < |s.chain| - 1 ==> s'.heap[s.chain[i]] == s.heap[s.chain[i]]
    {
      assert Unchanged(s, s', s.chain[i]) || s.chain[i] == x;
    }
    forall i | 0 <= i < |s'.chain| - 1 ensures LinkAt(s', i) { assert LinkAt(s, i); }
  }

  lemma Settle(s: Sound, s': State, t: nat, x: Addr)
    requires t < |s.pcs| && Touches(s, s', t, x)
    requires LocksOf(s.headLock, s'.headLock, t) && LocksOf(s.tailLock, s'.tailLock, t)
    requires ChainOk(s') && HeadOk(s') && TailOk(s')
    requires x in s'.heap ==> NodeOk(s', x)
    requires ThreadOk(s', t)
    ensures MemoryOk(s')
  {
    NodesElsewhere(s, s', t, x);
    ThreadsElsewhere(s, s', t, x);
    forall u | 0 <= u < |s'.pcs| ensures ThreadOk(s', u) {}
  }

  // ---------------------------------------------------------------- each step keeps the invariant

  /** A step that leaves the nodes and the chain alone. */
  lemma LocalStep(s: Sound, s': State, t: nat)
    requires t < |s.pcs| && |s'.pcs| == |s.pcs| && s'.pcs == s.pcs[t := s'.pcs[t]]
    requires !s'.fault && s'.heap == s.heap && s'.phase == s.phase && s'.tail == s.tail && s'.chain == s.chain
    requires LocksOf(s.headLock, s'.headLock, t) && LocksOf(s.tailLock, s'.tailLock, t)
    requires Claims(s.pcs[t], t) == Claims(s'.pcs[t], t)
    requires ThreadOk(s', t)
    requires ChainOk(s') ==> HeadOk(s') && TailOk(s')
    ensures MemoryOk(s')
  {
    assert Touches(s, s', t, s.tail) by { assert s.tail in s.chain; }
    ChainElsewhere(s, s', t, s.tail);
    assert NodeOk(s, s.tail);
    Settle(s, s', t, s.tail);
  }

  lemma IdleKeeps(s: Sound, t: nat, act: Action) returns (s': Sound)
    requires t < |s.pcs| && s.pcs[t].Idle?
    ensures s' == Next(s, t, act)
  {
    s' := s;
    assert ThreadOk(s, t);
    match act
    case CallPush(v, p) => if p !in s.heap { s' := CallPushKeeps(s, t, v, p); }
    case CallPop(m) =>
      LocalStep(s, Next(s, t, act), t);
      s' := Next(s, t, act);
    case _ =>
  }

  lemma CallPushKeeps(s: Sound, t: nat, v: Value, p: Addr) returns (s': Sound)
    requires t < |s.pcs| && s.pcs[t].Idle? && p !in s.heap
    ensures s' == Next(s, t, CallPush(v, p))
  {
    var n := Next(s, t, CallPush(v, p));
    assert ThreadOk(s, t);
    assert Touches(s, n, t, p);
    ChainElsewhere(s, n, t, p);
    Settle(s, n, t, p);
    s' := n;
  }

  lemma PushLockKeeps(s: Sound, t: nat) returns (s': Sound)
    requires t < |s.pcs| && s.pcs[t].PushLock?
    ensures s' == Next(s, t, Go)
  {
    s' := s;
    assert ThreadOk(s, t);
    if s.tailLock.None? {
      LocalStep(s, Next(s, t, Go), t);
      s' := Next(s, t, Go);
    }
  }

  lemma PopLockKeeps(s: Sound, t: nat) returns (s': Sound)
    requires t < |s.pcs| && s.pcs[t].PopLock?
    ensures s' == Next(s, t, Go)
  {
    s' := s;
    assert ThreadOk(s, t);
    if s.headLock.None? {
      LocalStep(s, Next(s, t, Go), t);
      s' := Next(s, t, Go);
    }
  }

  lemma TailLockKeeps(s: Sound, t: nat) returns (s': Sound)
    requires t < |s.pcs| && s.pcs[t].TailLock?
    ensures s' == Next(s, t, Go)
  {
    s' := s;
    assert ThreadOk(s, t);
    if s.tailLock.None? {
      LocalStep(s, Next(s, t, Go), t);
      s' := Next(s, t, Go);
    }
  }

  lemma PushDataKeeps(s: Sound, t: nat, p: Addr, v: Value) returns (s': Sound)
    requires t < |s.pcs| && s.pcs[t] == PushData(p, v)
    ensures s' == Next(s, t, Go)
  {
    var n := Next(s, t, Go);
    assert ThreadOk(s, t) && s.tail in s.chain;
    assert Touches(s, n, t, s.tail);
    ChainElsewhere(s, n, t, s.tail);
    assert HeadOk(n);
    assert TailOk(n);
    Settle(s, n, t, s.tail);
    s' := n;
  }

  lemma PushNextKeeps(s: Sound, t: nat, p: Addr, v: Value) returns (s': Sound)
    requires t < |s.pcs| && s.pcs[t] == PushNext(p, v)
    ensures s' == Next(s, t, Go)
  {
    var n := Next(s, t, Go);
    assert ThreadOk(s, t) && s.tail in s.chain;
    assert Touches(s, n, t, s.tail);
    ChainElsewhere(s, n, t, s.tail);
    assert HeadOk(n);
    assert TailOk(n);
    Settle(s, n, t, s.tail);
    s' := n;
  }

  lemma PushTailKeeps(s: Sound, t: nat, p: Addr, v: Value) returns (s': Sound)
    requires t < |s.pcs| && s.pcs[t] == PushTail(p, v)
    ensures s' == Next(s, t, Go)
  {
    var n := Next(s, t, Go);
    PushTailMoves(s, n, t, p, v);
    PushTailEnds(s, n, t, p, v);
    Settle(s, n, t, p);
    s' := n;
  }

  /** The new node passes from the pusher to the chain, and nothing else changes hands. */
  lemma PushTailMoves(s: Sound, s': State, t: nat, p: Addr, v: Value)
    requires t < |s.pcs| && s.pcs[t] == PushTail(p, v) && s' == Next(s, t, Go)
    ensures Touches(s, s', t, p) && LocksOf(s.headLock, s'.headLock, t) && LocksOf(s.tailLock, s'.tailLock, t)
    ensures p in s'.heap && NodeOk(s', p) && ThreadOk(s', t)
  {
    assert ThreadOk(s, t);
  }

  /** The new node is the dummy. */
  lemma PushTailEnds(s: Sound, s': State, t: nat, p: Addr, v: Value)
    requires t < |s.pcs| && s.pcs[t] == PushTail(p, v) && s' == Next(s, t, Go) && Touches(s, s', t, p)
    ensures ChainOk(s') && HeadOk(s') && TailOk(s')
  {
    assert ThreadOk(s, t) && NodeOk(s, p);
    LongerChain(s, s', t, p);
  }

  lemma LongerChain(s: Sound, s': State, t: nat, p: Addr)
    requires t < |s.pcs| && Touches(s, s', t, p)
    requires s'.heap == s.heap && s'.phase == s.phase[p := Linked] && s'.chain == s.chain + [p] && s'.tail == p
    requires p in s.heap && p !in s.chain && s.heap[s.tail].data.Some? && s.heap[s.tail].next == Some(p)
    ensures ChainOk(s')
  {
    forall i | 0 <= i < |s'.chain| - 1 ensures LinkAt(s', i) {
      if i < |s.chain| - 1 { assert LinkAt(s, i); }
    }
  }

  lemma UnlockTailKeeps(s: Sound, t: nat) returns (s': Sound)
    requires t < |s.pcs| && (s.pcs[t].PushUnlock? || s.pcs[t].TailUnlock?)
    ensures s' == Next(s, t, Go)
  {
    assert ThreadOk(s, t);
    LocalStep(s, Next(s, t, Go), t);
    s' := Next(s, t, Go);
  }

  lemma TailReadKeeps(s: Sound, t: nat, m: Mode) returns (s': Sound)
    requires t < |s.pcs| && s.pcs[t] == TailRead(m)
    ensures s' == Next(s, t, Go)
  {
    assert ThreadOk(s, t);
    LocalStep(s, Next(s, t, Go), t);
    s' := Next(s, t, Go);
  }

  lemma CompareKeeps(s: Sound, t: nat, m: Mode, seen: Addr) returns (s': Sound)
    requires t < |s.pcs| && s.pcs[t] == Compare(m, seen)
    ensures s' == Next(s, t, Go)
  {
    assert ThreadOk(s, t);
    if s.head == Some(seen) && m.wait { s' := SleepKeeps(s, t, m, seen); }
    else if s.head == Some(seen) {
      LocalStep(s, Goto(s, t, GiveUp), t);
      s' := Goto(s, t, GiveUp);
    }
    else { s' := FoundKeeps(s, t, m, seen); }
  }

  lemma SleepKeeps(s: Sound, t: nat, m: Mode, seen: Addr) returns (s': Sound)
    requires t < |s.pcs| && s.pcs[t] == Compare(m, seen)
    ensures s' == Goto(s.(headLock := None), t, Asleep(m))
  {
    assert ThreadOk(s, t);
    LocalStep(s, Goto(s.(headLock := None), t, Asleep(m)), t);
    s' := Goto(s.(headLock := None), t, Asleep(m));
  }

  /** The tail read under the head lock may be stale, but is still linked: if it is not head, a node comes before it. */
  lemma FoundKeeps(s: Sound, t: nat, m: Mode, seen: Addr) returns (s': Sound)
    requires t < |s.pcs| && s.pcs[t] == Compare(m, seen) && s.head != Some(seen)
    ensures s' == Goto(s, t, if m.early then CopyOut(m) else MoveHead(m, None))
  {
    assert ThreadOk(s, t);
    LocalStep(s, Goto(s, t, if m.early then CopyOut(m) else MoveHead(m, None)), t);
    s' := Goto(s, t, if m.early then CopyOut(m) else MoveHead(m, None));
  }

  lemma AsleepKeeps(s: Sound, t: nat, act: Action) returns (s': Sound)
    requires t < |s.pcs| && s.pcs[t].Asleep?
    ensures s' == Next(s, t, act)
  {
    assert ThreadOk(s, t);
    if act.Wake? { LocalStep(s, Next(s, t, act), t); }
    s' := Next(s, t, act);
  }

  lemma GiveUpKeeps(s: Sound, t: nat) returns (s': Sound)
    requires t < |s.pcs| && s.pcs[t].GiveUp?
    ensures s' == Next(s, t, Go)
  {
    assert ThreadOk(s, t);
    LocalStep(s, Next(s, t, Go), t);
    s' := Next(s, t, Go);
  }

  lemma CopyOutKeeps(s: Sound, t: nat) returns (s': Sound)
    requires t < |s.pcs| && s.pcs[t].CopyOut?
    ensures s' == Next(s, t, Go)
  {
    assert ThreadOk(s, t) && LinkAt(s, 0);
    LocalStep(s, Next(s, t, Go), t);
    s' := Next(s, t, Go);
  }

  lemma MoveHeadKeeps(s: Sound, t: nat) returns (s': Sound)
    requires t < |s.pcs| && s.pcs[t].MoveHead?
    ensures s' == Next(s, t, Go)
  {
    assert ThreadOk(s, t) && LinkAt(s, 0);
    LocalStep(s, Next(s, t, Go), t);
    s' := Next(s, t, Go);
  }

  lemma AdvanceKeeps(s: Sound, t: nat, m: Mode, res: Option<Value>, gone: Addr) returns (s': Sound)
    requires t < |s.pcs| && s.pcs[t] == Advance(m, res, gone)
    ensures s' == Next(s, t, Go)
  {
    var n := Next(s, t, Go);
    assert ThreadOk(s, t) && LinkAt(s, 0);
    forall a | a != gone ensures Unchanged(s, n, a) { TailMember(s.chain, a); }
    assert Touches(s, n, t, gone);
    ShorterChain(s, n, t, gone);
    assert HeadOk(n);
    assert TailOk(n);
    Settle(s, n, t, gone);
    s' := n;
  }

  lemma ShorterChain(s: Sound, s': State, t: nat, gone: Addr)
    requires t < |s.pcs| && Touches(s, s', t, gone)
    requires |s.chain| > 1 && gone == s.chain[0] && s'.chain == s.chain[1..] && s'.tail == s.tail
    ensures ChainOk(s')
  {
    forall i | 0 <= i < |s'.chain| ensures s'.chain[i] == s.chain[i + 1] != gone {}
    forall i | 0 <= i < |s'.chain| ensures s'.chain[i] in s'.heap && s'.phase[s'.chain[i]] == Linked {
      assert Unchanged(s, s', s'.chain[i]);
    }
    forall i | 0 <= i < |s'.chain| - 1 ensures LinkAt(s', i) {
      assert LinkAt(s, i + 1) && Unchanged(s, s', s'.chain[i]);
    }
  }

  lemma UnlockHeadKeeps(s: Sound, t: nat) returns (s': Sound)
    requires t < |s.pcs| && s.pcs[t].PopUnlock?
    ensures s' == Next(s, t, Go)
  {
    assert ThreadOk(s, t);
    LocalStep(s, Next(s, t, Go), t);
    s' := Next(s, t, Go);
  }

  lemma ReadDataKeeps(s: Sound, t: nat) returns (s': Sound)
    requires t < |s.pcs| && s.pcs[t].ReadData?
    ensures s' == Next(s, t, Go)
  {
    assert ThreadOk(s, t);
    LocalStep(s, Next(s, t, Go), t);
    s' := Next(s, t, Go);
  }

  lemma FreeKeeps(s: Sound, t: nat) returns (s': Sound)
    requires t < |s.pcs| && s.pcs[t].Free?
    ensures s' == Next(s, t, Go)
  {
    var n := Next(s, t, Go);
    var x := s.pcs[t].gone;
    FreeMoves(s, n, t, x);
    assert ThreadOk(s, t);
    ChainElsewhere(s, n, t, x);
    FreeEnds(s, n, t, x);
    Settle(s, n, t, x);
    s' := n;
  }

  lemma FreeMoves(s: Sound, s': State, t: nat, x: Addr)
    requires t < |s.pcs| && s.pcs[t].Free? && s.pcs[t].gone == x && s' == Next(s, t, Go)
    ensures Touches(s, s', t, x) && LocksOf(s.headLock, s'.headLock, t) && LocksOf(s.tailLock, s'.tailLock, t)
    ensures x !in s'.heap && ThreadOk(s', t)
  {
    assert ThreadOk(s, t) && NodeOk(s, x);
  }

  lemma FreeEnds(s: Sound, s': State, t: nat, x: Addr)
    requires t < |s.pcs| && s.pcs[t].Free? && s.pcs[t].gone == x && s' == Next(s, t, Go) && ChainOk(s')
    ensures HeadOk(s') && TailOk(s')
  {
    assert ThreadOk(s, t) && NodeOk(s, x);
  }

  lemma DoneKeeps(s: Sound, t: nat) returns (s': Sound)
    requires t < |s.pcs| && s.pcs[t].Done?
    ensures s' == Next(s, t, Go)
  {
    assert ThreadOk(s, t);
    LocalStep(s, Next(s, t, Go), t);
    s' := Next(s, t, Go);
  }

  lemma PushStepKeeps(s: Sound, t: nat) returns (s': Sound)
    requires t < |s.pcs|
    requires var pc := s.pcs[t]; pc.PushLock? || pc.PushData? || pc.PushNext? || pc.PushTail? || pc.PushUnlock?
    ensures s' == Next(s, t, Go)
  {
    match s.pcs[t]
    case PushLock(_, _) => s' := PushLockKeeps(s, t);
    case PushData(p, v) => s' := PushDataKeeps(s, t, p, v);
    case PushNext(p, v) => s' := PushNextKeeps(s, t, p, v);
    case PushTail(p, v) => s' := PushTailKeeps(s, t, p, v);
    case PushUnlock(_) => s' := UnlockTailKeeps(s, t);
  }

  lemma FindStepKeeps(s: Sound, t: nat) returns (s': Sound)
    requires t < |s.pcs| && InHead(s.pcs[t])
    ensures s' == Next(s, t, Go)
  {
    match s.pcs[t]
    case TailLock(_) => s' := TailLockKeeps(s, t);
    case TailRead(m) => s' := TailReadKeeps(s, t, m);
    case TailUnlock(_, _) => s' := UnlockTailKeeps(s, t);
    case Compare(m, seen) => s' := CompareKeeps(s, t, m, seen);
    case GiveUp => s' := GiveUpKeeps(s, t);
    case CopyOut(_) => s' := CopyOutKeeps(s, t);
    case MoveHead(_, _) => s' := MoveHeadKeeps(s, t);
    case Advance(m, res, gone) => s' := AdvanceKeeps(s, t, m, res, gone);
    case PopUnlock(_, _, _) => s' := UnlockHeadKeeps(s, t);
  }

  lemma NextPlain(s: State, t: nat, act: Action)
    requires t < |s.pcs| && !s.pcs[t].Idle? && !s.pcs[t].Asleep?
    ensures Next(s, t, act) == Next(s, t, Go)
  {}
}
