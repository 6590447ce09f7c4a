/**
 The lock-free stack with split reference counts, as a step machine.

 Any number of threads run `emplace` and `pop`.  Every access to `head_`, to a node's
 `internal_count`, to `ptr->next`, to `ptr->data`, and every `delete`, is a step of its own,
 and steps of different threads interleave in any order.  `new` may hand out any address that is
 not allocated, in particular one that was freed a moment ago, so a stale `old_head` may compare
 equal to the head of a later node (the ABA situation).  A step that dereferences or frees an
 address that is not allocated sets `fault`.

 The steps never read `chain`, `phase` and `log`.  They are history variables: `chain` lists the
 addresses that were published and not yet unlinked, `phase` says how far each allocated node is in
 its life, `log` records the calls, linearization points and returns.
 */
module LockFreeStack {
  import opened Prelude
  import opened Histories

  type Addr = nat

  datatype Ptr = Null | At(a: Addr)
  datatype Counted = Counted(ext: int, ptr: Ptr)
  datatype Node = Node(data: Option<Value>, internal: int, next: Counted)

  /** Where a thread stands, with its local variables. */
  datatype Pc =
    | Idle
    | PushLoad(p: Addr, v: Value)
    | PushCas(p: Addr, v: Value)
    | PopLoad
    | Reserve(seen: Counted)
    | Reserved(a: Addr, ext: int)
    | PopCas(a: Addr, ext: int, nxt: Counted)
    | SwapData(a: Addr, ext: int)
    | Transfer(a: Addr, ext: int, res: Option<Value>)
    | FreePopped(a: Addr, res: Option<Value>)
    | Release(a: Addr, seen: Counted)
    | Fence(a: Addr, seen: Counted)
    | FreeReleased(a: Addr, seen: Counted)
    | Done(op: Op, res: Option<Value>)

  /** The life of a node: made by a pusher, linked, unlinked by a popper, left to the holders, about to be freed. */
  datatype Phase = Private(owner: nat) | Linked | Unlinked(owner: nat) | Transferred | Dying(owner: nat)

  datatype State = State(
    head: Counted, heap: map<Addr, Node>, pcs: seq<Pc>, fault: bool,
    chain: seq<Addr>, phase: map<Addr, Phase>, log: seq<OpEvent>)

  /** A free thread may start a call; `Spurious` is the failure `compare_exchange_weak` may report at any time. */
  datatype Action = CallPush(v: Value, addr: Addr) | CallPop | Go | Spurious

  // ---------------------------------------------------------------- the steps

  function Goto(s: State, t: nat, pc: Pc): State
    requires t < |s.pcs|
  {
    s.(pcs := s.pcs[t := pc])
  }

  function Logged(s: State, e: OpEvent): State {
    s.(log := s.log + [e])
  }

  /** Thread t has just read `head_` into its `old_head`; a null read settles that its pop returns nothing. */
  function Observe(s: State, t: nat, pc: Pc): State
    requires t < |s.pcs|
  {
    var s1 := Goto(s, t, pc);
    if s.head.ptr.Null? then Logged(s1, Took(t, Pop, None)) else s1
  }

  function Next(s: State, t: nat, act: Action): State
    requires t < |s.pcs|
  {
    match s.pcs[t]
    case Idle => StepIdle(s, t, act)
    case PushLoad(p, v) => StepPushLoad(s, t, p, v)
    case PushCas(p, v) => StepPushCas(s, t, p, v, act)
    case PopLoad => Observe(s, t, Reserve(s.head))
    case Reserve(seen) => StepReserve(s, t, seen)
    case Reserved(a, ext) =>
      if a in s.heap then Goto(s, t, PopCas(a, ext, s.heap[a].next)) else s.(fault := true)
    case PopCas(a, ext, nxt) => StepPopCas(s, t, a, ext, nxt)
    case SwapData(a, ext) => StepSwapData(s, t, a, ext)
    case Transfer(a, ext, res) => StepTransfer(s, t, a, ext, res)
    case FreePopped(a, res) => StepFree(s, t, a, Done(Pop, res))
    case Release(a, seen) => StepRelease(s, t, a, seen)
    case Fence(a, seen) =>
      if a in s.heap then Goto(s, t, FreeReleased(a, seen)) else s.(fault := true)
    case FreeReleased(a, seen) => StepFree(s, t, a, Reserve(seen))
    case Done(op, res) => Logged(Goto(s, t, Idle), Returned(t, op, res))
  }

  function StepIdle(s: State, t: nat, act: Action): State
    requires t < |s.pcs|
  {
    match act
    case CallPush(v, p) =>
      if p in s.heap then s
      else Logged(Goto(s.(heap := s.heap[p := Node(Some(v), 0, Counted(0, Null))],
                         phase := s.phase[p := Private(t)]), t, PushLoad(p, v)),
                  Called(t, Push(v)))
    case CallPop => Logged(Goto(s, t, PopLoad), Called(t, Pop))
    case _ => s
  }

  function StepPushLoad(s: State, t: nat, p: Addr, v: Value): State
    requires t < |s.pcs|
  {
    if p in s.heap then Goto(s.(heap := s.heap[p := s.heap[p].(next := s.head)]), t, PushCas(p, v))
    else s.(fault := true)
  }

  function StepPushCas(s: State, t: nat, p: Addr, v: Value, act: Action): State
    requires t < |s.pcs|
  {
    if p !in s.heap then s.(fault := true)
    else if s.head == s.heap[p].next && act != Spurious then
      Logged(Goto(s.(head := Counted(1, At(p)), chain := [p] + s.chain, phase := s.phase[p := Linked]),
                  t, Done(Push(v), None)),
             Took(t, Push(v), None))
    else s.(heap := s.heap[p := s.heap[p].(next := s.head)])
  }

  function StepReserve(s: State, t: nat, seen: Counted): State
    requires t < |s.pcs|
  {
    match seen.ptr
    case Null => Goto(s, t, Done(Pop, None))
    case At(a) =>
      if s.head == seen then
        Goto(s.(head := seen.(ext := seen.ext + 1)), t, Reserved(a, seen.ext + 1))
      else Observe(s, t, Reserve(s.head))
  }

  function StepPopCas(s: State, t: nat, a: Addr, ext: int, nxt: Counted): State
    requires t < |s.pcs|
  {
    if s.head == Counted(ext, At(a)) then
      Logged(Goto(s.(head := nxt, chain := if s.chain == [] then [] else s.chain[1..],
                         phase := s.phase[a := Unlinked(t)]), t, SwapData(a, ext)),
             Took(t, Pop, if a in s.heap then s.heap[a].data else None))
    else Observe(s, t, Release(a, s.head))
  }

  function StepSwapData(s: State, t: nat, a: Addr, ext: int): State
    requires t < |s.pcs|
  {
    if a in s.heap then
      Goto(s.(heap := s.heap[a := s.heap[a].(data := None)]), t, Transfer(a, ext, s.heap[a].data))
    else s.(fault := true)
  }

  function StepTransfer(s: State, t: nat, a: Addr, ext: int, res: Option<Value>): State
    requires t < |s.pcs|
  {
    if a in s.heap then
      var increase := ext - 2;
      var n := s.heap[a];
      var s1 := s.(heap := s.heap[a := n.(internal := n.internal + increase)]);
      if n.internal == -increase then Goto(s1.(phase := s.phase[a := Dying(t)]), t, FreePopped(a, res))
      else Goto(s1.(phase := s.phase[a := Transferred]), t, Done(Pop, res))
    else s.(fault := true)
  }

  function StepRelease(s: State, t: nat, a: Addr, seen: Counted): State
    requires t < |s.pcs|
  {
    if a in s.heap then
      var n := s.heap[a];
      var s1 := s.(heap := s.heap[a := n.(internal := n.internal - 1)]);
      if n.internal == 1 then Goto(s1.(phase := s.phase[a := Dying(t)]), t, Fence(a, seen))
      else Goto(s1, t, Reserve(seen))
    else s.(fault := true)
  }

  function StepFree(s: State, t: nat, a: Addr, pc: Pc): State
    requires t < |s.pcs|
  {
    if a in s.heap then Goto(s.(heap := s.heap - {a}, phase := s.phase - {a}), t, pc) else s.(fault := true)
  }

  function Init(n: nat): State {
    State(Counted(0, Null), map[], seq(n, _ => Idle), false, [], map[], [])
  }

  datatype Choice = Choice(t: nat, act: Action)

  function Act(s: State, c: Choice): State {
    if c.t < |s.pcs| then Next(s, c.t, c.act) else s
  }

  /** The state after a schedule; entries naming no thread are skipped. */
  function Run(s: State, schedule: seq<Choice>): State
    decreases |schedule|
  {
    if schedule == [] then s else Run(Act(s, schedule[0]), schedule[1..])
  }

  // ---------------------------------------------------------------- the count accounting

  /** The thread is between reserving an external reference and giving it back. */
  predicate Holds(pc: Pc, a: Addr) {
    (pc.Reserved? || pc.PopCas? || pc.Release?) && pc.a == a
  }

  /** How many of the first n threads hold a reference to a. */
  function RefsUpTo(pcs: seq<Pc>, n: nat, a: Addr): nat
    requires n <= |pcs|
  {
    if n == 0 then 0 else RefsUpTo(pcs, n - 1, a) + if Holds(pcs[n - 1], a) then 1 else 0
  }

  function Refs(pcs: seq<Pc>, a: Addr): nat {
    RefsUpTo(pcs, |pcs|, a)
  }

  lemma {:induction false} RefsUpdate(pcs: seq<Pc>, t: nat, pc: Pc, n: nat, a: Addr)
    requires t < |pcs| && n <= |pcs|
    ensures RefsUpTo(pcs[t := pc], n, a)
            == RefsUpTo(pcs, n, a)
               + if t < n then (if Holds(pc, a) then 1 else 0) - (if Holds(pcs[t], a) then 1 else 0) else 0
  {
    if n > 0 { RefsUpdate(pcs, t, pc, n - 1, a); }
  }

  lemma {:induction false} RefsPositive(pcs: seq<Pc>, t: nat, n: nat, a: Addr)
    requires t < n <= |pcs| && Holds(pcs[t], a)
    ensures RefsUpTo(pcs, n, a) >= 1
  {
    if t < n - 1 { RefsPositive(pcs, t, n - 1, a); }
  }

  lemma {:induction false} RefsZero(pcs: seq<Pc>, n: nat, a: Addr)
    requires n <= |pcs| && forall t :: 0 <= t < n ==> !Holds(pcs[t], a)
    ensures RefsUpTo(pcs, n, a) == 0
  {
    if n > 0 { RefsZero(pcs, n - 1, a); }
  }

  predicate Pushing(pc: Pc) { pc.PushLoad? || pc.PushCas? }

  predicate Unlinking(pc: Pc) { pc.SwapData? || pc.Transfer? }

  predicate Freeing(pc: Pc) { pc.FreePopped? || pc.Fence? || pc.FreeReleased? }

  /** The external count of the i-th node of the chain lives in `head_` or in the node above it. */
  function External(s: State, i: nat): int
    requires i < |s.chain| && forall k :: 0 <= k < |s.chain| ==> s.chain[k] in s.heap
  {
    if i == 0 then s.head.ext else s.heap[s.chain[i - 1]].next.ext
  }

  function PtrTo(chain: seq<Addr>, i: nat): Ptr {
    if i < |chain| then At(chain[i]) else Null
  }

  /** The `next` pointers lead from `head_` through exactly the linked nodes, once each. */
  ghost predicate ChainOk(s: State) {
    && (forall i :: 0 <= i < |s.chain| ==>
          s.chain[i] in s.heap && s.chain[i] in s.phase && s.phase[s.chain[i]] == Linked)
    && (forall i, j :: 0 <= i < j < |s.chain| ==> s.chain[i] != s.chain[j])
    && s.head.ptr == PtrTo(s.chain, 0)
    && forall i {:trigger LinkAt(s, i)} :: 0 <= i < |s.chain| ==> LinkAt(s, i)
  }

  predicate LinkAt(s: State, i: nat)
    requires i < |s.chain| && s.chain[i] in s.heap
  {
    s.heap[s.chain[i]].next.ptr == PtrTo(s.chain, i + 1)
  }

  /** On the chain: external_count - 1 + internal_count is the number of holders. */
  ghost predicate ChainCounted(s: State)
    requires s.heap.Keys == s.phase.Keys && ChainOk(s)
  {
    forall i {:trigger CountAt(s, i)} :: 0 <= i < |s.chain| ==> CountAt(s, i)
  }

  predicate CountAt(s: State, i: nat)
    requires i < |s.chain| && forall k :: 0 <= k < |s.chain| ==> s.chain[k] in s.heap
  {
    External(s, i) - 1 + s.heap[s.chain[i]].internal == Refs(s.pcs, s.chain[i])
  }

  /** What the phase of an allocated node says about its count, its data and the thread responsible for it. */
  ghost predicate NodeOk(s: State, a: Addr)
    requires s.heap.Keys == s.phase.Keys && a in s.heap
  {
    var n := s.heap[a];
    match s.phase[a]
    case Private(t) =>
      t < |s.pcs| && Pushing(s.pcs[t]) && s.pcs[t].p == a &&
      n.internal == 0 == Refs(s.pcs, a) && n.data == Some(s.pcs[t].v)
    case Linked => a in s.chain && n.internal <= 0 && n.data.Some?
    case Unlinked(t) =>
      t < |s.pcs| && Unlinking(s.pcs[t]) && s.pcs[t].a == a &&
      n.internal <= 0 && s.pcs[t].ext - 2 + n.internal == Refs(s.pcs, a) &&
      (n.data.Some? <==> s.pcs[t].SwapData?)
    case Transferred => n.internal == Refs(s.pcs, a) >= 1 && n.data.None?
    case Dying(t) =>
      t < |s.pcs| && Freeing(s.pcs[t]) && s.pcs[t].a == a && Refs(s.pcs, a) == 0 && n.data.None?
  }

  /** The thread's own pointers lead to allocated nodes, and what it owns no other thread owns. */
  ghost predicate ThreadOk(s: State, t: nat)
    requires s.heap.Keys == s.phase.Keys && t < |s.pcs|
  {
    var pc := s.pcs[t];
    && (Pushing(pc) ==> pc.p in s.heap && s.phase[pc.p] == Private(t))
    && (Unlinking(pc) ==> pc.a in s.heap && s.phase[pc.a] == Unlinked(t))
    && (Freeing(pc) ==> pc.a in s.heap && s.phase[pc.a] == Dying(t))
    && (pc.Reserved? || pc.PopCas? || pc.Release? ==> pc.a in s.heap)
    && (pc.PopCas? ==> pc.nxt == s.heap[pc.a].next)
  }

  ghost predicate MemoryOk(s: State) {
    && !s.fault
    && s.heap.Keys == s.phase.Keys
    && ChainOk(s)
    && ChainCounted(s)
    && (forall a :: a in s.heap ==> NodeOk(s, a))
    && forall t :: 0 <= t < |s.pcs| ==> ThreadOk(s, t)
  }

  lemma InitOk(n: nat)
    ensures MemoryOk(Init(n))
  {}

  type Sound = s: State | MemoryOk(s) witness Init(0)

  lemma UnallocatedRefs(s: Sound, a: Addr)
    requires a !in s.heap
    ensures Refs(s.pcs, a) == 0
  {
    forall t | 0 <= t < |s.pcs| ensures !Holds(s.pcs[t], a) {
      assert ThreadOk(s, t);
    }
    RefsZero(s.pcs, |s.pcs|, a);
  }

  // ---------------------------------------------------------------- framing: a step is about one address

  /** Thread t moves; of the heap and the phases only the entry of x may change. */
  ghost predicate Touches(s: State, s': State, t: nat, x: Addr)
    requires t < |s.pcs|
  {
    && !s'.fault
    && |s'.pcs| == |s.pcs| && s'.pcs == s.pcs[t := s'.pcs[t]]
    && s.heap.Keys == s.phase.Keys && s'.heap.Keys == s'.phase.Keys
    && About(s.pcs[t], x) && About(s'.pcs[t], x)
    && forall a :: a != x ==> Unchanged(s, s', a)
  }

  ghost predicate Unchanged(s: State, s': State, a: Addr)
    requires s.heap.Keys == s.phase.Keys && s'.heap.Keys == s'.phase.Keys
  {
    && (a in s.heap <==> a in s'.heap)
    && (a in s.heap ==> s'.heap[a] == s.heap[a] && s'.phase[a] == s.phase[a])
    && (a in s.chain <==> a in s'.chain)
  }

  /** The thread holds or owns no address but x. */
  predicate About(pc: Pc, x: Addr) {
    && (Pushing(pc) ==> pc.p == x)
    && (Unlinking(pc) || Freeing(pc) || pc.Reserved? || pc.PopCas? || pc.Release? ==> pc.a == x)
  }

  lemma RefsElsewhere(s: State, s': State, t: nat, x: Addr)
    requires t < |s.pcs| && Touches(s, s', t, x)
    ensures forall a :: a != x ==> Refs(s'.pcs, a) == Refs(s.pcs, a)
    ensures Refs(s'.pcs, x)
            == Refs(s.pcs, x) - (if Holds(s.pcs[t], x) then 1 else 0) + (if Holds(s'.pcs[t], x) then 1 else 0)
  {
    forall a ensures a != x ==> Refs(s'.pcs, a) == Refs(s.pcs, a) {
      RefsUpdate(s.pcs, t, s'.pcs[t], |s.pcs|, a);
    }
    RefsUpdate(s.pcs, t, s'.pcs[t], |s.pcs|, x);
  }

  lemma NodesElsewhere(s: Sound, s': State, t: nat, x: Addr)
    requires t < |s.pcs| && Touches(s, s', t, x)
    ensures forall a :: a in s'.heap && a != x ==> NodeOk(s', a)
  {
    RefsElsewhere(s, s', t, x);
    forall a | a in s'.heap && a != x ensures NodeOk(s', a) {
      assert Unchanged(s, s', a) && NodeOk(s, a);
    }
  }

  /** What the other threads own or hold is not disturbed at x either. */
  ghost predicate Spares(s: State, s': State, u: nat, x: Addr)
    requires u < |s.pcs|
  {
    var pc := s.pcs[u];
    && (Pushing(pc) && pc.p == x ==> x in s.phase && x in s'.phase && s'.phase[x] == s.phase[x])
    && (Unlinking(pc) && pc.a == x ==> x in s.phase && x in s'.phase && s'.phase[x] == s.phase[x])
    && (Freeing(pc) && pc.a == x ==> x in s.phase && x in s'.phase && s'.phase[x] == s.phase[x])
    && (Holds(pc, x) ==> x in s.heap && x in s'.heap && s'.heap[x].next == s.heap[x].next)
  }

  lemma ThreadsElsewhere(s: Sound, s': State, t: nat, x: Addr)
    requires t < |s.pcs| && Touches(s, s', t, x)
    requires forall u :: 0 <= u < |s.pcs| && u != t ==> Spares(s, s', u, x)
    ensures forall u :: 0 <= u < |s.pcs| && u != t ==> ThreadOk(s', u)
  {
    forall u | 0 <= u < |s.pcs| && u != t ensures ThreadOk(s', u) {
      assert ThreadOk(s, u) && Spares(s, s', u, x);
      var pc := s.pcs[u];
      if Pushing(pc) { assert Unchanged(s, s', pc.p) || pc.p == x; }
      if Unlinking(pc) || Freeing(pc) || pc.Reserved? || pc.PopCas? || pc.Release? {
        assert Unchanged(s, s', pc.a) || pc.a == x;
      }
    }
  }

  /** A step that leaves `head_` alone keeps the chain, provided x keeps its place in it. */
  lemma ChainElsewhere(s: Sound, s': State, t: nat, x: Addr)
    requires t < |s.pcs| && Touches(s, s', t, x)
    requires s'.head == s.head && s'.chain == s.chain
    requires x in s.chain ==>
      && x in s.heap && x in s'.heap && s'.phase[x] == Linked && s'.heap[x].next == s.heap[x].next
      && s'.heap[x].internal - Refs(s'.pcs, x) == s.heap[x].internal - Refs(s.pcs, x)
    ensures ChainOk(s') && ChainCounted(s')
  {
    RefsElsewhere(s, s', t, x);
    forall i | 0 <= i < |s.chain|
      ensures s.chain[i] in s'.heap && s'.phase[s.chain[i]] == Linked
      ensures s'.heap[s.chain[i]].next == s.heap[s.chain[i]].next
      ensures s'.heap[s.chain[i]].internal - Refs(s'.pcs, s.chain[i])
              == s.heap[s.chain[i]].internal - Refs(s.pcs, s.chain[i])
    {
      assert Unchanged(s, s', s.chain[i]) || s.chain[i] == x;
    }
    forall i | 0 <= i < |s'.chain| ensures LinkAt(s', i) { assert LinkAt(s, i); }
    assert ChainOk(s');
    forall i | 0 <= i < |s'.chain| ensures CountAt(s', i) {
      assert CountAt(s, i) && External(s', i) == External(s, i);
    }
  }

  lemma Settle(s: Sound, s': State, t: nat, x: Addr)
    requires t < |s.pcs| && Touches(s, s', t, x)
    requires forall u :: 0 <= u < |s.pcs| && u != t ==> Spares(s, s', u, x)
    requires ChainOk(s') && ChainCounted(s')
    requires x in s'.heap ==> NodeOk(s', x)
    requires ThreadOk(s', t)
    ensures MemoryOk(s')
  {
    NodesElsewhere(s, s', t, x);
    ThreadsElsewhere(s, s', t, x);
    forall u | 0 <= u < |s'.pcs| ensures ThreadOk(s', u) {}
  }

  lemma SparesOthers(s: Sound, s': State, t: nat, x: Addr)
    requires t < |s.pcs| && Touches(s, s', t, x)
    requires x in s.heap ==>
      || (x in s'.heap && s'.phase[x] == s.phase[x])
      || s.phase[x] in {Private(t), Unlinked(t), Dying(t), Linked, Transferred}
    requires
      || Refs(s.pcs, x) == 0
      || (Refs(s.pcs, x) == 1 && Holds(s.pcs[t], x))
      || (x in s.heap && x in s'.heap && s'.heap[x].next == s.heap[x].next)
    ensures forall u :: 0 <= u < |s.pcs| && u != t ==> Spares(s, s', u, x)
  {
    forall u | 0 <= u < |s.pcs| && u != t ensures Spares(s, s', u, x) {
      assert ThreadOk(s, u);
      if Holds(s.pcs[u], x) {
        RefsPositive(s.pcs, u, |s.pcs|, x);
        if Holds(s.pcs[t], x) { RefsTwo(s.pcs, t, u, |s.pcs|, x); }
      }
    }
  }

  lemma {:induction false} RefsTwo(pcs: seq<Pc>, t: nat, u: nat, n: nat, a: Addr)
    requires t < n <= |pcs| && u < n && t != u && Holds(pcs[t], a) && Holds(pcs[u], a)
    ensures RefsUpTo(pcs, n, a) >= 2
  {
    if t == n - 1 { RefsPositive(pcs, u, n - 1, a); }
    else if u == n - 1 { RefsPositive(pcs, t, n - 1, a); }
    else { RefsTwo(pcs, t, u, n - 1, a); }
  }

  /** A step that leaves the chain alone keeps the accounting. */
  lemma OffChain(s: Sound, s': State, t: nat, x: Addr)
    requires t < |s.pcs| && Touches(s, s', t, x)
    requires s'.head == s.head && s'.chain == s.chain
    requires x in s.chain ==>
      && x in s.heap && x in s'.heap && s'.phase[x] == Linked && s'.heap[x].next == s.heap[x].next
      && s'.heap[x].internal - Refs(s'.pcs, x) == s.heap[x].internal - Refs(s.pcs, x)
    requires x in s.heap ==>
      || (x in s'.heap && s'.phase[x] == s.phase[x])
      || s.phase[x] in {Private(t), Unlinked(t), Dying(t), Linked, Transferred}
    requires
      || Refs(s.pcs, x) == 0
      || (Refs(s.pcs, x) == 1 && Holds(s.pcs[t], x))
      || (x in s.heap && x in s'.heap && s'.heap[x].next == s.heap[x].next)
    requires x in s'.heap ==> NodeOk(s', x)
    requires ThreadOk(s', t)
    ensures MemoryOk(s')
  {
    ChainElsewhere(s, s', t, x);
    SparesOthers(s, s', t, x);
    Settle(s, s', t, x);
  }

  // ---------------------------------------------------------------- each step keeps the accounting

  lemma IdleKeeps(s: Sound, t: nat, act: Action) returns (s': Sound)
    requires t < |s.pcs| && s.pcs[t].Idle?
    ensures s' == StepIdle(s, t, act)
  {
    var n := StepIdle(s, t, act);
    if act.CallPush? && act.addr !in s.heap {
      UnallocatedRefs(s, act.addr);
      RefsElsewhere(s, n, t, act.addr);
      OffChain(s, n, t, act.addr);
    } else if act.CallPop? {
      LocalStep(s, n, t, 0);
    }
    s' := n;
  }

  predicate Owning(pc: Pc) { Pushing(pc) || Unlinking(pc) || Freeing(pc) }

  /** A step that only moves a thread between points where it holds the same node, or none. */
  lemma LocalStep(s: Sound, s': State, t: nat, x: Addr)
    requires t < |s.pcs| && Touches(s, s', t, x)
    requires s'.heap == s.heap && s'.phase == s.phase && s'.head == s.head && s'.chain == s.chain
    requires !Owning(s.pcs[t]) && !Owning(s'.pcs[t]) && Holds(s.pcs[t], x) == Holds(s'.pcs[t], x)
    requires ThreadOk(s', t)
    ensures MemoryOk(s')
  {
    RefsElsewhere(s, s', t, x);
    if x in s.heap {
      assert NodeOk(s, x);
      OffChain(s, s', t, x);
    } else {
      UnallocatedRefs(s, x);
      OffChain(s, s', t, x);
    }
  }

  lemma PushLoadKeeps(s: Sound, t: nat) returns (s': Sound)
    requires t < |s.pcs| && s.pcs[t].PushLoad?
    ensures s' == StepPushLoad(s, t, s.pcs[t].p, s.pcs[t].v)
  {
    var x := s.pcs[t].p;
    var n := StepPushLoad(s, t, x, s.pcs[t].v);
    assert ThreadOk(s, t) && NodeOk(s, x);
    RefsElsewhere(s, n, t, x);
    OffChain(s, n, t, x);
    s' := n;
  }

  lemma SwapDataKeeps(s: Sound, t: nat) returns (s': Sound)
    requires t < |s.pcs| && s.pcs[t].SwapData?
    ensures s' == StepSwapData(s, t, s.pcs[t].a, s.pcs[t].ext)
  {
    var x := s.pcs[t].a;
    var n := StepSwapData(s, t, x, s.pcs[t].ext);
    assert ThreadOk(s, t) && NodeOk(s, x);
    RefsElsewhere(s, n, t, x);
    OffChain(s, n, t, x);
    s' := n;
  }

  lemma TransferKeeps(s: Sound, t: nat) returns (s': Sound)
    requires t < |s.pcs| && s.pcs[t].Transfer?
    ensures s' == StepTransfer(s, t, s.pcs[t].a, s.pcs[t].ext, s.pcs[t].res)
  {
    var x := s.pcs[t].a;
    var n := StepTransfer(s, t, x, s.pcs[t].ext, s.pcs[t].res);
    assert ThreadOk(s, t) && NodeOk(s, x);
    RefsElsewhere(s, n, t, x);
    OffChain(s, n, t, x);
    s' := n;
  }

  lemma ReleaseKeeps(s: Sound, t: nat) returns (s': Sound)
    requires t < |s.pcs| && s.pcs[t].Release?
    ensures s' == StepRelease(s, t, s.pcs[t].a, s.pcs[t].seen)
  {
    var x := s.pcs[t].a;
    var n := StepRelease(s, t, x, s.pcs[t].seen);
    assert ThreadOk(s, t) && NodeOk(s, x);
    RefsPositive(s.pcs, t, |s.pcs|, x);
    RefsElsewhere(s, n, t, x);
    OffChain(s, n, t, x);
    s' := n;
  }

  lemma FreeKeeps(s: Sound, t: nat, pc: Pc) returns (s': Sound)
    requires t < |s.pcs| && Freeing(s.pcs[t])
    requires pc.Done? || pc.Reserve?
    ensures s' == StepFree(s, t, s.pcs[t].a, pc)
  {
    var x := s.pcs[t].a;
    var n := StepFree(s, t, x, pc);
    assert ThreadOk(s, t) && NodeOk(s, x);
    RefsElsewhere(s, n, t, x);
    OffChain(s, n, t, x);
    s' := n;
  }

  lemma ObserveKeeps(s: Sound, t: nat, pc: Pc, x: Addr) returns (s': Sound)
    requires t < |s.pcs| && About(s.pcs[t], x) && About(pc, x)
    requires !Owning(s.pcs[t]) && !Owning(pc) && Holds(s.pcs[t], x) == Holds(pc, x)
    requires !pc.PopCas? && (pc.Reserved? || pc.Release? ==> pc.a in s.heap)
    ensures s' == Observe(s, t, pc)
  {
    var n := Observe(s, t, pc);
    assert ThreadOk(s, t);
    assert n.pcs == s.pcs[t := pc] && n.heap == s.heap && n.phase == s.phase && n.chain == s.chain;
    assert n.head == s.head;
    assert Touches(s, n, t, x);
    LocalStep(s, n, t, x);
    s' := n;
  }

  lemma DoneKeeps(s: Sound, t: nat) returns (s': Sound)
    requires t < |s.pcs| && s.pcs[t].Done?
    ensures s' == Next(s, t, Go)
  {
    LocalStep(s, Next(s, t, Go), t, 0);
    s' := Next(s, t, Go);
  }

  lemma ReadNextKeeps(s: Sound, t: nat) returns (s': Sound)
    requires t < |s.pcs| && s.pcs[t].Reserved?
    ensures s' == Next(s, t, Go)
  {
    assert ThreadOk(s, t);
    LocalStep(s, Next(s, t, Go), t, s.pcs[t].a);
    s' := Next(s, t, Go);
  }

  lemma FenceKeeps(s: Sound, t: nat) returns (s': Sound)
    requires t < |s.pcs| && s.pcs[t].Fence?
    ensures s' == Next(s, t, Go)
  {
    var x := s.pcs[t].a;
    assert ThreadOk(s, t) && NodeOk(s, x);
    RefsElsewhere(s, Next(s, t, Go), t, x);
    OffChain(s, Next(s, t, Go), t, x);
    s' := Next(s, t, Go);
  }

  lemma MissKeeps(s: Sound, t: nat) returns (s': Sound)
    requires t < |s.pcs| && s.pcs[t].Reserve?
    ensures s' == Observe(s, t, Reserve(s.head))
  {
    s' := ObserveKeeps(s, t, Reserve(s.head), 0);
  }

  lemma GiveUpKeeps(s: Sound, t: nat) returns (s': Sound)
    requires t < |s.pcs| && s.pcs[t].Reserve?
    ensures s' == Goto(s, t, Done(Pop, None))
  {
    var n := Goto(s, t, Done(Pop, None));
    assert Touches(s, n, t, 0);
    LocalStep(s, n, t, 0);
    s' := n;
  }

  lemma ReserveTopKeeps(s: Sound, t: nat, x: Addr) returns (s': Sound)
    requires t < |s.pcs| && s.pcs[t].Reserve? && s.head.ptr == At(x)
    ensures s' == StepReserve(s, t, s.head)
  {
    ReserveTopMoves(s, StepReserve(s, t, s.head), t, x);
    s' := StepReserve(s, t, s.head);
  }

  lemma ReserveTopMoves(s: Sound, s': State, t: nat, x: Addr)
    requires t < |s.pcs| && s.pcs[t].Reserve? && s.head.ptr == At(x)
    requires s' == s.(head := Counted(s.head.ext + 1, At(x)), pcs := s.pcs[t := Reserved(x, s.head.ext + 1)])
    ensures MemoryOk(s')
  {
    assert x == s.chain[0] && NodeOk(s, x);
    assert Touches(s, s', t, x);
    RefsElsewhere(s, s', t, x);
    SparesOthers(s, s', t, x);
    forall i | 0 <= i < |s'.chain| ensures LinkAt(s', i) { assert LinkAt(s, i); }
    assert ChainOk(s');
    forall i | 0 <= i < |s'.chain| ensures CountAt(s', i) {
      assert CountAt(s, i) && External(s', i) == External(s, i) + if i == 0 then 1 else 0;
    }
    Settle(s, s', t, x);
  }

  lemma PushCasKeeps(s: Sound, t: nat, act: Action) returns (s': Sound)
    requires t < |s.pcs| && s.pcs[t].PushCas?
    ensures s' == StepPushCas(s, t, s.pcs[t].p, s.pcs[t].v, act)
  {
    var x := s.pcs[t].p;
    var n := StepPushCas(s, t, x, s.pcs[t].v, act);
    assert ThreadOk(s, t) && NodeOk(s, x);
    if n.head == s.head {
      RefsElsewhere(s, n, t, x);
      OffChain(s, n, t, x);
      s' := n;
    } else {
      s' := PublishKeeps(s, t, x);
    }
  }

  lemma PublishKeeps(s: Sound, t: nat, x: Addr) returns (s': Sound)
    requires t < |s.pcs| && s.pcs[t].PushCas? && s.pcs[t].p == x
    requires x in s.heap && s.head == s.heap[x].next
    ensures s' == StepPushCas(s, t, x, s.pcs[t].v, Go)
  {
    var n := StepPushCas(s, t, x, s.pcs[t].v, Go);
    assert ThreadOk(s, t) && NodeOk(s, x);
    assert x !in s.chain;
    assert Touches(s, n, t, x);
    RefsElsewhere(s, n, t, x);
    SparesOthers(s, n, t, x);
    PublishedLinks(s, n, x);
    PublishedCounts(s, n, t, x);
    Settle(s, n, t, x);
    s' := n;
  }

  /** The new node x heads the chain. */
  ghost predicate Published(s: State, s': State, x: Addr) {
    && x in s.heap && x !in s.chain && s.heap[x].next == s.head
    && s'.heap == s.heap && s'.phase == s.phase[x := Linked]
    && s'.chain == [x] + s.chain && s'.head == Counted(1, At(x))
  }

  lemma PublishedLinks(s: Sound, s': State, x: Addr)
    requires Published(s, s', x)
    ensures ChainOk(s')
  {
    forall i | 0 < i < |s'.chain| ensures s'.chain[i] == s.chain[i - 1] && s'.chain[i] != x {}
    forall i | 0 <= i < |s'.chain| ensures s'.chain[i] in s'.heap && s'.phase[s'.chain[i]] == Linked {}
    forall i | 0 <= i < |s'.chain| ensures LinkAt(s', i) {
      if i > 0 { assert LinkAt(s, i - 1); }
    }
  }

  lemma PublishedCounts(s: Sound, s': State, t: nat, x: Addr)
    requires t < |s.pcs| && Touches(s, s', t, x) && Published(s, s', x) && ChainOk(s')
    requires s.heap[x].internal == 0 == Refs(s'.pcs, x)
    ensures ChainCounted(s')
  {
    RefsElsewhere(s, s', t, x);
    forall i | 0 <= i < |s'.chain| ensures CountAt(s', i) {
      if i > 0 {
        assert CountAt(s, i - 1) && s'.chain[i] == s.chain[i - 1];
        assert External(s', i) == External(s, i - 1);
      }
    }
  }

  lemma PopCasKeeps(s: Sound, t: nat) returns (s': Sound)
    requires t < |s.pcs| && s.pcs[t].PopCas?
    ensures s' == StepPopCas(s, t, s.pcs[t].a, s.pcs[t].ext, s.pcs[t].nxt)
  {
    var x := s.pcs[t].a;
    assert ThreadOk(s, t) && NodeOk(s, x);
    if s.head == Counted(s.pcs[t].ext, At(x)) {
      s' := UnlinkKeeps(s, t, x);
    } else {
      s' := ObserveKeeps(s, t, Release(x, s.head), x);
    }
  }

  lemma UnlinkKeeps(s: Sound, t: nat, x: Addr) returns (s': Sound)
    requires t < |s.pcs| && s.pcs[t].PopCas? && s.pcs[t].a == x
    requires s.head == Counted(s.pcs[t].ext, At(x))
    ensures s' == StepPopCas(s, t, x, s.pcs[t].ext, s.pcs[t].nxt)
  {
    var n := StepPopCas(s, t, x, s.pcs[t].ext, s.pcs[t].nxt);
    assert ThreadOk(s, t) && NodeOk(s, x);
    assert x == s.chain[0] && CountAt(s, 0);
    forall a | a != x ensures Unchanged(s, n, a) { TailMember(s.chain, a); }
    assert Touches(s, n, t, x);
    RefsElsewhere(s, n, t, x);
    SparesOthers(s, n, t, x);
    UnlinkedChain(s, n, t, x);
    Settle(s, n, t, x);
    s' := n;
  }

  lemma UnlinkedChain(s: Sound, s': State, t: nat, x: Addr)
    requires t < |s.pcs| && Touches(s, s', t, x)
    requires s.chain != [] && s.chain[0] == x
    requires s'.heap == s.heap && s'.phase == s.phase[x := Unlinked(t)]
    requires s'.chain == s.chain[1..] && s'.head == s.heap[x].next
    ensures ChainOk(s') && ChainCounted(s')
  {
    RefsElsewhere(s, s', t, x);
    forall i | 0 <= i < |s'.chain|
      ensures s'.chain[i] == s.chain[i + 1] != x && s'.chain[i] in s'.phase && s'.phase[s'.chain[i]] == Linked
    {}
    forall i | 0 <= i < |s'.chain| ensures LinkAt(s', i) { assert LinkAt(s, i + 1); }
    assert LinkAt(s, 0);
    assert ChainOk(s');
    forall i | 0 <= i < |s'.chain| ensures CountAt(s', i) {
      assert CountAt(s, i + 1) && External(s', i) == External(s, i + 1);
    }
  }
}
