/**
 The growing vector: construction may throw at any call, and whichever call throws, the vector
 commits or rolls back, leaks nothing and destroys nothing twice.

 A block of storage is an array of slots.  Constructing needs a raw slot, destroying one that is
 not, and deallocating a block without live elements; these are the preconditions of the heap's
 methods, so that every call in the vector is proved to respect them.  Which allocations and
 constructions throw is an arbitrary function of the number of calls made so far.
 */
module GrowingVector {
  import opened Prelude

  /** Uninitialized, a live element, or a live element whose value was moved out. */
  datatype Slot<T> = Raw | Live(v: T) | MovedFrom

  datatype Outcome = Done | LengthError | OutOfRange | Threw

  /** What `move_if_noexcept` makes of the element type, or that it can be neither moved nor copied. */
  datatype Kind = Copies | MovesSafely | MovesMayThrow | Pinned

  /**
   The argument of `emplace_back`: a value, or an element of the vector itself, which the constructor of
   the new element only reads or, handed over with `std::move`, moves out.
   */
  datatype Arg<T> = Given(v: T) | Element(i: nat) | Moved(i: nat)

  predicate AllRaw<T(==)>(s: seq<Slot<T>>) {
    forall i :: 0 <= i < |s| ==> s[i] == Raw
  }

  class Heap<T(==)> {
    /** Whether the n-th allocation or construction throws. */
    const throws: nat -> bool
    var calls: nat
    ghost var blocks: set<array<Slot<T>>>

    constructor (throws: nat -> bool)
      ensures blocks == {} && this.throws == throws
    {
      this.throws := throws;
      calls := 0;
      blocks := {};
    }

    /** One of the calls after the first `since` ones has thrown. */
    ghost predicate ThrewSince(since: nat)
      reads this`calls
    {
      exists k: nat :: since < k <= calls && throws(k)
    }

    method Allocate(n: nat) returns (block: array?<Slot<T>>)
      modifies this
      ensures calls == old(calls) + 1 && (block == null <==> throws(calls))
      ensures block == null ==> blocks == old(blocks)
      ensures block != null ==>
        fresh(block) && block.Length == n && AllRaw(block[..]) && blocks == old(blocks) + {block}
    {
      calls := calls + 1;
      if throws(calls) { return null; }
      block := new Slot<T>[n](_ => Raw);
      blocks := blocks + {block};
    }

    method Deallocate(block: array<Slot<T>>)
      requires block in blocks && AllRaw(block[..])
      modifies this`blocks
      ensures blocks == old(blocks) - {block}
    {
      blocks := blocks - {block};
    }

    method Construct(block: array<Slot<T>>, i: nat, x: Slot<T>) returns (ok: bool)
      requires i < block.Length && block[i] == Raw && x != Raw
      modifies this`calls, block
      ensures calls == old(calls) + 1 && (ok <==> !throws(calls))
      ensures block[..] == if ok then old(block[..])[i := x] else old(block[..])
    {
      calls := calls + 1;
      ok := !throws(calls);
      if ok { block[i] := x; }
    }

    /** Constructs an element from another one, by copy or by move. */
    method Relocate(source: array<Slot<T>>, target: array<Slot<T>>, i: nat, kind: Kind) returns (ok: bool)
      requires source != target && i < source.Length && i < target.Length && source[i] != Raw && target[i] == Raw
      requires !kind.Pinned?
      modifies this`calls, source, target
      ensures calls == old(calls) + 1 && (ok <==> kind.MovesSafely? || !throws(calls))
      ensures target[..] == if ok then old(target[..])[i := old(source[i])] else old(target[..])
      ensures source[..] == if ok && !kind.Copies? then old(source[..])[i := MovedFrom] else old(source[..])
    {
      calls := calls + 1;
      ok := kind.MovesSafely? || !throws(calls);
      if ok {
        target[i] := source[i];
        if !kind.Copies? { source[i] := MovedFrom; }
      }
    }

    method Destroy(block: array<Slot<T>>, i: nat)
      requires i < block.Length && block[i] != Raw
      modifies block
      ensures block[..] == old(block[..])[i := Raw]
    {
      block[i] := Raw;
    }
  }

  /** The capacity after growing from c. */
  function Doubled(c: nat, limit: nat): nat {
    if c == 0 then 1 else if c > limit / 2 then limit else c * 2
  }

  /** From nothing the capacity grows to 1, otherwise to the lesser of twice what it was and the limit. */
  predicate Grown(was: nat, now: nat, limit: nat) {
    if was == 0 then now == 1 else now <= 2 * was && now <= limit && (now == 2 * was || now == limit)
  }

  lemma DoubledIs(c: nat, limit: nat)
    requires c < limit
    ensures Grown(c, Doubled(c, limit), limit) && c < Doubled(c, limit) <= limit
  {}

  /** Live elements in the first n slots, raw storage behind them. */
  predicate LiveUpTo<T(==)>(s: seq<Slot<T>>, n: nat) {
    n <= |s| && (forall i :: 0 <= i < n ==> s[i] != Raw) && AllRaw(s[n..])
  }

  /** Nothing but moving out by a move that may throw has happened to the elements. */
  predicate Kept<T(==)>(now: seq<Slot<T>>, was: seq<Slot<T>>, kind: Kind) {
    |now| == |was| && forall i :: 0 <= i < |was| ==> now[i] == was[i] || (kind.MovesMayThrow? && now[i] == MovedFrom)
  }

  /** The elements once the argument has been used. */
  function Consumed<T>(was: seq<Slot<T>>, arg: Arg<T>): (now: seq<Slot<T>>)
    requires arg.Moved? ==> arg.i < |was|
    ensures |now| == |was|
  {
    if arg.Moved? then was[arg.i := MovedFrom] else was
  }

  /** As `Kept`, but for an argument that may have been moved out before something threw. */
  predicate KeptBut<T(==)>(now: seq<Slot<T>>, was: seq<Slot<T>>, kind: Kind, arg: Arg<T>)
    requires arg.Moved? ==> arg.i < |was|
  {
    Kept(now, was, kind) || Kept(now, Consumed(was, arg), kind)
  }

  class Vector<T(==)> {
    const heap: Heap<T>
    const kind: Kind
    const limit: nat
    var data: array?<Slot<T>>
    var size: nat
    var capacity: nat
    ghost var relocated: nat

    /** The first `size` slots are live, and no others. */
    ghost predicate Shape()
      reads this, data
    {
      && size <= capacity <= limit && 0 < limit
      && (if data == null then capacity == 0 else capacity > 0 && data.Length == capacity && LiveUpTo(data[..], size))
    }

    /** The vector owns the one block that is allocated, or none is. */
    ghost predicate Valid()
      reads this, heap, data
    {
      Shape() && heap.blocks == if data == null then {} else {data}
    }

    ghost function Storage(): set<object>
      reads this
    {
      if data == null then {} else {data}
    }

    ghost function Elements(): (s: seq<Slot<T>>)
      requires Shape()
      reads this, data
    {
      if data == null then [] else data[..size]
    }

    constructor (heap: Heap<T>, kind: Kind, limit: nat)
      requires heap.blocks == {} && limit > 0
      ensures Valid() && Elements() == [] && capacity == 0 && relocated == 0
      ensures this.heap == heap && this.kind == kind && this.limit == limit && data == null
    {
      this.heap := heap;
      this.kind := kind;
      this.limit := limit;
      data := null;
      size, capacity := 0, 0;
      relocated := 0;
    }

    method PopBack() returns (r: Outcome)
      requires Shape()
      modifies this`size, Storage()
      ensures Shape()
      ensures r == if old(size) == 0 then OutOfRange else Done
      ensures Elements() == if old(size) == 0 then [] else old(Elements())[..old(size) - 1]
    {
      if size == 0 { return OutOfRange; }
      size := size - 1;
      heap.Destroy(data, size);
      return Done;
    }

    method Clear()
      requires Shape()
      modifies this`size, Storage()
      ensures Shape() && size == 0
      ensures data != null ==> AllRaw(data[..])
    {
      while size != 0
        invariant Shape()
        decreases size
      {
        var _ := PopBack();
      }
      if data != null { assert data[0..] == data[..]; }
    }

    /** The destructor: nothing stays allocated. */
    method Dispose()
      requires Valid()
      modifies this, heap`blocks, Storage()
      ensures heap.blocks == {}
    {
      Clear();
      if data != null { heap.Deallocate(data); }
    }

    /** The relocation loop of `reserve` and `grow_and_emplace`, with the part of the handler that takes it back. */
    method RelocateTo(target: array<Slot<T>>) returns (ok: bool)
      requires Shape() && target != data && !kind.Pinned?
      requires size <= target.Length && forall i :: 0 <= i < size ==> target[i] == Raw
      modifies this`relocated, heap`calls, Storage(), target
      ensures Shape()
      ensures ok ==> target[..size] == old(Elements()) && target[size..] == old(target[size..])
      ensures ok ==> relocated == old(relocated) + size
      ensures !ok ==> target[..] == old(target[..]) && Kept(Elements(), old(Elements()), kind) && !kind.MovesSafely?
      ensures heap.calls >= old(heap.calls) && (!ok ==> heap.ThrewSince(old(heap.calls)))
    {
      ok := true;
      var constructed := 0;
      while constructed < size && ok
        invariant constructed <= size && Shape() && relocated == old(relocated) + constructed
        invariant forall i :: 0 <= i < constructed ==> target[i] == old(data[i])
        invariant forall i :: constructed <= i < target.Length ==> target[i] == old(target[i])
        invariant forall i :: 0 <= i < size ==>
          data[i] == if i < constructed && !kind.Copies? then MovedFrom else old(data[i])
        invariant heap.calls >= old(heap.calls)
        invariant !ok ==> !kind.MovesSafely? && heap.calls > old(heap.calls) && heap.throws(heap.calls)
        decreases size - constructed, ok
      {
        ok := heap.Relocate(data, target, constructed, kind);
        if ok {
          constructed := constructed + 1;
          relocated := relocated + 1;
        }
      }
      if !ok { TakeBack(target, constructed); }
    }

    /** The handler destroys what was constructed so far. */
    method TakeBack(target: array<Slot<T>>, constructed: nat)
      requires constructed <= target.Length && forall i :: 0 <= i < constructed ==> target[i] != Raw
      modifies target
      ensures forall i :: 0 <= i < target.Length ==> target[i] == if i < constructed then Raw else old(target[i])
    {
      var left: nat := constructed;
      while left != 0
        invariant left <= constructed
        invariant forall i :: 0 <= i < left ==> target[i] != Raw
        invariant forall i :: left <= i < target.Length ==> target[i] == if i < constructed then Raw else old(target[i])
        decreases left
      {
        left := left - 1;
        heap.Destroy(target, left);
      }
    }

    /** The old storage is given up for a block that holds n elements. */
    method Commit(block: array<Slot<T>>, n: nat, newCapacity: nat)
      requires Shape() && block != data && heap.blocks == {block} + if data == null then {} else {data}
      requires 0 < newCapacity <= limit && block.Length == newCapacity && LiveUpTo(block[..], n)
      modifies this`data, this`size, this`capacity, heap`blocks, Storage()
      ensures Valid() && data == block && size == n && capacity == newCapacity && block[..] == old(block[..])
    {
      Clear();
      if data != null { heap.Deallocate(data); }
      data := block;
      size := n;
      capacity := newCapacity;
    }

    method Reserve(newCapacity: nat) returns (r: Outcome)
      requires Valid() && !kind.Pinned?
      modifies this, heap, Storage()
      ensures Valid()
      ensures r.LengthError? <==> newCapacity > old(capacity) && newCapacity > limit
      ensures r.Done? || r.LengthError? || (r.Threw? && heap.ThrewSince(old(heap.calls)))
      ensures heap.calls >= old(heap.calls)
      ensures r.Done? ==> capacity == Max(old(capacity), newCapacity) && Elements() == old(Elements())
      ensures data == old(data) || fresh(data)
      ensures !r.Done? ==> data == old(data) && size == old(size) && capacity == old(capacity)
      ensures !r.Done? ==> Kept(Elements(), old(Elements()), kind)
    {
      if newCapacity <= capacity { return Done; }
      if newCapacity > limit { return LengthError; }
      var block := heap.Allocate(newCapacity);
      if block == null { return Threw; }
      var ok := RelocateTo(block);
      if !ok {
        heap.Deallocate(block);
        return Threw;
      }
      assert block[size..] == block[..][size..];
      Commit(block, size, newCapacity);
      return Done;
    }

    /** An argument that is an element of the vector names one. */
    predicate ArgOk(arg: Arg<T>)
      reads this
    {
      !arg.Given? ==> arg.i < size
    }

    /** What the constructor of the new element gets to see of its argument. */
    ghost function ArgValue(arg: Arg<T>): Slot<T>
      requires Shape() && ArgOk(arg)
      reads this, data
    {
      if arg.Given? then Live(arg.v) else data[arg.i]
    }

    /** Constructs the new element in a block that is not the storage. */
    method ConstructArg(block: array<Slot<T>>, i: nat, arg: Arg<T>) returns (ok: bool)
      requires Shape() && ArgOk(arg) && i < block.Length && block[i] == Raw && block != data
      modifies heap`calls, block, Storage()
      ensures Shape() && block[..] == if ok then old(block[..])[i := old(ArgValue(arg))] else old(block[..])
      ensures Elements() == if ok then Consumed(old(Elements()), arg) else old(Elements())
      ensures heap.calls == old(heap.calls) + 1 && (ok <==> !heap.throws(heap.calls))
    {
      ok := heap.Construct(block, i, if arg.Given? then Live(arg.v) else data[arg.i]);
      if ok && arg.Moved? { data[arg.i] := MovedFrom; }
    }

    /** Constructs the new element behind the others. */
    method ConstructBehind(arg: Arg<T>) returns (ok: bool)
      requires Shape() && ArgOk(arg) && size < capacity
      modifies heap`calls, this`size, Storage()
      ensures Shape() && size == old(size) + if ok then 1 else 0
      ensures Elements() == if ok then Consumed(old(Elements()), arg) + [old(ArgValue(arg))] else old(Elements())
      ensures heap.calls == old(heap.calls) + 1 && (ok <==> !heap.throws(heap.calls))
    {
      ok := heap.Construct(data, size, if arg.Given? then Live(arg.v) else data[arg.i]);
      if ok {
        if arg.Moved? { data[arg.i] := MovedFrom; }
        size := size + 1;
      }
    }

    method EmplaceBack(arg: Arg<T>) returns (r: Outcome)
      requires Valid() && ArgOk(arg)
      modifies this, heap, Storage()
      ensures Valid()
      ensures r.LengthError? <==> old(size) == old(capacity) && (kind.Pinned? || old(capacity) == limit)
      ensures r.Done? || r.LengthError? || (r.Threw? && heap.ThrewSince(old(heap.calls)))
      ensures heap.calls >= old(heap.calls)
      ensures data == old(data) || fresh(data)
      ensures r.Done? ==> Elements() == Consumed(old(Elements()), arg) + [old(ArgValue(arg))]
      ensures r.Done? ==>
        if old(size) == old(capacity) then Grown(old(capacity), capacity, limit) else capacity == old(capacity)
      ensures r.Done? ==> relocated == old(relocated) + if old(size) == old(capacity) then old(size) else 0
      ensures !r.Done? ==> data == old(data) && size == old(size) && capacity == old(capacity)
      ensures !r.Done? ==> KeptBut(Elements(), old(Elements()), kind, arg)
      ensures !r.Done? && (kind.MovesSafely? || old(size) < old(capacity)) ==> Elements() == old(Elements())
    {
      if size == capacity {
        if kind.Pinned? { return LengthError; }
        r := GrowAndEmplace(arg);
        return;
      }
      var ok := ConstructBehind(arg);
      return if ok then Done else Threw;
    }

    /** The new element and then the old ones are constructed in the block; if that throws, all of it is taken back. */
    method Fill(block: array<Slot<T>>, arg: Arg<T>) returns (ok: bool)
      requires Shape() && ArgOk(arg) && !kind.Pinned?
      requires block != data && size < block.Length && AllRaw(block[..])
      modifies this`relocated, heap`calls, Storage(), block
      ensures Shape()
      ensures ok ==> LiveUpTo(block[..], size + 1) && relocated == old(relocated) + size
      ensures ok ==> block[..size + 1] == Consumed(old(Elements()), arg) + [old(ArgValue(arg))]
      ensures !ok ==> AllRaw(block[..]) && KeptBut(Elements(), old(Elements()), kind, arg)
      ensures !ok && kind.MovesSafely? ==> Elements() == old(Elements())
      ensures heap.calls >= old(heap.calls) && (!ok ==> heap.ThrewSince(old(heap.calls)))
    {
      ghost var raw, x := block[..], ArgValue(arg);
      ok := ConstructArg(block, size, arg);
      if !ok { return; }
      ghost var was, filled := Elements(), block[..];
      ok := RelocateTo(block);
      if ok {
        assert block[size..] == filled[size..];
        Relocated(was, raw, x, block[..]);
      } else {
        heap.Destroy(block, size);
        assert block[..] == filled[size := Raw] == raw;
      }
    }

    method GrowAndEmplace(arg: Arg<T>) returns (r: Outcome)
      requires Valid() && size == capacity && !kind.Pinned? && ArgOk(arg)
      modifies this, heap, Storage()
      ensures Valid()
      ensures r.LengthError? <==> old(capacity) == limit
      ensures r.Done? || r.LengthError? || (r.Threw? && heap.ThrewSince(old(heap.calls)))
      ensures heap.calls >= old(heap.calls)
      ensures r.Done? ==> Elements() == Consumed(old(Elements()), arg) + [old(ArgValue(arg))]
      ensures r.Done? ==> Grown(old(capacity), capacity, limit)
      ensures r.Done? ==> relocated == old(relocated) + old(size) && fresh(data)
      ensures !r.Done? ==> data == old(data) && size == old(size) && capacity == old(capacity)
      ensures !r.Done? ==> KeptBut(Elements(), old(Elements()), kind, arg)
      ensures !r.Done? && kind.MovesSafely? ==> Elements() == old(Elements())
    {
      if capacity == limit { return LengthError; }
      var newCapacity := Doubled(capacity, limit);
      DoubledIs(capacity, limit);
      var block := heap.Allocate(newCapacity);
      if block == null { return Threw; }
      var ok := Fill(block, arg);
      if !ok {
        heap.Deallocate(block);
        return Threw;
      }
      Commit(block, size + 1, newCapacity);
      return Done;
    }
  }

  /** A raw block with x in slot |was| and the old elements before it. */
  lemma Relocated<T>(was: seq<Slot<T>>, raw: seq<Slot<T>>, x: Slot<T>, block: seq<Slot<T>>)
    requires |was| < |raw| == |block| && AllRaw(raw) && x != Raw && forall i :: 0 <= i < |was| ==> was[i] != Raw
    requires block[..|was|] == was && block[|was|..] == raw[|was| := x][|was|..]
    ensures LiveUpTo(block, |was| + 1) && block[..|was| + 1] == was + [x]
  {
    assert forall i :: |was| <= i < |block| ==> block[i] == block[|was|..][i - |was|];
    assert forall i :: 0 <= i < |was| ==> block[i] == block[..|was|][i];
  }

  function AllLive<T>(xs: seq<T>): seq<Slot<T>> {
    seq(|xs|, i requires 0 <= i < |xs| => Live(xs[i]))
  }

  /** As long as the limit is not reached, no more was relocated than the capacity; and never twice the size. */
  predicate Amortized(relocated: int, size: nat, capacity: nat, limit: nat) {
    (capacity < limit ==> relocated <= capacity) && (if size == 0 then relocated == 0 else relocated < 2 * size)
  }

  lemma GrowthIsAmortized(relocated: int, capacity: nat, now: nat, limit: nat)
    requires Amortized(relocated, capacity, capacity, limit) && capacity < limit && Grown(capacity, now, limit)
    ensures Amortized(relocated + capacity, capacity + 1, now, limit)
  {}

  /**
   N appends to an empty vector all succeed unless something throws, the elements cannot be relocated, or there are more
   than the limit; and they relocate fewer than 2 N elements, however close the limit is.
   */
  method AppendAll<T(==)>(v: Vector<T>, xs: seq<T>) returns (r: Outcome)
    requires v.Valid() && v.size == 0 && v.capacity == 0
    modifies v, v.heap, v.Storage()
    ensures v.Valid()
    ensures r.Done? ==> v.Elements() == AllLive(xs)
    ensures r.Done? && xs != [] ==> v.relocated - old(v.relocated) < 2 * |xs|
    ensures !r.Done? ==> v.size < |xs| && (v.heap.ThrewSince(old(v.heap.calls)) || v.kind.Pinned? || |xs| > v.limit)
  {
    for i := 0 to |xs|
      invariant v.Valid() && v.Elements() == AllLive(xs[..i])
      invariant Amortized(v.relocated - old(v.relocated), i, v.capacity, v.limit)
      invariant v.data != old(v.data) ==> v.data != null && fresh(v.data)
      invariant v.heap.calls >= old(v.heap.calls)
    {
      assert v.size == i by { assert |v.Elements()| == v.size; }
      ghost var relocated, capacity := v.relocated - old(v.relocated), v.capacity;
      r := v.EmplaceBack(Given(xs[i]));
      if !r.Done? { return; }
      if i == capacity { GrowthIsAmortized(relocated, capacity, v.capacity, v.limit); }
      assert AllLive(xs[..i + 1]) == AllLive(xs[..i]) + [Live(xs[i])];
    }
    assert xs[..|xs|] == xs;
    return Done;
  }
}
