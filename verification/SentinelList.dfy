/**
 The doubly linked list around a sentinel: a ring of nodes in the heap that stands for a sequence.

 A list owns its sentinel and the nodes of its ring.  `insert` and `erase` rewire two neighbours;
 `swap` and the stealing of nodes exchange what hangs on two sentinels and then repair the links
 that still point to the wrong one.

 The nodes come from an allocator, which knows the live ones.  Destroying a node needs a live one and
 leaves nothing to be read in it, so that no node is destroyed twice, none is read afterwards, and the
 sentinel, which is part of the list and never live, is not destroyed at all.
 */
module SentinelList {
  import opened Prelude

  class Node<T> {
    var prev: Node?<T>
    var next: Node?<T>
    var value: Option<T>

    /** A node alone in a ring of its own; a sentinel holds no value. */
    constructor (value: Option<T>)
      ensures prev == this && next == this && this.value == value
    {
      this.value := value;
      prev, next := this, this;
    }
  }

  class Allocator<T> {
    ghost var live: set<Node<T>>

    constructor ()
      ensures live == {}
    {
      live := {};
    }

    method Create(value: T) returns (node: Node<T>)
      modifies this
      ensures fresh(node) && node.value == Some(value) && live == old(live) + {node}
    {
      node := new Node(Some(value));
      live := live + {node};
    }

    /** Nothing is promised about what the node then holds. */
    method Destroy(node: Node<T>)
      requires node in live
      modifies this, node
      ensures live == old(live) - {node}
    {
      node.prev, node.next, node.value := null, null, None;
      live := live - {node};
    }
  }

  function Members<T>(nodes: seq<Node<T>>): set<Node<T>> {
    set x | x in nodes
  }

  ghost predicate AllIn<T>(nodes: seq<Node<T>>, live: set<Node<T>>) {
    forall i :: 0 <= i < |nodes| ==> nodes[i] in live
  }

  lemma OneMoreMember<T>(nodes: seq<Node<T>>, from: nat, k: nat)
    requires from <= k < |nodes|
    ensures Members(nodes[from..k + 1]) == Members(nodes[from..k]) + {nodes[k]}
  {
    assert nodes[from..k + 1] == nodes[from..k] + [nodes[k]];
  }

  ghost predicate Distinct<T>(ring: seq<Node<T>>) {
    forall i, j :: 0 <= i < j < |ring| ==> ring[i] != ring[j]
  }

  lemma DistinctParts<T>(first: Node<T>, rest: seq<Node<T>>)
    requires Distinct([first] + rest)
    ensures first !in rest && Distinct(rest)
  {
    var ring := [first] + rest;
    forall i | 0 <= i < |rest| ensures rest[i] != first { assert ring[i + 1] == rest[i] && ring[0] == first; }
    forall i, j | 0 <= i < j < |rest| ensures rest[i] != rest[j] {
      assert ring[i + 1] == rest[i] && ring[j + 1] == rest[j];
    }
  }

  function After(i: nat, n: nat): nat
    requires i < n
  {
    if i + 1 == n then 0 else i + 1
  }

  /** The i-th node and the one after it, the first after the last, point to each other. */
  ghost predicate Joined<T>(ring: seq<Node<T>>, i: nat)
    requires i < |ring|
    reads ring
  {
    ring[i].next == ring[After(i, |ring|)] && ring[After(i, |ring|)].prev == ring[i]
  }

  ghost predicate Ring<T>(ring: seq<Node<T>>)
    reads ring
  {
    && ring != [] && Distinct(ring)
    && forall i {:trigger Joined(ring, i)} :: 0 <= i < |ring| ==> Joined(ring, i)
  }

  /** Two nodes that follow each other. */
  ghost predicate Linked<T>(nodes: seq<Node<T>>, i: nat)
    requires i + 1 < |nodes|
    reads nodes
  {
    nodes[i].next == nodes[i + 1] && nodes[i + 1].prev == nodes[i]
  }

  /** The ring without its sentinel. */
  ghost predicate Chain<T>(nodes: seq<Node<T>>)
    reads nodes
  {
    Distinct(nodes) && forall i {:trigger Linked(nodes, i)} :: 0 <= i < |nodes| - 1 ==> Linked(nodes, i)
  }

  ghost predicate Holds<T>(nodes: seq<Node<T>>, contents: seq<T>)
    reads nodes
  {
    |nodes| == |contents| && forall i :: 0 <= i < |nodes| ==> nodes[i].value == Some(contents[i])
  }

  lemma RingIsChain<T>(first: Node<T>, nodes: seq<Node<T>>)
    requires Ring([first] + nodes)
    ensures Chain(nodes) && first !in nodes
    ensures nodes != [] ==> first.next == nodes[0] && first.prev == nodes[|nodes| - 1]
  {
    var ring := [first] + nodes;
    DistinctParts(first, nodes);
    forall i | 0 <= i < |nodes| - 1 ensures Linked(nodes, i) { assert Joined(ring, i + 1); }
    assert Joined(ring, 0) && Joined(ring, |ring| - 1);
  }

  lemma ChainIsRing<T>(first: Node<T>, nodes: seq<Node<T>>)
    requires Chain(nodes) && first !in nodes && nodes != []
    requires first.next == nodes[0] && nodes[0].prev == first
    requires first.prev == nodes[|nodes| - 1] && nodes[|nodes| - 1].next == first
    ensures Ring([first] + nodes)
  {
    var ring := [first] + nodes;
    forall i | 0 <= i < |ring| ensures Joined(ring, i) {
      if 0 < i < |nodes| { assert Linked(nodes, i - 1) && ring[i] == nodes[i - 1] && ring[i + 1] == nodes[i]; }
    }
  }

  /** `unlink`: the ring closes over the node. */
  method Unlink<T>(node: Node<T>, ghost ring: seq<Node<T>>, ghost k: nat)
    requires Ring(ring) && 0 < k < |ring| && ring[k] == node
    modifies ring
    ensures Ring(ring[..k] + ring[k + 1..])
    ensures forall x :: x in ring ==> x.value == old(x.value)
  {
    assert Joined(ring, k - 1) && Joined(ring, k);
    var before, behind := node.prev, node.next;
    before.next := behind;
    behind.prev := before;
    ghost var rest := ring[..k] + ring[k + 1..];
    forall i | 0 <= i < |rest| ensures Joined(rest, i) {
      ghost var j := if i < k then i else i + 1;
      assert old(Joined(ring, j));
      assert rest[i] == ring[j] && (i != k - 1 ==> rest[After(i, |rest|)] == ring[After(j, |ring|)]);
    }
  }

  /** `link_before`: the ring opens before position, its k-th node or, for k at the end, its first. */
  method LinkBefore<T>(position: Node<T>, node: Node<T>, ghost ring: seq<Node<T>>, ghost k: nat)
    requires Ring(ring) && 0 < k <= |ring| && node !in ring && position == ring[if k == |ring| then 0 else k]
    modifies ring, node
    ensures Ring(ring[..k] + [node] + ring[k..])
    ensures node.value == old(node.value) && forall x :: x in ring ==> x.value == old(x.value)
  {
    assert Joined(ring, k - 1);
    node.next := position;
    node.prev := position.prev;
    position.prev.next := node;
    position.prev := node;
    ghost var more := ring[..k] + [node] + ring[k..];
    forall i | 0 <= i < |more| ensures Joined(more, i) {
      ghost var j := if i < k then i else i - 1;
      assert old(Joined(ring, j));
      assert i != k ==> more[i] == ring[j] && (i != k - 1 ==> more[After(i, |more|)] == ring[After(j, |ring|)]);
    }
  }

  /** Live nodes with these contents in a ring around a sentinel. */
  ghost predicate InOrder<T>(sentinel: Node<T>, nodes: seq<Node<T>>, contents: seq<T>, live: set<Node<T>>)
    reads sentinel, nodes
  {
    Ring([sentinel] + nodes) && Holds(nodes, contents) && AllIn(nodes, live) && sentinel !in live
  }

  /** The same, but the outer nodes may still point to the sentinel of another list. */
  ghost predicate Hang<T>(sentinel: Node<T>, nodes: seq<Node<T>>, contents: seq<T>, live: set<Node<T>>)
    reads sentinel, nodes
  {
    && Chain(nodes) && sentinel !in nodes && Holds(nodes, contents) && AllIn(nodes, live) && sentinel !in live
    && (nodes != [] ==> sentinel.next == nodes[0] && sentinel.prev == nodes[|nodes| - 1])
  }

  /** The swaps of `next` and `prev`. */
  method ExchangeLinks<T>(first: Node<T>, second: Node<T>, ghost nodes: seq<Node<T>>, ghost contents: seq<T>,
                          ghost live: set<Node<T>>, ghost nodes': seq<Node<T>>, ghost contents': seq<T>,
                          ghost live': set<Node<T>>)
    requires Hang(first, nodes, contents, live) && Hang(second, nodes', contents', live') && first != second
    requires first !in live' && first !in nodes' && second !in live && second !in nodes
    modifies first, second
    ensures Hang(first, nodes', contents', live') && Hang(second, nodes, contents, live)
  {
    first.next, second.next := second.next, first.next;
    first.prev, second.prev := second.prev, first.prev;
  }

  lemma HoldsMore<T>(nodes: seq<Node<T>>, contents: seq<T>, k: nat, node: Node<T>, value: T)
    requires Holds(nodes, contents) && k <= |nodes| && node.value == Some(value)
    ensures Holds(nodes[..k] + [node] + nodes[k..], contents[..k] + [value] + contents[k..])
  {
    var more, values := nodes[..k] + [node] + nodes[k..], contents[..k] + [value] + contents[k..];
    forall i | 0 <= i < |more| ensures more[i].value == Some(values[i]) {
      if i < k { assert more[i] == nodes[i]; } else if i > k { assert more[i] == nodes[i - 1]; }
    }
  }

  class List<T> {
    const sentinel: Node<T>
    var heap: Allocator<T>
    var size: nat
    ghost var nodes: seq<Node<T>>
    ghost var contents: seq<T>

    /** The ring of the sentinel and the live nodes stands for the contents. */
    ghost predicate Valid()
      reads this, heap, sentinel, nodes
    {
      InOrder(sentinel, nodes, contents, heap.live) && size == |nodes|
    }

    /** What the list owns. */
    ghost function Repr(): set<object>
      reads this
    {
      {this, sentinel} + Members(nodes)
    }

    /** Where an iterator at index k points. */
    ghost function At(k: nat): Node<T>
      requires k <= |nodes|
      reads this
    {
      if k == |nodes| then sentinel else nodes[k]
    }

    constructor (heap: Allocator<T>)
      ensures Valid() && contents == [] && fresh(Repr()) && this.heap == heap
    {
      sentinel := new Node(None);
      this.heap := heap;
      size := 0;
      nodes, contents := [], [];
      new;
      assert Joined([sentinel] + nodes, 0);
    }

    method Insert(position: Node<T>, value: T, ghost k: nat) returns (node: Node<T>)
      requires Valid() && k <= size && position == At(k)
      modifies Repr(), heap
      ensures Valid() && fresh(node) && nodes == old(nodes[..k]) + [node] + old(nodes[k..])
      ensures contents == old(contents[..k]) + [value] + old(contents[k..])
      ensures heap == old(heap) && heap.live == old(heap.live) + {node}
    {
      ghost var ring := [sentinel] + nodes;
      node := heap.Create(value);
      LinkBefore(position, node, ring, k + 1);
      InsertedInOrder(node, value, k);
      Become(nodes[..k] + [node] + nodes[k..], contents[..k] + [value] + contents[k..]);
      size := size + 1;
    }

    lemma InsertedInOrder(node: Node<T>, value: T, k: nat)
      requires Holds(nodes, contents) && AllIn(nodes, heap.live) && sentinel !in heap.live && k <= |nodes|
      requires node in heap.live && node.value == Some(value)
      requires var ring := [sentinel] + nodes; Ring(ring[..k + 1] + [node] + ring[k + 1..])
      ensures InOrder(sentinel, nodes[..k] + [node] + nodes[k..], contents[..k] + [value] + contents[k..], heap.live)
    {
      var ring := [sentinel] + nodes;
      assert ring[..k + 1] + [node] + ring[k + 1..] == [sentinel] + (nodes[..k] + [node] + nodes[k..]);
      HoldsMore(nodes, contents, k, node, value);
    }

    /** From here on the list stands for other nodes and contents. */
    ghost method Become(nodes': seq<Node<T>>, contents': seq<T>)
      modifies this`nodes, this`contents
      ensures nodes == nodes' && contents == contents'
    {
      nodes, contents := nodes', contents';
    }

    /** Erasing the end is reported; otherwise the node dies and the iterator behind it is returned. */
    method Erase(position: Node<T>, ghost k: nat) returns (next: Option<Node<T>>)
      requires Valid() && k <= size && position == At(k)
      modifies Repr(), heap
      ensures Valid() && heap == old(heap) && (next.None? <==> k == old(size))
      ensures next.None? ==> nodes == old(nodes) && contents == old(contents) && heap.live == old(heap.live)
      ensures next.Some? ==> nodes == old(nodes[..k]) + old(nodes[k + 1..]) && next == Some(At(k))
      ensures next.Some? ==> contents == old(contents[..k]) + old(contents[k + 1..])
      ensures next.Some? ==> heap.live == old(heap.live) - {position}
    {
      ghost var ring := [sentinel] + nodes;
      assert k < size ==> ring[0] != ring[k + 1];
      if position == sentinel {
        return None;
      }
      assert Joined(ring, k + 1);
      var behind := position.next;
      Unlink(position, ring, k + 1);
      assert ring[..k + 1] + ring[k + 2..] == [sentinel] + (nodes[..k] + nodes[k + 1..]);
      Release(position, k);
      return Some(behind);
    }

    /** The unlinked node, the k-th so far, is destroyed. */
    method Release(node: Node<T>, ghost k: nat)
      requires k < |nodes| == size && node == nodes[k] && Distinct([sentinel] + nodes)
      requires Holds(nodes, contents) && AllIn(nodes, heap.live) && sentinel !in heap.live
      requires Ring([sentinel] + (nodes[..k] + nodes[k + 1..]))
      modifies this`size, this`nodes, this`contents, heap, node
      ensures Valid() && nodes == old(nodes[..k]) + old(nodes[k + 1..])
      ensures contents == old(contents[..k]) + old(contents[k + 1..]) && heap.live == old(heap.live) - {node}
    {
      DistinctParts(sentinel, nodes);
      ghost var rest := nodes[..k] + nodes[k + 1..];
      forall i | 0 <= i < |rest| ensures rest[i] != node { assert rest[i] == nodes[if i < k then i else i + 1]; }
      heap.Destroy(node);
      size := size - 1;
      forall i | 0 <= i < |rest| + 1 ensures Joined([sentinel] + rest, i) { assert old(Joined([sentinel] + rest, i)); }
      contents := contents[..k] + contents[k + 1..];
      nodes := rest;
    }

    method ResetEmpty()
      modifies this`nodes, this`contents, sentinel
      ensures Ring([sentinel] + nodes) && nodes == [] && contents == []
    {
      sentinel.next := sentinel;
      sentinel.prev := sentinel;
      nodes, contents := [], [];
      assert Joined([sentinel] + nodes, 0);
    }

    /** In order but for the neighbours of the sentinel, which may still point to the sentinel of another list. */
    ghost predicate Displaced()
      reads this, heap, sentinel, nodes
    {
      Hang(sentinel, nodes, contents, heap.live) && size == |nodes|
    }

    method RepairSentinelLinks()
      requires Displaced()
      modifies this`nodes, this`contents, sentinel, nodes
      ensures Valid() && nodes == old(nodes) && contents == old(contents)
    {
      if size == 0 {
        ResetEmpty();
        return;
      }
      sentinel.next.prev := sentinel;
      sentinel.prev.next := sentinel;
      forall i | 0 <= i < |nodes| - 1 ensures Linked(nodes, i) { assert old(Linked(nodes, i)); }
      ChainIsRing(sentinel, nodes);
    }

    /** The allocators and sizes are swapped, and with them what the lists stand for. */
    method ExchangeFields(other: List<T>)
      modifies this, other
      ensures nodes == old(other.nodes) && other.nodes == old(nodes)
      ensures contents == old(other.contents) && other.contents == old(contents)
      ensures heap == old(other.heap) && other.heap == old(heap)
      ensures size == old(other.size) && other.size == old(size)
    {
      heap, other.heap := other.heap, heap;
      size, other.size := other.size, size;
      nodes, other.nodes := other.nodes, nodes;
      contents, other.contents := other.contents, contents;
    }

    /** After the swaps each sentinel hangs on the other's nodes. */
    method Exchange(other: List<T>)
      requires Displaced() && other.Displaced() && this != other && sentinel != other.sentinel
      requires sentinel !in other.heap.live && other.sentinel !in heap.live
      requires sentinel !in other.nodes && other.sentinel !in nodes
      modifies this, other, sentinel, other.sentinel
      ensures Displaced() && other.Displaced()
      ensures nodes == old(other.nodes) && other.nodes == old(nodes)
      ensures contents == old(other.contents) && other.contents == old(contents)
      ensures heap == old(other.heap) && other.heap == old(heap)
    {
      ExchangeLinks(sentinel, other.sentinel, nodes, contents, heap.live, other.nodes, other.contents, other.heap.live);
      label Hung:
      ExchangeFields(other);
      assert old@Hung(Hang(sentinel, other.nodes, other.contents, other.heap.live));
      assert old@Hung(Hang(other.sentinel, nodes, contents, heap.live));
    }

    method Swap(other: List<T>)
      requires Valid() && other.Valid() && (other == this || Repr() !! other.Repr())
      requires sentinel !in other.heap.live && other.sentinel !in heap.live
      modifies Repr(), other.Repr()
      ensures Valid() && other.Valid()
      ensures nodes == old(other.nodes) && other.nodes == old(nodes)
      ensures contents == old(other.contents) && other.contents == old(contents)
      ensures heap == old(other.heap) && other.heap == old(heap)
    {
      if this == other { return; }
      RingIsChain(sentinel, nodes);
      RingIsChain(other.sentinel, other.nodes);
      forall x | x in nodes ensures x !in other.nodes { assert x in Repr(); }
      Exchange(other);
      RepairBoth(other);
    }

    method RepairBoth(other: List<T>)
      requires Displaced() && other.Displaced() && this != other && sentinel != other.sentinel
      requires sentinel !in other.heap.live && other.sentinel !in heap.live
      requires sentinel !in other.nodes && other.sentinel !in nodes && forall x :: x in nodes ==> x !in other.nodes
      modifies this`nodes, this`contents, sentinel, nodes
      modifies other`nodes, other`contents, other.sentinel, other.nodes
      ensures Valid() && other.Valid()
      ensures nodes == old(nodes) && other.nodes == old(other.nodes)
      ensures contents == old(contents) && other.contents == old(other.contents)
    {
      forall i | 0 <= i < |other.nodes|
        ensures other.nodes[i] !in nodes && other.nodes[i] != sentinel && allocated(other.nodes[i])
      {
        assert other.nodes[i] in other.nodes;
      }
      RepairSentinelLinks();
      forall i | 0 <= i < |other.nodes| - 1 ensures Linked(other.nodes, i) {
        assert old(Linked(other.nodes, i));
        assert other.nodes[i].next == old(other.nodes[i].next);
      }
      ghost var ring := [sentinel] + nodes;
      label Between:
      other.RepairSentinelLinks();
      forall i | 0 <= i < |ring| ensures Joined(ring, i) { assert old@Between(Joined(ring, i)); }
    }

    /**
     All nodes of the other list move over; it stays behind empty.  Nothing is asked of the receiver and
     none of its nodes is touched: if any hang on it, they stay live and belong to no list.
     */
    method StealNodesFrom(other: List<T>)
      requires other.Valid() && heap == other.heap && sentinel !in heap.live
      requires this != other && sentinel != other.sentinel
      modifies this`size, this`nodes, this`contents, sentinel
      modifies other`size, other`nodes, other`contents, other.sentinel, other.nodes
      ensures Valid() && nodes == old(other.nodes) && contents == old(other.contents)
      ensures other.Valid() && other.nodes == [] && other.contents == []
    {
      if other.size == 0 {
        ResetEmpty();
        size := 0;
        return;
      }
      RingIsChain(other.sentinel, other.nodes);
      sentinel.next := other.sentinel.next;
      sentinel.prev := other.sentinel.prev;
      size := other.size;
      nodes, contents := other.nodes, other.contents;
      RepairSentinelLinks();
      other.ResetEmpty();
      other.size := 0;
    }

    /** Move assignment, with the allocator taken over: the own nodes die, those of the other list move over. */
    method MoveAssign(other: List<T>)
      requires Valid() && other.Valid() && (other == this || Repr() !! other.Repr())
      requires sentinel !in other.heap.live
      modifies Repr(), other.Repr(), heap
      ensures Valid() && heap == old(other.heap) && nodes == old(other.nodes) && contents == old(other.contents)
      ensures other != this ==> other.Valid() && other.nodes == [] && other.contents == []
      ensures other != this ==> old(heap).live == old(heap.live) - Members(old(nodes))
    {
      if this == other { return; }
      Clear();
      heap := other.heap;
      StealNodesFrom(other);
    }

    /** The nodes before the k-th of the ring have died; the others still lead round to the sentinel. */
    ghost predicate ClearedUpTo(ring: seq<Node<T>>, k: nat, before: set<Node<T>>)
      requires 0 < k <= |ring|
      reads heap, this, ring
    {
      && heap.live == before - Members(ring[1..k])
      && forall i :: k <= i < |ring| ==> ring[i] in heap.live && ring[i].next == ring[After(i, |ring|)]
    }

    /** Walks the ring once and destroys every node behind itself. */
    method DestroyNodes()
      requires Valid()
      modifies heap, Members(nodes)
      ensures heap.live == old(heap.live) - Members(nodes)
    {
      ghost var ring := [sentinel] + nodes;
      assert Joined(ring, 0);
      var current := sentinel.next;
      ghost var k: nat := 1;
      forall i | 1 <= i < |ring| ensures ring[i] in heap.live && ring[i].next == ring[After(i, |ring|)] {
        assert ring[i] == nodes[i - 1] && Joined(ring, i);
      }
      while current != sentinel
        invariant 0 < k <= |ring| && current == ring[if k == |ring| then 0 else k]
        invariant ClearedUpTo(ring, k, old(heap.live))
        decreases |ring| - k
      {
        assert current == nodes[k - 1] && current in Members(nodes);
        var next := current.next;
        heap.Destroy(current);
        OneMoreMember(ring, 1, k);
        current := next;
        k := k + 1;
      }
      assert ring[1..|ring|] == nodes;
    }

    method Clear()
      requires Valid()
      modifies Repr(), heap
      ensures Valid() && nodes == [] && contents == []
      ensures heap == old(heap) && heap.live == old(heap.live) - Members(old(nodes))
    {
      DestroyNodes();
      ResetEmpty();
      size := 0;
    }

    /** From `begin` to `end`: the values in order. */
    method Forward() returns (s: seq<T>)
      requires Valid()
      ensures s == contents
    {
      ghost var ring := [sentinel] + nodes;
      assert Joined(ring, 0);
      s := [];
      var current := sentinel.next;
      while current != sentinel
        invariant |s| <= size && current == ring[if |s| == size then 0 else |s| + 1] && s == contents[..|s|]
        decreases size - |s|
      {
        assert |s| == size ==> current == sentinel;
        assert Joined(ring, |s| + 1) && current == nodes[|s|];
        s := s + [current.value.value];
        current := current.next;
      }
      DistinctParts(sentinel, nodes);
    }

    /** From the last element back to the first: the values in reverse. */
    method Backward() returns (s: seq<T>)
      requires Valid()
      ensures |s| == |contents| && forall i :: 0 <= i < |s| ==> s[i] == contents[|s| - 1 - i]
    {
      ghost var ring := [sentinel] + nodes;
      assert Joined(ring, |ring| - 1);
      s := [];
      var current := sentinel.prev;
      while current != sentinel
        invariant |s| <= size && current == ring[size - |s|]
        invariant forall i :: 0 <= i < |s| ==> s[i] == contents[size - 1 - i]
        decreases size - |s|
      {
        assert |s| == size ==> current == sentinel;
        assert Joined(ring, size - |s| - 1) && current == nodes[size - |s| - 1];
        s := s + [current.value.value];
        current := current.prev;
      }
      DistinctParts(sentinel, nodes);
    }
  }
}
