/**
 Floyd's tortoise and hare on a singly linked list.

 A list either ends or runs into a loop; the list is not changed.  `nodes` is any finite set of
 nodes that the list stays in.
 */
module CycleDetection {
  class Node {
    var data: int
    var next: Node?
  }

  ghost predicate Closed(nodes: set<Node>, head: Node?)
    reads nodes
  {
    && (head == null || head in nodes)
    && forall x :: x in nodes ==> x.next == null || x.next in nodes
  }

  /** The node i steps after head, or null past the end. */
  ghost function Nth(nodes: set<Node>, head: Node?, i: nat): (x: Node?)
    requires Closed(nodes, head)
    reads nodes
    ensures x == null || x in nodes
  {
    if i == 0 then head
    else
      var before := Nth(nodes, head, i - 1);
      if before == null then null else before.next
  }

  ghost predicate Ends(nodes: set<Node>, head: Node?)
    requires Closed(nodes, head)
    reads nodes
  {
    exists i: nat :: Nth(nodes, head, i) == null
  }

  /** From step i on the list repeats itself after p more steps. */
  ghost predicate Repeats(nodes: set<Node>, head: Node?, i: nat, p: nat)
    requires Closed(nodes, head)
    reads nodes
  {
    p > 0 && Nth(nodes, head, i) != null && Nth(nodes, head, i) == Nth(nodes, head, i + p)
  }

  /** The length of the loop: the least number of steps after which any node comes round again. */
  ghost predicate LoopLength(nodes: set<Node>, head: Node?, p: nat)
    requires Closed(nodes, head)
    reads nodes
  {
    && (exists i: nat :: Repeats(nodes, head, i, p))
    && forall i: nat, q: nat {:trigger Repeats(nodes, head, i, q)} :: q < p ==> !Repeats(nodes, head, i, q)
  }

  lemma {:induction false} NthFrom(nodes: set<Node>, head: Node?, i: nat, j: nat)
    requires Closed(nodes, head)
    ensures Nth(nodes, head, i + j) == Nth(nodes, Nth(nodes, head, i), j)
  {
    if j > 0 { NthFrom(nodes, head, i, j - 1); }
  }

  lemma {:induction false} NullStays(nodes: set<Node>, head: Node?, i: nat, j: nat)
    requires Closed(nodes, head) && i <= j && Nth(nodes, head, i) == null
    ensures Nth(nodes, head, j) == null
  {
    if i < j { NullStays(nodes, head, i, j - 1); }
  }

  lemma NullIsLater(nodes: set<Node>, head: Node?, i: nat, j: nat)
    requires Closed(nodes, head) && Nth(nodes, head, i) != null && Nth(nodes, head, j) == null
    ensures i < j
  {
    if j <= i { NullStays(nodes, head, j, i); }
  }

  /** What repeats once repeats for ever, at every later node. */
  lemma {:induction false} RepeatsOn(nodes: set<Node>, head: Node?, i: nat, p: nat, j: nat, m: nat)
    requires Closed(nodes, head) && Repeats(nodes, head, i, p) && i <= j
    ensures Nth(nodes, head, j) == Nth(nodes, head, j + m * p)
    decreases m, j
  {
    if m == 1 {
      if i < j { RepeatsOn(nodes, head, i, p, j - 1, 1); }
    } else if m > 1 {
      RepeatsOn(nodes, head, i, p, j, m - 1);
      RepeatsOn(nodes, head, i, p, j + (m - 1) * p, 1);
    }
  }

  lemma LoopNeverEnds(nodes: set<Node>, head: Node?, i: nat, p: nat)
    requires Closed(nodes, head) && Repeats(nodes, head, i, p)
    ensures !Ends(nodes, head)
  {
    forall j: nat ensures Nth(nodes, head, j) != null {
      RepeatsOn(nodes, head, i, p, i, j);
      if Nth(nodes, head, j) == null { NullStays(nodes, head, j, i + j * p); }
    }
  }

  // ---------------------------------------------------------------- a list that does not end repeats itself

  ghost function Visited(nodes: set<Node>, head: Node?, n: nat): set<Node>
    requires Closed(nodes, head)
    reads nodes
  {
    set i | 0 <= i < n && Nth(nodes, head, i) != null :: Nth(nodes, head, i)
  }

  lemma {:induction false} AllDifferent(nodes: set<Node>, head: Node?, n: nat)
    requires Closed(nodes, head) && !Ends(nodes, head)
    requires forall i: nat, p: nat :: i + p < n ==> !Repeats(nodes, head, i, p)
    ensures |Visited(nodes, head, n)| == n && Visited(nodes, head, n) <= nodes
  {
    if n > 0 {
      AllDifferent(nodes, head, n - 1);
      var x := Nth(nodes, head, n - 1);
      assert x !in Visited(nodes, head, n - 1) by {
        forall i: nat | i < n - 1 ensures Nth(nodes, head, i) != x { assert !Repeats(nodes, head, i, n - 1 - i); }
      }
      assert Visited(nodes, head, n) == Visited(nodes, head, n - 1) + {x};
    }
  }

  lemma {:induction false} SubsetSize(a: set<Node>, b: set<Node>)
    requires a <= b
    ensures |a| <= |b|
    decreases |a|
  {
    if a != {} {
      var x :| x in a;
      SubsetSize(a - {x}, b - {x});
    }
  }

  lemma SomewhereRepeats(nodes: set<Node>, head: Node?) returns (i: nat, p: nat)
    requires Closed(nodes, head) && !Ends(nodes, head)
    ensures Repeats(nodes, head, i, p)
  {
    if forall i: nat, p: nat :: i + p < |nodes| + 1 ==> !Repeats(nodes, head, i, p) {
      AllDifferent(nodes, head, |nodes| + 1);
      SubsetSize(Visited(nodes, head, |nodes| + 1), nodes);
    }
    i, p :| Repeats(nodes, head, i, p);
  }

  /** A number of turns after which the loop is over: the fast pointer has fallen off the end, or the two have met. */
  ghost predicate Enough(nodes: set<Node>, head: Node?, k: nat)
    requires Closed(nodes, head)
    reads nodes
  {
    k > 0 && if Ends(nodes, head) then Nth(nodes, head, k) == null else Nth(nodes, head, k) == Nth(nodes, head, 2 * k)
  }

  lemma TurnsBounded(nodes: set<Node>, head: Node?) returns (k: nat)
    requires Closed(nodes, head)
    ensures Enough(nodes, head, k)
  {
    if Ends(nodes, head) {
      k :| Nth(nodes, head, k) == null;
      NullStays(nodes, head, k, k + 1);
      k := k + 1;
    } else {
      var i, p := SomewhereRepeats(nodes, head);
      k := (i + 1) * p;
      assert k >= i by { assert (i + 1) * p >= i + 1; }
      RepeatsOn(nodes, head, i, p, k, i + 1);
    }
  }

  /** Slow and fast after k turns, without having met. */
  ghost predicate Racing(nodes: set<Node>, head: Node?, k: nat, slow: Node?, fast: Node?)
    requires Closed(nodes, head)
    reads nodes
  {
    && slow == Nth(nodes, head, k) && fast == Nth(nodes, head, 2 * k)
    && forall j {:trigger Apart(nodes, head, j)} :: 0 < j <= k ==> Apart(nodes, head, j)
  }

  ghost predicate Apart(nodes: set<Node>, head: Node?, j: nat)
    requires Closed(nodes, head)
    reads nodes
  {
    Nth(nodes, head, j) != null && Nth(nodes, head, j) != Nth(nodes, head, 2 * j)
  }

  lemma RaceGoesOn(nodes: set<Node>, head: Node?, k: nat, slow: Node?, fast: Node?, enough: nat)
    requires Closed(nodes, head) && Racing(nodes, head, k, slow, fast) && Enough(nodes, head, enough)
    requires slow != null && fast != null && fast.next != null
    ensures k < enough
    ensures slow.next == Nth(nodes, head, k + 1) && fast.next.next == Nth(nodes, head, 2 * (k + 1))
    ensures slow.next != null
  {
    assert Nth(nodes, head, 2 * k + 1) == fast.next;
    if Nth(nodes, head, k + 1) == null { NullStays(nodes, head, k + 1, 2 * k + 1); }
    assert enough <= k ==> Apart(nodes, head, enough);
    if Ends(nodes, head) { NullIsLater(nodes, head, 2 * k, enough); }
  }

  lemma RaceIsOver(nodes: set<Node>, head: Node?, k: nat, slow: Node?, fast: Node?)
    requires Closed(nodes, head) && Racing(nodes, head, k, slow, fast)
    requires slow == null || fast == null || fast.next == null
    ensures Ends(nodes, head)
  {
    if slow != null && fast != null { assert Nth(nodes, head, 2 * k + 1) == null; }
  }

  /** True exactly when the list runs into a loop. */
  method DetectCycle(head: Node?, ghost nodes: set<Node>) returns (found: bool)
    requires Closed(nodes, head)
    ensures found <==> !Ends(nodes, head)
  {
    var slow, fast := head, head;
    ghost var k: nat := 0;
    ghost var enough := TurnsBounded(nodes, head);
    while slow != null && fast != null && fast.next != null
      invariant Racing(nodes, head, k, slow, fast)
      decreases enough - k
    {
      RaceGoesOn(nodes, head, k, slow, fast, enough);
      slow := slow.next;
      fast := fast.next.next;
      k := k + 1;
      if slow == fast {
        assert Repeats(nodes, head, k, k);
        LoopNeverEnds(nodes, head, k, k);
        return true;
      }
      assert Apart(nodes, head, k);
    }
    RaceIsOver(nodes, head, k, slow, fast);
    return false;
  }

  /** The steps from a node of the loop back to it. */
  method CountNodes(node: Node, ghost nodes: set<Node>, ghost p: nat) returns (cnt: nat)
    requires Closed(nodes, node) && Repeats(nodes, node, 0, p)
    ensures Repeats(nodes, node, 0, cnt) && forall q: nat :: q < cnt ==> !Repeats(nodes, node, 0, q)
  {
    var cur: Node? := node;
    cnt := 1;
    while cur.next != node
      invariant 1 <= cnt <= p && cur != null && cur == Nth(nodes, node, cnt - 1)
      invariant forall q: nat :: q < cnt ==> !Repeats(nodes, node, 0, q)
      decreases p - cnt
    {
      assert Nth(nodes, node, cnt) == cur.next;
      if cur.next == null { NullStays(nodes, node, cnt, p); }
      cnt := cnt + 1;
      cur := cur.next;
    }
    assert Nth(nodes, node, cnt) == node;
  }

  /** What is least for one node of the loop is least for the list. */
  lemma SameLength(nodes: set<Node>, head: Node?, k: nat, p: nat)
    requires Closed(nodes, head) && Nth(nodes, head, k) != null
    requires var x := Nth(nodes, head, k);
      Repeats(nodes, x, 0, p) && forall q: nat :: q < p ==> !Repeats(nodes, x, 0, q)
    ensures LoopLength(nodes, head, p)
  {
    var x := Nth(nodes, head, k);
    NthFrom(nodes, head, k, p);
    assert Repeats(nodes, head, k, p);
    forall i: nat, q: nat {:trigger Repeats(nodes, head, i, q)} | q < p ensures !Repeats(nodes, head, i, q) {
      if Repeats(nodes, head, i, q) {
        RepeatsOn(nodes, head, k, p, k, i);
        var j := k + i * p;
        assert j >= i by { assert i * p >= i; }
        RepeatsOn(nodes, head, i, q, j, 1);
        NthFrom(nodes, head, j, q);
        assert Repeats(nodes, x, 0, q);
      }
    }
  }

  /** The length of the loop, or 0 for a list that ends. */
  method LengthOfLoop(head: Node?, ghost nodes: set<Node>) returns (length: nat)
    requires Closed(nodes, head)
    ensures if Ends(nodes, head) then length == 0 else LoopLength(nodes, head, length)
  {
    var slow, fast := head, head;
    ghost var k: nat := 0;
    ghost var enough := TurnsBounded(nodes, head);
    while slow != null && fast != null && fast.next != null
      invariant Racing(nodes, head, k, slow, fast)
      decreases enough - k
    {
      RaceGoesOn(nodes, head, k, slow, fast, enough);
      slow := slow.next;
      fast := fast.next.next;
      k := k + 1;
      if slow == fast {
        assert Repeats(nodes, head, k, k);
        LoopNeverEnds(nodes, head, k, k);
        NthFrom(nodes, head, k, k);
        assert Repeats(nodes, slow, 0, k);
        length := CountNodes(slow, nodes, k);
        SameLength(nodes, head, k, length);
        return;
      }
      assert Apart(nodes, head, k);
    }
    RaceIsOver(nodes, head, k, slow, fast);
    return 0;
  }
}
