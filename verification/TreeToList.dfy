/**
 Two conversions of a binary tree into a doubly linked list that rewire `left` and `right` while
 they walk the tree: one with an explicit stack, one (Morris) that borrows null right pointers.

 Both are proved to leave the same list: the nodes of the tree in inorder, `right` leading forward
 and `left` back.  A ghost tree of the nodes describes the input; positions in its inorder sequence
 and the interval of positions below each node carry the proofs.
 */
module TreeToList {
  class TreeNode {
    const data: int
    var left: TreeNode?
    var right: TreeNode?

    constructor (x: int)
      ensures data == x && left == null && right == null
    {
      data, left, right := x, null, null;
    }
  }

  datatype Tree = Leaf | Node(left: Tree, node: TreeNode, right: Tree)

  function Inorder(t: Tree): seq<TreeNode> {
    match t
    case Leaf => []
    case Node(l, x, r) => Inorder(l) + [x] + Inorder(r)
  }

  ghost function Footprint(t: Tree): set<TreeNode> {
    match t
    case Leaf => {}
    case Node(l, x, r) => Footprint(l) + {x} + Footprint(r)
  }

  /** The pointers below p form the tree t. */
  ghost predicate Shape(p: TreeNode?, t: Tree)
    reads Footprint(t)
  {
    match t
    case Leaf => p == null
    case Node(l, x, r) => p == x && Shape(x.left, l) && Shape(x.right, r)
  }

  ghost predicate Distinct(ns: seq<TreeNode>) {
    forall i, j :: 0 <= i < j < |ns| ==> ns[i] != ns[j]
  }

  /** The node at a position; null outside the sequence. */
  function At(ns: seq<TreeNode>, i: int): TreeNode? {
    if 0 <= i < |ns| then ns[i] else null
  }

  /** From head, `right` runs through exactly ns and ends; `left` is its inverse. */
  ghost predicate IsList(head: TreeNode?, ns: seq<TreeNode>)
    reads ns
  {
    && head == At(ns, 0)
    && forall i :: 0 <= i < |ns| ==> ns[i].left == At(ns, i - 1) && ns[i].right == At(ns, i + 1)
  }

  // ---------------------------------------------------------------- positions

  /** The node at a position covers positions lo..hi; left and right are its children's positions, -1 for none. */
  datatype Span = Span(lo: int, hi: int, left: int, right: int)

  function RootAt(t: Tree, base: nat): int {
    if t.Leaf? then -1 else base + |Inorder(t.left)|
  }

  function Spans(t: Tree, base: nat): (sp: seq<Span>)
    ensures |sp| == |Inorder(t)|
  {
    match t
    case Leaf => []
    case Node(l, x, r) =>
      var b := base + |Inorder(l)| + 1;
      Spans(l, base) + [Span(base, base + |Inorder(t)|, RootAt(l, base), RootAt(r, b))] + Spans(r, b)
  }

  /** What the span of position i = base + k says about its children. */
  predicate SpanOk(sp: seq<Span>, base: nat, k: int)
    requires 0 <= k < |sp|
  {
    var s, i := sp[k], base + k;
    && base <= s.lo <= i < s.hi <= base + |sp|
    && -1 <= s.left && -1 <= s.right
    && (if s.left < 0 then s.lo == i
        else s.lo <= s.left < i && sp[s.left - base].lo == s.lo && sp[s.left - base].hi == i)
    && (if s.right < 0 then s.hi == i + 1
        else i < s.right < s.hi && sp[s.right - base].lo == i + 1 && sp[s.right - base].hi == s.hi)
  }

  /** Of two positions i < j: j lies below i to its right, or j's span starts after i's or covers it. */
  predicate Nested(sp: seq<Span>, base: nat, i: int, j: int)
    requires 0 <= i < j < |sp|
  {
    if base + j < sp[i].hi then base + i < sp[j].lo && sp[j].hi <= sp[i].hi
    else sp[j].lo >= sp[i].hi || sp[j].lo <= sp[i].lo
  }

  ghost predicate Laminar(sp: seq<Span>, base: nat) {
    && (forall k :: 0 <= k < |sp| ==> SpanOk(sp, base, k))
    && (forall i, j :: 0 <= i < j < |sp| ==> Nested(sp, base, i, j))
    && (forall k :: 0 <= k < |sp| - 1 ==> Adjacent(sp, base, k))
  }

  /** A node without right child lies below its successor. */
  predicate Adjacent(sp: seq<Span>, base: nat, k: nat)
    requires k + 1 < |sp|
  {
    sp[k].right < 0 ==> sp[k + 1].lo <= base + k
  }

  /** L and R are the spans of two subtrees, m those of the node between them. */
  ghost predicate Joint(L: seq<Span>, m: Span, R: seq<Span>, base: nat) {
    var i := base + |L|;
    && Laminar(L, base) && Laminar(R, i + 1)
    && m.lo == base && m.hi == i + 1 + |R|
    && RootSpan(L, base, m.left) && RootSpan(R, i + 1, m.right)
  }

  lemma JointOk(L: seq<Span>, m: Span, R: seq<Span>, base: nat, k: int)
    requires Joint(L, m, R, base) && 0 <= k < |L| + 1 + |R|
    ensures SpanOk(L + [m] + R, base, k)
  {
    var sp := L + [m] + R;
    if k < |L| { assert sp[k] == L[k] && SpanOk(L, base, k); }
    if k > |L| { assert sp[k] == R[k - |L| - 1] && SpanOk(R, base + |L| + 1, k - |L| - 1); }
  }

  lemma JointNested(L: seq<Span>, m: Span, R: seq<Span>, base: nat, a: int, b: int)
    requires Joint(L, m, R, base) && 0 <= a < b < |L| + 1 + |R|
    ensures Nested(L + [m] + R, base, a, b)
  {
    var sp, i := L + [m] + R, base + |L|;
    if a < |L| { assert sp[a] == L[a] && SpanOk(L, base, a); }
    if b > |L| { assert sp[b] == R[b - |L| - 1] && SpanOk(R, i + 1, b - |L| - 1); }
    if b < |L| { assert sp[b] == L[b] && Nested(L, base, a, b); }
    if a > |L| { assert sp[a] == R[a - |L| - 1] && Nested(R, i + 1, a - |L| - 1, b - |L| - 1); }
  }

  lemma JointAdjacent(L: seq<Span>, m: Span, R: seq<Span>, base: nat, k: int)
    requires Joint(L, m, R, base) && 0 <= k < |L| + |R|
    ensures Adjacent(L + [m] + R, base, k)
  {
    var sp := L + [m] + R;
    if k < |L| - 1 { assert Adjacent(L, base, k); }
    if k > |L| { assert Adjacent(R, base + |L| + 1, k - |L| - 1); }
  }

  /** The child position r names the span that covers the child's whole sequence. */
  predicate RootSpan(sp: seq<Span>, base: nat, r: int) {
    if sp == [] then r == -1
    else base <= r < base + |sp| && sp[r - base].lo == base && sp[r - base].hi == base + |sp|
  }

  lemma RootSpanOf(t: Tree, base: nat)
    ensures RootSpan(Spans(t, base), base, RootAt(t, base))
  {}

  lemma {:induction false} SpansLaminar(t: Tree, base: nat)
    ensures Laminar(Spans(t, base), base)
  {
    if t.Node? {
      var i := base + |Inorder(t.left)|;
      SpansLaminar(t.left, base);
      SpansLaminar(t.right, i + 1);
      RootSpanOf(t.left, base);
      RootSpanOf(t.right, i + 1);
      JointLaminar(Spans(t.left, base), Span(base, base + |Inorder(t)|, RootAt(t.left, base), RootAt(t.right, i + 1)),
                   Spans(t.right, i + 1), base, Spans(t, base));
    }
  }

  lemma JointLaminar(L: seq<Span>, m: Span, R: seq<Span>, base: nat, sp: seq<Span>)
    requires Joint(L, m, R, base) && sp == L + [m] + R
    ensures Laminar(sp, base)
  {
    forall k | 0 <= k < |sp| ensures SpanOk(sp, base, k) { JointOk(L, m, R, base, k); }
    forall a, b | 0 <= a < b < |sp| ensures Nested(sp, base, a, b) { JointNested(L, m, R, base, a, b); }
    forall k | 0 <= k < |sp| - 1 ensures Adjacent(sp, base, k) { JointAdjacent(L, m, R, base, k); }
  }

  /** Position i's pointers are those of the tree. */
  ghost predicate LinksAt(ns: seq<TreeNode>, sp: seq<Span>, base: nat, k: int)
    requires |sp| == |ns| && 0 <= k < |ns|
    reads ns[k]
  {
    ns[k].left == At(ns, sp[k].left - base) && ns[k].right == At(ns, sp[k].right - base)
  }

  /** A child position is none or lies among the n positions from base. */
  predicate InRange(child: int, base: nat, n: nat) { child == -1 || base <= child < base + n }

  lemma ChildrenInRange(t: Tree, base: nat, k: nat)
    requires k < |Inorder(t)|
    ensures var s := Spans(t, base)[k]; InRange(s.left, base, |Inorder(t)|) && InRange(s.right, base, |Inorder(t)|)
  {
    SpansLaminar(t, base);
    assert SpanOk(Spans(t, base), base, k);
  }

  lemma RootIsThere(p: TreeNode?, t: Tree, base: nat)
    requires Shape(p, t)
    ensures p == At(Inorder(t), RootAt(t, base) - base) && InRange(RootAt(t, base), base, |Inorder(t)|)
  {}

  /** A subtree's links are links of the whole tree, its positions shifted by what stands before it. */
  lemma LinksInside(ns: seq<TreeNode>, sp: seq<Span>, base: nat, k: nat,
                    all: seq<TreeNode>, allSp: seq<Span>, base': nat, k': nat)
    requires |ns| == |sp| && k < |ns| && base' <= base && base - base' + |ns| <= |all| == |allSp|
    requires LinksAt(ns, sp, base, k) && InRange(sp[k].left, base, |ns|) && InRange(sp[k].right, base, |ns|)
    requires base + k == base' + k' && Inside(ns, all, base - base') && Inside(sp, allSp, base - base')
    ensures LinksAt(all, allSp, base', k')
  {
    var s := sp[k];
    assert s.left >= 0 ==> ns[s.left - base] == all[s.left - base'];
    assert s.right >= 0 ==> ns[s.right - base] == all[s.right - base'];
  }

  ghost predicate Inside<T>(part: seq<T>, all: seq<T>, d: nat) {
    d + |part| <= |all| && forall j {:trigger part[j]} :: 0 <= j < |part| ==> part[j] == all[d + j]
  }

  lemma PartsInside<T>(l: seq<T>, x: T, r: seq<T>, d: nat)
    requires d == |l| + 1
    ensures Inside(l, l + [x] + r, 0) && Inside(r, l + [x] + r, d)
  {}

  lemma LeftInside(t: Tree, base: nat)
    requires t.Node?
    ensures Inside(Inorder(t.left), Inorder(t), 0) && Inside(Spans(t.left, base), Spans(t, base), 0)
  {}

  lemma RightInside(t: Tree, base: nat, b: nat)
    requires t.Node? && b == base + |Inorder(t.left)| + 1
    ensures Inside(Inorder(t.right), Inorder(t), b - base) && Inside(Spans(t.right, b), Spans(t, base), b - base)
  {
    var m := Span(base, base + |Inorder(t)|, RootAt(t.left, base), RootAt(t.right, b));
    assert Spans(t, base) == Spans(t.left, base) + [m] + Spans(t.right, b);
    PartsInside(Inorder(t.left), t.node, Inorder(t.right), b - base);
    PartsInside(Spans(t.left, base), m, Spans(t.right, b), b - base);
  }

  lemma LinksFromLeft(t: Tree, base: nat, k: nat)
    requires t.Node? && k < |Inorder(t.left)| && LinksAt(Inorder(t.left), Spans(t.left, base), base, k)
    ensures LinksAt(Inorder(t), Spans(t, base), base, k)
  {
    LeftInside(t, base);
    ChildrenInRange(t.left, base, k);
    LinksInside(Inorder(t.left), Spans(t.left, base), base, k, Inorder(t), Spans(t, base), base, k);
  }

  lemma LinksFromRight(t: Tree, base: nat, b: nat, k: nat)
    requires t.Node? && b == base + |Inorder(t.left)| + 1 && b - base <= k < |Inorder(t)|
    requires LinksAt(Inorder(t.right), Spans(t.right, b), b, k - (b - base))
    ensures LinksAt(Inorder(t), Spans(t, base), base, k)
  {
    RightInside(t, base, b);
    ChildrenInRange(t.right, b, k - (b - base));
    LinksInside(Inorder(t.right), Spans(t.right, b), b, k - (b - base), Inorder(t), Spans(t, base), base, k);
  }

  /** The pointers of the tree, read position by position. */
  lemma {:induction false} ShapeLinks(p: TreeNode?, t: Tree, base: nat, k: nat)
    requires Shape(p, t) && k < |Inorder(t)|
    ensures LinksAt(Inorder(t), Spans(t, base), base, k)
  {
    var n := |Inorder(t.left)|;
    var b := base + n + 1;
    if k < n {
      ShapeLinks(t.node.left, t.left, base, k);
      LinksFromLeft(t, base, k);
    } else if k > n {
      ShapeLinks(t.node.right, t.right, b, k - (b - base));
      LinksFromRight(t, base, b, k);
    } else {
      RootIsThere(t.node.left, t.left, base);
      RootIsThere(t.node.right, t.right, b);
      LinksOfRoot(Inorder(t.left), t.node, Inorder(t.right), base, Inorder(t), Spans(t, base));
    }
  }

  lemma LinksOfRoot(L: seq<TreeNode>, x: TreeNode, R: seq<TreeNode>, base: nat, all: seq<TreeNode>, allSp: seq<Span>)
    requires all == L + [x] + R && |allSp| == |all|
    requires var s := allSp[|L|];
      && x.left == At(L, s.left - base) && InRange(s.left, base, |L|)
      && x.right == At(R, s.right - base - |L| - 1) && InRange(s.right, base + |L| + 1, |R|)
    ensures LinksAt(all, allSp, base, |L|)
  {}

  // ---------------------------------------------------------------- pointers as positions

  /** Where the pointers of the nodes lead, as positions; -1 for null. */
  datatype Links = Links(left: seq<int>, right: seq<int>)

  ghost predicate Mirrors(ns: seq<TreeNode>, k: Links)
    reads ns
  {
    |k.left| == |k.right| == |ns| && forall i :: 0 <= i < |ns| ==> MirrorsAt(ns, k, i)
  }

  ghost predicate MirrorsAt(ns: seq<TreeNode>, k: Links, i: nat)
    requires i < |ns| == |k.left| == |k.right|
    reads ns[i]
  {
    && -1 <= k.left[i] < |ns| && ns[i].left == At(ns, k.left[i])
    && -1 <= k.right[i] < |ns| && ns[i].right == At(ns, k.right[i])
  }

  function TreeLinks(sp: seq<Span>): Links {
    Links(seq(|sp|, i requires 0 <= i < |sp| => sp[i].left), seq(|sp|, i requires 0 <= i < |sp| => sp[i].right))
  }

  lemma TreeMirrored(root: TreeNode?, t: Tree)
    requires Shape(root, t)
    ensures Mirrors(Inorder(t), TreeLinks(Spans(t, 0)))
  {
    var ns, sp := Inorder(t), Spans(t, 0);
    forall i | 0 <= i < |ns| ensures MirrorsAt(ns, TreeLinks(sp), i) {
      ShapeLinks(root, t, 0, i);
      ChildrenInRange(t, 0, i);
    }
  }

  method SetLeft(ghost ns: seq<TreeNode>, ghost k: Links, ghost i: nat, ghost j: int, node: TreeNode, to: TreeNode?)
    returns (ghost k': Links)
    requires Distinct(ns) && Mirrors(ns, k) && i < |ns| && node == ns[i] && -1 <= j < |ns| && to == At(ns, j)
    modifies node`left
    ensures k' == k.(left := k.left[i := j]) && Mirrors(ns, k')
  {
    assert forall q :: 0 <= q < |ns| && q != i ==> ns[q] != node;
    node.left := to;
    k' := k.(left := k.left[i := j]);
    forall q | 0 <= q < |ns| ensures MirrorsAt(ns, k', q) { assert old(MirrorsAt(ns, k, q)); }
  }

  method SetRight(ghost ns: seq<TreeNode>, ghost k: Links, ghost i: nat, ghost j: int, node: TreeNode, to: TreeNode?)
    returns (ghost k': Links)
    requires Distinct(ns) && Mirrors(ns, k) && i < |ns| && node == ns[i] && -1 <= j < |ns| && to == At(ns, j)
    modifies node`right
    ensures k' == k.(right := k.right[i := j]) && Mirrors(ns, k')
  {
    assert forall q :: 0 <= q < |ns| && q != i ==> ns[q] != node;
    node.right := to;
    k' := k.(right := k.right[i := j]);
    forall q | 0 <= q < |ns| ensures MirrorsAt(ns, k', q) { assert old(MirrorsAt(ns, k, q)); }
  }

  // ---------------------------------------------------------------- the state of a conversion, over positions

  /** The first m nodes are linked to each other; the right pointer of the last of them is still to be set. */
  ghost predicate Linked(k: Links, m: nat)
    requires m <= |k.left| == |k.right|
  {
    (forall i :: 0 <= i < m ==> LinkedBack(k, i)) && (forall i :: 0 <= i < m - 1 ==> LinkedOn(k, i))
  }

  predicate LinkedBack(k: Links, i: nat) { i < |k.left| && k.left[i] == i - 1 }

  predicate LinkedOn(k: Links, i: nat) { i < |k.right| && k.right[i] == i + 1 }

  lemma LinkedIsList(ns: seq<TreeNode>, k: Links, head: TreeNode?)
    requires Mirrors(ns, k) && Linked(k, |ns|) && head == At(ns, 0) && (ns != [] ==> k.right[|ns| - 1] == -1)
    ensures IsList(head, ns)
  {
    forall i | 0 <= i < |ns| ensures ns[i].left == At(ns, i - 1) && ns[i].right == At(ns, i + 1) {
      assert MirrorsAt(ns, k, i) && LinkedBack(k, i);
      assert i < |ns| - 1 ==> LinkedOn(k, i);
    }
  }

  /**
   Morris' walk stands at c with m nodes done: it has passed j on its way down and led the last node of
   j's left subtree to j.
   */
  predicate Threaded(sp: seq<Span>, m: nat, c: int, j: int) {
    0 <= j < |sp| && c < j && sp[j].lo <= m
  }

  /** The node is as in the tree, except that the last node below a threaded position leads to it. */
  predicate Original(sp: seq<Span>, k: Links, m: nat, c: int, i: nat)
    requires i < |sp| == |k.left| == |k.right|
  {
    && k.left[i] == sp[i].left
    && k.right[i] == if sp[i].right >= 0 then sp[i].right else if Threaded(sp, m, c, i + 1) then i + 1 else -1
  }

  /** How far Morris' walk is: m nodes done, standing at position c, with the links so far. */
  datatype Walk = Walk(sp: seq<Span>, k: Links, m: nat, c: nat)

  /** Position c is met for the first time, or its left subtree is done and leads to it. */
  ghost predicate WalkOk(w: Walk) {
    && w.m <= w.c <= |w.sp| == |w.k.left| == |w.k.right|
    && Laminar(w.sp, 0)
    && Linked(w.k, w.m)
    && (forall i :: w.m <= i < |w.sp| ==> Original(w.sp, w.k, w.m, w.c, i))
    && (if w.c < |w.sp| then w.sp[w.c].lo == w.m || (w.sp[w.c].lo < w.m == w.c && 0 < w.m && w.k.right[w.m - 1] == w.m)
        else w.m == |w.sp| && (w.m > 0 ==> w.k.right[w.m - 1] == -1))
  }

  type Walking = w: Walk | WalkOk(w) ghost witness Walk([], Links([], []), 0, 0)

  /** The position the walk goes to after visiting position m. */
  function After(sp: seq<Span>, m: nat): nat
    requires m < |sp|
  {
    if sp[m].right >= 0 then sp[m].right else m + 1
  }

  lemma ThreadDown(sp: seq<Span>, m: nat, c: nat, j: int)
    requires Laminar(sp, 0) && c < |sp| && sp[c].lo == m < c
    ensures Threaded(sp, m, sp[c].left, j) <==> Threaded(sp, m, c, j) || j == c
  {
    assert SpanOk(sp, 0, c);
    if sp[c].left < j < c { assert Nested(sp, 0, sp[c].left, j); }
  }

  lemma ThreadAfter(sp: seq<Span>, m: nat, j: int)
    requires Laminar(sp, 0) && m < |sp|
    ensures Threaded(sp, m + 1, After(sp, m), j) <==> Threaded(sp, m, m, j) && (sp[m].right < 0 ==> j != m + 1)
    ensures sp[m].right < 0 && m + 1 < |sp| ==> sp[m + 1].lo <= m
  {
    assert SpanOk(sp, 0, m);
    var c := After(sp, m);
    if m + 1 < |sp| { assert Adjacent(sp, 0, m); }
    if m < j < |sp| { assert Nested(sp, 0, m, j) && SpanOk(sp, 0, j); }
    if c < j < |sp| { assert Nested(sp, 0, c, j) && SpanOk(sp, 0, c); }
  }

  /** Visiting position m links it behind the m nodes before it. */
  lemma VisitWalks(w: Walking, k: Links) returns (w': Walking)
    requires w.c == w.m < |w.sp|
    requires k.left == w.k.left[w.m := w.m - 1] && k.right == if w.m > 0 then w.k.right[w.m - 1 := w.m] else w.k.right
    ensures w' == Walk(w.sp, k, w.m + 1, After(w.sp, w.m))
    ensures k.right[w.m] == if w'.c < |w.sp| then w'.c else -1
  {
    var sp, m := w.sp, w.m;
    assert SpanOk(sp, 0, m) && Original(sp, w.k, m, m, m);
    var c, done := After(sp, m), m + 1;
    ThreadAfter(sp, m, done);
    if c < |sp| { assert SpanOk(sp, 0, c); }
    VisitLinked(w.k, m, k);
    forall i: nat | done <= i < |sp| ensures Original(sp, k, done, c, i) {
      assert Original(sp, w.k, m, m, i);
      ThreadAfter(sp, m, i + 1);
    }
    w' := Walk(sp, k, done, c);
  }

  lemma VisitLinked(k: Links, m: nat, k': Links)
    requires m < |k.left| == |k.right| && Linked(k, m)
    requires k'.left == k.left[m := m - 1] && k'.right == if m > 0 then k.right[m - 1 := m] else k.right
    ensures Linked(k', m + 1)
  {
    forall i | 0 <= i < m + 1 ensures LinkedBack(k', i) { assert i < m ==> LinkedBack(k, i); }
    forall i | 0 <= i < m ensures LinkedOn(k', i) { assert i < m - 1 ==> LinkedOn(k, i); }
  }

  /** Going left from a position met for the first time, after leading the last node of its left subtree back to it. */
  lemma DescendWalks(w: Walking, k: Links) returns (w': Walking)
    requires w.m < w.c < |w.sp| && w.sp[w.c].left >= 0 && w.sp[w.c - 1].right < 0
    requires k == w.k.(right := w.k.right[w.c - 1 := w.c])
    ensures w' == Walk(w.sp, k, w.m, w.sp[w.c].left)
  {
    var sp, m, c := w.sp, w.m, w.c;
    assert SpanOk(sp, 0, c);
    assert Linked(k, m) by {
      forall i | 0 <= i < m - 1 ensures LinkedOn(k, i) { assert LinkedOn(w.k, i); }
      forall i | 0 <= i < m ensures LinkedBack(k, i) { assert LinkedBack(w.k, i); }
    }
    forall i | m <= i < |sp| ensures Original(sp, k, m, sp[c].left, i) {
      assert Original(sp, w.k, m, c, i);
      ThreadDown(sp, m, c, i + 1);
    }
    w' := Walk(sp, k, m, sp[c].left);
  }

  method Morris(root: TreeNode?, ghost t: Tree) returns (head: TreeNode?)
    requires Shape(root, t) && Distinct(Inorder(t))
    modifies Inorder(t)
    ensures IsList(head, Inorder(t))
  {
    ghost var ns := Inorder(t);
    ghost var w: Walking := MorrisStart(root, t);
    var cur, prev: TreeNode? := root, null;
    head := null;
    while cur != null
      invariant Mirrors(ns, w.k) && |w.sp| == |ns| && cur == At(ns, w.c)
      invariant prev == At(ns, w.m - 1) && head == if w.m > 0 then At(ns, 0) else null
      decreases |ns| - w.m, w.c
    {
      CurLinks(ns, w);
      if cur.left == null {
        if head == null {
          prev := cur;
          head := cur;
          w := FirstVisit(ns, w);
        } else {
          w := Append(ns, w, prev, cur);
        }
        prev := cur;
        cur := cur.right;
      } else {
        var pre := Predecessor(cur, ns, w);
        if pre.right == null {
          ghost var k := SetRight(ns, w.k, w.c - 1, w.c, pre, cur);
          w := DescendWalks(w, k);
          cur := cur.left;
        } else {
          cur := prev.right;
          w := Append(ns, w, prev, cur);
          prev := cur;
          cur := cur.right;
        }
      }
    }
    LinkedIsList(ns, w.k, head);
  }

  /** `prev->right = cur; cur->left = prev`, where prev is the last node done and cur the next. */
  method Append(ghost ns: seq<TreeNode>, ghost w: Walking, prev: TreeNode, cur: TreeNode)
    returns (ghost w': Walking)
    requires Distinct(ns) && Mirrors(ns, w.k) && |w.sp| == |ns|
    requires 0 < w.m == w.c < |ns| && prev == ns[w.m - 1] && cur == ns[w.m]
    modifies prev`right, cur`left
    ensures w'.sp == w.sp && w'.m == w.m + 1 && Mirrors(ns, w'.k) && cur.right == At(ns, w'.c)
  {
    ghost var k := SetRight(ns, w.k, w.m - 1, w.m, prev, cur);
    k := SetLeft(ns, k, w.m, w.m - 1, cur, prev);
    w' := VisitWalks(w, k);
    assert MirrorsAt(ns, k, w.m);
  }

  lemma FirstVisit(ns: seq<TreeNode>, w: Walking) returns (w': Walking)
    requires Mirrors(ns, w.k) && w.m == w.c == 0 && |w.sp| == |ns| > 0
    ensures w'.sp == w.sp && w'.k == w.k && w'.m == 1 && ns[0].right == At(ns, w'.c)
  {
    CurLinks(ns, w);
    assert w.k.left == w.k.left[0 := -1];
    w' := VisitWalks(w, w.k);
    assert MirrorsAt(ns, w.k, 0);
  }

  lemma CurLinks(ns: seq<TreeNode>, w: Walking)
    requires Mirrors(ns, w.k) && w.c < |ns| == |w.sp|
    ensures ns[w.c].left == At(ns, w.sp[w.c].left) && w.k.left[w.c] == w.sp[w.c].left && -1 <= w.sp[w.c].left < w.c
    ensures w.m <= w.c && if ns[w.c].left == null then w.sp[w.c].left == -1 && w.m == w.c else w.sp[w.c].left >= 0
    ensures w.m < w.c || ns[w.c].left == null || (w.m > 0 && ns[w.m - 1].right == ns[w.c])
  {
    assert SpanOk(w.sp, 0, w.c) && Original(w.sp, w.k, w.m, w.c, w.c) && MirrorsAt(ns, w.k, w.c);
    if w.m > 0 { assert MirrorsAt(ns, w.k, w.m - 1); }
  }

  /** The inner loop: from cur's left child along right pointers, to a null one or one that leads to cur. */
  method Predecessor(cur: TreeNode, ghost ns: seq<TreeNode>, ghost w: Walking) returns (pre: TreeNode)
    requires Mirrors(ns, w.k) && Distinct(ns) && w.c < |ns| == |w.sp| && cur == ns[w.c] && cur.left != null
    ensures 0 <= w.sp[w.c].left < w.c && pre == ns[w.c - 1] && Mirrors(ns, w.k)
    ensures if w.m < w.c then pre.right == null && w.sp[w.c - 1].right < 0 else pre.right == cur
  {
    CurLinks(ns, w);
    assert SpanOk(w.sp, 0, w.c);
    pre := cur.left;
    ghost var p: nat := w.sp[w.c].left;
    while pre.right != null && pre.right != cur
      invariant w.sp[w.c].left <= p < w.c && pre == ns[p] && (w.m < w.c ==> w.m <= p && w.sp[p].hi == w.c)
      decreases w.c - p
    {
      RightOf(ns, w, p);
      p := w.k.right[p];
      pre := pre.right;
    }
    RightOf(ns, w, p);
  }

  /** From a node of cur's left subtree the right pointer leads on inside it, or the node is the last one there. */
  lemma RightOf(ns: seq<TreeNode>, w: Walking, p: nat)
    requires Mirrors(ns, w.k) && Distinct(ns) && p < w.c < |ns| == |w.sp| && 0 <= w.sp[w.c].left
    requires w.m < w.c ==> w.m <= p && w.sp[p].hi == w.c
    ensures ns[p].right == At(ns, w.k.right[p])
    ensures w.m < w.c ==> if p == w.c - 1 then w.sp[p].right < 0 && w.k.right[p] == -1
                          else p < w.k.right[p] < w.c && w.sp[w.k.right[p]].hi == w.c
    ensures w.m == w.c ==> w.k.right[p] == p + 1
  {
    assert MirrorsAt(ns, w.k, p) && SpanOk(w.sp, 0, p) && SpanOk(w.sp, 0, w.c);
    if w.m < w.c { assert Original(w.sp, w.k, w.m, w.c, p); }
    if w.m == w.c && p < w.m - 1 { assert LinkedOn(w.k, p); }
  }

  lemma MorrisStart(root: TreeNode?, t: Tree) returns (w: Walking)
    requires Shape(root, t)
    ensures |w.sp| == |Inorder(t)| && w.m == 0 && Mirrors(Inorder(t), w.k) && root == At(Inorder(t), w.c)
  {
    var sp, c := Spans(t, 0), if t.Leaf? then 0 else RootAt(t, 0);
    TreeMirrored(root, t);
    RootIsThere(root, t, 0);
    RootSpanOf(t, 0);
    SpansLaminar(t, 0);
    if c < |sp| { assert SpanOk(sp, 0, c); }
    forall i | 0 <= i < |sp| ensures Original(sp, TreeLinks(sp), 0, c, i) {
      assert SpanOk(sp, 0, i);
      if c < i + 1 < |sp| { assert Nested(sp, 0, c, i + 1); }
    }
    w := Walk(sp, TreeLinks(sp), 0, c);
  }

  // ---------------------------------------------------------------- the conversion with an explicit stack

  /** A node (null allowed) and how often it has been looked at. */
  datatype Frame = Frame(t: TreeNode?, state: int)

  /** The same by position; -1 for null. */
  datatype Mark = Mark(at: int, state: int)

  predicate MarkOk(n: nat, e: Mark) { -1 <= e.at < n && 0 <= e.state <= 3 }

  /** The first position still to be visited on behalf of a frame; its work ends where the node's span does. */
  function Start(sp: seq<Span>, e: Mark): int
    requires MarkOk(|sp|, e) && e.at >= 0
  {
    match e.state
    case 0 => sp[e.at].lo
    case 1 => e.at
    case 2 => e.at + 1
    case _ => sp[e.at].hi
  }

  /** From position a on, the frames (top last) cover what is left, one after the other. */
  predicate Covers(sp: seq<Span>, marks: seq<Mark>, a: int) {
    if marks == [] then a == |sp|
    else
      var e := marks[|marks| - 1];
      && MarkOk(|sp|, e)
      && (e.at >= 0 ==> Start(sp, e) == a)
      && Covers(sp, marks[..|marks| - 1], if e.at >= 0 then sp[e.at].hi else a)
  }

  /** How many turns of the loop a frame still takes: every node four times, every null once. */
  function Turns(sp: seq<Span>, e: Mark): nat {
    if !MarkOk(|sp|, e) || e.at < 0 || !SpanOk(sp, 0, e.at) then 1
    else
      var s := sp[e.at];
      match e.state
      case 0 => 5 * (s.hi - s.lo) + 1
      case 1 => 5 * (s.hi - e.at - 1) + 4
      case 2 => 5 * (s.hi - e.at - 1) + 3
      case _ => 1
  }

  function AllTurns(sp: seq<Span>, marks: seq<Mark>): nat {
    if marks == [] then 0 else Turns(sp, marks[|marks| - 1]) + AllTurns(sp, marks[..|marks| - 1])
  }

  lemma Push(sp: seq<Span>, marks: seq<Mark>, e: Mark, a: int)
    requires MarkOk(|sp|, e) && (e.at >= 0 ==> Start(sp, e) == a)
    requires Covers(sp, marks, if e.at >= 0 then sp[e.at].hi else a)
    ensures Covers(sp, marks + [e], a) && AllTurns(sp, marks + [e]) == Turns(sp, e) + AllTurns(sp, marks)
  {
    assert (marks + [e])[..|marks|] == marks;
  }

  /** How far the conversion is: m nodes done, the links so far, and the stack by position. */
  datatype Progress = Progress(sp: seq<Span>, k: Links, m: nat, marks: seq<Mark>)

  /** The nodes from m on, and the right pointer of the one before, are as in the tree. */
  ghost predicate StackState(g: Progress) {
    && g.m <= |g.sp| == |g.k.left| == |g.k.right|
    && Laminar(g.sp, 0) && Linked(g.k, g.m) && Covers(g.sp, g.marks, g.m)
    && (forall i :: g.m <= i < |g.sp| ==> AsInTree(g.sp, g.k, i))
    && (g.m > 0 ==> g.k.right[g.m - 1] == g.sp[g.m - 1].right)
  }

  type Stage = g: Progress | StackState(g) ghost witness Progress([], Links([], []), 0, [])

  predicate AsInTree(sp: seq<Span>, k: Links, i: nat)
    requires i < |sp| == |k.left| == |k.right|
  {
    k.left[i] == sp[i].left && k.right[i] == sp[i].right
  }

  function FrameOf(ns: seq<TreeNode>, e: Mark): Frame { Frame(At(ns, e.at), e.state) }

  function FramesOf(ns: seq<TreeNode>, marks: seq<Mark>): seq<Frame> {
    seq(|marks|, j requires 0 <= j < |marks| => FrameOf(ns, marks[j]))
  }

  lemma FramesPush(ns: seq<TreeNode>, marks: seq<Mark>, e: Mark)
    ensures FramesOf(ns, marks + [e]) == FramesOf(ns, marks) + [FrameOf(ns, e)]
  {}

  method StackBased(root: TreeNode?, ghost t: Tree) returns (head: TreeNode?)
    requires Shape(root, t) && Distinct(Inorder(t))
    modifies Inorder(t)
    ensures IsList(head, Inorder(t))
  {
    ghost var ns := Inorder(t);
    ghost var g: Stage := StackStart(root, t);
    var st := [Frame(root, 0)];
    var prev: TreeNode?, flag := null, true;
    head := null;
    while st != []
      invariant Mirrors(ns, g.k) && st == FramesOf(ns, g.marks) && Cursors(ns, g.m, prev, head, flag)
      decreases AllTurns(g.sp, g.marks)
    {
      ghost var rest, e := TopMark(ns, g);
      var p := st[|st| - 1];
      st := st[..|st| - 1];
      assert p == FrameOf(ns, e) && st == FramesOf(ns, rest);
      if p.state == 3 || p.t == null {
        g := PopTurn(g, rest, e);
        continue;
      }
      st := st + [Frame(p.t, p.state + 1)];
      if p.state == 0 {
        g := ChildTurn(ns, g, rest, e);
        st := st + [Frame(p.t.left, 0)];
      } else if p.state == 1 {
        g, prev, head, flag := Visit(ns, g, rest, e, prev, head, flag, p.t);
      } else if p.state == 2 {
        g := ChildTurn(ns, g, rest, e);
        st := st + [Frame(p.t.right, 0)];
      }
    }
    StackDone(ns, g, prev, head, flag);
  }

  lemma StackStart(root: TreeNode?, t: Tree) returns (g: Stage)
    requires Shape(root, t)
    ensures Mirrors(Inorder(t), g.k) && g.m == 0 && FramesOf(Inorder(t), g.marks) == [Frame(root, 0)]
  {
    TreeMirrored(root, t);
    RootIsThere(root, t, 0);
    RootSpanOf(t, 0);
    SpansLaminar(t, 0);
    var sp, e := Spans(t, 0), Mark(RootAt(t, 0), 0);
    Push(sp, [], e, 0);
    assert [] + [e] == [e];
    forall i | 0 <= i < |sp| ensures AsInTree(sp, TreeLinks(sp), i) {}
    g := Progress(sp, TreeLinks(sp), 0, [e]);
  }

  lemma StackDone(ns: seq<TreeNode>, g: Stage, prev: TreeNode?, head: TreeNode?, flag: bool)
    requires g.marks == [] && Mirrors(ns, g.k) && Cursors(ns, g.m, prev, head, flag)
    ensures IsList(head, ns)
  {
    if g.m > 0 { assert SpanOk(g.sp, 0, g.m - 1); }
    LinkedIsList(ns, g.k, head);
  }

  lemma TopMark(ns: seq<TreeNode>, g: Stage) returns (rest: seq<Mark>, e: Mark)
    requires g.marks != [] && |ns| == |g.sp|
    ensures g.marks == rest + [e] && FramesOf(ns, g.marks) == FramesOf(ns, rest) + [FrameOf(ns, e)]
    ensures MarkOk(|g.sp|, e)
  {
    rest, e := g.marks[..|g.marks| - 1], g.marks[|g.marks| - 1];
    FramesPush(ns, rest, e);
  }

  /** A frame whose work is done, or one for null, goes. */
  lemma PopTurn(g: Stage, rest: seq<Mark>, e: Mark) returns (g': Stage)
    requires g.marks == rest + [e] && (e.at < 0 || e.state == 3)
    ensures g' == g.(marks := rest) && AllTurns(g.sp, rest) < AllTurns(g.sp, g.marks)
  {
    assert g.marks[..|rest|] == rest;
    if e.at >= 0 { assert SpanOk(g.sp, 0, e.at); }
    g' := g.(marks := rest);
  }

  /**
   The top frame in state 0 is replaced by itself in state 1 and its left child; in state 2, by itself in
   state 3 and its right child.
   */
  lemma ChildTurn(ns: seq<TreeNode>, g: Stage, rest: seq<Mark>, e: Mark) returns (g': Stage)
    requires g.marks == rest + [e] && Mirrors(ns, g.k) && 0 <= e.at < |ns| && (e.state == 0 || e.state == 2)
    ensures g'.sp == g.sp && g'.k == g.k && g'.m == g.m && AllTurns(g.sp, g'.marks) < AllTurns(g.sp, g.marks)
    ensures FramesOf(ns, g'.marks) == FramesOf(ns, rest) + [Frame(ns[e.at], e.state + 1)]
                                      + [Frame(if e.state == 0 then ns[e.at].left else ns[e.at].right, 0)]
  {
    var child := if e.state == 0 then g.sp[e.at].left else g.sp[e.at].right;
    var up := Mark(e.at, e.state + 1);
    ChildCovers(g, rest, e, child);
    g' := g.(marks := rest + [up] + [Mark(child, 0)]);
    FramesPush(ns, rest, up);
    FramesPush(ns, rest + [up], Mark(child, 0));
    assert MirrorsAt(ns, g.k, e.at);
  }

  lemma ChildCovers(g: Stage, rest: seq<Mark>, e: Mark, child: int)
    requires g.marks == rest + [e] && 0 <= e.at < |g.sp|
    requires (e.state == 0 && child == g.sp[e.at].left) || (e.state == 2 && child == g.sp[e.at].right)
    ensures var next := rest + [Mark(e.at, e.state + 1)] + [Mark(child, 0)];
      Covers(g.sp, next, g.m) && AllTurns(g.sp, next) < AllTurns(g.sp, g.marks)
    ensures child == if e.state == 0 then g.k.left[e.at] else g.k.right[e.at]
  {
    assert g.marks[..|rest|] == rest;
    assert SpanOk(g.sp, 0, e.at);
    if e.state == 0 { assert AsInTree(g.sp, g.k, e.at); }
    if child >= 0 { assert SpanOk(g.sp, 0, child); }
    if e.state == 0 { LeftFits(g.sp, rest, e.at, g.m); } else { RightFits(g.sp, rest, e.at, g.m); }
  }

  lemma LeftFits(sp: seq<Span>, rest: seq<Mark>, at: nat, a: int)
    requires at < |sp| && SpanOk(sp, 0, at) && (sp[at].left >= 0 ==> SpanOk(sp, 0, sp[at].left))
    requires Covers(sp, rest, sp[at].hi) && a == sp[at].lo
    ensures var next := rest + [Mark(at, 1)] + [Mark(sp[at].left, 0)];
      Covers(sp, next, a) && AllTurns(sp, next) < Turns(sp, Mark(at, 0)) + AllTurns(sp, rest)
  {
    Push(sp, rest, Mark(at, 1), at);
    Push(sp, rest + [Mark(at, 1)], Mark(sp[at].left, 0), a);
  }

  lemma RightFits(sp: seq<Span>, rest: seq<Mark>, at: nat, a: int)
    requires at < |sp| && SpanOk(sp, 0, at) && (sp[at].right >= 0 ==> SpanOk(sp, 0, sp[at].right))
    requires Covers(sp, rest, sp[at].hi) && a == at + 1
    ensures var next := rest + [Mark(at, 3)] + [Mark(sp[at].right, 0)];
      Covers(sp, next, a) && AllTurns(sp, next) < Turns(sp, Mark(at, 2)) + AllTurns(sp, rest)
  {
    Push(sp, rest, Mark(at, 3), sp[at].hi);
    Push(sp, rest + [Mark(at, 3)], Mark(sp[at].right, 0), a);
  }

  lemma VisitTurn(ns: seq<TreeNode>, g: Stage, rest: seq<Mark>, e: Mark) returns (next: seq<Mark>)
    requires g.marks == rest + [e] && |ns| == |g.sp| && e.at >= 0 && e.state == 1
    ensures g.m == e.at < |ns| && Covers(g.sp, next, g.m + 1) && AllTurns(g.sp, next) < AllTurns(g.sp, g.marks)
    ensures FramesOf(ns, next) == FramesOf(ns, rest) + [Frame(ns[e.at], 2)]
  {
    next := rest + [Mark(e.at, 2)];
    assert g.marks[..|rest|] == rest;
    assert SpanOk(g.sp, 0, e.at);
    Push(g.sp, rest, Mark(e.at, 2), g.m + 1);
    FramesPush(ns, rest, Mark(e.at, 2));
  }

  /** `prev` is the last node done, `head` the first, and `flag` says there is none yet. */
  predicate Cursors(ns: seq<TreeNode>, m: nat, prev: TreeNode?, head: TreeNode?, flag: bool) {
    m <= |ns| && if m == 0 then flag && prev == null == head else !flag && prev == ns[m - 1] && head == ns[0]
  }

  /** The work of state 1: link the node behind the last one done. */
  method Visit(ghost ns: seq<TreeNode>, ghost g: Stage, ghost rest: seq<Mark>, ghost e: Mark,
               prev: TreeNode?, head: TreeNode?, flag: bool, node: TreeNode)
    returns (ghost g': Stage, prev': TreeNode?, head': TreeNode?, flag': bool)
    requires Distinct(ns) && Mirrors(ns, g.k) && Cursors(ns, g.m, prev, head, flag)
    requires g.marks == rest + [e] && 0 <= e.at < |ns| && e.state == 1 && node == ns[e.at]
    modifies ns
    ensures Mirrors(ns, g'.k) && Cursors(ns, g'.m, prev', head', flag')
    ensures g'.sp == g.sp && AllTurns(g.sp, g'.marks) < AllTurns(g.sp, g.marks)
    ensures FramesOf(ns, g'.marks) == FramesOf(ns, rest) + [Frame(node, 2)]
  {
    ghost var next := VisitTurn(ns, g, rest, e);
    ghost var m, k := g.m, g.k;
    if prev != null {
      k := SetRight(ns, k, m - 1, m, prev, node);
    }
    k := SetLeft(ns, k, m, m - 1, node, prev);
    prev', head', flag' := node, head, flag;
    if flag {
      head' := node;
      flag' := false;
    }
    VisitLinked(g.k, m, k);
    assert AsInTree(g.sp, g.k, m);
    forall i: nat | m + 1 <= i < |g.sp| ensures AsInTree(g.sp, k, i) { assert AsInTree(g.sp, g.k, i); }
    g' := Progress(g.sp, k, m + 1, next);
  }
}
