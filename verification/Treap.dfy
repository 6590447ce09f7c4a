/**
 The treap: a search tree on `key` that is a heap on `prior`, rewired in place.

 A ghost tree of the items themselves stands for the pointer structure.  `key` and `prior` never
 change, so everything the source promises is stated and proved about these trees; each method is
 proved to leave pointers shaped like the corresponding function of the tree it was given.
 */
module Treap {
  import opened Prelude

  class Item {
    const key: int
    const prior: int
    var l: Item?
    var r: Item?

    constructor (key: int, prior: int)
      ensures this.key == key && this.prior == prior && l == null && r == null
    {
      this.key, this.prior, l, r := key, prior, null, null;
    }
  }

  datatype Tree = Leaf | Node(left: Tree, item: Item, right: Tree)

  function Inorder(t: Tree): seq<Item> {
    match t
    case Leaf => []
    case Node(l, x, r) => Inorder(l) + [x] + Inorder(r)
  }

  ghost function Footprint(t: Tree): set<Item> {
    match t
    case Leaf => {}
    case Node(l, x, r) => Footprint(l) + {x} + Footprint(r)
  }

  /** No item occurs twice. */
  ghost predicate Separate(t: Tree) {
    t.Node? ==>
      && Separate(t.left) && Separate(t.right)
      && t.item !in Footprint(t.left) && t.item !in Footprint(t.right)
      && Footprint(t.left) !! Footprint(t.right)
  }

  /** The pointers below p form the tree t. */
  ghost predicate Shape(p: Item?, t: Tree)
    reads Footprint(t)
  {
    match t
    case Leaf => p == null
    case Node(l, x, r) => p == x && Shape(x.l, l) && Shape(x.r, r)
  }

  // ---------------------------------------------------------------- what the operations build

  function SplitTree(t: Tree, key: int): (Tree, Tree) {
    match t
    case Leaf => (Leaf, Leaf)
    case Node(l, x, r) =>
      if x.key <= key then
        var s := SplitTree(r, key);
        (Node(l, x, s.0), s.1)
      else
        var s := SplitTree(l, key);
        (s.0, Node(s.1, x, r))
  }

  function MergeTree(l: Tree, r: Tree): Tree {
    if l.Leaf? || r.Leaf? then if l.Node? then l else r
    else if l.item.prior > r.item.prior then Node(l.left, l.item, MergeTree(l.right, r))
    else Node(MergeTree(l, r.left), r.item, r.right)
  }

  function InsertTree(t: Tree, x: Item): Tree {
    match t
    case Leaf => Node(Leaf, x, Leaf)
    case Node(l, y, r) =>
      if x.prior > y.prior then
        var s := SplitTree(t, x.key);
        Node(s.0, x, s.1)
      else if y.key <= x.key then Node(l, y, InsertTree(r, x))
      else Node(InsertTree(l, x), y, r)
  }

  /** The search for key, by comparisons alone, meets it before it runs off the tree. */
  predicate Finds(t: Tree, key: int) {
    t.Node? && (t.item.key == key || Finds(if key < t.item.key then t.left else t.right, key))
  }

  function Found(t: Tree, key: int): Item
    requires Finds(t, key)
  {
    if t.item.key == key then t.item else Found(if key < t.item.key then t.left else t.right, key)
  }

  function EraseTree(t: Tree, key: int): Tree
    requires Finds(t, key)
  {
    if t.item.key == key then MergeTree(t.left, t.right)
    else if key < t.item.key then Node(EraseTree(t.left, key), t.item, t.right)
    else Node(t.left, t.item, EraseTree(t.right, key))
  }

  function Size(t: Tree): nat {
    match t
    case Leaf => 0
    case Node(l, _, r) => Size(l) + 1 + Size(r)
  }

  lemma {:induction false} SplitSizes(t: Tree, key: int)
    ensures Size(SplitTree(t, key).0) + Size(SplitTree(t, key).1) == Size(t)
  {
    match t
    case Leaf =>
    case Node(l, x, r) => SplitSizes(if x.key <= key then r else l, key);
  }

  function UniteTree(l: Tree, r: Tree): Tree
    decreases Size(l) + Size(r), 1
  {
    if l.Leaf? || r.Leaf? then if l.Node? then l else r
    else if l.item.prior < r.item.prior then UniteUnder(r, l)
    else UniteUnder(l, r)
  }

  /** The root of a stays the root; b is split around it. */
  function UniteUnder(a: Tree, b: Tree): Tree
    requires a.Node?
    decreases Size(a) + Size(b), 0
  {
    var s := SplitTree(b, a.item.key);
    SplitSizes(b, a.item.key);
    Node(UniteTree(a.left, s.0), a.item, UniteTree(a.right, s.1))
  }

  // ---------------------------------------------------------------- the operations rewire pointers to those trees

  lemma {:induction false} SplitFootprint(t: Tree, key: int)
    requires Separate(t)
    ensures var (a, b) := SplitTree(t, key);
      Separate(a) && Separate(b) && Footprint(a) !! Footprint(b) && Footprint(a) + Footprint(b) == Footprint(t)
  {
    match t
    case Leaf =>
    case Node(l, x, r) => SplitFootprint(if x.key <= key then r else l, key);
  }

  lemma {:induction false} MergeFootprint(l: Tree, r: Tree)
    requires Separate(l) && Separate(r) && Footprint(l) !! Footprint(r)
    ensures Separate(MergeTree(l, r)) && Footprint(MergeTree(l, r)) == Footprint(l) + Footprint(r)
  {
    if l.Node? && r.Node? {
      if l.item.prior > r.item.prior { MergeFootprint(l.right, r); } else { MergeFootprint(l, r.left); }
    }
  }

  method Split(t: Item?, key: int, ghost tree: Tree) returns (l: Item?, r: Item?)
    requires Shape(t, tree) && Separate(tree)
    modifies Footprint(tree)
    ensures Shape(l, SplitTree(tree, key).0) && Shape(r, SplitTree(tree, key).1)
    decreases tree
  {
    SplitFootprint(tree, key);
    if t == null {
      l, r := null, null;
    } else if t.key <= key {
      SplitFootprint(tree.right, key);
      assert Shape(t.l, tree.left) && allocated(Footprint(tree.left));
      var a, b := Split(t.r, key, tree.right);
      t.r := a;
      l, r := t, b;
    } else {
      SplitFootprint(tree.left, key);
      assert Shape(t.r, tree.right) && allocated(Footprint(tree.right));
      var a, b := Split(t.l, key, tree.left);
      t.l := b;
      l, r := a, t;
    }
  }

  method Merge(l: Item?, r: Item?, ghost left: Tree, ghost right: Tree) returns (t: Item?)
    requires Shape(l, left) && Separate(left) && Shape(r, right) && Separate(right)
    requires Footprint(left) !! Footprint(right)
    modifies Footprint(left), Footprint(right)
    ensures Shape(t, MergeTree(left, right))
    decreases left, right
  {
    MergeFootprint(left, right);
    if l == null || r == null {
      t := if l != null then l else r;
    } else if l.prior > r.prior {
      MergeFootprint(left.right, right);
      assert Shape(l.l, left.left) && allocated(Footprint(left.left));
      var m := Merge(l.r, r, left.right, right);
      l.r := m;
      t := l;
    } else {
      MergeFootprint(left, right.left);
      assert Shape(r.r, right.right) && allocated(Footprint(right.right));
      var m := Merge(l, r.l, left, right.left);
      r.l := m;
      t := r;
    }
  }

  method Insert(t: Item?, it: Item, ghost tree: Tree) returns (t': Item?)
    requires Shape(t, tree) && Separate(tree) && it !in Footprint(tree) && it.l == null && it.r == null
    modifies Footprint(tree), it
    ensures Shape(t', InsertTree(tree, it))
    decreases tree
  {
    InsertFootprint(tree, it);
    if t == null {
      t' := it;
    } else if it.prior > t.prior {
      PutOnTop(t, it, tree);
      t' := it;
    } else if t.key <= it.key {
      InsertFootprint(tree.right, it);
      assert Shape(t.l, tree.left) && allocated(Footprint(tree.left));
      var m := Insert(t.r, it, tree.right);
      t.r := m;
      t' := t;
    } else {
      InsertFootprint(tree.left, it);
      assert Shape(t.r, tree.right) && allocated(Footprint(tree.right));
      var m := Insert(t.l, it, tree.left);
      t.l := m;
      t' := t;
    }
  }

  /** `split(t, it->key, it->l, it->r)` */
  method PutOnTop(t: Item?, it: Item, ghost tree: Tree)
    requires Shape(t, tree) && Separate(tree) && it !in Footprint(tree)
    modifies Footprint(tree), it
    ensures var (a, b) := SplitTree(tree, it.key); Shape(it, Node(a, it, b))
  {
    SplitFootprint(tree, it.key);
    it.l, it.r := Split(t, it.key, tree);
  }

  lemma {:induction false} InsertFootprint(t: Tree, x: Item)
    requires Separate(t) && x !in Footprint(t)
    ensures Separate(InsertTree(t, x)) && Footprint(InsertTree(t, x)) == Footprint(t) + {x}
  {
    match t
    case Leaf =>
    case Node(l, y, r) =>
      if x.prior > y.prior { SplitFootprint(t, x.key); }
      else if y.key <= x.key { InsertFootprint(r, x); }
      else { InsertFootprint(l, x); }
  }

  lemma {:induction false} EraseFootprint(t: Tree, key: int)
    requires Separate(t) && Finds(t, key)
    ensures Separate(EraseTree(t, key)) && Footprint(EraseTree(t, key)) == Footprint(t) - {Found(t, key)}
    ensures Found(t, key) in Footprint(t)
  {
    if t.item.key == key { MergeFootprint(t.left, t.right); }
    else { EraseFootprint(if key < t.item.key then t.left else t.right, key); }
  }

  /** Returns the new root and the item taken out, which the source deletes. */
  method Erase(t: Item?, key: int, ghost tree: Tree) returns (t': Item?, th: Item)
    requires Shape(t, tree) && Separate(tree) && Finds(tree, key)
    modifies Footprint(tree)
    ensures Shape(t', EraseTree(tree, key)) && th == Found(tree, key)
    ensures th !in Footprint(EraseTree(tree, key))
    decreases tree
  {
    EraseFootprint(tree, key);
    if t.key == key {
      th := t;
      t' := Merge(t.l, t.r, tree.left, tree.right);
    } else if key < t.key {
      EraseFootprint(tree.left, key);
      assert Shape(t.r, tree.right) && allocated(Footprint(tree.right));
      var m;
      m, th := Erase(t.l, key, tree.left);
      t.l := m;
      t' := t;
    } else {
      EraseFootprint(tree.right, key);
      assert Shape(t.l, tree.left) && allocated(Footprint(tree.left));
      var m;
      m, th := Erase(t.r, key, tree.right);
      t.r := m;
      t' := t;
    }
  }

  ghost predicate Apart(l: Tree, r: Tree) {
    Separate(l) && Separate(r) && Footprint(l) !! Footprint(r)
  }

  lemma {:induction false} UniteFootprint(l: Tree, r: Tree)
    requires Apart(l, r)
    ensures Separate(UniteTree(l, r)) && Footprint(UniteTree(l, r)) == Footprint(l) + Footprint(r)
    decreases Size(l) + Size(r), 1
  {
    if l.Node? && r.Node? {
      if l.item.prior < r.item.prior { UniteUnderFootprint(r, l); } else { UniteUnderFootprint(l, r); }
    }
  }

  lemma {:induction false} UniteUnderFootprint(a: Tree, b: Tree)
    requires a.Node? && Apart(a, b)
    ensures Separate(UniteUnder(a, b)) && Footprint(UniteUnder(a, b)) == Footprint(a) + Footprint(b)
    decreases Size(a) + Size(b), 0
  {
    var s := SplitTree(b, a.item.key);
    SplitSizes(b, a.item.key);
    SplitFootprint(b, a.item.key);
    UniteFootprint(a.left, s.0);
    UniteFootprint(a.right, s.1);
  }

  method Unite(l: Item?, r: Item?, ghost left: Tree, ghost right: Tree) returns (t: Item?)
    requires Shape(l, left) && Shape(r, right) && Apart(left, right)
    modifies Footprint(left), Footprint(right)
    ensures Shape(t, UniteTree(left, right))
    decreases Size(left) + Size(right), 1
  {
    if l == null || r == null {
      return if l != null then l else r;
    }
    if l.prior < r.prior {
      t := UniteOnto(r, l, right, left);
    } else {
      t := UniteOnto(l, r, left, right);
    }
  }

  /** The rest of `unite`, after the swap that puts the greater priority first. */
  method UniteOnto(a: Item, b: Item?, ghost ta: Tree, ghost tb: Tree) returns (t: Item)
    requires Shape(a, ta) && Shape(b, tb) && Apart(ta, tb)
    modifies Footprint(ta), Footprint(tb)
    ensures Shape(t, UniteUnder(ta, tb))
    decreases Size(ta) + Size(tb), 0
  {
    ghost var s := SplitTree(tb, a.key);
    UniteSides(ta, tb);
    assert Shape(a.l, ta.left) && Shape(a.r, ta.right);
    assert allocated(Footprint(ta.left)) && allocated(Footprint(ta.right));
    var lt, rt := Split(b, a.key, tb);
    UniteSubtrees(a, lt, rt, ta.left, ta.right, s.0, s.1);
    t := a;
  }

  method UniteSubtrees(a: Item, lt: Item?, rt: Item?, ghost al: Tree, ghost ar: Tree, ghost bl: Tree, ghost br: Tree)
    requires Shape(a.l, al) && Shape(a.r, ar) && Shape(lt, bl) && Shape(rt, br)
    requires Apart(al, bl) && Apart(ar, br)
    requires Footprint(al) + Footprint(bl) !! Footprint(ar) + Footprint(br)
    requires a !in Footprint(al) + Footprint(bl) && a !in Footprint(ar) + Footprint(br)
    modifies a, Footprint(al), Footprint(bl), Footprint(ar), Footprint(br)
    ensures Shape(a.l, UniteTree(al, bl)) && Shape(a.r, UniteTree(ar, br))
    decreases Size(al) + Size(bl) + Size(ar) + Size(br), 3
  {
    assert allocated(Footprint(ar)) && allocated(Footprint(br));
    UniteLeft(a, lt, al, bl);
    UniteFootprint(al, bl);
    assert allocated(Footprint(UniteTree(al, bl)));
    UniteRight(a, rt, ar, br);
  }

  /** `unite(l->l, lt)`, stored in the left link. */
  method UniteLeft(a: Item, lt: Item?, ghost al: Tree, ghost bl: Tree)
    requires Shape(a.l, al) && Shape(lt, bl) && Apart(al, bl) && a !in Footprint(al) + Footprint(bl)
    modifies a`l, Footprint(al), Footprint(bl)
    ensures Shape(a.l, UniteTree(al, bl))
    decreases Size(al) + Size(bl), 2
  {
    UniteFootprint(al, bl);
    var m := Unite(a.l, lt, al, bl);
    assert a !in Footprint(UniteTree(al, bl)) && allocated(Footprint(UniteTree(al, bl)));
    a.l := m;
  }

  /** `unite(l->r, rt)`, stored in the right link. */
  method UniteRight(a: Item, rt: Item?, ghost ar: Tree, ghost br: Tree)
    requires Shape(a.r, ar) && Shape(rt, br) && Apart(ar, br) && a !in Footprint(ar) + Footprint(br)
    modifies a`r, Footprint(ar), Footprint(br)
    ensures Shape(a.r, UniteTree(ar, br))
    decreases Size(ar) + Size(br), 2
  {
    UniteFootprint(ar, br);
    var m := Unite(a.r, rt, ar, br);
    assert a !in Footprint(UniteTree(ar, br)) && allocated(Footprint(UniteTree(ar, br)));
    a.r := m;
  }

  /** The two halves of the work below the root share no item with each other or with the root. */
  lemma UniteSides(a: Tree, b: Tree)
    requires a.Node? && Apart(a, b)
    ensures var s := SplitTree(b, a.item.key);
      && Size(s.0) + Size(s.1) == Size(b)
      && Apart(a.left, s.0) && Apart(a.right, s.1)
      && Footprint(s.0) <= Footprint(b) && Footprint(s.1) <= Footprint(b)
      && Footprint(a.left) + Footprint(s.0) !! Footprint(a.right) + Footprint(s.1)
      && a.item !in Footprint(a.left) + Footprint(s.0) && a.item !in Footprint(a.right) + Footprint(s.1)
  {
    var s := SplitTree(b, a.item.key);
    SplitSizes(b, a.item.key);
    SplitFootprint(b, a.item.key);
  }

  // ---------------------------------------------------------------- what every operation keeps

  /** Keys do not decrease from left to right. */
  ghost predicate SearchOrder(t: Tree) {
    t.Node? ==>
      && (forall y :: y in Footprint(t.left) ==> y.key <= t.item.key)
      && (forall y :: y in Footprint(t.right) ==> t.item.key <= y.key)
      && SearchOrder(t.left) && SearchOrder(t.right)
  }

  predicate Below(t: Tree, prior: int) { t.Node? ==> t.item.prior <= prior }

  predicate HeapOrder(t: Tree) {
    t.Node? ==>
      && Below(t.left, t.item.prior) && Below(t.right, t.item.prior)
      && HeapOrder(t.left) && HeapOrder(t.right)
  }

  lemma {:induction false} InInorder(t: Tree, x: Item)
    ensures x in Inorder(t) <==> x in Footprint(t)
  {
    if t.Node? { InInorder(t.left, x); InInorder(t.right, x); }
  }

  /** `split` cuts the inorder sequence in two, whatever the order of the keys. */
  lemma {:induction false} SplitInorder(t: Tree, key: int)
    ensures Inorder(SplitTree(t, key).0) + Inorder(SplitTree(t, key).1) == Inorder(t)
    ensures Footprint(SplitTree(t, key).0) + Footprint(SplitTree(t, key).1) == Footprint(t)
  {
    match t
    case Leaf =>
    case Node(l, x, r) => SplitInorder(if x.key <= key then r else l, key);
  }

  /** `split` cuts at the first key above `key`. */
  lemma {:induction false} SplitOrder(t: Tree, key: int)
    requires SearchOrder(t)
    ensures var (a, b) := SplitTree(t, key);
      && SearchOrder(a) && SearchOrder(b)
      && (forall x :: x in Footprint(a) ==> x.key <= key)
      && (forall x :: x in Footprint(b) ==> x.key > key)
  {
    match t
    case Leaf =>
    case Node(l, x, r) =>
      var next := if x.key <= key then r else l;
      SplitOrder(next, key);
      SplitInorder(next, key);
  }

  lemma {:induction false} SplitHeap(t: Tree, key: int, bound: int)
    requires HeapOrder(t) && Below(t, bound)
    ensures var (a, b) := SplitTree(t, key);
      HeapOrder(a) && HeapOrder(b) && Below(a, bound) && Below(b, bound)
  {
    match t
    case Leaf =>
    case Node(l, x, r) => SplitHeap(if x.key <= key then r else l, key, x.prior);
  }

  /** `merge` puts the inorder sequences side by side. */
  lemma {:induction false} MergeInorder(l: Tree, r: Tree)
    ensures Inorder(MergeTree(l, r)) == Inorder(l) + Inorder(r)
    ensures Footprint(MergeTree(l, r)) == Footprint(l) + Footprint(r)
  {
    if l.Node? && r.Node? {
      if l.item.prior > r.item.prior { MergeInorder(l.right, r); } else { MergeInorder(l, r.left); }
    }
  }

  lemma {:induction false} MergeOrder(l: Tree, r: Tree)
    requires SearchOrder(l) && SearchOrder(r)
    requires forall x, y :: x in Footprint(l) && y in Footprint(r) ==> x.key <= y.key
    ensures SearchOrder(MergeTree(l, r))
  {
    if l.Node? && r.Node? {
      if l.item.prior > r.item.prior {
        MergeOrder(l.right, r);
        MergeInorder(l.right, r);
      } else {
        MergeOrder(l, r.left);
        MergeInorder(l, r.left);
      }
    }
  }

  lemma {:induction false} MergeHeap(l: Tree, r: Tree, bound: int)
    requires HeapOrder(l) && HeapOrder(r) && Below(l, bound) && Below(r, bound)
    ensures HeapOrder(MergeTree(l, r)) && Below(MergeTree(l, r), bound)
  {
    if l.Node? && r.Node? {
      if l.item.prior > r.item.prior { MergeHeap(l.right, r, l.item.prior); }
      else { MergeHeap(l, r.left, r.item.prior); }
    }
  }

  /** `insert` adds the item and nothing else, and leaves the other items in their order. */
  lemma {:induction false} InsertInorder(t: Tree, x: Item) returns (before: seq<Item>, after: seq<Item>)
    ensures Inorder(t) == before + after && Inorder(InsertTree(t, x)) == before + [x] + after
    ensures Footprint(InsertTree(t, x)) == Footprint(t) + {x}
  {
    match t
    case Leaf => before, after := [], [];
    case Node(l, y, r) =>
      if x.prior > y.prior {
        SplitInorder(t, x.key);
        before, after := Inorder(SplitTree(t, x.key).0), Inorder(SplitTree(t, x.key).1);
      } else if y.key <= x.key {
        before, after := InsertInorder(r, x);
        assert Inorder(l) + [y] + (before + [x] + after) == (Inorder(l) + [y] + before) + [x] + after;
        before := Inorder(l) + [y] + before;
      } else {
        before, after := InsertInorder(l, x);
        assert (before + [x] + after) + [y] + Inorder(r) == before + [x] + (after + [y] + Inorder(r));
        after := after + [y] + Inorder(r);
      }
  }

  lemma {:induction false} InsertOrder(t: Tree, x: Item)
    requires SearchOrder(t)
    ensures SearchOrder(InsertTree(t, x))
  {
    match t
    case Leaf =>
    case Node(l, y, r) =>
      if x.prior > y.prior {
        SplitOrder(t, x.key);
      } else {
        var next := if y.key <= x.key then r else l;
        InsertOrder(next, x);
        var _, _ := InsertInorder(next, x);
      }
  }

  lemma {:induction false} InsertHeap(t: Tree, x: Item, bound: int)
    requires HeapOrder(t) && Below(t, bound) && x.prior <= bound
    ensures HeapOrder(InsertTree(t, x)) && Below(InsertTree(t, x), bound)
  {
    match t
    case Leaf =>
    case Node(l, y, r) =>
      if x.prior > y.prior { SplitHeap(t, x.key, x.prior); }
      else { InsertHeap(if y.key <= x.key then r else l, x, y.prior); }
  }

  /** In search order the comparisons find exactly the keys that are there. */
  lemma {:induction false} FindsPresent(t: Tree, key: int)
    requires SearchOrder(t)
    ensures Finds(t, key) <==> exists x :: x in Footprint(t) && x.key == key
  {
    if t.Node? {
      FindsPresent(t.left, key);
      FindsPresent(t.right, key);
      assert t.item in Footprint(t);
    }
  }

  /** `erase` removes exactly the one item it found, which carries the key, and keeps the rest in order. */
  lemma {:induction false} EraseInorder(t: Tree, key: int) returns (before: seq<Item>, after: seq<Item>)
    requires Finds(t, key)
    ensures Found(t, key).key == key
    ensures Inorder(t) == before + [Found(t, key)] + after && Inorder(EraseTree(t, key)) == before + after
    ensures Footprint(EraseTree(t, key)) <= Footprint(t)
  {
    var x := Found(t, key);
    if t.item.key == key {
      before, after := Inorder(t.left), Inorder(t.right);
      MergeInorder(t.left, t.right);
    } else if key < t.item.key {
      before, after := EraseInorder(t.left, key);
      assert (before + [x] + after) + [t.item] + Inorder(t.right)
             == before + [x] + (after + [t.item] + Inorder(t.right));
      assert (before + after) + [t.item] + Inorder(t.right) == before + (after + [t.item] + Inorder(t.right));
      after := after + [t.item] + Inorder(t.right);
    } else {
      before, after := EraseInorder(t.right, key);
      assert Inorder(t.left) + [t.item] + (before + [x] + after) == (Inorder(t.left) + [t.item] + before) + [x] + after;
      assert Inorder(t.left) + [t.item] + (before + after) == (Inorder(t.left) + [t.item] + before) + after;
      before := Inorder(t.left) + [t.item] + before;
    }
  }

  lemma {:induction false} EraseOrder(t: Tree, key: int)
    requires SearchOrder(t) && Finds(t, key)
    ensures SearchOrder(EraseTree(t, key))
  {
    if t.item.key == key {
      MergeOrder(t.left, t.right);
    } else {
      var next := if key < t.item.key then t.left else t.right;
      EraseOrder(next, key);
      var _, _ := EraseInorder(next, key);
    }
  }

  lemma {:induction false} EraseHeap(t: Tree, key: int, bound: int)
    requires HeapOrder(t) && Finds(t, key) && Below(t, bound)
    ensures HeapOrder(EraseTree(t, key)) && Below(EraseTree(t, key), bound)
  {
    if t.item.key == key { MergeHeap(t.left, t.right, t.item.prior); }
    else { EraseHeap(if key < t.item.key then t.left else t.right, key, t.item.prior); }
  }

  function Items(t: Tree): multiset<Item> { multiset(Inorder(t)) }

  lemma NodeItems(t: Tree)
    requires t.Node?
    ensures Items(t) == Items(t.left) + multiset{t.item} + Items(t.right)
  {}

  /** `unite` keeps every item of both trees. */
  lemma {:induction false} UniteItems(l: Tree, r: Tree)
    ensures Items(UniteTree(l, r)) == Items(l) + Items(r)
    decreases Size(l) + Size(r), 1
  {
    if l.Node? && r.Node? {
      if l.item.prior < r.item.prior { UniteUnderItems(r, l); } else { UniteUnderItems(l, r); }
    } else {
      assert Items(Leaf) == multiset{};
    }
  }

  lemma SplitItems(t: Tree, key: int)
    ensures Items(t) == Items(SplitTree(t, key).0) + Items(SplitTree(t, key).1)
  {
    SplitInorder(t, key);
  }

  lemma Regroup<T>(l: multiset<T>, x: multiset<T>, r: multiset<T>, s0: multiset<T>, s1: multiset<T>)
    ensures (l + s0) + x + (r + s1) == (l + x + r) + (s0 + s1)
  {}

  lemma {:induction false} UniteUnderItems(a: Tree, b: Tree)
    requires a.Node?
    ensures Items(UniteUnder(a, b)) == Items(a) + Items(b)
    decreases Size(a) + Size(b), 0
  {
    var s := SplitTree(b, a.item.key);
    SplitSizes(b, a.item.key);
    SplitItems(b, a.item.key);
    UniteItems(a.left, s.0);
    UniteItems(a.right, s.1);
    NodeItems(a);
    NodeItems(Node(UniteTree(a.left, s.0), a.item, UniteTree(a.right, s.1)));
    Regroup(Items(a.left), multiset{a.item}, Items(a.right), Items(s.0), Items(s.1));
  }

  lemma {:induction false} UniteOrder(l: Tree, r: Tree)
    requires SearchOrder(l) && SearchOrder(r)
    ensures SearchOrder(UniteTree(l, r))
    decreases Size(l) + Size(r), 1
  {
    if l.Node? && r.Node? {
      if l.item.prior < r.item.prior { UniteUnderOrder(r, l); } else { UniteUnderOrder(l, r); }
    }
  }

  lemma {:induction false} UniteUnderOrder(a: Tree, b: Tree)
    requires a.Node? && SearchOrder(a) && SearchOrder(b)
    ensures SearchOrder(UniteUnder(a, b))
    decreases Size(a) + Size(b), 0
  {
    var s := SplitTree(b, a.item.key);
    SplitSizes(b, a.item.key);
    SplitOrder(b, a.item.key);
    UniteOrder(a.left, s.0);
    UniteOrder(a.right, s.1);
    UniteRange(a.left, s.0, None, Some(a.item.key));
    UniteRange(a.right, s.1, Some(a.item.key), None);
  }

  /** The keys lie between the bounds given. */
  ghost predicate Within(t: Tree, lo: Option<int>, hi: Option<int>) {
    forall y :: y in Footprint(t) ==> (lo.Some? ==> lo.value <= y.key) && (hi.Some? ==> y.key <= hi.value)
  }

  lemma UniteRange(l: Tree, r: Tree, lo: Option<int>, hi: Option<int>)
    requires Within(l, lo, hi) && Within(r, lo, hi)
    ensures Within(UniteTree(l, r), lo, hi)
  {
    UniteItems(l, r);
    forall y | y in Footprint(UniteTree(l, r)) ensures y in Footprint(l) || y in Footprint(r) {
      InInorder(UniteTree(l, r), y);
      assert y in Items(UniteTree(l, r));
      InInorder(l, y);
      InInorder(r, y);
    }
  }

  lemma {:induction false} UniteHeap(l: Tree, r: Tree, bound: int)
    requires HeapOrder(l) && HeapOrder(r) && Below(l, bound) && Below(r, bound)
    ensures HeapOrder(UniteTree(l, r)) && Below(UniteTree(l, r), bound)
    decreases Size(l) + Size(r), 1
  {
    if l.Node? && r.Node? {
      if l.item.prior < r.item.prior { UniteUnderHeap(r, l); } else { UniteUnderHeap(l, r); }
    }
  }

  lemma {:induction false} UniteUnderHeap(a: Tree, b: Tree)
    requires a.Node? && HeapOrder(a) && HeapOrder(b) && Below(b, a.item.prior)
    ensures HeapOrder(UniteUnder(a, b))
    decreases Size(a) + Size(b), 0
  {
    var s := SplitTree(b, a.item.key);
    SplitSizes(b, a.item.key);
    SplitHeap(b, a.item.key, a.item.prior);
    UniteHeap(a.left, s.0, a.item.prior);
    UniteHeap(a.right, s.1, a.item.prior);
  }

  // ---------------------------------------------------------------- one set of items, one tree

  datatype Entry = Entry(key: int, prior: int)

  function EntryOf(x: Item): Entry { Entry(x.key, x.prior) }

  function EntriesOf(s: seq<Item>): seq<Entry> {
    seq(|s|, i requires 0 <= i < |s| => EntryOf(s[i]))
  }

  function Entries(t: Tree): multiset<Entry> { multiset(EntriesOf(Inorder(t))) }

  /** The trees have the same form and, place by place, the same keys and priorities. */
  predicate Alike(t: Tree, u: Tree) {
    match (t, u)
    case (Leaf, Leaf) => true
    case (Node(l, x, r), Node(l', x', r')) => EntryOf(x) == EntryOf(x') && Alike(l, l') && Alike(r, r')
    case _ => false
  }

  ghost predicate DistinctPriors(s: seq<Entry>) {
    forall i, j :: 0 <= i < j < |s| ==> s[i].prior != s[j].prior
  }

  ghost predicate DistinctKeys(s: seq<Entry>) {
    forall i, j :: 0 <= i < j < |s| ==> s[i].key != s[j].key
  }

  lemma {:induction false} RootIsGreatest(t: Tree, bound: int)
    requires HeapOrder(t) && Below(t, bound)
    ensures forall x :: x in Inorder(t) ==> x.prior <= bound
  {
    if t.Node? {
      RootIsGreatest(t.left, t.item.prior);
      RootIsGreatest(t.right, t.item.prior);
    }
  }

  lemma EntriesJoin(first: seq<Item>, second: seq<Item>)
    ensures EntriesOf(first + second) == EntriesOf(first) + EntriesOf(second)
  {}

  lemma EntriesSplit(t: Tree)
    requires t.Node?
    ensures EntriesOf(Inorder(t)) == EntriesOf(Inorder(t.left)) + [EntryOf(t.item)] + EntriesOf(Inorder(t.right))
  {
    EntriesJoin(Inorder(t.left), [t.item]);
    EntriesJoin(Inorder(t.left) + [t.item], Inorder(t.right));
  }

  /** The entry of the root, the only one of the greatest priority, stands at one place in the sequence. */
  lemma SameRoot(t: Tree, u: Tree)
    requires t.Node? && u.Node? && HeapOrder(t) && HeapOrder(u)
    requires EntriesOf(Inorder(t)) == EntriesOf(Inorder(u)) && DistinctPriors(EntriesOf(Inorder(t)))
    ensures |Inorder(t.left)| == |Inorder(u.left)| && EntryOf(t.item) == EntryOf(u.item)
  {
    var s, i, j := EntriesOf(Inorder(t)), |Inorder(t.left)|, |Inorder(u.left)|;
    EntriesSplit(t);
    EntriesSplit(u);
    RootIsGreatest(t, t.item.prior);
    RootIsGreatest(u, u.item.prior);
    assert s[i] == EntryOf(t.item) && s[j] == EntryOf(u.item);
    assert Inorder(t)[j] in Inorder(t) && Inorder(u)[i] in Inorder(u);
    assert s[j] == EntryOf(Inorder(t)[j]) && s[i] == EntryOf(Inorder(u)[i]);
  }

  /** A heap with distinct priorities is determined by its inorder sequence. */
  lemma {:induction false} HeapFromInorder(t: Tree, u: Tree)
    requires HeapOrder(t) && HeapOrder(u)
    requires EntriesOf(Inorder(t)) == EntriesOf(Inorder(u)) && DistinctPriors(EntriesOf(Inorder(t)))
    ensures Alike(t, u)
  {
    var s := EntriesOf(Inorder(t));
    assert |s| == |Inorder(t)| == |EntriesOf(Inorder(u))| == |Inorder(u)|;
    if t.Node? && u.Node? {
      SameRoot(t, u);
      EntriesSplit(t);
      EntriesSplit(u);
      var i := |Inorder(t.left)|;
      assert EntriesOf(Inorder(t.left)) == s[..i] == EntriesOf(Inorder(u.left));
      assert EntriesOf(Inorder(t.right)) == s[i + 1..] == EntriesOf(Inorder(u.right));
      HeapFromInorder(t.left, u.left);
      HeapFromInorder(t.right, u.right);
    }
  }

  /** `merge` undoes `split`. */
  lemma MergeUndoesSplit(t: Tree, key: int)
    requires HeapOrder(t) && DistinctPriors(EntriesOf(Inorder(t)))
    ensures var (a, b) := SplitTree(t, key); Alike(MergeTree(a, b), t)
  {
    var (a, b) := SplitTree(t, key);
    var top := if t.Node? then t.item.prior else 0;
    SplitInorder(t, key);
    SplitHeap(t, key, top);
    MergeInorder(a, b);
    MergeHeap(a, b, top);
    HeapFromInorder(MergeTree(a, b), t);
  }

  ghost predicate Sorted(s: seq<Item>) {
    forall i, j :: 0 <= i < j < |s| ==> s[i].key <= s[j].key
  }

  lemma SortedAround(l: seq<Item>, x: Item, r: seq<Item>)
    requires Sorted(l) && Sorted(r)
    requires (forall y :: y in l ==> y.key <= x.key) && (forall y :: y in r ==> x.key <= y.key)
    ensures Sorted(l + [x] + r)
  {
    var s := l + [x] + r;
    forall i, j | 0 <= i < j < |s| ensures s[i].key <= s[j].key {
      assert i < |l| ==> s[i] in l;
      assert j < |l| ==> s[i] == l[i] && s[j] == l[j];
      assert j > |l| ==> s[j] in r;
      assert i > |l| ==> s[i] == r[i - |l| - 1] && s[j] == r[j - |l| - 1];
    }
  }

  lemma {:induction false} KeysAscend(t: Tree)
    requires SearchOrder(t)
    ensures Sorted(Inorder(t))
  {
    if t.Node? {
      KeysAscend(t.left);
      KeysAscend(t.right);
      forall y | y in Inorder(t.left) ensures y.key <= t.item.key { InInorder(t.left, y); }
      forall y | y in Inorder(t.right) ensures t.item.key <= y.key { InInorder(t.right, y); }
      SortedAround(Inorder(t.left), t.item, Inorder(t.right));
    }
  }

  ghost predicate Ascending(s: seq<Entry>) {
    forall i, j :: 0 <= i < j < |s| ==> s[i].key < s[j].key
  }

  lemma LastIsGreatest(s: seq<Entry>, u: seq<Entry>)
    requires Ascending(s) && multiset(s) == multiset(u) && |s| > 0
    ensures forall i :: 0 <= i < |u| ==> u[i].key <= s[|s| - 1].key
  {
    forall i | 0 <= i < |u| ensures u[i].key <= s[|s| - 1].key {
      assert u[i] in multiset(s);
    }
  }

  lemma LastsAgree(s: seq<Entry>, u: seq<Entry>)
    requires Ascending(s) && Ascending(u) && multiset(s) == multiset(u) && |s| == |u| > 0
    ensures s[|s| - 1] == u[|u| - 1]
  {
    var n := |s| - 1;
    LastIsGreatest(s, u);
    LastIsGreatest(u, s);
    assert s[n] in multiset(u);
    var k :| 0 <= k < |u| && u[k] == s[n];
  }

  /** Sequences with ascending keys and the same entries are the same. */
  lemma {:induction false} AscendingUnique(s: seq<Entry>, u: seq<Entry>)
    requires Ascending(s) && Ascending(u) && multiset(s) == multiset(u)
    ensures s == u
  {
    if s == [] {
      assert |multiset(u)| == 0;
    } else {
      assert |multiset(u)| == |s|;
      LastsAgree(s, u);
      DropLast(s);
      DropLast(u);
      AscendingUnique(s[..|s| - 1], u[..|u| - 1]);
    }
  }

  lemma DropLast(s: seq<Entry>)
    requires s != []
    ensures s == s[..|s| - 1] + [s[|s| - 1]]
    ensures multiset(s[..|s| - 1]) == multiset(s) - multiset{s[|s| - 1]}
  {
    assert s == s[..|s| - 1] + [s[|s| - 1]];
  }

  /** With distinct keys and distinct priorities the items alone determine the tree. */
  lemma Canonical(t: Tree, u: Tree)
    requires SearchOrder(t) && HeapOrder(t) && SearchOrder(u) && HeapOrder(u)
    requires DistinctKeys(EntriesOf(Inorder(t))) && DistinctPriors(EntriesOf(Inorder(t)))
    requires Entries(t) == Entries(u)
    ensures Alike(t, u)
  {
    KeysAscend(t);
    KeysAscend(u);
    assert Sorted(Inorder(t)) && Sorted(Inorder(u));
    DistinctByCount(EntriesOf(Inorder(t)), EntriesOf(Inorder(u)));
    AscendingUnique(EntriesOf(Inorder(t)), EntriesOf(Inorder(u)));
    HeapFromInorder(t, u);
  }

  /** Key distinctness depends on the entries, not on their places. */
  lemma {:induction false} DistinctByCount(s: seq<Entry>, u: seq<Entry>)
    requires DistinctKeys(s) && multiset(s) == multiset(u)
    ensures DistinctKeys(u)
  {
    forall i, j | 0 <= i < j < |u| ensures u[i].key != u[j].key {
      if u[i].key == u[j].key {
        var rest := u[..i] + u[i + 1..];
        assert u == u[..i] + [u[i]] + u[i + 1..];
        assert rest[j - 1] == u[j] && u[j] in multiset(rest);
        assert multiset(u) == multiset(rest) + multiset{u[i]};
        assert u[i] in multiset(s) && u[j] in multiset(s);
        OneEach(s, u[i], u[j]);
      }
    }
  }

  lemma {:induction false} OneEach(s: seq<Entry>, a: Entry, b: Entry)
    requires DistinctKeys(s) && a in s && b in s && a.key == b.key
    ensures a == b && multiset(s)[a] == 1
  {
    var i :| 0 <= i < |s| && s[i] == a;
    var j :| 0 <= j < |s| && s[j] == b;
    assert s == s[..i] + [a] + s[i + 1..];
    assert a !in s[..i] && a !in s[i + 1..];
  }

  // ---------------------------------------------------------------- histories

  /** How a treap came about. */
  datatype History =
    | Empty
    | Inserted(h: History, item: Item)
    | Erased(h: History, key: int)
    | United(h1: History, h2: History)
    | Rejoined(h: History, key: int)

  /** The tree after a history; None where the source would search below a leaf for the key to erase. */
  function Build(h: History): Option<Tree> {
    match h
    case Empty => Some(Leaf)
    case Inserted(h, x) =>
      var t := Build(h);
      if t.None? then None else Some(InsertTree(t.value, x))
    case Erased(h, key) =>
      var t := Build(h);
      if t.None? || !Finds(t.value, key) then None else Some(EraseTree(t.value, key))
    case United(h1, h2) =>
      var t, u := Build(h1), Build(h2);
      if t.None? || u.None? then None else Some(UniteTree(t.value, u.value))
    case Rejoined(h, key) =>
      var t := Build(h);
      if t.None? then None else Some(MergeTree(SplitTree(t.value, key).0, SplitTree(t.value, key).1))
  }

  function Greatest(t: Tree): int { if t.Node? then t.item.prior else 0 }

  lemma {:induction false} BuildKeeps(h: History)
    requires Build(h).Some?
    ensures SearchOrder(Build(h).value) && HeapOrder(Build(h).value)
  {
    match h
    case Empty =>
    case Inserted(h, x) =>
      BuildKeeps(h);
      var t := Build(h).value;
      InsertOrder(t, x);
      InsertHeap(t, x, Max(Greatest(t), x.prior));
    case Erased(h, key) =>
      BuildKeeps(h);
      var t := Build(h).value;
      EraseOrder(t, key);
      EraseHeap(t, key, Greatest(t));
    case United(h1, h2) =>
      BuildKeeps(h1);
      BuildKeeps(h2);
      var t, u := Build(h1).value, Build(h2).value;
      UniteOrder(t, u);
      UniteHeap(t, u, if t.Leaf? then Greatest(u) else if u.Leaf? then Greatest(t) else Max(Greatest(t), Greatest(u)));
    case Rejoined(h, key) =>
      BuildKeeps(h);
      var t := Build(h).value;
      var (a, b) := SplitTree(t, key);
      SplitOrder(t, key);
      SplitHeap(t, key, Greatest(t));
      MergeOrder(a, b);
      MergeHeap(a, b, Greatest(t));
  }

  /** Any two histories that end with the same items, keys and priorities distinct, build the same tree. */
  lemma HistoryIndependent(h: History, h': History)
    requires Build(h).Some? && Build(h').Some?
    requires Entries(Build(h).value) == Entries(Build(h').value)
    requires var s := EntriesOf(Inorder(Build(h).value)); DistinctKeys(s) && DistinctPriors(s)
    ensures Alike(Build(h).value, Build(h').value)
  {
    BuildKeeps(h);
    BuildKeeps(h');
    Canonical(Build(h).value, Build(h').value);
  }
}
