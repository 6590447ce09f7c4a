/** For each element the number of smaller elements to its right, with a binary indexed tree. */
module CountSmaller {
  import opened Sorting
  import opened LowBits

  // ---------------------------------------------------------------- the low-bit walk

  /** Entry k of the tree counts the values in k - LowBit(k) + 1 .. k. */
  predicate Covers(k: nat, x: nat)
    requires k > 0
  {
    k - LowBit(k) < x <= k
  }

  /** The entries above x that cover x are those that cover the next stop of the walk up from x. */
  lemma {:induction false} WalkUp(k: nat, x: nat)
    requires 0 < x < k
    ensures Covers(k, x) <==> Covers(k, x + LowBit(x))
    decreases k
  {
    if x % 2 == 0 && k % 2 == 0 { WalkUp(k / 2, x / 2); }
  }

  // ---------------------------------------------------------------- the tree

  /** How many of the values inserted lie in lo + 1 .. hi. */
  function Inserted(xs: seq<nat>, lo: int, hi: int): nat {
    if xs == [] then 0 else Inserted(xs[..|xs| - 1], lo, hi) + if lo < xs[|xs| - 1] <= hi then 1 else 0
  }

  lemma InsertedMore(xs: seq<nat>, x: nat, lo: int, hi: int)
    ensures Inserted(xs + [x], lo, hi) == Inserted(xs, lo, hi) + if lo < x <= hi then 1 else 0
  {
    assert (xs + [x])[..|xs|] == xs;
  }

  lemma {:induction false} InsertedSplit(xs: seq<nat>, lo: int, mid: int, hi: int)
    requires lo <= mid <= hi
    ensures Inserted(xs, lo, hi) == Inserted(xs, lo, mid) + Inserted(xs, mid, hi)
  {
    if xs != [] { InsertedSplit(xs[..|xs| - 1], lo, mid, hi); }
  }

  class Bit {
    var n: nat
    var data: array<int>

    /** Each entry counts what it covers, among the values xs inserted so far. */
    ghost predicate Valid(xs: seq<nat>)
      reads this, data
    {
      data.Length == n + 1 && forall k {:trigger data[k]} :: 0 < k <= n ==> data[k] == Inserted(xs, k - LowBit(k), k)
    }

    constructor (size: nat)
      ensures Valid([]) && n == size && fresh(data)
    {
      n := size;
      data := new int[size + 1](_ => 0);
    }

    /** Inserts x. */
    method Update(x: nat, ghost xs: seq<nat>)
      requires Valid(xs) && 0 < x <= n
      modifies data
      ensures Valid(xs + [x])
    {
      var k := x;
      ghost var before := data[..];
      forall i | 0 < i <= n && i < x ensures !Covers(i, x) {}
      while k <= n
        invariant 0 < k && data.Length == n + 1
        invariant forall i :: 0 < i <= n && i < k ==> data[i] == before[i] + if Covers(i, x) then 1 else 0
        invariant forall i :: k <= i <= n ==> data[i] == before[i]
        invariant forall i :: k <= i <= n ==> (Covers(i, x) <==> Covers(i, k))
        decreases n + 1 - k
      {
        data[k] := data[k] + 1;
        ghost var next := k + LowBit(k);
        forall i | k < i <= n ensures Covers(i, k) <==> Covers(i, next) { WalkUp(i, k); }
        k := k + LowBit(k);
      }
      forall i | 0 < i <= n ensures data[i] == Inserted(xs + [x], i - LowBit(i), i) {
        InsertedMore(xs, x, i - LowBit(i), i);
        assert before[i] == Inserted(xs, i - LowBit(i), i);
      }
    }

    /** How many of the values inserted are at most k. */
    method Query(k: nat, ghost xs: seq<nat>) returns (sum: int)
      requires Valid(xs) && k <= n
      ensures sum == Inserted(xs, 0, k)
    {
      sum := 0;
      var j := k;
      while j > 0
        invariant 0 <= j <= k
        invariant sum + Inserted(xs, 0, j) == Inserted(xs, 0, k)
      {
        InsertedSplit(xs, 0, j - LowBit(j), j);
        sum := sum + data[j];
        j := j - LowBit(j);
      }
      Nothing(xs);
    }
  }

  lemma {:induction false} Nothing(xs: seq<nat>)
    ensures Inserted(xs, 0, 0) == 0
  {
    if xs != [] { Nothing(xs[..|xs| - 1]); }
  }

  // ---------------------------------------------------------------- ranks

  /** Strictly increasing, and exactly the values of a. */
  ghost predicate Ranked(all: seq<int>, a: seq<int>) {
    && (forall i, j :: 0 <= i < j < |all| ==> all[i] < all[j])
    && forall v :: v in a <==> v in all
  }

  /** The position of v among the distinct values, from 1. */
  ghost predicate Ranks(m: map<int, nat>, all: seq<int>) {
    && m.Keys == (set i | 0 <= i < |all| :: all[i])
    && forall i :: 0 <= i < |all| ==> all[i] in m && m[all[i]] == i + 1
  }

  predicate AtMost(x: int, y: int) { x <= y }

  lemma NonEmpty(s: set<int>)
    requires s != {}
    ensures exists v :: v in s
  {
    assert (forall v :: v !in s) ==> s == {};
  }

  /** `vector<int> all(tt.begin(), tt.end())` of a set, and the sort. */
  method DistinctSorted(a: seq<int>) returns (all: seq<int>)
    ensures Ranked(all, a)
  {
    var tt := set v | v in a;
    var rest := tt;
    var listed: seq<int> := [];
    while rest != {}
      invariant rest <= tt
      invariant forall v :: v in tt <==> v in rest || v in listed
      invariant forall i :: 0 <= i < |listed| ==> listed[i] !in rest
      invariant forall i, j :: 0 <= i < j < |listed| ==> listed[i] != listed[j]
      decreases |rest|
    {
      NonEmpty(rest);
      var v :| v in rest;
      rest := rest - {v};
      listed := listed + [v];
    }
    all := Sort(listed, AtMost);
    SortSorts(listed, AtMost);
    DistinctStay(listed, all);
    forall v ensures v in a <==> v in all {
      assert v in multiset(listed) <==> v in multiset(all);
    }
  }

  lemma DistinctStay(s: seq<int>, t: seq<int>)
    requires multiset(s) == multiset(t) && Sorted(t, AtMost)
    requires forall i, j :: 0 <= i < j < |s| ==> s[i] != s[j]
    ensures forall i, j :: 0 <= i < j < |t| ==> t[i] < t[j]
  {
    forall i, j | 0 <= i < j < |t| ensures t[i] < t[j] {
      assert AtMost(t[i], t[j]);
      if t[i] == t[j] {
        assert t == t[..i] + [t[i]] + t[i + 1..];
        assert t[j] in t[i + 1..];
        assert multiset(t)[t[i]] >= 2;
        OnlyOnce(s, t[i]);
      }
    }
  }

  lemma {:induction false} OnlyOnce(s: seq<int>, v: int)
    requires forall i, j :: 0 <= i < j < |s| ==> s[i] != s[j]
    ensures multiset(s)[v] <= 1
  {
    if s != [] {
      OnlyOnce(s[1..], v);
      assert s == [s[0]] + s[1..];
      if v == s[0] { assert v !in s[1..]; assert v !in multiset(s[1..]); }
    }
  }

  /** How many elements of a from position i on are smaller than v. */
  function SmallerFrom(a: seq<int>, i: nat, v: int): nat
    requires i <= |a|
    decreases |a| - i
  {
    if i == |a| then 0 else SmallerFrom(a, i + 1, v) + if a[i] < v then 1 else 0
  }

  /** The ranks of the elements from position i on, last one first. */
  ghost function RanksFrom(a: seq<int>, i: nat, m: map<int, nat>): seq<nat>
    requires i <= |a| && forall v :: v in a ==> v in m
    decreases |a| - i
  {
    if i == |a| then [] else RanksFrom(a, i + 1, m) + [m[a[i]]]
  }

  /** Ranks are ordered as the values are. */
  lemma RankOrder(m: map<int, nat>, all: seq<int>, a: seq<int>, u: int, v: int)
    requires Ranked(all, a) && Ranks(m, all) && u in a && v in a
    ensures u in m && v in m && 0 < m[u] <= |all| && (u < v <==> m[u] <= m[v] - 1)
  {
    var i :| 0 <= i < |all| && all[i] == u;
    var j :| 0 <= j < |all| && all[j] == v;
  }

  lemma AllRanked(m: map<int, nat>, all: seq<int>, a: seq<int>)
    requires Ranked(all, a) && Ranks(m, all)
    ensures forall v :: v in a ==> v in m
  {
    forall v | v in a ensures v in m { RankOrder(m, all, a, v, v); }
  }

  lemma {:induction false} RanksCount(a: seq<int>, i: nat, m: map<int, nat>, all: seq<int>, v: int)
    requires Ranked(all, a) && Ranks(m, all) && i <= |a| && v in a
    requires forall v :: v in a ==> v in m
    ensures Inserted(RanksFrom(a, i, m), 0, m[v] - 1) == SmallerFrom(a, i, v)
    decreases |a| - i
  {
    if i < |a| {
      RanksCount(a, i + 1, m, all, v);
      InsertedMore(RanksFrom(a, i + 1, m), m[a[i]], 0, m[v] - 1);
      RankOrder(m, all, a, a[i], v);
    }
  }

  /** For each position the number of strictly smaller elements to its right. */
  method CountSmaller(a: seq<int>) returns (ans: seq<int>)
    ensures |ans| == |a| && forall i :: 0 <= i < |a| ==> ans[i] == SmallerFrom(a, i + 1, a[i])
  {
    var all := DistinctSorted(a);
    var n := |all|;
    var b := new Bit(n);
    var m: map<int, nat> := map[];
    for i := 0 to n
      invariant m.Keys == (set j | 0 <= j < i :: all[j])
      invariant forall j :: 0 <= j < i ==> m[all[j]] == j + 1
    {
      m := m[all[i] := i + 1];
    }
    AllRanked(m, all, a);
    ans := seq(|a|, _ => 0);
    for i := |a| downto 0
      invariant |ans| == |a| && b.n == n && fresh(b.data)
      invariant b.Valid(RanksFrom(a, i, m))
      invariant forall j :: i <= j < |a| ==> ans[j] == SmallerFrom(a, j + 1, a[j])
    {
      RankOrder(m, all, a, a[i], a[i]);
      var x := m[a[i]];
      b.Update(x, RanksFrom(a, i + 1, m));
      var smaller := b.Query(x - 1, RanksFrom(a, i, m));
      RanksCount(a, i, m, all, a[i]);
      ans := ans[i := smaller];
    }
  }
}
