/** The standard sort, by its contract: a permutation in order. */
module Sorting {
  ghost predicate TotalOrder<T(!new)>(leq: (T, T) -> bool) {
    && (forall a, b :: leq(a, b) || leq(b, a))
    && (forall a, b, c :: leq(a, b) && leq(b, c) ==> leq(a, c))
  }

  predicate Sorted<T>(s: seq<T>, leq: (T, T) -> bool) {
    forall i, j {:trigger leq(s[i], s[j])} :: 0 <= i < j < |s| ==> leq(s[i], s[j])
  }

  function Insert<T>(s: seq<T>, x: T, leq: (T, T) -> bool): seq<T> {
    if s == [] || leq(x, s[0]) then [x] + s else [s[0]] + Insert(s[1..], x, leq)
  }

  function Sort<T>(s: seq<T>, leq: (T, T) -> bool): seq<T> {
    if s == [] then [] else Insert(Sort(s[1..], leq), s[0], leq)
  }

  lemma {:induction false} InsertSorts<T(!new)>(s: seq<T>, x: T, leq: (T, T) -> bool)
    requires TotalOrder(leq) && Sorted(s, leq)
    ensures Sorted(Insert(s, x, leq), leq) && multiset(Insert(s, x, leq)) == multiset(s) + multiset{x}
  {
    if s == [] || leq(x, s[0]) {
      forall j | 0 < j < |s| + 1 ensures leq(x, ([x] + s)[j]) { assert j > 1 ==> leq(s[0], s[j - 1]); }
    } else {
      InsertSorts(s[1..], x, leq);
      assert s == [s[0]] + s[1..];
      var r := Insert(s[1..], x, leq);
      forall j | 0 <= j < |r| ensures leq(s[0], r[j]) {
        assert r[j] in multiset(s[1..]) + multiset{x};
        if r[j] != x { assert r[j] in s[1..]; }
      }
    }
  }

  lemma {:induction false} SortSorts<T(!new)>(s: seq<T>, leq: (T, T) -> bool)
    requires TotalOrder(leq)
    ensures Sorted(Sort(s, leq), leq) && multiset(Sort(s, leq)) == multiset(s)
  {
    if s != [] {
      SortSorts(s[1..], leq);
      InsertSorts(Sort(s[1..], leq), s[0], leq);
      assert s == [s[0]] + s[1..];
    }
  }
}
