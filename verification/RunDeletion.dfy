/**
 Deleting blocks of k equal adjacent characters until none is left.

 The program folds the string over a stack of runs.  Deletion itself is defined here on the string:
 a list of cut positions, applied one after the other in any order one likes.
 */
module RunDeletion {
  import opened Prelude

  // ---------------------------------------------------------------- deletion on strings

  predicate BlockAt(s: string, i: nat, k: nat) {
    i + k <= |s| && forall j :: i <= j < i + k ==> s[j] == s[i]
  }

  function Delete(s: string, i: nat, k: nat): string
    requires BlockAt(s, i, k)
  {
    s[..i] + s[i + k..]
  }

  /** The string after cutting blocks of k at these positions, one after the other; None if one of them is no block. */
  function After(s: string, cuts: seq<nat>, k: nat): Option<string>
    decreases |cuts|
  {
    if cuts == [] then Some(s)
    else if BlockAt(s, cuts[0], k) then After(Delete(s, cuts[0], k), cuts[1..], k)
    else None
  }

  ghost predicate Irreducible(s: string, k: nat) {
    forall i: nat :: !BlockAt(s, i, k)
  }

  // ---------------------------------------------------------------- the stack of runs

  datatype Run = Run(ch: char, cnt: nat)

  function Rep(c: char, n: nat): string {
    if n == 0 then "" else Rep(c, n - 1) + [c]
  }

  /** The string the stack stands for, bottom first. */
  function Flatten(st: seq<Run>): string {
    if st == [] then "" else Flatten(st[..|st| - 1]) + Rep(st[|st| - 1].ch, st[|st| - 1].cnt)
  }

  predicate OtherTop(st: seq<Run>, c: char) { st == [] || st[|st| - 1].ch != c }

  /** Runs shorter than k, no two neighbours of the same character. */
  predicate Valid(st: seq<Run>, k: nat) {
    st == [] ||
    (Valid(st[..|st| - 1], k) && 1 <= st[|st| - 1].cnt < k && OtherTop(st[..|st| - 1], st[|st| - 1].ch))
  }

  /** One character more. */
  function Push(st: seq<Run>, c: char, k: nat): seq<Run> {
    if OtherTop(st, c) then st + [Run(c, 1)]
    else
      var below, cnt := st[..|st| - 1], st[|st| - 1].cnt + 1;
      if cnt < k then below + [Run(c, cnt)] else below
  }

  function Fold(st: seq<Run>, s: string, k: nat): seq<Run>
    decreases |s|
  {
    if s == "" then st else Fold(Push(st, s[0], k), s[1..], k)
  }

  lemma {:induction false} FoldValid(st: seq<Run>, s: string, k: nat)
    requires Valid(st, k) && k >= 2
    ensures Valid(Fold(st, s, k), k)
    decreases |s|
  {
    if s != "" {
      PushValid(st, s[0], k);
      FoldValid(Push(st, s[0], k), s[1..], k);
    }
  }

  lemma PushValid(st: seq<Run>, c: char, k: nat)
    requires Valid(st, k) && k >= 2
    ensures Valid(Push(st, c, k), k)
  {
    var st' := Push(st, c, k);
    if OtherTop(st, c) { assert st'[..|st|] == st; }
    else if |st'| == |st| { assert st'[..|st| - 1] == st[..|st| - 1]; }
  }

  lemma {:induction false} FoldAppend(st: seq<Run>, u: string, v: string, k: nat)
    ensures Fold(st, u + v, k) == Fold(Fold(st, u, k), v, k)
    decreases |u|
  {
    if u == "" {
      assert u + v == v;
    } else {
      assert (u + v)[0] == u[0] && (u + v)[1..] == u[1..] + v;
      FoldAppend(Push(st, u[0], k), u[1..], v, k);
    }
  }

  lemma FoldOne(st: seq<Run>, c: char, k: nat)
    ensures Fold(st, [c], k) == Push(st, c, k)
  {
    assert Fold(Push(st, c, k), [c][1..], k) == Push(st, c, k);
  }

  /** A run shorter than k stays on the stack. */
  lemma {:induction false} FoldRun(st: seq<Run>, c: char, m: nat, k: nat)
    requires OtherTop(st, c) && 1 <= m < k
    ensures Fold(st, Rep(c, m), k) == st + [Run(c, m)]
  {
    assert Rep(c, m) == Rep(c, m - 1) + [c];
    if m == 1 {
      assert Rep(c, 1) == [c];
      FoldOne(st, c, k);
    } else {
      FoldRun(st, c, m - 1, k);
      FoldAppend(st, Rep(c, m - 1), [c], k);
      FoldOne(st + [Run(c, m - 1)], c, k);
      assert (st + [Run(c, m - 1)])[..|st|] == st;
    }
  }

  lemma {:induction false} RepPlus(c: char, m: nat, n: nat)
    ensures Rep(c, m + n) == Rep(c, m) + Rep(c, n)
  {
    if n > 0 {
      RepPlus(c, m, n - 1);
      assert Rep(c, m) + (Rep(c, n - 1) + [c]) == (Rep(c, m) + Rep(c, n - 1)) + [c];
    }
  }

  lemma BlockOnOther(st: seq<Run>, c: char, k: nat)
    requires OtherTop(st, c) && k >= 2
    ensures Fold(st, Rep(c, k), k) == st
  {
    FoldRun(st, c, k - 1, k);
    assert Rep(c, k) == Rep(c, k - 1) + [c];
    FoldAppend(st, Rep(c, k - 1), [c], k);
    FoldOne(st + [Run(c, k - 1)], c, k);
    assert (st + [Run(c, k - 1)])[..|st|] == st;
  }

  /** Folding in a whole block leaves the stack as it was, whatever is on it. */
  lemma BlockVanishes(st: seq<Run>, c: char, k: nat)
    requires Valid(st, k) && k >= 2
    ensures Fold(st, Rep(c, k), k) == st
  {
    if OtherTop(st, c) {
      BlockOnOther(st, c, k);
    } else {
      var below, m := st[..|st| - 1], st[|st| - 1].cnt;
      FoldRun(below, c, m, k);
      assert st == Fold(below, Rep(c, m), k);
      FoldAppend(below, Rep(c, m), Rep(c, k), k);
      RepPlus(c, m, k);
      RepPlus(c, k, m);
      FoldAppend(below, Rep(c, k), Rep(c, m), k);
      BlockOnOther(below, c, k);
    }
  }

  lemma {:induction false} BlockIsRep(s: string, i: nat, c: char, n: nat)
    requires i + n <= |s| && forall j :: i <= j < i + n ==> s[j] == c
    ensures s[i..i + n] == Rep(c, n)
  {
    if n > 0 {
      BlockIsRep(s, i, c, n - 1);
      assert s[i..i + n] == s[i..i + n - 1] + [s[i + n - 1]];
    }
  }

  /** Cutting a block does not change what the program computes. */
  lemma CutKeepsFold(s: string, i: nat, k: nat)
    requires k >= 2 && BlockAt(s, i, k)
    ensures Fold([], Delete(s, i, k), k) == Fold([], s, k)
  {
    var u, c, v := s[..i], s[i], s[i + k..];
    BlockIsRep(s, i, c, k);
    assert s == (u + Rep(c, k)) + v;
    FoldAppend([], u + Rep(c, k), v, k);
    FoldAppend([], u, Rep(c, k), k);
    FoldValid([], u, k);
    BlockVanishes(Fold([], u, k), c, k);
    FoldAppend([], u, v, k);
  }

  lemma {:induction false} CutsKeepFold(s: string, cuts: seq<nat>, k: nat)
    requires k >= 2 && After(s, cuts, k).Some?
    ensures Fold([], After(s, cuts, k).value, k) == Fold([], s, k)
    decreases |cuts|
  {
    if cuts != [] {
      CutKeepsFold(s, cuts[0], k);
      CutsKeepFold(Delete(s, cuts[0], k), cuts[1..], k);
    }
  }

  // ---------------------------------------------------------------- the program's result can be reached by cutting

  lemma {:induction false} RepAll(c: char, n: nat)
    ensures |Rep(c, n)| == n && forall j :: 0 <= j < n ==> Rep(c, n)[j] == c
  {
    if n > 0 { RepAll(c, n - 1); }
  }

  lemma FlattenMore(st: seq<Run>, r: Run)
    ensures Flatten(st + [r]) == Flatten(st) + Rep(r.ch, r.cnt)
  {
    assert (st + [r])[..|st|] == st;
  }

  lemma TopRun(st: seq<Run>)
    requires st != []
    ensures Flatten(st) == Flatten(st[..|st| - 1]) + Rep(st[|st| - 1].ch, st[|st| - 1].cnt)
  {}

  /** The pushed character either stays or completes a block that can be cut. */
  lemma PushCuts(st: seq<Run>, c: char, rest: string, k: nat)
    requires Valid(st, k) && k >= 2
    ensures var s, s' := Flatten(st) + [c] + rest, Flatten(Push(st, c, k)) + rest;
      s' == s || (st != [] && var i := |Flatten(st[..|st| - 1])|; BlockAt(s, i, k) && s' == Delete(s, i, k))
  {
    if OtherTop(st, c) {
      FlattenMore(st, Run(c, 1));
      assert Rep(c, 1) == [c];
    } else {
      var below, cnt := st[..|st| - 1], st[|st| - 1].cnt + 1;
      TopRun(st);
      assert Rep(c, cnt) == Rep(c, cnt - 1) + [c];
      assert Flatten(st) + [c] == Flatten(below) + Rep(c, cnt);
      RepAll(c, cnt);
      if cnt < k { FlattenMore(below, Run(c, cnt)); }
    }
  }

  lemma AfterCut(s: string, i: nat, more: seq<nat>, k: nat)
    requires BlockAt(s, i, k)
    ensures After(s, [i] + more, k) == After(Delete(s, i, k), more, k)
  {
    assert ([i] + more)[1..] == more;
  }

  lemma PushReaches(st: seq<Run>, s: string, k: nat, more: seq<nat>) returns (cuts: seq<nat>)
    requires Valid(st, k) && k >= 2 && s != ""
    ensures After(Flatten(st) + s, cuts, k) == After(Flatten(Push(st, s[0], k)) + s[1..], more, k)
  {
    PushCuts(st, s[0], s[1..], k);
    var now, next := Flatten(st) + s, Flatten(Push(st, s[0], k)) + s[1..];
    assert now == Flatten(st) + [s[0]] + s[1..];
    if next == now { cuts := more; }
    else {
      var i := |Flatten(st[..|st| - 1])|;
      AfterCut(now, i, more, k);
      cuts := [i] + more;
    }
  }

  lemma {:induction false} FoldReaches(st: seq<Run>, s: string, k: nat) returns (cuts: seq<nat>)
    requires Valid(st, k) && k >= 2
    ensures After(Flatten(st) + s, cuts, k) == Some(Flatten(Fold(st, s, k)))
    decreases |s|
  {
    if s == "" {
      cuts := [];
      assert Flatten(st) + s == Flatten(st);
    } else {
      PushValid(st, s[0], k);
      var more := FoldReaches(Push(st, s[0], k), s[1..], k);
      cuts := PushReaches(st, s, k, more);
    }
  }

  // ---------------------------------------------------------------- and cannot be cut any further

  lemma FlattenLast(st: seq<Run>, k: nat)
    requires Valid(st, k) && st != []
    ensures Flatten(st) != "" && Flatten(st)[|Flatten(st)| - 1] == st[|st| - 1].ch
  {
    RepAll(st[|st| - 1].ch, st[|st| - 1].cnt);
  }

  lemma {:induction false} ShortRunsStay(st: seq<Run>, k: nat)
    requires Valid(st, k) && k >= 2
    ensures Irreducible(Flatten(st), k)
  {
    if st != [] {
      var below, r := st[..|st| - 1], st[|st| - 1];
      ShortRunsStay(below, k);
      RepAll(r.ch, r.cnt);
      var s, low := Flatten(st), Flatten(below);
      if below != [] { FlattenLast(below, k); }
      forall i: nat ensures !BlockAt(s, i, k) {
        if i + k <= |low| {
          assert !BlockAt(low, i, k);
          PrefixBlock(low, s, i, k);
        } else if i + k <= |s| {
          assert s[|low|] == r.ch && (low != "" ==> s[|low| - 1] == low[|low| - 1] != r.ch);
        }
      }
    }
  }

  lemma PrefixBlock(low: string, s: string, i: nat, k: nat)
    requires low <= s && i + k <= |low|
    ensures BlockAt(s, i, k) <==> BlockAt(low, i, k)
  {
    assert forall j :: i <= j < i + k ==> s[j] == low[j];
  }

  lemma NothingToCut(s: string, cuts: seq<nat>, k: nat)
    requires Irreducible(s, k)
    ensures After(s, cuts, k) == if cuts == [] then Some(s) else None
  {
    if cuts != [] { assert !BlockAt(s, cuts[0], k); }
  }

  /** However blocks are cut, in whatever order: if nothing can be cut any more, the result is this one. */
  ghost predicate OnlyResult(s: string, k: nat, res: string) {
    forall cuts: seq<nat> ::
      After(s, cuts, k).Some? && Irreducible(After(s, cuts, k).value, k) ==> After(s, cuts, k) == Some(res)
  }

  lemma OneNormalForm(s: string, k: nat)
    requires k >= 2
    ensures OnlyResult(s, k, Flatten(Fold([], s, k)))
  {
    forall cuts: seq<nat> | After(s, cuts, k).Some? && Irreducible(After(s, cuts, k).value, k)
      ensures After(s, cuts, k) == Some(Flatten(Fold([], s, k)))
    {
      CutsKeepFold(s, cuts, k);
      var t := After(s, cuts, k).value;
      var none := FoldReaches([], t, k);
      assert Flatten([]) + t == t;
      NothingToCut(t, none, k);
    }
  }

  lemma SingleCharacters(s: string)
    ensures Irreducible("", 1) && OnlyResult(s, 1, "")
  {
    forall t: string ensures Irreducible(t, 1) <==> t == "" { assert t != "" ==> BlockAt(t, 0, 1); }
  }

  lemma {:induction false} CutAll(s: string) returns (cuts: seq<nat>)
    ensures After(s, cuts, 1) == Some("")
  {
    if s == "" { cuts := []; }
    else {
      var more := CutAll(s[1..]);
      cuts := [0] + more;
      assert Delete(s, 0, 1) == s[1..] && cuts[1..] == more;
    }
  }

  // ---------------------------------------------------------------- the program

  function Reversed(s: string): string {
    if s == "" then "" else Reversed(s[1..]) + [s[0]]
  }

  lemma {:induction false} ReversedMore(s: string, c: char)
    ensures Reversed(s + [c]) == [c] + Reversed(s)
  {
    if s == "" {
      assert Reversed([c]) == Reversed([c][1..]) + [c];
    } else {
      assert (s + [c])[0] == s[0] && (s + [c])[1..] == s[1..] + [c];
      ReversedMore(s[1..], c);
    }
  }

  /** Pops the runs and writes them out, last character first. */
  method Unwind(runs: seq<Run>, ghost k: nat) returns (res: string)
    requires Valid(runs, k)
    ensures Reversed(res) == Flatten(runs)
  {
    res := "";
    var st := runs;
    while st != []
      invariant Valid(st, k)
      invariant Flatten(st) + Reversed(res) == Flatten(runs)
      decreases |st|
    {
      var top := st[|st| - 1];
      st := st[..|st| - 1];
      if top.cnt > 1 {
        var cnt := top.cnt;
        while cnt != 0
          invariant Flatten(st) + Rep(top.ch, cnt) + Reversed(res) == Flatten(runs)
          decreases cnt
        {
          ReversedMore(res, top.ch);
          assert Rep(top.ch, cnt) == Rep(top.ch, cnt - 1) + [top.ch];
          res := res + [top.ch];
          cnt := cnt - 1;
        }
      } else {
        assert Rep(top.ch, 1) == [top.ch];
        ReversedMore(res, top.ch);
        res := res + [top.ch];
      }
    }
  }

  /** A k below 1 behaves like 2: the count is compared only once it has reached 2. */
  function Block(k: int): nat { if k < 1 then 2 else k }

  /**
   The one string without k equal adjacent characters that deleting such blocks leads to:
   it can be reached, nothing in it can be deleted, and every maximal sequence of deletions ends in it.
   */
  method RemoveKChars(k: int, s: string) returns (res: string, ghost cuts: seq<nat>)
    ensures After(s, cuts, Block(k)) == Some(res)
    ensures Irreducible(res, Block(k))
    ensures OnlyResult(s, Block(k), res)
  {
    var n := |s|;
    if k == 1 {
      cuts := CutAll(s);
      SingleCharacters(s);
      return "", cuts;
    }
    ghost var b := Block(k);
    var st: seq<Run> := [];
    for i := 0 to n
      invariant Valid(st, b) && Fold(st, s[i..], b) == Fold([], s, b)
    {
      PushValid(st, s[i], b);
      assert s[i..][1..] == s[i + 1..];
      if st == [] {
        st := st + [Run(s[i], 1)];
      } else if st[|st| - 1].ch == s[i] {
        var cnt := st[|st| - 1].cnt;
        st := st[..|st| - 1];
        cnt := cnt + 1;
        if cnt < k { st := st + [Run(s[i], cnt)]; }
      } else {
        st := st + [Run(s[i], 1)];
      }
    }
    ShortRunsStay(st, b);
    cuts := FoldReaches([], s, b);
    assert Flatten([]) + s == s;
    OneNormalForm(s, b);
    var reversed := Unwind(st, b);
    res := Reversed(reversed);
  }
}
