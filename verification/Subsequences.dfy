/** Counting the distinct subsequences of a lowercase string. */
module Subsequences {

  // ---------------------------------------------------------------- what is counted

  /** The positions pick t out of s, from left to right. */
  predicate Picks(t: string, s: string, at: seq<nat>) {
    && |at| == |t|
    && (forall i :: 0 <= i < |at| ==> at[i] < |s| && s[at[i]] == t[i])
    && forall i, j :: 0 <= i < j < |at| ==> at[i] < at[j]
  }

  ghost predicate Subsequence(t: string, s: string) {
    exists at: seq<nat> :: Picks(t, s, at)
  }

  /** All of them. */
  ghost function Subsequences(s: string): set<string> {
    if s == "" then {""} else Subsequences(Init(s)) + Continued(Subsequences(Init(s)), s[|s| - 1])
  }

  function Init(s: string): string
    requires s != ""
  {
    s[..|s| - 1]
  }

  function Continued(ts: set<string>, c: char): set<string> {
    set t | t in ts :: t + [c]
  }

  lemma PicksShorter(t: string, s: string, at: seq<nat>)
    requires Picks(t, s, at) && s != "" && (at == [] || at[|at| - 1] < |s| - 1)
    ensures Picks(t, Init(s), at)
  {}

  lemma PicksInit(t: string, s: string, at: seq<nat>)
    requires Picks(t, s, at) && s != "" && at != [] && at[|at| - 1] == |s| - 1
    ensures t != "" && t == Init(t) + [s[|s| - 1]] && Picks(Init(t), Init(s), at[..|at| - 1])
  {}

  lemma PicksMore(t: string, s: string, at: seq<nat>, c: char)
    requires Picks(t, s, at)
    ensures Picks(t, s + [c], at) && Picks(t + [c], s + [c], at + [|s|])
  {}

  /** The recursive set is the set of subsequences. */
  lemma {:induction false} AreSubsequences(t: string, s: string)
    ensures t in Subsequences(s) <==> Subsequence(t, s)
    decreases |s|
  {
    if Subsequence(t, s) { SubsequenceIn(t, s); }
    if s == "" {
      assert Picks("", s, []);
    } else {
      var c := s[|s| - 1];
      assert s == Init(s) + [c];
      if t in Subsequences(Init(s)) {
        AreSubsequences(t, Init(s));
        var at :| Picks(t, Init(s), at);
        PicksMore(t, Init(s), at, c);
      } else if t in Continued(Subsequences(Init(s)), c) {
        var t' :| t' in Subsequences(Init(s)) && t == t' + [c];
        AreSubsequences(t', Init(s));
        var at :| Picks(t', Init(s), at);
        PicksMore(t', Init(s), at, c);
      }
    }
  }

  lemma {:induction false} SubsequenceIn(t: string, s: string)
    requires Subsequence(t, s)
    ensures t in Subsequences(s)
    decreases |s|
  {
    var at :| Picks(t, s, at);
    assert at != [] ==> at[0] < |s|;
    if s == "" {
      assert t == "";
    } else if at == [] || at[|at| - 1] < |s| - 1 {
      PicksShorter(t, s, at);
      SubsequenceIn(t, Init(s));
    } else {
      PicksInit(t, s, at);
      SubsequenceIn(Init(t), Init(s));
    }
  }

  // ---------------------------------------------------------------- how many there are

  /** The last position of c in s, or -1. */
  function Last(s: string, c: char): (i: int)
    ensures -1 <= i < |s|
  {
    if s == "" then -1 else if s[|s| - 1] == c then |s| - 1 else Last(Init(s), c)
  }

  lemma {:induction false} PrefixIn(t: string, c: char, s: string)
    requires t + [c] in Subsequences(s)
    ensures t in Subsequences(s)
    decreases |s|
  {
    assert t + [c] != "";
    if t + [c] in Subsequences(Init(s)) {
      PrefixIn(t, c, Init(s));
    } else {
      var t' :| t' in Subsequences(Init(s)) && t + [c] == t' + [s[|s| - 1]];
      assert t == (t + [c])[..|t|] == t';
    }
  }

  /** t + [c] can be picked exactly when t can be picked before the last c. */
  lemma {:induction false} EndsAtLast(t: string, c: char, s: string)
    ensures t + [c] in Subsequences(s) <==> Last(s, c) >= 0 && t in Subsequences(s[..Last(s, c)])
    decreases |s|
  {
    if s == "" {
      assert t + [c] != "";
    } else {
      EndsAtLast(t, c, Init(s));
      if s[|s| - 1] == c {
        if t + [c] in Subsequences(Init(s)) { PrefixIn(t, c, Init(s)); }
        assert t + [c] in Continued(Subsequences(Init(s)), c) <==> t in Subsequences(Init(s)) by {
          if t + [c] in Continued(Subsequences(Init(s)), c) {
            var t' :| t' in Subsequences(Init(s)) && t + [c] == t' + [c];
            assert t == (t + [c])[..|t|] == t';
          }
        }
      } else {
        assert t + [c] !in Continued(Subsequences(Init(s)), s[|s| - 1]) by {
          assert (t + [c])[|t|] == c;
          assert forall t' :: t' in Subsequences(Init(s)) ==> (t' + [s[|s| - 1]])[|t'|] != c;
        }
        assert Last(s, c) >= 0 ==> s[..Last(s, c)] == Init(s)[..Last(s, c)];
      }
    }
  }

  lemma {:induction false} ContinuedSize(ts: set<string>, c: char)
    ensures |Continued(ts, c)| == |ts|
    decreases |ts|
  {
    if ts != {} {
      var t :| t in ts;
      ContinuedSize(ts - {t}, c);
      assert t + [c] !in Continued(ts - {t}, c) by {
        assert forall t' :: t' + [c] == t + [c] ==> (t' + [c])[..|t'|] == (t + [c])[..|t|];
      }
      assert Continued(ts, c) == Continued(ts - {t}, c) + {t + [c]};
    }
  }

  lemma SizeOfUnion(a: set<string>, b: set<string>)
    ensures |a + b| == |a| + |b| - |a * b|
  {}

  /** One character more doubles the set, less what the previous occurrence of the character gave already. */
  lemma OneMore(s: string, c: char)
    ensures var j := Last(s, c);
      |Subsequences(s + [c])| == 2 * |Subsequences(s)| - if j >= 0 then |Subsequences(s[..j])| else 0
  {
    var j := Last(s, c);
    var a := Subsequences(s);
    assert Init(s + [c]) == s;
    ContinuedSize(a, c);
    SizeOfUnion(a, Continued(a, c));
    if j >= 0 { ContinuedSize(Subsequences(s[..j]), c); }
    CommonPart(s, c);
  }

  lemma CommonPart(s: string, c: char)
    ensures Subsequences(s) * Continued(Subsequences(s), c)
            == if Last(s, c) >= 0 then Continued(Subsequences(s[..Last(s, c)]), c) else {}
  {
    var a := Subsequences(s);
    forall u: string
      ensures u in a * Continued(a, c) <==> Last(s, c) >= 0 && u in Continued(Subsequences(s[..Last(s, c)]), c)
    {
      if u in a * Continued(a, c) {
        var t :| t in a && u == t + [c];
        EndsAtLast(t, c, s);
      }
      if Last(s, c) >= 0 && u in Continued(Subsequences(s[..Last(s, c)]), c) {
        var t :| t in Subsequences(s[..Last(s, c)]) && u == t + [c];
        EndsAtLast(t, c, s);
        PrefixIn(t, c, s);
      }
    }
  }

  // ---------------------------------------------------------------- the program

  predicate Lowercase(s: string) {
    forall i :: 0 <= i < |s| ==> 'a' <= s[i] <= 'z'
  }

  ghost predicate Counted(s: string, dp: seq<int>, i: nat) {
    i < |dp| == |s| + 1 && forall j {:trigger CountAt(s, dp, j)} :: 0 <= j <= i ==> CountAt(s, dp, j)
  }

  ghost predicate CountAt(s: string, dp: seq<int>, j: nat)
    requires j <= |s| && j < |dp|
  {
    dp[j] == |Subsequences(s[..j])|
  }

  ghost predicate LastSeen(s: string, last: seq<int>) {
    |last| == 26 && forall c: char :: 'a' <= c <= 'z' ==> last[(c - 'a') as int] == Last(s, c)
  }

  lemma SeenOneMore(s: string, last: seq<int>, c: char)
    requires LastSeen(s, last) && 'a' <= c <= 'z'
    ensures LastSeen(s + [c], last[(c - 'a') as int := |s|])
  {
    assert Init(s + [c]) == s;
  }

  lemma OneMoreAt(s: string, i: nat, j: int)
    requires i < |s| && j == Last(s[..i], s[i])
    ensures |Subsequences(s[..i + 1])| == 2 * |Subsequences(s[..i])| - if j >= 0 then |Subsequences(s[..j])| else 0
  {
    OneMore(s[..i], s[i]);
    assert s[..i + 1] == s[..i] + [s[i]];
    assert j >= 0 ==> s[..i][..j] == s[..j];
  }

  lemma CountedOneMore(s: string, dp: seq<int>, i: nat, dp': seq<int>, j: int)
    requires Counted(s, dp, i) && i < |s| && j == Last(s[..i], s[i])
    requires dp' == dp[i + 1 := 2 * dp[i] - if j != -1 then dp[j] else 0]
    ensures Counted(s, dp', i + 1)
  {
    OneMoreAt(s, i, j);
    assert CountAt(s, dp, i) && (j >= 0 ==> CountAt(s, dp, j));
    forall k | 0 <= k <= i + 1 ensures CountAt(s, dp', k) { assert k <= i ==> CountAt(s, dp, k); }
  }

  /** The number of distinct subsequences of s, the empty one included. */
  method CountDistinctSubseq(s: string) returns (count: int)
    requires Lowercase(s)
    ensures count == |Subsequences(s)|
  {
    var n := |s|;
    var dp := new int[n + 1];
    dp[0] := 1;
    var last := new int[26](_ => -1);
    assert s[..0] == "" && CountAt(s, dp[..], 0);
    for i := 1 to n + 1
      invariant Counted(s, dp[..], i - 1) && LastSeen(s[..i - 1], last[..])
    {
      ghost var before, seen := dp[..], last[..];
      var k := (s[i - 1] - 'a') as int;
      ghost var j := Last(s[..i - 1], s[i - 1]);
      assert seen[k] == j;
      dp[i] := 2 * dp[i - 1];
      if last[k] != -1 {
        dp[i] := dp[i] - dp[last[k]];
      }
      last[k] := i - 1;
      assert dp[..] == before[i := 2 * before[i - 1] - if j != -1 then before[j] else 0];
      CountedOneMore(s, before, i - 1, dp[..], j);
      SeenOneMore(s[..i - 1], seen, s[i - 1]);
      assert s[..i] == s[..i - 1] + [s[i - 1]] && last[..] == seen[k := i - 1];
    }
    assert s[..n] == s && CountAt(s, dp[..], n);
    count := dp[n];
  }
}
