/** All occurrences of a pattern in a text, by the borders of the pattern's prefixes (Knuth, Morris and Pratt). */
module PatternSearch {

  /** s[..l] is a proper border of s[..n]: both a prefix and a suffix of it. */
  predicate Border(s: string, n: nat, l: nat) {
    l < n <= |s| && s[..l] == s[n - l..n]
  }

  ghost predicate LongestBorder(s: string, n: nat, l: nat) {
    Border(s, n, l) && forall l': nat :: Border(s, n, l') ==> l' <= l
  }

  /** `lps[i]` is the longest proper border of the first i + 1 characters, for the first n entries. */
  ghost predicate BordersOf(s: string, lps: seq<nat>, n: nat) {
    n <= |lps| <= |s| && forall i :: 0 <= i < n ==> LongestBorder(s, i + 1, lps[i])
  }

  predicate Occurs(pat: string, txt: string, p: nat) {
    p + |pat| <= |txt| && txt[p..p + |pat|] == pat
  }

  lemma BorderOfBorder(s: string, n: nat, l: nat, l': nat)
    requires Border(s, n, l) && l' < l
    ensures Border(s, n, l') <==> Border(s, l, l')
  {
    assert s[n - l'..n] == s[n - l..n][l - l'..];
    assert s[l - l'..l] == s[..l][l - l'..];
  }

  lemma BorderGrows(s: string, n: nat, l: nat)
    requires n < |s|
    ensures Border(s, n + 1, l + 1) <==> Border(s, n, l) && s[l] == s[n]
  {
    if l < n {
      assert s[..l + 1] == s[..l] + [s[l]];
      assert s[n - l..n + 1] == s[n - l..n] + [s[n]];
    }
  }

  /** No border longer than len can be continued by the character at i. */
  ghost predicate NoLonger(s: string, i: nat, len: nat) {
    forall l: nat {:trigger Border(s, i, l)} :: Border(s, i, l) && l > len && i < |s| ==> s[l] != s[i]
  }

  lemma FallBack(s: string, i: nat, len: nat, shorter: nat)
    requires i < |s| && Border(s, i, len) && NoLonger(s, i, len) && s[i] != s[len] && LongestBorder(s, len, shorter)
    ensures Border(s, i, shorter) && NoLonger(s, i, shorter)
  {
    BorderOfBorder(s, i, len, shorter);
    forall l: nat | Border(s, i, l) && l > shorter ensures s[l] != s[i] {
      if l < len { BorderOfBorder(s, i, len, l); }
    }
  }

  lemma Longest(s: string, i: nat, len: nat)
    requires i < |s| && Border(s, i, len) && NoLonger(s, i, len) && s[i] == s[len]
    ensures LongestBorder(s, i + 1, len + 1) && NoLonger(s, i + 1, len + 1)
  {
    BorderGrows(s, i, len);
    forall l: nat {:trigger Border(s, i + 1, l)} | Border(s, i + 1, l) ensures l <= len + 1 {
      if l > 0 { BorderGrows(s, i, l - 1); }
    }
  }

  lemma NoBorder(s: string, i: nat)
    requires 0 < i < |s| && NoLonger(s, i, 0) && s[i] != s[0]
    ensures LongestBorder(s, i + 1, 0) && NoLonger(s, i + 1, 0)
  {
    assert Border(s, i + 1, 0) && Border(s, i, 0);
    forall l: nat {:trigger Border(s, i + 1, l)} | Border(s, i + 1, l) ensures l <= 0 {
      if l > 0 { BorderGrows(s, i, l - 1); }
    }
  }

  method Lps(s: string) returns (lps: array<nat>)
    ensures fresh(lps) && lps.Length == |s| && BordersOf(s, lps[..], |s|)
  {
    var m := |s|;
    lps := new nat[m](_ => 0);
    var len: nat := 0;
    var i: nat := 1;
    assert m > 0 ==> LongestBorder(s, 1, 0) by { if m > 0 { assert Border(s, 1, 0); } }
    while i < m
      invariant 1 <= i && (m > 0 ==> i <= m)
      invariant m > 0 ==> Border(s, i, len) && NoLonger(s, i, len)
      invariant BordersOf(s, lps[..], if m > 0 then i else 0)
      decreases 2 * (m - i) + len
    {
      ghost var was := lps[..];
      if s[i] == s[len] {
        Longest(s, i, len);
        len := len + 1;
        lps[i] := len;
        Extended(s, was, lps[..], i);
        i := i + 1;
      } else {
        if len != 0 {
          assert LongestBorder(s, len - 1 + 1, lps[..][len - 1]);
          FallBack(s, i, len, lps[len - 1]);
          len := lps[len - 1];
        } else {
          NoBorder(s, i);
          lps[i] := 0;
          Extended(s, was, lps[..], i);
          i := i + 1;
        }
      }
    }
  }

  lemma Extended(s: string, was: seq<nat>, now: seq<nat>, i: nat)
    requires BordersOf(s, was, i) && i < |was| == |now| && now == was[i := now[i]]
    requires LongestBorder(s, i + 1, now[i])
    ensures BordersOf(s, now, i + 1)
  {}

  /** The last j characters before i are the first j of the pattern. */
  predicate Matched(pat: string, txt: string, i: nat, j: nat) {
    j <= |pat| && j <= i <= |txt| && txt[i - j..i] == pat[..j]
  }

  /** Moving the pattern on to its longest border skips no occurrence. */
  lemma ShiftSkipsNothing(pat: string, txt: string, i: nat, j: nat, l: nat, p: nat)
    requires Matched(pat, txt, i, j) && LongestBorder(pat, j, l) && i - j < p < i - l
    ensures !Occurs(pat, txt, p)
  {
    var b := i - p;
    assert b < j <= |pat|;
    assert txt[p..i] == txt[i - j..i][j - b..] == pat[..j][j - b..] == pat[j - b..j];
    assert !Border(pat, j, b);
    assert p + |pat| <= |txt| ==> txt[p..p + |pat|][..b] == txt[p..i];
  }

  lemma ShiftMatches(pat: string, txt: string, i: nat, j: nat, l: nat)
    requires Matched(pat, txt, i, j) && Border(pat, j, l)
    ensures Matched(pat, txt, i, l)
  {
    assert txt[i - l..i] == txt[i - j..i][j - l..] == pat[..j][j - l..] == pat[j - l..j];
  }

  lemma MatchGrows(pat: string, txt: string, i: nat, j: nat)
    requires Matched(pat, txt, i, j) && i < |txt| && j < |pat| && txt[i] == pat[j]
    ensures Matched(pat, txt, i + 1, j + 1)
  {
    assert txt[i - j..i + 1] == txt[i - j..i] + [txt[i]];
    assert pat[..j + 1] == pat[..j] + [pat[j]];
  }

  /** Exactly the occurrences before position bound, in increasing order. */
  ghost predicate FoundBefore(pat: string, txt: string, res: seq<int>, bound: int) {
    && (forall p: nat :: p < bound && Occurs(pat, txt, p) ==> p in res)
    && (forall k :: 0 <= k < |res| ==> 0 <= res[k] < bound && Occurs(pat, txt, res[k]))
    && forall k, k' :: 0 <= k < k' < |res| ==> res[k] < res[k']
  }

  /** No occurrence starts in from..to. */
  lemma FoundFurther(pat: string, txt: string, res: seq<int>, from: nat, to: nat)
    requires FoundBefore(pat, txt, res, from) && from <= to
    requires forall p: nat :: from <= p < to ==> !Occurs(pat, txt, p)
    ensures FoundBefore(pat, txt, res, to)
  {}

  lemma FoundOne(pat: string, txt: string, res: seq<int>, p: nat)
    requires FoundBefore(pat, txt, res, p) && Occurs(pat, txt, p)
    ensures FoundBefore(pat, txt, res + [p], p + 1)
  {}

  lemma Shift(pat: string, txt: string, res: seq<int>, i: nat, j: nat, l: nat)
    requires Matched(pat, txt, i, j) && LongestBorder(pat, j, l) && FoundBefore(pat, txt, res, i - j + 1)
    ensures Matched(pat, txt, i, l) && FoundBefore(pat, txt, res, i - l)
  {
    ShiftMatches(pat, txt, i, j, l);
    forall p: nat | i - j + 1 <= p < i - l ensures !Occurs(pat, txt, p) {
      ShiftSkipsNothing(pat, txt, i, j, l, p);
    }
    FoundFurther(pat, txt, res, i - j + 1, i - l);
  }

  /** The pattern does not occur where the characters differ. */
  lemma Mismatch(pat: string, txt: string, res: seq<int>, i: nat, j: nat)
    requires Matched(pat, txt, i, j) && i < |txt| && j < |pat| && txt[i] != pat[j] && FoundBefore(pat, txt, res, i - j)
    ensures FoundBefore(pat, txt, res, i - j + 1)
  {
    assert i - j + |pat| <= |txt| ==> txt[i - j..i - j + |pat|][j] == txt[i];
    FoundFurther(pat, txt, res, i - j, i - j + 1);
  }

  /** The state of the search: j characters matched before i, and the occurrences that start before them all found. */
  ghost predicate Searching(pat: string, txt: string, res: seq<int>, i: nat, j: nat) {
    i <= |txt| && j < |pat| && Matched(pat, txt, i, j) && FoundBefore(pat, txt, res, i - j)
  }

  lemma BorderAt(s: string, lps: seq<nat>, j: nat)
    requires BordersOf(s, lps, |s|) && 0 < j <= |s|
    ensures LongestBorder(s, j, lps[j - 1])
  {
    assert LongestBorder(s, j - 1 + 1, lps[j - 1]);
  }

  lemma FoundMatch(pat: string, txt: string, res: seq<int>, i: nat, j: nat, l: nat)
    requires Searching(pat, txt, res, i, j) && i < |txt| && txt[i] == pat[j] && j + 1 == |pat|
    requires LongestBorder(pat, j + 1, l)
    ensures Searching(pat, txt, res + [i - j], i + 1, l)
  {
    MatchGrows(pat, txt, i, j);
    assert Occurs(pat, txt, i - j) by { assert txt[i - j..i - j + |pat|] == pat[..j + 1] == pat; }
    FoundOne(pat, txt, res, i - j);
    Shift(pat, txt, res + [i - j], i + 1, j + 1, l);
  }

  lemma FellBack(pat: string, txt: string, res: seq<int>, i: nat, j: nat, l: nat)
    requires Searching(pat, txt, res, i, j) && i < |txt| && txt[i] != pat[j] && LongestBorder(pat, j, l)
    ensures Searching(pat, txt, res, i, l)
  {
    Mismatch(pat, txt, res, i, j);
    Shift(pat, txt, res, i, j, l);
  }

  lemma MovedOn(pat: string, txt: string, res: seq<int>, i: nat)
    requires Searching(pat, txt, res, i, 0) && i < |txt| && txt[i] != pat[0]
    ensures Searching(pat, txt, res, i + 1, 0)
  {
    Mismatch(pat, txt, res, i, 0);
  }

  /** All positions at which the pattern occurs, in increasing order. */
  method SearchForPat(pat: string, txt: string) returns (res: seq<int>)
    requires pat != ""
    ensures forall p: nat :: Occurs(pat, txt, p) <==> p in res
    ensures forall k :: 0 <= k < |res| ==> res[k] >= 0
    ensures forall k, k' :: 0 <= k < k' < |res| ==> res[k] < res[k']
  {
    var n, m := |txt|, |pat|;
    var lps := Lps(pat);
    ghost var borders := lps[..];
    res := [];
    var i: nat, j: nat := 0, 0;
    while i < n
      invariant Searching(pat, txt, res, i, j) && lps[..] == borders
      decreases 2 * (n - i) + j
    {
      if txt[i] == pat[j] {
        i, j := i + 1, j + 1;
        if j == m {
          BorderAt(pat, borders, j);
          FoundMatch(pat, txt, res, i - 1, j - 1, lps[j - 1]);
          res := res + [i - j];
          j := lps[j - 1];
        } else {
          MatchGrows(pat, txt, i - 1, j - 1);
        }
      } else {
        if j != 0 {
          BorderAt(pat, borders, j);
          FellBack(pat, txt, res, i, j, lps[j - 1]);
          j := lps[j - 1];
        } else {
          MovedOn(pat, txt, res, i);
          i := i + 1;
        }
      }
    }
    FoundFurther(pat, txt, res, i - j, n + 1);
  }
}
