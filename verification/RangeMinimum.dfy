/** The sparse table for range minima: two overlapping power-of-two blocks answer any range, leftmost minimum first. */
module RangeMinimum {
  /** i is the leftmost position of the minimum of v[l..r]. */
  ghost predicate LeftmostMin(v: seq<int>, l: int, r: int, i: int) {
    && 0 <= l <= i < r <= |v|
    && (forall k :: l <= k < r ==> v[i] <= v[k])
    && forall k :: l <= k < i ==> v[i] < v[k]
  }

  function Pow2(j: nat): (p: nat)
    ensures p > 0
  {
    if j == 0 then 1 else 2 * Pow2(j - 1)
  }

  /** `31 - __builtin_clz(x)`: the exponent of the greatest power of two up to x. */
  function Level(x: nat): (d: nat)
    requires x > 0
    ensures Pow2(d) <= x < 2 * Pow2(d)
  {
    if x == 1 then 0 else Level(x / 2) + 1
  }

  /** Row j of the table has the leftmost minimum of each block of 2^j elements. */
  ghost predicate RowOk(v: seq<int>, row: seq<int>, j: nat) {
    |row| == (if Pow2(j) <= |v| then |v| - Pow2(j) + 1 else 0) &&
    forall i :: 0 <= i < |row| ==> LeftmostMin(v, i, i + Pow2(j), row[i])
  }

  class Rmq {
    var v: seq<int>
    var jmp: seq<seq<int>>

    ghost predicate Valid()
      reads this
    {
      && |jmp| > 0 && Pow2(|jmp|) > |v|
      && forall j :: 0 <= j < |jmp| ==> RowOk(v, jmp[j], j)
    }

    function Cmb(a: int, b: int): int
      requires 0 <= a < |v| && 0 <= b < |v|
      reads this
    {
      if v[a] == v[b] then if a <= b then a else b else if v[a] < v[b] then a else b
    }

    method Init(given: seq<int>)
      modifies this
      ensures Valid() && v == given
    {
      v := given;
      jmp := [seq(|v|, i => i)];
      var j: nat := 1;
      while Pow2(j) <= |v|
        invariant v == given && |jmp| == j > 0
        invariant forall k :: 0 <= k < j ==> RowOk(v, jmp[k], k)
        decreases |v| + 1 - Pow2(j)
      {
        var row := FillRow(j);
        jmp := jmp + [row];
        j := j + 1;
      }
    }

    /** The inner loop of `init`. */
    method FillRow(j: nat) returns (row: seq<int>)
      requires j > 0 && Pow2(j) <= |v| && j <= |jmp| && RowOk(v, jmp[j - 1], j - 1)
      ensures RowOk(v, row, j)
    {
      row := [];
      var half := Pow2(j - 1);
      for i := 0 to |v| - Pow2(j) + 1
        invariant |row| == i
        invariant forall k :: 0 <= k < i ==> LeftmostMin(v, k, k + Pow2(j), row[k])
      {
        var a, b := jmp[j - 1][i], jmp[j - 1][i + half];
        assert LeftmostMin(v, i, i + half, a) && LeftmostMin(v, i + half, i + half + half, b);
        CmbCovers(i, i + half, i + half, i + half + half, a, b);
        row := row + [Cmb(a, b)];
      }
    }

    /** The better of the leftmost minima of two ranges that overlap or meet is that of their union. */
    lemma CmbCovers(l: int, m: int, k: int, r: int, a: int, b: int)
      requires LeftmostMin(v, l, m, a) && LeftmostMin(v, k, r, b) && l <= k <= m <= r
      ensures LeftmostMin(v, l, r, Cmb(a, b))
    {}

    /** The leftmost minimum of the elements l to r, both included. */
    method Index(l: nat, r: nat) returns (i: int)
      requires Valid() && l <= r < |v|
      ensures LeftmostMin(v, l, r + 1, i)
    {
      var d := Level(r - l + 1);
      LevelInTable(r - l + 1);
      var a, b := jmp[d][l], jmp[d][r - Pow2(d) + 1];
      assert RowOk(v, jmp[d], d);
      assert LeftmostMin(v, l, l + Pow2(d), a) && LeftmostMin(v, r - Pow2(d) + 1, r + 1, b);
      CmbCovers(l, l + Pow2(d), r - Pow2(d) + 1, r + 1, a, b);
      i := Cmb(a, b);
    }

    lemma LevelInTable(x: nat)
      requires Valid() && 0 < x <= |v|
      ensures Level(x) < |jmp|
    {
      if Level(x) >= |jmp| { PowersGrow(|jmp|, Level(x)); }
    }

    method Query(l: nat, r: nat) returns (least: int)
      requires Valid() && l <= r < |v|
      ensures (forall k :: l <= k <= r ==> least <= v[k]) && exists k :: l <= k <= r && v[k] == least
    {
      var i := Index(l, r);
      least := v[i];
    }
  }

  lemma {:induction false} PowersGrow(i: nat, j: nat)
    requires i <= j
    ensures Pow2(i) <= Pow2(j)
  {
    if i < j { PowersGrow(i, j - 1); }
  }
}
