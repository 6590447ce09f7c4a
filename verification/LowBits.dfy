/** The lowest set bit of a number, as the binary indexed tree walks by it. */
module LowBits {
  /** `k & -k`: the lowest set bit of k. */
  function LowBit(k: nat): (b: nat)
    requires k > 0
    ensures 0 < b <= k
  {
    if k % 2 == 1 then 1 else 2 * LowBit(k / 2)
  }

  /** The number a 32-bit word stands for. */
  function WordValue(x: bv32): (n: nat)
    ensures n > 0 <==> x != 0
  {
    if x == 0 then 0 else (HalfWord(x); 2 * WordValue(x >> 1) + if x & 1 == 1 then 1 else 0)
  }

  lemma HalfWord(x: bv32)
    requires x != 0
    ensures x >> 1 < x
    ensures x & 1 == 0 ==> x >> 1 != 0
  {}

  lemma LowBitOfWord(x: bv32)
    ensures x & 1 == 0 || x & 1 == 1
    ensures x & 1 == 1 ==> x & -x == 1
    ensures x & 1 == 0 ==> x & -x == ((x >> 1) & -(x >> 1)) << 1
    ensures x != 0 ==> x & -x != 0
  {}

  lemma DoubleWord(x: bv32)
    requires x & 0x8000_0000 == 0 && x != 0
    ensures WordValue(x << 1) == 2 * WordValue(x)
  {
    assert (x << 1) >> 1 == x && (x << 1) & 1 == 0 && x << 1 != 0;
  }

  lemma NoTopBit(x: bv32)
    ensures ((x >> 1) & -(x >> 1)) & 0x8000_0000 == 0
  {}

  lemma OneIsOne()
    ensures WordValue(1) == 1
  {
    assert (1 as bv32) >> 1 == 0;
  }

  lemma LowBitOfHalf(x: bv32)
    requires x != 0 && x & 1 == 0
    ensures x >> 1 != 0 && WordValue(x) == 2 * WordValue(x >> 1)
    ensures WordValue(x & -x) == 2 * WordValue((x >> 1) & -(x >> 1))
  {
    HalfWord(x);
    LowBitOfWord(x);
    LowBitOfWord(x >> 1);
    NoTopBit(x);
    DoubleWord((x >> 1) & -(x >> 1));
  }

  lemma LowBitOfOdd(x: bv32)
    requires x & 1 == 1
    ensures WordValue(x) % 2 == 1 && WordValue(x & -x) == 1
  {
    LowBitOfWord(x);
    OneIsOne();
  }

  /** The bit trick of the code, two's complement included, computes the lowest set bit. */
  lemma {:induction false} LowBitIsBitwise(x: bv32)
    requires x != 0
    ensures LowBit(WordValue(x)) == WordValue(x & -x)
    decreases WordValue(x)
  {
    if x & 1 == 0 {
      LowBitOfHalf(x);
      LowBitIsBitwise(x >> 1);
    } else {
      LowBitOfWord(x);
      LowBitOfOdd(x);
    }
  }
}
