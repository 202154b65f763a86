/** Which ports a manager owns: a 16-bit mask and a base, as the receive-flow steering uses them. */
module PortMask {
  import opened Tcp

  /** Bitwise AND of the low `w` bits. */
  function BitAnd(a: nat, b: nat, w: nat): nat {
    if w == 0 then 0 else 2 * BitAnd(a / 2, b / 2, w - 1) + (if a % 2 == 1 && b % 2 == 1 then 1 else 0)
  }

  function And(a: U16, b: U16): nat {
    BitAnd(a, b, 16)
  }

  function Not(a: U16): U16 {
    0xFFFF - a
  }

  function Pow2(k: nat): nat {
    if k == 0 then 1 else 2 * Pow2(k - 1)
  }

  /** A mask whose set bits are the high ones. */
  ghost predicate HighBits(mask: U16) {
    exists k :: 0 <= k <= 16 && LowBits(mask, k)
  }

  predicate LowBits(mask: U16, k: nat) {
    Not(mask) == Pow2(k) - 1
  }

  /** A base the mask does not cut into. */
  predicate Aligned(base: U16, mask: U16) {
    And(base, Not(mask)) == 0
  }

  // ---------- arithmetic meaning of the bit operations ----------

  lemma {:induction false} Pow2Positive(k: nat)
    ensures Pow2(k) >= 1
  {
    if k > 0 { Pow2Positive(k - 1); }
  }

  lemma {:induction false} Pow2Monotone(k: nat, w: nat)
    requires k <= w
    ensures Pow2(k) <= Pow2(w)
    decreases w
  {
    if k < w { Pow2Monotone(k, w - 1); }
  }

  /** Disjoint bit patterns add without carry, so their sum still fits. */
  lemma {:induction false} DisjointSum(a: nat, b: nat, w: nat)
    requires a < Pow2(w) && b < Pow2(w) && BitAnd(a, b, w) == 0
    ensures a + b < Pow2(w)
    decreases w
  {
    if w > 0 { DisjointSum(a / 2, b / 2, w - 1); }
  }

  lemma {:induction false} AllOnes(a: nat, w: nat)
    requires a < Pow2(w)
    ensures Pow2(w) >= 1 && BitAnd(a, Pow2(w) - 1, w) == a
  {
    Pow2Positive(w);
    if w > 0 {
      AllOnes(a / 2, w - 1);
      assert (Pow2(w) - 1) / 2 == Pow2(w - 1) - 1;
    }
  }

  /** The range property for words of `w` bits and a mask that clears the low `k` of them. */
  lemma {:induction false} RangeIff(port: nat, base: nat, k: nat, w: nat)
    requires k <= w && port < Pow2(w) && base < Pow2(w)
    requires 1 <= Pow2(k) <= Pow2(w) && BitAnd(base, Pow2(k) - 1, w) == 0
    ensures BitAnd(port, Pow2(w) - Pow2(k), w) == base <==> base <= port <= base + Pow2(k) - 1
    decreases w
  {
    if k == 0 {
      AllOnes(port, w);
    } else {
      Pow2Monotone(k - 1, w - 1);
      Pow2Positive(k - 1);
      assert (Pow2(k) - 1) / 2 == Pow2(k - 1) - 1;
      assert (Pow2(w) - Pow2(k)) / 2 == Pow2(w - 1) - Pow2(k - 1);
      RangeIff(port / 2, base / 2, k - 1, w - 1);
    }
  }

  lemma Width()
    ensures Pow2(16) == 0x1_0000
  {
    assert Pow2(8) == 256;
    assert Pow2(12) == 4096;
  }

  /** `base + !mask` never overflows 16 bits, whatever the mask. */
  lemma NoOverflow(base: U16, mask: U16)
    requires Aligned(base, mask)
    ensures base + Not(mask) <= 0xFFFF
  {
    Width();
    DisjointSum(base, Not(mask), 16);
  }

  /** A port carries the base under the mask exactly if it lies in the manager's range. */
  lemma OwnsIffInRange(port: U16, base: U16, mask: U16)
    requires HighBits(mask) && Aligned(base, mask)
    ensures And(port, mask) == base <==> base <= port <= base + Not(mask)
  {
    Width();
    var k :| 0 <= k <= 16 && LowBits(mask, k);
    Pow2Positive(k);
    Pow2Monotone(k, 16);
    RangeIff(port, base, k, 16);
  }

  /** Managers with different bases own disjoint ranges. */
  lemma DisjointRanges(port: U16, base1: U16, base2: U16, mask: U16)
    requires HighBits(mask) && Aligned(base1, mask) && Aligned(base2, mask) && base1 != base2
    ensures !(base1 <= port <= base1 + Not(mask) && base2 <= port <= base2 + Not(mask))
  {
    OwnsIffInRange(port, base1, mask);
    OwnsIffInRange(port, base2, mask);
  }

  /** The converse for words of `w` bits: if the range is owned, the cleared bits are the low ones. */
  lemma {:induction false} RangeNeedsLowBits(base: nat, mask: nat, n: nat, w: nat) returns (k: nat)
    requires mask + n == Pow2(w) - 1
    requires forall p: nat :: base <= p <= base + n ==> BitAnd(p, mask, w) == base
    ensures k <= w && n == Pow2(k) - 1
    decreases w
  {
    if n == 0 {
      k := 0;
    } else {
      assert Pow2(w) == 2 * Pow2(w - 1);
      assert BitAnd(base, mask, w) == base && BitAnd(base + 1, mask, w) == base;
      assert n % 2 == 1 && base % 2 == 0;
      var b, m, v := base / 2, mask / 2, w - 1;
      forall p: nat | b <= p <= b + n / 2 ensures BitAnd(p, m, v) == b {
        assert BitAnd(2 * p, mask, w) == base;
      }
      k := RangeNeedsLowBits(b, m, n / 2, v);
      k := k + 1;
    }
  }

  /** A mask test amounts to a range test exactly for masks of high bits. */
  lemma OwnershipIsRangeIff(base: U16, mask: U16)
    requires Aligned(base, mask)
    ensures HighBits(mask) <==> forall port: U16 :: And(port, mask) == base <==> base <= port <= base + Not(mask)
  {
    Width();
    NoOverflow(base, mask);
    if HighBits(mask) {
      forall port: U16 ensures And(port, mask) == base <==> base <= port <= base + Not(mask) {
        OwnsIffInRange(port, base, mask);
      }
    }
    if forall port: U16 :: And(port, mask) == base <==> base <= port <= base + Not(mask) {
      forall p: nat | base <= p <= base + Not(mask) ensures BitAnd(p, mask, 16) == base {
        var port: U16 := p;
        assert And(port, mask) == base;
      }
      var k := RangeNeedsLowBits(base, mask, Not(mask), 16);
      assert LowBits(mask, k);
    }
  }
}
