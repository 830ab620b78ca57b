/** Powers of two and single bits of a natural number. */
module Bits {

  function Pow2(k: nat): (p: nat)
    ensures p >= 1
  {
    if k == 0 then 1 else 2 * Pow2(k - 1)
  }

  /** `n` with bit `k` set. */
  function SetBit(n: nat, k: nat): (m: nat)
    decreases k
  {
    if k == 0 then n - n % 2 + 1 else 2 * SetBit(n / 2, k - 1) + n % 2
  }

  predicate Bit(n: nat, k: nat) { n / Pow2(k) % 2 != 0 }

  lemma HalfShift(n: nat, k: nat)
    ensures n / Pow2(k + 1) == n / 2 / Pow2(k)
  {
    var m := Pow2(k);
    var q := n / (2 * m);
    assert n == 2 * m * q + n % (2 * m);
    assert n / 2 == m * q + n % (2 * m) / 2 by {
      assert 2 * m * q == 2 * (m * q);
    }
    assert n % (2 * m) / 2 < m;
    QuotientIs(n / 2, m, q, n % (2 * m) / 2);
  }

  lemma AtLeast(m: nat, x: int)
    ensures x >= 1 ==> m * x >= m
    ensures x <= -1 ==> m * x <= 0 - m
  {
  }

  lemma QuotientIs(n: nat, m: nat, q: nat, r: nat)
    requires 0 < m && n == m * q + r && r < m
    ensures n / m == q
  {
    var d := n / m;
    assert m * (q - d) == n % m - r by {
      assert n == m * d + n % m;
      assert m * (q - d) == m * q - m * d;
    }
    AtLeast(m, q - d);
  }

  lemma {:induction false} BitAfterSet(n: nat, k: nat, j: nat)
    ensures Bit(SetBit(n, k), j) <==> j == k || Bit(n, j)
    decreases k
  {
    var m := SetBit(n, k);
    if j == 0 {
      assert Pow2(0) == 1;
    } else {
      HalfShift(n, j - 1);
      HalfShift(m, j - 1);
      if k == 0 {
        assert m / 2 == n / 2;
      } else {
        assert m / 2 == SetBit(n / 2, k - 1);
        BitAfterSet(n / 2, k - 1, j - 1);
      }
    }
  }

  /** The number of one bits. */
  function OnesCount(n: nat): (c: nat) {
    if n == 0 then 0 else n % 2 + OnesCount(n / 2)
  }

  /** Setting a bit adds one to the count exactly when the bit was clear. */
  lemma {:induction false} OnesAfterSet(n: nat, k: nat)
    ensures OnesCount(SetBit(n, k)) == OnesCount(n) + (if Bit(n, k) then 0 else 1)
    decreases k
  {
    var m := SetBit(n, k);
    if k == 0 {
      assert m / 2 == n / 2 && m % 2 == 1;
      assert Pow2(0) == 1;
      assert n == 0 ==> OnesCount(n) == n % 2 + OnesCount(n / 2);
    } else {
      assert m / 2 == SetBit(n / 2, k - 1) && m % 2 == n % 2;
      HalfShift(n, k - 1);
      OnesAfterSet(n / 2, k - 1);
      assert n == 0 ==> OnesCount(n) == n % 2 + OnesCount(n / 2);
      assert m == 0 ==> OnesCount(m) == m % 2 + OnesCount(m / 2);
    }
  }

  lemma {:induction false} SetBitBelow(n: nat, k: nat, bound: nat)
    requires n < Pow2(bound) && k < bound
    ensures SetBit(n, k) < Pow2(bound)
    decreases k
  {
    assert Pow2(bound) == 2 * Pow2(bound - 1);
    if k > 0 {
      assert n / 2 < Pow2(bound - 1);
      SetBitBelow(n / 2, k - 1, bound - 1);
    }
  }

  /** The number with exactly the listed bits set. */
  function Mask(bits: seq<nat>): (n: nat)
    decreases |bits|
  {
    if bits == [] then 0 else SetBit(Mask(bits[..|bits| - 1]), bits[|bits| - 1])
  }

  /** Shifting the mask right and reducing modulo two tests membership. */
  lemma {:induction false} MaskTests(bits: seq<nat>, k: nat)
    ensures Bit(Mask(bits), k) <==> k in bits
    decreases |bits|
  {
    if bits == [] {
      assert 0 / Pow2(k) == 0;
    } else {
      var n := |bits| - 1;
      MaskTests(bits[..n], k);
      BitAfterSet(Mask(bits[..n]), bits[n], k);
      assert bits == bits[..n] + [bits[n]];
    }
  }

  /** Distinct bits are counted once each. */
  lemma {:induction false} MaskCounts(bits: seq<nat>)
    requires forall i, j | 0 <= i < j < |bits| :: bits[i] != bits[j]
    ensures OnesCount(Mask(bits)) == |bits|
    decreases |bits|
  {
    if bits != [] {
      var n := |bits| - 1;
      MaskCounts(bits[..n]);
      MaskTests(bits[..n], bits[n]);
      OnesAfterSet(Mask(bits[..n]), bits[n]);
    }
  }

  lemma {:induction false} MaskBelow(bits: seq<nat>, bound: nat)
    requires forall i | 0 <= i < |bits| :: bits[i] < bound
    ensures Mask(bits) < Pow2(bound)
    decreases |bits|
  {
    if bits != [] {
      MaskBelow(bits[..|bits| - 1], bound);
      SetBitBelow(Mask(bits[..|bits| - 1]), bits[|bits| - 1], bound);
    }
  }

  /** A number is its bits. */
  lemma {:induction false} SameBits(a: nat, b: nat)
    requires forall k: nat :: Bit(a, k) <==> Bit(b, k)
    ensures a == b
    decreases a + b
  {
    assert Pow2(0) == 1;
    assert Bit(a, 0) <==> Bit(b, 0);
    if a + b > 0 {
      forall k: nat ensures Bit(a / 2, k) <==> Bit(b / 2, k) {
        HalfShift(a, k);
        HalfShift(b, k);
        assert Bit(a, k + 1) <==> Bit(b, k + 1);
      }
      SameBits(a / 2, b / 2);
    }
  }

  lemma SameMask(a: seq<nat>, b: seq<nat>)
    ensures Mask(a) == Mask(b) <==> forall x: nat :: x in a <==> x in b
  {
    forall x: nat ensures Bit(Mask(a), x) <==> x in a {
      MaskTests(a, x);
    }
    forall x: nat ensures Bit(Mask(b), x) <==> x in b {
      MaskTests(b, x);
    }
    if forall x: nat :: x in a <==> x in b {
      SameBits(Mask(a), Mask(b));
    }
  }

  // ---------- Shifts ----------

  /** The number without its lowest `k` bits. */
  function ShiftRight(n: nat, k: nat): (s: nat) { if k == 0 then n else ShiftRight(n, k - 1) / 2 }

  /** The number above `k` zero bits. */
  function ShiftLeft(n: nat, k: nat): (s: nat) { if k == 0 then n else 2 * ShiftLeft(n, k - 1) }

  /** Shifting by one more halves the quotient. */
  lemma {:induction false} QuotientHalves(n: nat, k: nat)
    ensures n / Pow2(k + 1) == n / Pow2(k) / 2
    decreases k
  {
    HalfShift(n, k);
    if k > 0 {
      HalfShift(n, k - 1);
      QuotientHalves(n / 2, k - 1);
    } else {
      assert Pow2(0) == 1;
    }
  }

  lemma {:induction false} ShiftRightDivides(n: nat, k: nat)
    ensures ShiftRight(n, k) == n / Pow2(k)
  {
    if k > 0 {
      ShiftRightDivides(n, k - 1);
      QuotientHalves(n, k - 1);
    } else {
      assert Pow2(0) == 1;
    }
  }

  lemma {:induction false} ShiftLeftMultiplies(n: nat, k: nat)
    ensures ShiftLeft(n, k) == n * Pow2(k)
  {
    if k > 0 {
      ShiftLeftMultiplies(n, k - 1);
      assert n * Pow2(k) == 2 * (n * Pow2(k - 1));
    }
  }

  /** A number is its high bits and its low bits. */
  lemma ShiftSplits(n: nat, k: nat)
    ensures n == ShiftLeft(ShiftRight(n, k), k) + n % Pow2(k)
  {
    ShiftRightDivides(n, k);
    ShiftLeftMultiplies(n / Pow2(k), k);
  }

  lemma {:induction false} ShiftBelow(n: nat, bits: nat, k: nat)
    requires n < Pow2(bits) && k <= bits
    ensures ShiftRight(n, k) < Pow2(bits - k)
    decreases k
  {
    if k > 0 {
      ShiftBelow(n, bits, k - 1);
    }
  }

  lemma {:induction false} ShiftTwice(n: nat, a: nat, b: nat)
    ensures ShiftRight(n, a + b) == ShiftRight(ShiftRight(n, a), b)
    decreases b
  {
    if b > 0 {
      ShiftTwice(n, a, b - 1);
    }
  }
}
