/** The software bit reversal and count of leading zeros. */
module BitReverse {
  import opened Words
  import opened Powers

  /** Bit i of x. */
  function Bit(x: nat, i: nat): nat {
    if i == 0 then x % 2 else Bit(x / 2, i - 1)
  }

  /** h shifted left over the m bits of y. */
  function Join(h: nat, m: nat, y: nat): nat {
    h * Pow2(m) + y
  }

  /** The low n bits of x in reverse order. */
  function Reverse(x: nat, n: nat): (r: nat)
    ensures r < Pow2(n)
  {
    if n == 0 then 0
    else
      JoinBelow(x % 2, n - 1, Reverse(x / 2, n - 1));
      Join(x % 2, n - 1, Reverse(x / 2, n - 1))
  }

  lemma JoinBelow(h: nat, m: nat, y: nat)
    requires h < 2 && y < Pow2(m)
    ensures Join(h, m, y) < Pow2(m + 1)
  {
    if h == 0 { assert Join(h, m, y) == y; } else { assert Join(h, m, y) == Pow2(m) + y; }
  }

  // ---------------------------------------------------------------- bits

  lemma HalfSum(t: nat, y: nat)
    ensures (2 * t + y) / 2 == t + y / 2 && (2 * t + y) % 2 == y % 2
  {
  }

  lemma Doubled(h: nat, P: nat)
    ensures h * (2 * P) == 2 * (h * P)
  {
  }

  lemma JoinHalf(h: nat, m: nat, y: nat)
    requires m > 0
    ensures Join(h, m, y) / 2 == Join(h, m - 1, y / 2) && Join(h, m, y) % 2 == y % 2
  {
    Doubled(h, Pow2(m - 1));
    HalfSum(h * Pow2(m - 1), y);
  }

  lemma {:induction false} LowBit(h: nat, m: nat, y: nat, i: nat)
    requires i < m
    ensures Bit(Join(h, m, y), i) == Bit(y, i)
  {
    hide Join, Pow2;
    JoinHalf(h, m, y);
    if i > 0 { LowBit(h, m - 1, y / 2, i - 1); }
  }

  lemma {:induction false} HighBit(h: nat, m: nat, y: nat)
    requires y < Pow2(m)
    ensures Bit(Join(h, m, y), m) == h % 2
  {
    if m == 0 {
      assert Join(h, 0, y) == h;
    } else {
      hide Join;
      JoinHalf(h, m, y);
      HighBit(h, m - 1, y / 2);
    }
  }

  /** Bit i of the reversal is bit n - 1 - i. */
  lemma {:induction false} ReverseBit(x: nat, n: nat, i: nat)
    requires i < n
    ensures Bit(Reverse(x, n), i) == Bit(x, n - 1 - i)
  {
    hide Pow2, Join;
    if i == n - 1 {
      HighBit(x % 2, n - 1, Reverse(x / 2, n - 1));
    } else {
      LowBit(x % 2, n - 1, Reverse(x / 2, n - 1), i);
      ReverseBit(x / 2, n - 1, i);
    }
  }

  /** Numbers below 2^n with the same n bits are the same. */
  lemma {:induction false} SameBits(x: nat, y: nat, n: nat)
    requires x < Pow2(n) && y < Pow2(n)
    requires forall i :: 0 <= i < n ==> Bit(x, i) == Bit(y, i)
    ensures x == y
  {
    if n > 0 {
      assert Bit(x, 0) == Bit(y, 0);
      forall i | 0 <= i < n - 1 ensures Bit(x / 2, i) == Bit(y / 2, i) {
        assert Bit(x, i + 1) == Bit(y, i + 1);
      }
      SameBits(x / 2, y / 2, n - 1);
    }
  }

  /** Reversing twice gives the number back. */
  lemma ReverseInvolutive(x: nat, n: nat)
    requires x < Pow2(n)
    ensures Reverse(Reverse(x, n), n) == x
  {
    forall i | 0 <= i < n ensures Bit(Reverse(Reverse(x, n), n), i) == Bit(x, i) {
      ReverseBit(Reverse(x, n), n, i);
      ReverseBit(x, n, n - 1 - i);
    }
    SameBits(Reverse(Reverse(x, n), n), x, n);
  }

  lemma {:induction false} ReverseZero(n: nat)
    ensures Reverse(0, n) == 0
  {
    if n > 0 { ReverseZero(n - 1); }
  }

  // ---------------------------------------------------------------- zeros at either end

  /** c zeros from bit 31 down, then a one; 32 for zero. */
  ghost predicate LeadingZeros(x: u32, c: nat) {
    && c <= 32
    && (forall i :: 32 - c <= i < 32 ==> Bit(x, i) == 0)
    && (c < 32 ==> Bit(x, 31 - c) == 1)
  }

  /** c zeros from bit 0 up, then a one; 32 for zero. */
  ghost predicate TrailingZeros(x: u32, c: nat) {
    && c <= 32
    && (forall i :: 0 <= i < c ==> Bit(x, i) == 0)
    && (c < 32 ==> Bit(x, c) == 1)
  }

  /** Counting leading zeros of the reversal counts the trailing zeros. */
  lemma LeadingOfReverse(x: u32, c: nat)
    ensures Reverse(x, 32) < TWO32
    ensures LeadingZeros(Reverse(x, 32), c) <==> TrailingZeros(x, c)
  {
    Pow2At32();
    var r := Reverse(x, 32);
    forall i | 0 <= i < 32 ensures Bit(r, i) == Bit(x, 31 - i) {
      ReverseBit(x, 32, i);
    }
    if LeadingZeros(r, c) {
      forall i | 0 <= i < c ensures Bit(x, i) == 0 { assert Bit(r, 31 - i) == 0; }
    }
  }

  lemma Pow2At32()
    ensures Pow2(32) == TWO32 && Pow2(31) == TWO31
  {
    assert Pow2(8) == 0x100;
    Pow2Sum(8, 8);
    Pow2Sum(16, 8);
    Pow2Sum(24, 7);
  }

  // ---------------------------------------------------------------- the loops

  /** `r <<= 1; r |= bit`: the shifted word ends in a zero, so the bit adds. */
  function ShiftIn(r: u32, bit: nat): u32
    requires bit < 2
  {
    assert Low32(2 * r) == if 2 * r < TWO32 then 2 * r else 2 * r - TWO32;
    Low32(2 * r) + bit
  }

  /** `r << n` before the register cuts it. */
  function ShiftLeft(r: u32, n: nat): nat {
    r * Pow2(n)
  }

  lemma ReverseStep(v: nat, sc: nat)
    requires sc > 0
    ensures Reverse(v, sc) == v % 2 * Pow2(sc - 1) + Reverse(v / 2, sc - 1)
  {
    hide Pow2;
  }

  lemma Expand(r: nat, c: nat, b: nat, P: nat)
    requires c < 2
    ensures (2 * r - c * TWO32 + b) * P == r * (2 * P) - c * P * TWO32 + b * P
  {
    var T: int := c * TWO32;
    Distribute(2 * r - T, b, P);
    Distribute(2 * r, -T, P);
  }

  lemma Distribute(a: int, b: int, P: int)
    ensures (a + b) * P == a * P + b * P
  {
  }

  /** One pass: what is still to be shifted out and what is shifted in keep their sum, modulo 2^32. */
  lemma Pass(r: u32, v: nat, sc: nat, total: nat, q: int) returns (q': int)
    requires sc > 0 && ShiftLeft(r, sc) + Reverse(v, sc) == total + q * TWO32
    ensures ShiftLeft(ShiftIn(r, v % 2), sc - 1) + Reverse(v / 2, sc - 1) == total + q' * TWO32
  {
    hide Reverse, Join;
    var P := Pow2(sc - 1);
    var c := if 2 * r < TWO32 then 0 else 1;
    assert Low32(2 * r) == 2 * r - c * TWO32;
    assert Pow2(sc) == 2 * P;
    ReverseStep(v, sc);
    Expand(r, c, v % 2, P);
    q' := q - c * P;
  }

  lemma Start(x: u32)
    ensures ShiftLeft(x, 31) + Reverse(x / 2, 31) == Reverse(x, 32) + x / 2 * TWO32
  {
    Pow2At32();
  }

  lemma Last(r: u32, sc: nat, total: nat, q: int)
    requires ShiftLeft(r, sc) == total + q * TWO32 && total < TWO32
    ensures Low32(ShiftLeft(r, sc)) == total
  {
    hide ShiftLeft;
    Low32IsMod(ShiftLeft(r, sc));
    QuotientIs(ShiftLeft(r, sc), TWO32, q, total);
  }

  lemma HalfBelow(v: nat, sc: nat)
    requires 0 < v < Pow2(sc)
    ensures sc > 0 && v / 2 < Pow2(sc - 1)
  {
  }

  lemma {:induction false} BitAt(x: nat, k: nat)
    ensures x / Pow2(k) % 2 == Bit(x, k)
  {
    if k > 0 {
      BitAt(x / 2, k - 1);
      HalfQuotient(x, Pow2(k - 1));
    }
  }

  lemma HalfQuotient(x: nat, P: nat)
    requires P > 0
    ensures x / (2 * P) == x / 2 / P
  {
    var h := x / 2;
    var q := h / P;
    assert x == q * (2 * P) + (2 * (h % P) + x % 2) by { assert h == q * P + h % P; }
    QuotientIs(x, 2 * P, q, 2 * (h % P) + x % 2);
  }

  /** A number below 2^(k+1) whose bit k is not set is below 2^k; if it is not zero, there is a smaller bit. */
  lemma HalfMask(x: nat, k: nat)
    requires 0 < x < 2 * Pow2(k) && x / Pow2(k) % 2 == 0
    ensures k > 0 && Pow2(k) / 2 == Pow2(k - 1) && x < Pow2(k)
  {
    if x >= Pow2(k) { QuotientIs(x, Pow2(k), 1, x - Pow2(k)); }
  }

  lemma {:induction false} ZeroBits(i: nat)
    ensures Bit(0, i) == 0
  {
    if i > 0 { ZeroBits(i - 1); }
  }

  /** __RBIT: exactly the reversal of all 32 bits, although the loop stops at the highest one bit and the copy of
      v that starts out in r is never cleared; the shift count never passes zero. */
  method Rbit(value: u32) returns (result: u32)
    ensures result == Reverse(value, 32)
  {
    hide Reverse, Pow2, Low32, ShiftIn, ShiftLeft;
    Pow2At32();
    var sc: u8 := 31;
    var r := value;
    var v: u32 := value / 2;
    ghost var total, q: int := Reverse(value, 32), value / 2;
    Start(value);
    while v != 0
      invariant sc <= 31 && v < Pow2(sc)
      invariant ShiftLeft(r, sc) + Reverse(v, sc) == total + q * TWO32
      decreases v
    {
      HalfBelow(v, sc);
      q := Pass(r, v, sc, total, q);
      r := ShiftIn(r, v % 2);
      sc := sc - 1;
      v := v / 2;
    }
    ReverseZero(sc);
    Last(r, sc, total, q);
    result := Low32(ShiftLeft(r, sc));
  }

  /** __CLZ; `data & mask` of a mask with one bit tests that bit. */
  method Clz(data: u32) returns (count: nat)
    ensures LeadingZeros(data, count)
  {
    if data == 0 {
      forall i | 0 <= i < 32 ensures Bit(0, i) == 0 { ZeroBits(i); }
      return 32;
    }
    hide Bit, Pow2;
    Pow2At32();
    count := 0;
    var mask: u32 := 0x8000_0000;
    while data / mask % 2 == 0
      invariant count <= 31 && mask == Pow2(31 - count) && data < 2 * mask
      invariant forall i :: 32 - count <= i < 32 ==> Bit(data, i) == 0
      decreases mask
    {
      BitAt(data, 31 - count);
      HalfMask(data, 31 - count);
      count := count + 1;
      mask := mask / 2;
    }
    BitAt(data, 31 - count);
  }
}
