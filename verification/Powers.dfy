/** Powers of two and division with remainder. */
module Powers {

  function Pow2(n: nat): (p: nat)
    ensures p > 0
  {
    if n == 0 then 1 else 2 * Pow2(n - 1)
  }

  /** The low n bits, `x & ((1 << n) - 1)`. */
  function LowBits(x: nat, n: nat): nat {
    x % Pow2(n)
  }

  lemma {:induction false} Pow2Sum(a: nat, b: nat)
    ensures Pow2(a + b) == Pow2(a) * Pow2(b)
  {
    if a > 0 {
      Pow2Sum(a - 1, b);
      assert Pow2(a + b) == 2 * Pow2(a - 1 + b);
    }
  }

  /** A quotient and a remainder determine the number. */
  lemma QuotientIs(x: nat, B: nat, q: nat, r: nat)
    requires B > 0 && r < B && x == q * B + r
    ensures x / B == q && x % B == r
  {
    var d: int := x / B - q;
    assert x == B * (x / B) + x % B;
    assert d * B == r - x % B;
    assert d > 0 ==> d * B >= B;
    assert d < 0 ==> d * B + B <= 0;
  }

  lemma Division(x: nat, B: nat)
    requires B > 0
    ensures x == x / B * B + x % B && x % B < B
  {
  }

  /** x / B as a number that is not negative. */
  function Quotient(x: nat, B: nat): nat
    requires B > 0
  {
    x / B
  }

  lemma Less(B: nat, p: nat, s: nat, q: nat, t: nat)
    requires s < B && t < B && (p < q || (p == q && s < t))
    ensures p * B + s < q * B + t
  {
    if p < q { assert (p + 1) * B <= q * B; }
  }

  lemma LowBitsAre(x: nat, n: nat)
    ensures LowBits(x, n) == x <==> x < Pow2(n)
  {
    hide Pow2;
    if x < Pow2(n) { QuotientIs(x, Pow2(n), 0, x); }
  }
}
