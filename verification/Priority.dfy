/** The split of an interrupt priority into preemption priority and subpriority. Shifts and masks are written as
    arithmetic: a left shift multiplies, a mask of low bits takes the remainder, and the two sides of the only
    `|` never share a bit, so it adds. */
module Priority {
  import opened Words
  import opened Powers

  /** __NVIC_PRIO_BITS */
  type PrioBits = b: nat | 1 <= b <= 8 witness 1

  function PreemptBits(bits: PrioBits, group: u32): nat {
    var g := group % 8;
    if 7 - g > bits then bits else 7 - g
  }

  function SubBits(bits: PrioBits, group: u32): nat {
    var g := group % 8;
    if g + bits < 7 then 0 else Add32(Sub32(g, 7), bits)
  }

  /** The subpriority has as many bits as the group leaves it beyond those not implemented, the preemption priority
      the rest of the implemented ones, although g - 7 wraps below zero. */
  lemma Widths(bits: PrioBits, group: u32)
    ensures PreemptBits(bits, group) + SubBits(bits, group) == bits
    ensures var g := group % 8; SubBits(bits, group) == if g + 1 > 8 - bits then g + 1 - (8 - bits) else 0
  {
    var g := group % 8;
    if 7 <= g + bits && g < 7 {
      assert Low32(g + bits - 7) == g + bits - 7;
    }
  }

  /** `((p & (A - 1)) << b) | (s & (B - 1))` for A, B = 2^a, 2^b */
  function Pack(A: nat, B: nat, p: nat, s: nat): nat
    requires A > 0 && B > 0
  {
    p % A * B + s % B
  }

  /** `(x >> b) & (A - 1)` and `x & (B - 1)` */
  function Unpack(A: nat, B: nat, x: nat): (nat, nat)
    requires A > 0 && B > 0
  {
    (x / B % A, x % B)
  }

  function Encode(bits: PrioBits, group: u32, preempt: nat, sub: nat): nat {
    Pack(Pow2(PreemptBits(bits, group)), Pow2(SubBits(bits, group)), preempt, sub)
  }

  function Decode(bits: PrioBits, group: u32, priority: nat): (nat, nat) {
    Unpack(Pow2(PreemptBits(bits, group)), Pow2(SubBits(bits, group)), priority)
  }

  // ---------------------------------------------------------------- arithmetic

  lemma UnpackPack(A: nat, B: nat, p: nat, s: nat)
    requires A > 0 && B > 0
    ensures Unpack(A, B, Pack(A, B, p, s)) == (p % A, s % B) && Pack(A, B, p, s) < A * B
  {
    var x, hi := Pack(A, B, p, s), p % A;
    QuotientIs(x, B, hi, s % B);
    QuotientIs(hi, A, 0, hi);
    Less(B, hi, s % B, A, 0);
  }

  lemma Regroup(q: nat, A: nat, hi: nat, B: nat, lo: nat)
    ensures (q * A + hi) * B + lo == q * (A * B) + (hi * B + lo)
  {
    assert (q * A) * B == q * (A * B);
  }

  lemma PackParts(A: nat, B: nat, C: nat, q: nat, hi: nat, lo: nat)
    requires hi < A && lo < B && C == A * B
    ensures C > 0 && Pack(A, B, hi, lo) == ((q * A + hi) * B + lo) % C
  {
    QuotientIs(hi, A, 0, hi);
    QuotientIs(lo, B, 0, lo);
    Less(B, hi, lo, A, 0);
    Regroup(q, A, hi, B, lo);
    QuotientIs(q * C + (hi * B + lo), C, q, hi * B + lo);
  }

  lemma PackUnpack(A: nat, B: nat, C: nat, x: nat)
    requires A > 0 && B > 0 && C == A * B
    ensures C > 0 && Pack(A, B, Unpack(A, B, x).0, Unpack(A, B, x).1) == x % C
  {
    hide Pack;
    Division(x, B);
    Division(x / B, A);
    PackParts(A, B, C, x / B / A, x / B % A, x % B);
  }

  lemma UnpackPackBits(a: nat, b: nat, p: nat, s: nat)
    ensures Unpack(Pow2(a), Pow2(b), Pack(Pow2(a), Pow2(b), p, s)) == (LowBits(p, a), LowBits(s, b))
    ensures Pack(Pow2(a), Pow2(b), p, s) < Pow2(a + b)
  {
    hide Pow2, Pack, Unpack;
    Pow2Sum(a, b);
    UnpackPack(Pow2(a), Pow2(b), p, s);
  }

  lemma PackUnpackBits(a: nat, b: nat, x: nat)
    ensures Pack(Pow2(a), Pow2(b), Unpack(Pow2(a), Pow2(b), x).0, Unpack(Pow2(a), Pow2(b), x).1) == LowBits(x, a + b)
  {
    hide Pow2, Pack, Unpack;
    Pow2Sum(a, b);
    PackUnpack(Pow2(a), Pow2(b), Pow2(a + b), x);
  }

  lemma PackOrders(A: nat, B: nat, p: nat, s: nat, q: nat, t: nat)
    requires p < A && q < A && s < B && t < B
    ensures Pack(A, B, p, s) < Pack(A, B, q, t) <==> p < q || (p == q && s < t)
  {
    QuotientIs(p, A, 0, p);
    QuotientIs(q, A, 0, q);
    QuotientIs(s, B, 0, s);
    QuotientIs(t, B, 0, t);
    if p < q || (p == q && s < t) {
      Less(B, p, s, q, t);
    } else if p != q || s != t {
      Less(B, q, t, p, s);
    }
  }

  // ---------------------------------------------------------------- encode against decode

  /** Decoding an encoded priority gives both parts, each cut to its width; and it fits the implemented bits. */
  lemma DecodeEncode(bits: PrioBits, group: u32, preempt: nat, sub: nat)
    ensures Decode(bits, group, Encode(bits, group, preempt, sub)) ==
            (LowBits(preempt, PreemptBits(bits, group)), LowBits(sub, SubBits(bits, group)))
    ensures Encode(bits, group, preempt, sub) < Pow2(bits)
  {
    hide PreemptBits, SubBits, Pow2, Pack, Unpack, LowBits;
    Widths(bits, group);
    UnpackPackBits(PreemptBits(bits, group), SubBits(bits, group), preempt, sub);
  }

  /** Encoding a decoded priority cuts it to the implemented bits. */
  lemma EncodeDecode(bits: PrioBits, group: u32, priority: nat)
    ensures var d := Decode(bits, group, priority); Encode(bits, group, d.0, d.1) == LowBits(priority, bits)
  {
    hide PreemptBits, SubBits, Pow2, Pack, Unpack, LowBits;
    Widths(bits, group);
    PackUnpackBits(PreemptBits(bits, group), SubBits(bits, group), priority);
  }

  /** So it gives a priority back exactly when that has no more bits than are implemented. */
  lemma EncodeDecodeSame(bits: PrioBits, group: u32, priority: nat)
    ensures var d := Decode(bits, group, priority);
            Encode(bits, group, d.0, d.1) == priority <==> priority < Pow2(bits)
  {
    hide Encode, Decode, Pow2, LowBits;
    EncodeDecode(bits, group, priority);
    LowBitsAre(priority, bits);
  }

  /** The encoding orders in-range parts by preemption priority first and subpriority second. */
  lemma EncodeOrders(bits: PrioBits, group: u32, p: nat, s: nat, p': nat, s': nat)
    requires p < Pow2(PreemptBits(bits, group)) && p' < Pow2(PreemptBits(bits, group))
    requires s < Pow2(SubBits(bits, group)) && s' < Pow2(SubBits(bits, group))
    ensures Encode(bits, group, p, s) < Encode(bits, group, p', s') <==> p < p' || (p == p' && s < s')
  {
    PackOrders(Pow2(PreemptBits(bits, group)), Pow2(SubBits(bits, group)), p, s, p', s');
  }
}
