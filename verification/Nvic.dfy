/** Interrupt priorities in the registers, four bytes to a word. */
module Nvic {
  import opened Words
  import opened Powers
  import opened Priority

  /** `_BIT_SHIFT(IRQn)` over eight: the two low bits of the interrupt number select the byte. */
  function ByteNo(irq: int): nat {
    irq % 4
  }

  /** `_SHP_IDX(IRQn)`: the four low bits less 8, in uint32, over four. */
  function ShpIdx(irq: int): nat {
    Sub32(irq % 16, 8) / 4
  }

  /** `1 << 8 * k` */
  function Weight(k: nat): nat
    requires k < 4
  {
    match k
    case 0 => 1
    case 1 => 0x100
    case 2 => 0x1_0000
    case _ => 0x100_0000
  }

  /** `(w & ~(0xFF << 8 * k)) | (b << 8 * k)`: clearing the byte subtracts it, and b put in its place adds. */
  function Insert(w: u32, k: nat, b: u8): (w': u32)
    requires k < 4
    ensures forall j :: 0 <= j < 4 ==> Byte(w', j) == if j == k then b else Byte(w, j)
  {
    WordOfBytes(w);
    var b0, b1 := if k == 0 then b else Byte(w, 0), if k == 1 then b else Byte(w, 1);
    var b2, b3 := if k == 2 then b else Byte(w, 2), if k == 3 then b else Byte(w, 3);
    BytesOfWord(b0, b1, b2, b3);
    var w' := w - Byte(w, k) * Weight(k) + b * Weight(k);
    assert w' == Word(b0, b1, b2, b3);
    w'
  }

  /** The register words: IPR for device interrupts, SHPR for processor exceptions. */
  datatype Regs = Regs(ipr: seq<u32>, shpr: seq<u32>)

  predicate Sized(r: Regs) {
    |r.ipr| == 124 && |r.shpr| == 2
  }

  /** The interrupts whose word exists: the exceptions below -8 have no SHPR word. */
  predicate Valid(irq: int) {
    -8 <= irq < 496
  }

  /** From -16 on, the words exist for exactly these interrupts. */
  lemma WordExists(irq: int)
    requires irq >= -16
    ensures (if irq >= 0 then irq / 4 < 124 else ShpIdx(irq) < 2) <==> Valid(irq)
  {
  }

  function WordOf(r: Regs, irq: int): u32
    requires Sized(r) && Valid(irq)
  {
    if irq >= 0 then r.ipr[irq / 4] else r.shpr[ShpIdx(irq)]
  }

  /** The byte of an interrupt. */
  function Field(r: Regs, irq: int): u8
    requires Sized(r) && Valid(irq)
  {
    Byte(WordOf(r, irq), ByteNo(irq))
  }

  /** `(priority << (8 - bits)) & 0xFF` */
  function Scaled(bits: PrioBits, priority: u32): u8 {
    priority * Pow2(8 - bits) % 0x100
  }

  /** `byte >> (8 - bits)` */
  function Unscaled(bits: PrioBits, b: u8): nat {
    Quotient(b, Pow2(8 - bits))
  }

  /** The registers after one __NVIC_SetPriority. */
  function Set(r: Regs, bits: PrioBits, irq: int, priority: u32): (r': Regs)
    requires Sized(r) && Valid(irq)
    ensures Sized(r')
  {
    var w := Insert(WordOf(r, irq), ByteNo(irq), Scaled(bits, priority));
    if irq >= 0 then r.(ipr := r.ipr[irq / 4 := w]) else r.(shpr := r.shpr[ShpIdx(irq) := w])
  }

  function Get(r: Regs, bits: PrioBits, irq: int): nat
    requires Sized(r) && Valid(irq)
  {
    Unscaled(bits, Field(r, irq))
  }

  // ---------------------------------------------------------------- the words hold a table of bytes

  lemma Rescale(p: nat, A: nat, U: nat, C: nat)
    requires A > 0 && U > 0 && C == A * U
    ensures C > 0 && p * U % C / U == p % A
  {
    assert p * U == (p / A) * C + (p % A) * U;
    Less(U, p % A, 0, A, 0);
    QuotientIs(p * U, C, p / A, (p % A) * U);
    QuotientIs((p % A) * U, U, p % A, 0);
  }

  /** Scaling up, cutting to a byte and scaling down again cuts to the implemented bits. */
  lemma ScaleBack(bits: PrioBits, p: u32)
    ensures Unscaled(bits, Scaled(bits, p)) == LowBits(p, bits)
  {
    Pow2Sum(bits, 8 - bits);
    assert Pow2(8) == 0x100;
    hide Pow2;
    Rescale(p, Pow2(bits), Pow2(8 - bits), 0x100);
  }

  /** Where the byte is: interrupt n has byte n % 4 of IPR word n / 4,
      exception -8 + n byte n % 4 of SHPR word n / 4. */
  lemma RegisterByte(r: Regs, irq: int)
    requires Sized(r) && Valid(irq)
    ensures var n := if irq >= 0 then irq else irq + 8;
            var w := if irq >= 0 then r.ipr[n / 4] else r.shpr[n / 4];
            && (n % 4 == 0 ==> Field(r, irq) == w % 0x100)
            && (n % 4 == 1 ==> Field(r, irq) == w / 0x100 % 0x100)
            && (n % 4 == 2 ==> Field(r, irq) == w / 0x1_0000 % 0x100)
            && (n % 4 == 3 ==> Field(r, irq) == w / 0x100_0000)
  {
    if irq < 0 {
      assert irq % 16 == irq + 16 && irq % 4 == (irq + 8) % 4;
    } else {
      assert irq / 4 < 124;
    }
  }

  /** What is written: the implemented bits of the priority, at the top of the byte. */
  lemma ScaledIs(bits: PrioBits, p: u32)
    ensures Scaled(bits, p) == LowBits(p, bits) * Pow2(8 - bits)
  {
    Pow2Sum(bits, 8 - bits);
    assert Pow2(8) == 0x100;
    hide Pow2;
    CutAbove(p, Pow2(bits), Pow2(8 - bits), 0x100);
  }

  lemma CutAbove(p: nat, A: nat, U: nat, C: nat)
    requires A > 0 && U > 0 && C == A * U
    ensures C > 0 && p * U % C == p % A * U
  {
    assert p * U == (p / A) * C + (p % A) * U;
    Less(U, p % A, 0, A, 0);
    QuotientIs(p * U, C, p / A, (p % A) * U);
  }

  /** Setting one priority writes its byte and no other byte of any register. */
  lemma SetField(r: Regs, bits: PrioBits, irq: int, priority: u32, other: int)
    requires Sized(r) && Valid(irq) && Valid(other)
    ensures Field(Set(r, bits, irq, priority), other) ==
            if other == irq then Scaled(bits, priority) else Field(r, other)
  {
    hide Byte, Insert, Scaled;
  }

  datatype Call = Call(irq: int, priority: u32)

  predicate Calls(calls: seq<Call>) {
    forall i :: 0 <= i < |calls| ==> Valid(calls[i].irq)
  }

  function SetAll(r: Regs, bits: PrioBits, calls: seq<Call>): (r': Regs)
    requires Sized(r) && Calls(calls)
    ensures Sized(r')
  {
    if calls == [] then r
    else
      var n := |calls| - 1;
      Set(SetAll(r, bits, calls[..n]), bits, calls[n].irq, calls[n].priority)
  }

  /** After any sequence of calls an interrupt has the priority of its last one, cut to the implemented bits. */
  lemma {:induction false} LastCallWins(r: Regs, bits: PrioBits, calls: seq<Call>, i: nat)
    requires Sized(r) && Calls(calls) && i < |calls|
    requires forall j :: i < j < |calls| ==> calls[j].irq != calls[i].irq
    ensures Get(SetAll(r, bits, calls), bits, calls[i].irq) == LowBits(calls[i].priority, bits)
  {
    hide Set, LowBits, Scaled, Unscaled, Field;
    var n := |calls| - 1;
    SetField(SetAll(r, bits, calls[..n]), bits, calls[n].irq, calls[n].priority, calls[i].irq);
    if i == n {
      ScaleBack(bits, calls[n].priority);
    } else {
      LastCallWins(r, bits, calls[..n], i);
    }
  }

  /** The byte of an interrupt that no call names is what it was. */
  lemma {:induction false} NeverSet(r: Regs, bits: PrioBits, calls: seq<Call>, irq: int)
    requires Sized(r) && Calls(calls) && Valid(irq)
    requires forall i :: 0 <= i < |calls| ==> calls[i].irq != irq
    ensures Field(SetAll(r, bits, calls), irq) == Field(r, irq)
  {
    hide Set, Scaled, Field;
    if calls != [] {
      var n := |calls| - 1;
      SetField(SetAll(r, bits, calls[..n]), bits, calls[n].irq, calls[n].priority, irq);
      NeverSet(r, bits, calls[..n], irq);
    }
  }

  /** Through the registers and back: the parts that were encoded and set are the parts decoded after reading. */
  lemma PartsSurvive(r: Regs, bits: PrioBits, group: u32, irq: int, preempt: nat, sub: nat)
    requires Sized(r) && Valid(irq)
    ensures Encode(bits, group, preempt, sub) < TWO32
    ensures Decode(bits, group, Get(Set(r, bits, irq, Encode(bits, group, preempt, sub)), bits, irq)) ==
            (LowBits(preempt, PreemptBits(bits, group)), LowBits(sub, SubBits(bits, group)))
  {
    hide Encode, Decode, Set, LowBits, Scaled, Unscaled, Field;
    var e := Encode(bits, group, preempt, sub);
    DecodeEncode(bits, group, preempt, sub);
    SmallPow2(bits);
    SetField(r, bits, irq, e, irq);
    ScaleBack(bits, e);
    LowBitsAre(e, bits);
  }

  lemma SmallPow2(bits: PrioBits)
    ensures Pow2(bits) <= 0x100
  {
    Pow2Sum(bits, 8 - bits);
    assert Pow2(8) == 0x100;
    Less(Pow2(bits), 0, 0, 1, 0);
  }

  // ---------------------------------------------------------------- the functions

  class Controller {
    const ipr: array<u32>
    const shpr: array<u32>
    const bits: PrioBits   // __NVIC_PRIO_BITS

    ghost predicate Ready() {
      ipr.Length == 124 && shpr.Length == 2
    }

    ghost function Abs(): Regs
      reads ipr, shpr
    {
      Regs(ipr[..], shpr[..])
    }

    constructor (bits: PrioBits)
      ensures Ready() && this.bits == bits && fresh(ipr) && fresh(shpr)
    {
      ipr, shpr := new u32[124], new u32[2];
      this.bits := bits;
    }

    /** __NVIC_SetPriority */
    method SetPriority(irq: int, priority: u32)
      requires Ready() && Valid(irq)
      modifies ipr, shpr
      ensures Abs() == Set(old(Abs()), bits, irq, priority)
    {
      hide Insert, Scaled;
      if irq >= 0 {
        ipr[irq / 4] := Insert(ipr[irq / 4], ByteNo(irq), Scaled(bits, priority));
      } else {
        shpr[ShpIdx(irq)] := Insert(shpr[ShpIdx(irq)], ByteNo(irq), Scaled(bits, priority));
      }
    }

    /** __NVIC_GetPriority */
    method GetPriority(irq: int) returns (priority: nat)
      requires Ready() && Valid(irq)
      ensures priority == Get(Abs(), bits, irq)
    {
      hide Byte, Unscaled;
      if irq >= 0 {
        priority := Unscaled(bits, Byte(ipr[irq / 4], ByteNo(irq)));
      } else {
        priority := Unscaled(bits, Byte(shpr[ShpIdx(irq)], ByteNo(irq)));
      }
    }
  }
}
