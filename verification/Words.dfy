/** Unsigned machine words of the 32-bit little-endian target, with the
    wrap-around written out. */
module Words {

  const TWO32: nat := 0x1_0000_0000
  const TWO31: nat := 0x8000_0000

  type u8 = x: nat | x < 0x100
  type u16 = x: nat | x < 0x1_0000
  type u32 = x: nat | x < 0x1_0000_0000

  /** The value a 32-bit register keeps of a sum: 2^32 drops out as often as it fits. */
  function Low32(x: nat): u32 {
    if x < 0x1_0000_0000 then x else Low32(x - 0x1_0000_0000)
  }

  function Add32(x: u32, y: nat): u32 {
    Low32(x + y)
  }

  lemma {:induction false} Low32IsMod(x: nat)
    ensures Low32(x) == x % TWO32
  {
    if x >= TWO32 {
      Low32IsMod(x - TWO32);
      assert x % TWO32 == (x - TWO32) % TWO32;
    }
  }

  /** Wrapping early or late makes no difference. */
  lemma {:induction false} Low32Sum(x: nat, y: nat)
    ensures Low32(Low32(x) + y) == Low32(x + y)
  {
    if x >= TWO32 { Low32Sum(x - TWO32, y); }
  }

  function Sub32(x: u32, y: u32): u32 {
    if x >= y then x - y else 0x1_0000_0000 + x - y
  }

  /** `++x` on a byte. */
  function Inc8(x: u8): u8 {
    if x == 0xFF then 0 else x + 1
  }

  /** The word that four bytes of memory hold on the little-endian target. */
  function Word(b0: u8, b1: u8, b2: u8, b3: u8): u32 {
    b0 + 0x100 * b1 + 0x1_0000 * b2 + 0x100_0000 * b3
  }

  /** Byte k of a word, counted from the least significant. */
  function Byte(x: u32, k: nat): u8
    requires k < 4
  {
    match k
    case 0 => x % 0x100
    case 1 => x / 0x100 % 0x100
    case 2 => x / 0x1_0000 % 0x100
    case _ => x / 0x100_0000
  }

  /** lwip_htonl on the little-endian target: the bytes of the word, reversed. */
  function Htonl(x: u32): u32 {
    Word(Byte(x, 3), Byte(x, 2), Byte(x, 1), Byte(x, 0))
  }

  lemma BytesOfWord(b0: u8, b1: u8, b2: u8, b3: u8)
    ensures var w := Word(b0, b1, b2, b3);
            Byte(w, 0) == b0 && Byte(w, 1) == b1 && Byte(w, 2) == b2 && Byte(w, 3) == b3
  {
    var w := Word(b0, b1, b2, b3);
    assert w / 0x100 == b1 + 0x100 * b2 + 0x1_0000 * b3;
    assert w / 0x1_0000 == b2 + 0x100 * b3;
  }

  lemma WordOfBytes(x: u32)
    ensures Word(Byte(x, 0), Byte(x, 1), Byte(x, 2), Byte(x, 3)) == x
  {
    assert x / 0x100 / 0x100 == x / 0x1_0000;
    assert x / 0x1_0000 / 0x100 == x / 0x100_0000;
  }
}
