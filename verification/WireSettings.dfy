/** The 24-byte settings header a client sends. The engine only ever copies, compares and sends the
    struct as bytes, so it is modelled as the bytes it occupies. */
module WireSettings {
  import opened Words

  const HEADER: nat := 24

  /** flags, num_threads, remote_port, buffer_len, win_band, amount: six words in network byte order. */
  type Settings = b: seq<u8> | |b| == HEADER witness seq(HEADER, _ => 0)

  const FLAG_ANSWER_TEST: u32 := 0x8000_0000
  const FLAG_ANSWER_NOW: u32 := 0x0000_0001

  function ZeroSettings(): Settings {
    seq(HEADER, _ => 0)
  }

  /** `flags & PP_HTONL(LWIPERF_FLAGS_ANSWER_TEST)`. */
  predicate AnswerTest(s: Settings) {
    s[0] >= 0x80
  }

  /** `flags & PP_HTONL(LWIPERF_FLAGS_ANSWER_NOW)`. */
  predicate AnswerNow(s: Settings) {
    s[3] % 2 == 1
  }

  /** `amount & PP_HTONL(0x80000000)`. */
  predicate TimeLimited(s: Settings) {
    s[20] >= 0x80
  }

  /** `lwip_htonl(amount)`. */
  function Amount(s: Settings): u32 {
    Word(s[23], s[22], s[21], s[20])
  }

  /** `(u16_t)lwip_htonl(remote_port)`. */
  function RemotePort(s: Settings): u16 {
    (s[11] as nat) + 0x100 * (s[10] as nat)
  }

  /** `(u32_t)-(s32_t)lwip_htonl(amount) * 10`, both operations wrapping. */
  function TimeLimitMs(s: Settings): u32 {
    Low32(Sub32(0, Amount(s)) * 10)
  }

  /** `settings.flags = 0`. */
  function WithoutFlags(s: Settings): Settings {
    [0, 0, 0, 0] + s[4..]
  }

  /** A settings struct filled in with htonl, field by field; the fields not named are zero. */
  function MakeSettings(flags: u32, threads: u32, port: u32, amount: u32): Settings {
    Stored(flags) + Stored(threads) + Stored(port) + [0, 0, 0, 0, 0, 0, 0, 0] + Stored(amount)
  }

  /** The bytes in memory of `htonl(x)`. */
  function Stored(x: u32): (b: seq<u8>)
    ensures |b| == 4
  {
    var w := Htonl(x);
    [Byte(w, 0), Byte(w, 1), Byte(w, 2), Byte(w, 3)]
  }

  /** The byte views are what the C expressions compute on the stored words. */
  lemma StoredWord(b0: u8, b1: u8, b2: u8, b3: u8)
    ensures var w := Word(b0, b1, b2, b3);
            && Htonl(w) == Word(b3, b2, b1, b0)
            && (w / 0x80 % 2 == 1 <==> b0 >= 0x80)
            && (w / 0x100_0000 % 2 == 1 <==> b3 % 2 == 1)
            && Htonl(w) % 0x1_0000 == b3 + 0x100 * b2
  {
    BytesOfWord(b0, b1, b2, b3);
    TopBit(b0, b1 + 0x100 * b2 + 0x1_0000 * b3);
    LowHalf(b3 + 0x100 * b2, b1 + 0x100 * b0);
  }

  lemma TopBit(b: u8, high: nat)
    ensures (b + 0x100 * high) / 0x80 % 2 == 1 <==> b >= 0x80
  {
    assert (b + 0x100 * high) / 0x80 == b / 0x80 + 2 * high;
  }

  lemma LowHalf(low: u16, high: nat)
    ensures (low + 0x1_0000 * high) % 0x1_0000 == low
  {
  }

  lemma StoredBytes(x: u32)
    ensures Stored(x) == [Byte(x, 3), Byte(x, 2), Byte(x, 1), Byte(x, 0)]
  {
    BytesOfWord(Byte(x, 3), Byte(x, 2), Byte(x, 1), Byte(x, 0));
  }

  lemma TopHalf(x: nat)
    ensures x / 0x100_0000 >= 0x80 <==> x >= 0x8000_0000
  {
  }

  lemma LowestBit(q: nat, r: nat)
    ensures (2 * (0x80 * q) + r) % 2 == r % 2
  {
  }

  lemma TopByte(x: u32)
    ensures Byte(x, 3) >= 0x80 <==> x >= TWO31
    ensures Byte(x, 0) % 2 == x % 2
  {
    TopHalf(x);
    LowestBit(x / 0x100, x % 0x100);
    assert x == 2 * (0x80 * (x / 0x100)) + x % 0x100;
  }

  /** The fields written by the sender are the values the receiver reads back: the flags by their two
      tests, the port modulo 2^16, the amount with its sign. */
  lemma MadeSettings(flags: u32, threads: u32, port: u32, amount: u32)
    ensures var s := MakeSettings(flags, threads, port, amount);
            && (AnswerTest(s) <==> flags >= 0x8000_0000)
            && (AnswerNow(s) <==> flags % 2 == 1)
            && RemotePort(s) == port % 0x1_0000
            && Amount(s) == amount && (TimeLimited(s) <==> amount >= 0x8000_0000)
  {
    hide Byte;
    StoredBytes(flags);
    StoredBytes(port);
    StoredBytes(amount);
    TopByte(flags);
    TopByte(amount);
    WordOfBytes(port);
    WordOfBytes(amount);
    LowHalf(Byte(port, 0) + 0x100 * Byte(port, 1), Byte(port, 2) + 0x100 * Byte(port, 3));
  }

  /** A header asking for `-n` units of 10 ms is time-limited, and the wrapping negation and
      multiplication recover 10n exactly when that product fits in 32 bits. */
  lemma NegativeAmount(s: Settings, n: nat)
    requires 1 <= n <= TWO31
    requires Amount(s) == TWO32 - n
    ensures TimeLimited(s) && TimeLimitMs(s) == Low32(10 * n)
    ensures TimeLimitMs(s) == 10 * n <==> 10 * n < TWO32
  {
    assert Sub32(0, Amount(s)) == n;
  }

  /** Clearing the flags keeps the rest of the header and asks for nothing. */
  lemma WithoutFlagsProps(s: Settings)
    ensures !AnswerTest(WithoutFlags(s)) && !AnswerNow(WithoutFlags(s))
    ensures Amount(WithoutFlags(s)) == Amount(s) && RemotePort(WithoutFlags(s)) == RemotePort(s)
    ensures TimeLimited(WithoutFlags(s)) <==> TimeLimited(s)
    ensures forall i :: 4 <= i < HEADER ==> WithoutFlags(s)[i] == s[i]
  {
  }

  /** The 24 bytes as they go over the wire: six words, most significant byte first. */
  lemma SettingsLayout(flags: u32, threads: u32, port: u32, amount: u32)
    ensures MakeSettings(flags, threads, port, amount) ==
            BigEndian(flags) + BigEndian(threads) + BigEndian(port) + BigEndian(0) + BigEndian(0) + BigEndian(amount)
  {
    StoredBytes(flags);
    StoredBytes(threads);
    StoredBytes(port);
    StoredBytes(amount);
  }

  function BigEndian(x: u32): seq<u8> {
    [x / 0x100_0000, x / 0x1_0000 % 0x100, x / 0x100 % 0x100, x % 0x100]
  }
}
