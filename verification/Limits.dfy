/** When a test is over: the byte and time limits, and the test a client start asks for. */
module Limits {
  import opened Words
  import opened WireSettings
  import opened IperfState
  import opened Isolation
  import opened Sending
  import opened Effects

  /** What each kind of client start announces: its flags, the default port, and ten seconds. */
  lemma ClientAnnounces(kind: ClientType)
    ensures var s := ClientSettings(kind);
            && (AnswerTest(s) <==> kind in {Dual, Tradeoff}) && (AnswerNow(s) <==> kind == Dual)
            && RemotePort(s) == 5001 && TimeLimited(s) && TimeLimitMs(s) == 10_000
  {
    hide MakeSettings, AnswerTest, AnswerNow, TimeLimited, TimeLimitMs, RemotePort;
    var flags := match kind
      case Dual => FLAG_ANSWER_TEST + FLAG_ANSWER_NOW
      case Tradeoff => FLAG_ANSWER_TEST
      case _ => 0;
    MadeSettings(flags, 1, DEFAULT_PORT, TWO32 - 1000);
    NegativeAmount(ClientSettings(kind), 1000);
  }

  /** The same as the 24 bytes that are sent. */
  lemma AnnouncedBytes(kind: ClientType)
    ensures ClientSettings(kind) ==
            [if kind in {Dual, Tradeoff} then 0x80 else 0, 0, 0, if kind == Dual then 1 else 0] +
            [0, 0, 0, 1] + [0, 0, 0x13, 0x89] + [0, 0, 0, 0] + [0, 0, 0, 0] + [0xFF, 0xFF, 0xFC, 0x18]
  {
    hide MakeSettings, BigEndian;
    var flags := match kind
      case Dual => FLAG_ANSWER_TEST + FLAG_ANSWER_NOW
      case Tradeoff => FLAG_ANSWER_TEST
      case _ => 0;
    SettingsLayout(flags, 1, DEFAULT_PORT, TWO32 - 1000);
    FlagBytes();
    FixedBytes();
  }

  lemma FlagBytes()
    ensures BigEndian(0x8000_0001) == [0x80, 0, 0, 1] && BigEndian(0x8000_0000) == [0x80, 0, 0, 0]
    ensures BigEndian(0) == [0, 0, 0, 0]
  {
  }

  lemma FixedBytes()
    ensures BigEndian(1) == [0, 0, 0, 1] && BigEndian(5001) == [0, 0, 0x13, 0x89]
    ensures BigEndian(0xFFFF_FC18) == [0xFF, 0xFF, 0xFC, 0x18]
  {
  }

  /** The end of a call on a byte-limited session: it closes exactly when the rounds reach the amount, and the
      report then carries a count between the amount and the amount plus one segment. */
  lemma ByteLimitedCall(st: State, p: Pid, turns: seq<Turn>, how: Closing)
    requires p != NULL && Live(st, p) && Reaches(st, p) && !SessionOf(st, p).server && SenderOk(st, p)
    requires !TimeLimited(SessionOf(st, p).settings)
    ensures var s, st' := SessionOf(st, p), SendMore(st, Arg(st, p), turns, how);
            var sent := s.bytes + |Sent(s, st.mss, turns)|;
            && s.bytes == |st.pcbs[p].written| && sent < Amount(s.settings) + st.mss < TWO32
            && p in st'.pcbs && st'.pcbs[p].written == st.pcbs[p].written + Sent(s, st.mss, turns)
            && (Live(st', p) ==> Reaches(st', p) && SessionOf(st', p).bytes == sent && st'.reports == st.reports)
            && (!Live(st', p) ==>
                  && sent >= Amount(s.settings) && Arg(st, p) !in st'.recs
                  && st'.reports == st.reports + (if s.reports then [Report(Arg(st, p), DoneClient, p, sent)] else []))
  {
    hide LimitReached, IsStream, Sent, SendMore, Halve;
    var s := SessionOf(st, p);
    AmountBound(s.settings);
    SentWithinBudget(s, st.mss, turns);
    SendMoreIs(st, Arg(st, p), turns, how);
  }

  /** A time-limited session is closed by the first call whose clock reading is at or after its limit, and by
      none before, however the 32-bit clock wraps in between; the closing reading writes nothing. */
  lemma TimeLimitedCall(st: State, p: Pid, turns: seq<Turn>, how: Closing, start: nat, T: seq<nat>, n: nat)
    requires p != NULL && Live(st, p) && Reaches(st, p) && Rounds(SessionOf(st, p), st.mss, turns)
    requires 1 <= n <= TWO31 && Amount(SessionOf(st, p).settings) == TWO32 - n && 10 * n < TWO32
    requires SessionOf(st, p).timeStarted == Low32(start) && |T| == |turns|
    requires forall i :: 0 <= i < |T| ==> start <= T[i] < start + TWO32 && turns[i].now == Low32(T[i])
    ensures var st' := SendMore(st, Arg(st, p), turns, how);
            && p in st'.pcbs && (Live(st', p) <==> T[|T| - 1] < start + 10 * n)
            && (forall i :: 0 <= i < |T| - 1 ==> T[i] < start + 10 * n)
            && (T[0] >= start + 10 * n ==> st'.pcbs[p].written == st.pcbs[p].written)
  {
    hide LimitReached, Rounds, Sent, TimeLimitMs, Low32;
    var s := SessionOf(st, p);
    NegativeAmount(s.settings, n);
    TimeLimitExact(s, st.mss, turns, start, T);
    SendingEndsOr(st, p, turns, how);
    SendMoreIs(st, Arg(st, p), turns, how);
    WroteNothing(st, Arg(st, p));
  }

  /** A request for more than 2^32 / 10 units wraps: 429,496,730 units of 10 ms end after 4 ms. */
  lemma LongTestsWrap(s: Settings)
    requires Amount(s) == TWO32 - 429_496_730
    ensures TimeLimited(s) && TimeLimitMs(s) == 4
  {
    NegativeAmount(s, 429_496_730);
  }
}
