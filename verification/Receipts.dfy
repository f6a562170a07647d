/** Receive accounting over whole runs: every packet is freed once and credited in full, and a session's
    counter follows from the packets it was given. */
module Receipts {
  import opened Words
  import opened WireSettings
  import opened IperfState
  import opened Ownership
  import opened Isolation
  import opened Creation
  import opened Receiving
  import opened Effects

  // ---------------------------------------------------------------- what a run delivered

  /** The packets handed to the receive callback of p, in order. */
  function PacketsOf(past: seq<Event>, p: Pid): seq<Pbuf> {
    if past == [] then []
    else
      var e := past[|past| - 1];
      PacketsOf(past[..|past| - 1], p) + (if e.EvRecv? && e.p == p then [e.pkt] else [])
  }

  /** The packets handed to any receive callback, in order. */
  function AllPackets(past: seq<Event>): seq<nat> {
    if past == [] then []
    else
      var e := past[|past| - 1];
      AllPackets(past[..|past| - 1]) + (if e.EvRecv? then [e.pkt.id] else [])
  }

  function Total(ps: seq<Pbuf>): nat {
    if ps == [] then 0 else Total(ps[..|ps| - 1]) + TotLen(ps[|ps| - 1])
  }

  // ---------------------------------------------------------------- the invariant

  /** The window given back is every byte delivered; the counter starts at 24 with the first packet, whatever
      its length, and then counts every byte, headers in later packets included. */
  ghost predicate ReceiverOk(st: State, p: Pid, ps: seq<Pbuf>) {
    && (p !in st.pcbs ==> ps == [])
    && (Live(st, p) && Arg(st, p) in st.recs && SessionOf(st, p).server ==>
          var s := SessionOf(st, p);
          && st.pcbs[p].credit == Total(ps)
          && (s.haveSettings <==> ps != [])
          && (ps == [] ==> s.bytes == 0)
          && (ps != [] ==>
                && TotLen(ps[0]) >= HEADER && s.settings == Flat(ps[0].chain)[..HEADER]
                && Total(ps) >= TotLen(ps[0])
                && s.bytes == Low32(HEADER + (Total(ps) - TotLen(ps[0])))))
  }

  ghost predicate Receipts(st: State, past: seq<Event>) {
    && st.freed == AllPackets(past)
    && forall p :: ReceiverOk(st, p, PacketsOf(past, p))
  }

  // ---------------------------------------------------------------- one packet

  /** A later header is due only at counts the header cannot wrap. */
  lemma DueBytes(b: u32)
    requires Sub32(b, HEADER) % BLOCK == 0
    ensures HEADER <= b && b + HEADER < TWO32
  {
    var d := Sub32(b, HEADER);
    assert d == BLOCK * (d / BLOCK);
    assert d / BLOCK <= 32767;
  }

  /** Once the settings are in, every packet counts in full, whether or not it starts with a header. */
  lemma LaterPacketCounts(s: Session, pkt: Pbuf, now: u32)
    requires s.haveSettings && (HeaderDue(s.(pollCount := 0)) ==> TotLen(pkt) >= HEADER)
    ensures Received(s, pkt, now) == s.(pollCount := 0, bytes := Low32(s.bytes + TotLen(pkt)))
  {
    if HeaderDue(s.(pollCount := 0)) {
      DueBytes(s.bytes);
      Low32Sum(s.bytes + HEADER, TotLen(pkt) - HEADER);
    }
  }

  lemma PacketReceipt(s: Session, pkt: Pbuf, now: u32, ps: seq<Pbuf>)
    requires s.haveSettings <==> ps != []
    requires ps == [] ==> s.bytes == 0
    requires ps != [] ==> Total(ps) >= TotLen(ps[0]) && s.bytes == Low32(HEADER + (Total(ps) - TotLen(ps[0])))
    requires HeaderDue(s.(pollCount := 0)) ==> TotLen(pkt) >= HEADER
    ensures var s', qs := Received(s, pkt, now), ps + [pkt];
            && s'.haveSettings && qs[0] == (if ps == [] then pkt else ps[0])
            && Total(qs) == Total(ps) + TotLen(pkt)
            && (ps == [] ==> TotLen(pkt) >= HEADER && s'.settings == Flat(pkt.chain)[..HEADER])
            && (ps != [] ==> s'.settings == s.settings)
            && s'.bytes == Low32(HEADER + (Total(qs) - TotLen(qs[0])))
  {
    hide Flat;
    assert (ps + [pkt])[..|ps|] == ps;
    if s.haveSettings {
      LaterPacketCounts(s, pkt, now);
      Low32Sum(HEADER + (Total(ps) - TotLen(ps[0])), TotLen(pkt));
    } else {
      FirstReceived(s, pkt, now);
    }
  }

  // ---------------------------------------------------------------- whole runs

  lemma PacketsAfter(past: seq<Event>, e: Event, p: Pid)
    ensures PacketsOf(past + [e], p) == PacketsOf(past, p) + (if e.EvRecv? && e.p == p then [e.pkt] else [])
    ensures AllPackets(past + [e]) == AllPackets(past) + (if e.EvRecv? then [e.pkt.id] else [])
  {
    assert (past + [e])[..|past|] == past;
  }

  lemma SubjectReceipt(st: State, e: Event, ps: seq<Pbuf>)
    requires Owned(st) && Enabled(st, e) && Subject(e) != NULL && ReceiverOk(st, Subject(e), ps)
    ensures ReceiverOk(Step(st, e), Subject(e), ps + (if e.EvRecv? then [e.pkt] else []))
  {
    hide Enabled, Step, Owned, Flat, LimitReached;
    var p, st' := Subject(e), Step(st, e);
    SubjectAfter(st, e);
    SubjectRole(st, e);
    if Live(st', p) {
      var s := SessionOf(st, p);
      if e.EvRecv? {
        DueExactly(s.bytes);
        assert HeaderDue(s.(pollCount := 0)) ==> TotLen(e.pkt) >= HEADER;
        PacketReceipt(s, e.pkt, e.now, ps);
      } else {
        assert ps + [] == ps;
      }
    }
  }

  lemma StepReceipts(st: State, past: seq<Event>, e: Event)
    requires Owned(st) && Enabled(st, e) && !Aborts(st, e) && Receipts(st, past)
    ensures Receipts(Step(st, e), past + [e])
  {
    hide Step, Enabled, Flat;
    var st' := Step(st, e);
    StepFrees(st, e);
    forall p ensures ReceiverOk(st', p, PacketsOf(past + [e], p)) {
      var ps := PacketsOf(past, p);
      PacketsAfter(past, e, p);
      assert ReceiverOk(st, p, ps);
      if p == Subject(e) && p in st.pcbs {
        SubjectReceipt(st, e, ps);
      } else {
        OtherReceipt(st, e, p, ps);
        assert ps + [] == ps;
      }
    }
  }

  lemma OtherReceipt(st: State, e: Event, p: Pid, ps: seq<Pbuf>)
    requires Owned(st) && Enabled(st, e) && !Aborts(st, e) && ReceiverOk(st, p, ps)
    requires p != Subject(e) || p !in st.pcbs
    ensures ReceiverOk(Step(st, e), p, ps) && !(e.EvRecv? && e.p == p)
  {
    hide Step, Flat, Rounds;
    var st' := Step(st, e);
    if p in st'.pcbs && p !in st.pcbs {
      EventCreates(st, e, p);
    } else if p in st.pcbs {
      if Listener(st, p) {
        ListenerStays(st, e, p);
        CallbackArgument(st, p);
      } else {
        EventIsLocal(st, e, p);
        if Live(st, p) { CallbackArgument(st, p); }
      }
    }
  }

  /** Over any run, the packet buffers given back are exactly the packets delivered, once each and in order;
      and each receiving session still open has been credited every byte delivered to it, while its counter
      shows 24 plus everything after its first packet, modulo 2^32. */
  lemma {:induction false} RunReceipts(st: State, past: seq<Event>, es: seq<Event>)
    requires Owned(st) && Receipts(st, past) && Runs(st, es) && AbortFree(st, es)
    ensures Receipts(Run(st, es), past + es)
    decreases |es|
  {
    if es == [] {
      assert past + es == past;
    } else {
      StepOwned(st, es[0]);
      StepReceipts(st, past, es[0]);
      RunReceipts(Step(st, es[0]), past + [es[0]], es[1..]);
      assert past + [es[0]] + es[1..] == past + es;
    }
  }

  // ---------------------------------------------------------------- when a packet ends its session

  /** For a count that may have wrapped. */
  lemma {:induction false} DueWrapped(n: nat)
    ensures var b := Low32(24 + n); b >= 24 && (b - 24) % 131072 == 0 <==> n % 131072 == 0
  {
    if 24 + n >= TWO32 {
      if n >= TWO32 {
        DueWrapped(n - TWO32);
        BlocksDivide(n - TWO32);
      } else {
        LastBlock(n);
      }
    }
  }

  lemma BlocksDivide(n: nat)
    ensures (n + TWO32) % 131072 == n % 131072
  {
    assert n + TWO32 == n + 131072 * 32768;
  }

  lemma LastBlock(n: nat)
    requires TWO32 - 24 <= n < TWO32
    ensures n % 131072 != 0
  {
    assert n == 131072 * 32767 + (n - 131072 * 32767);
  }

  /** A session that has its settings: a packet ends it if and only if a header is due and the packet has no 24 bytes,
      or the settings ask for an answer and its first 24 bytes are others. Otherwise the whole packet is counted. */
  lemma LaterPacket(st: State, e: Event)
    requires Owned(st) && Enabled(st, e) && e.EvRecv?
    requires Arg(st, e.p) in st.recs && SessionOf(st, e.p).haveSettings
    ensures var s, st' := SessionOf(st, e.p), Step(st, e);
            var ends := s.bytes >= 24 && (s.bytes - 24) % 131072 == 0 &&
                        (TotLen(e.pkt) < 24 || (s.settings[0] >= 0x80 && Flat(e.pkt.chain)[..24] != s.settings));
            && (Live(st', e.p) <==> !ends)
            && (ends ==> Arg(st, e.p) !in st'.recs)
            && (!ends ==> Arg(st, e.p) in st'.recs &&
                          st'.recs[Arg(st, e.p)] == s.(pollCount := 0, bytes := Low32(s.bytes + TotLen(e.pkt))))
  {
    hide Enabled, Step, Owned, Flat, Received, Low32;
    var s := SessionOf(st, e.p);
    SubjectNamed(st, e);
    SubjectAfter(st, e);
    DueExactly(s.bytes);
    if HeaderDue(s.(pollCount := 0)) ==> TotLen(e.pkt) >= HEADER { LaterPacketCounts(s, e.pkt, e.now); }
  }

  /** A session without settings: its first packet must hold a header and, if that asks for an answer at once, the
      answer must start. The header becomes the session's settings, the count 24 whatever the packet's length, and the
      session's time starts. */
  lemma FirstPacket(st: State, e: Event)
    requires Owned(st) && Enabled(st, e) && e.EvRecv?
    requires Arg(st, e.p) in st.recs && !SessionOf(st, e.p).haveSettings && SessionOf(st, e.p).bytes == 0
    ensures var a, h, st' := Arg(st, e.p), Flat(e.pkt.chain), Step(st, e);
            && (Live(st', e.p) <==>
                  |h| >= 24 && (h[0] >= 0x80 && h[3] % 2 == 1 ==>
                                  e.env.block != NULL && e.env.pcb != NULL && e.env.connect == ErrOk))
            && (Live(st', e.p) ==>
                  a in st'.recs && st'.recs[a] == st.recs[a].(pollCount := 0, bytes := 24, timeStarted := e.now,
                                                              settings := h[..24], haveSettings := true))
  {
    hide Enabled, Step, Owned, Flat;
    SubjectNamed(st, e);
    SubjectAfter(st, e);
  }

  lemma SubjectNamed(st: State, e: Event)
    requires Owned(st) && Enabled(st, e) && e.EvRecv?
    ensures Subject(e) == e.p && e.p != NULL
  {
  }

  /** The packet right after the first header is checked, and so is the first one after every 131072 bytes more. */
  lemma HeaderEveryBlock(st: State, e: Event, k: nat)
    requires Owned(st) && Enabled(st, e) && e.EvRecv?
    requires Arg(st, e.p) in st.recs && SessionOf(st, e.p).haveSettings
    requires SessionOf(st, e.p).bytes == 24 + 131072 * k
    ensures Live(Step(st, e), e.p) <==>
            TotLen(e.pkt) >= 24 &&
            (SessionOf(st, e.p).settings[0] >= 0x80 ==> Flat(e.pkt.chain)[..24] == SessionOf(st, e.p).settings)
  {
    hide Enabled, Step, Owned, Flat;
    LaterPacket(st, e);
    assert (SessionOf(st, e.p).bytes - 24) % 131072 == 0;
  }

  /** Over every run, in terms of the packets alone: the first packet of a session must hold a header and, if that asks
      for an answer at once, the answer must start; of the others exactly those that come when the bytes after the
      first packet are a multiple of 131072 are checked, however often the count has wrapped. */
  lemma PacketEnds(mss: Mss, es: seq<Event>, e: Event)
    requires Runs(InitState(mss), es) && AbortFree(InitState(mss), es)
    requires Enabled(Run(InitState(mss), es), e) && e.EvRecv?
    ensures var ps, h := PacketsOf(es, e.p), Flat(e.pkt.chain);
            Live(Step(Run(InitState(mss), es), e), e.p) <==>
            if ps == [] then
              |h| >= 24 && (h[0] >= 0x80 && h[3] % 2 == 1 ==>
                              e.env.block != NULL && e.env.pcb != NULL && e.env.connect == ErrOk)
            else
              || (Total(ps) - TotLen(ps[0])) % 131072 != 0
              || (|h| >= 24 && (|Flat(ps[0].chain)| >= 24 && Flat(ps[0].chain)[0] >= 0x80 ==>
                                  h[..24] == Flat(ps[0].chain)[..24]))
  {
    hide Runs, Run, AbortFree, Enabled, Step, Owned, Flat, Receipts, Low32, Total;
    var st := Run(InitState(mss), es);
    AtStart(mss);
    RunOwned(InitState(mss), es);
    RunReceipts(InitState(mss), [], es);
    assert [] + es == es;
    SubjectNamed(st, e);
    SubjectAfter(st, e);
    SubjectRole(st, e);
    HasReceipt(st, es, e.p);
    var ps, s := PacketsOf(es, e.p), SessionOf(st, e.p);
    if ps != [] {
      LaterPacket(st, e);
      DueWrapped(Total(ps) - TotLen(ps[0]));
    }
  }

  lemma AtStart(mss: Mss)
    ensures Owned(InitState(mss)) && Receipts(InitState(mss), [])
  {
  }

  lemma HasReceipt(st: State, past: seq<Event>, p: Pid)
    requires Receipts(st, past)
    ensures ReceiverOk(st, p, PacketsOf(past, p))
  {
  }
}
