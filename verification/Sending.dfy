/** What a sending session puts on the wire, and when it stops. */
module Sending {
  import opened Words
  import opened WireSettings
  import opened IperfState
  import opened Ownership
  import opened Isolation
  import opened Creation
  import opened Receiving

  // ---------------------------------------------------------------- the stream

  /** The settings, the settings again, then digits: byte i of what a session ought to send. */
  function StreamByte(header: Settings, i: nat): u8 {
    if i < HEADER then header[i]
    else if i < 2 * HEADER then header[i - HEADER]
    else 48 + i % 10
  }

  /** w is the stream from position b on. */
  ghost predicate Continues(header: Settings, b: nat, w: seq<u8>) {
    forall i :: 0 <= i < |w| ==> w[i] == StreamByte(header, b + i)
  }

  /** At most the first n bytes of w. */
  function First(w: seq<u8>, n: nat): seq<u8> {
    if |w| < n then w else w[..n]
  }

  /** The first 2^32 bytes of w are the stream's; beyond that the engine's count has wrapped. */
  ghost predicate IsStream(header: Settings, w: seq<u8>) {
    Continues(header, 0, First(w, TWO32))
  }

  lemma ContinuesConcat(header: Settings, b: nat, d: seq<u8>, rest: seq<u8>)
    requires Continues(header, b, d) && Continues(header, b + |d|, rest)
    ensures Continues(header, b, d + rest)
  {
    forall k | 0 <= k < |d + rest| ensures (d + rest)[k] == StreamByte(header, b + k) {
      if k >= |d| {
        assert (d + rest)[k] == rest[k - |d|];
        assert b + |d| + (k - |d|) == b + k;
      }
    }
  }

  // ---------------------------------------------------------------- send_more in one piece

  /** Everything the rounds of one call hand to tcp_write successfully. */
  function Sent(s: Session, mss: Mss, turns: seq<Turn>): seq<u8>
    decreases |turns|
  {
    if turns == [] || LimitReached(s, turns[0].now) then []
    else
      var d := Taken(s, mss, turns[0]);
      if turns[0].err == ErrOk && s.bytes >= HEADER then
        d + Sent(s.(bytes := Add32(s.bytes, |d|)), mss, turns[1..])
      else d
  }

  /** The rounds end with the session's limit. */
  predicate Finished(s: Session, mss: Mss, turns: seq<Turn>)
    decreases |turns|
  {
    && turns != []
    && (LimitReached(s, turns[0].now)
        || (turns[0].err == ErrOk && s.bytes >= HEADER
            && Finished(s.(bytes := Add32(s.bytes, |Taken(s, mss, turns[0])|)), mss, turns[1..])))
  }

  lemma WroteTwice(st: State, a: Addr, d: seq<u8>, d': seq<u8>)
    requires a in st.recs && st.recs[a].connPcb in st.pcbs
    ensures Wrote(Wrote(st, a, d), a, d') == Wrote(st, a, d + d')
  {
    hide Add32;
    var p, s := st.recs[a].connPcb, st.recs[a];
    var s2, t2 := s.(bytes := Add32(s.bytes, |d + d'|)), st.pcbs[p].(written := st.pcbs[p].written + (d + d'));
    assert st.pcbs[p].written + d + d' == st.pcbs[p].written + (d + d');
    AddTwice(s.bytes, |d|, |d'|);
    Overwrite(st.recs, a, s.(bytes := Add32(s.bytes, |d|)), s2);
    Overwrite(st.pcbs, p, st.pcbs[p].(written := st.pcbs[p].written + d), t2);
  }

  lemma Overwrite<T>(m: map<nat, T>, k: nat, x: T, y: T)
    ensures m[k := x][k := y] == m[k := y]
  {
  }

  lemma AddTwice(b: u32, m: nat, n: nat)
    ensures Add32(Add32(b, m), n) == Add32(b, m + n)
  {
    hide Low32;
    Low32Sum(b + m, n);
  }

  lemma WroteNothing(st: State, a: Addr)
    requires a in st.recs && st.recs[a].connPcb in st.pcbs
    ensures Wrote(st, a, []) == st
  {
    var p := st.recs[a].connPcb;
    assert st.pcbs[p].written + [] == st.pcbs[p].written;
    assert st.recs[a := st.recs[a]] == st.recs && st.pcbs[p := st.pcbs[p]] == st.pcbs;
  }

  /** Whatever the pattern of refusals, one call writes one run of bytes and then either stops or closes. */
  lemma {:induction false} SendMoreIs(st: State, a: Addr, turns: seq<Turn>, how: Closing)
    requires a in st.recs && st.recs[a].connPcb in st.pcbs
    ensures var s := st.recs[a];
            var st1 := Wrote(st, a, Sent(s, st.mss, turns));
            SendMore(st, a, turns, how) ==
              if Finished(s, st.mss, turns) then Close(st1, a, DoneClient, how) else st1
    decreases |turns|
  {
    WroteNothing(st, a);
    var s := st.recs[a];
    if turns != [] && !LimitReached(s, turns[0].now) {
      var d := Taken(s, st.mss, turns[0]);
      if turns[0].err == ErrOk && s.bytes >= HEADER {
        var st1 := Wrote(st, a, d);
        SendMoreIs(st1, a, turns[1..], how);
        WroteTwice(st, a, d, Sent(st1.recs[a], st.mss, turns[1..]));
      }
    }
  }

  // ---------------------------------------------------------------- content

  lemma DigitAt(b: nat, k: nat)
    ensures (b % 10 + k) % 10 == (b + k) % 10
  {
  }

  lemma OfferContinues(s: Session, mss: Mss)
    ensures Continues(s.settings, s.bytes, Offer(s, mss))
  {
    if s.bytes >= 2 * HEADER { DigitsContinue(s, mss); }
  }

  lemma DigitsContinue(s: Session, mss: Mss)
    requires s.bytes >= 2 * HEADER
    ensures Continues(s.settings, s.bytes, Offer(s, mss))
  {
    var d := Offer(s, mss);
    forall k | 0 <= k < |d| ensures d[k] == StreamByte(s.settings, s.bytes + k) {
      DigitAt(s.bytes, k);
      assert d[k] == TxBuf()[s.bytes % 10 + k];
    }
  }

  lemma TakenContinues(s: Session, mss: Mss, t: Turn)
    ensures |Taken(s, mss, t)| <= mss && Continues(s.settings, s.bytes, Taken(s, mss, t))
  {
    OfferContinues(s, mss);
  }

  /** One call carries the stream on from where the count stands, up to the byte at which the count wraps. */
  lemma {:induction false} SentContinues(s: Session, mss: Mss, turns: seq<Turn>)
    ensures Continues(s.settings, s.bytes, First(Sent(s, mss, turns), TWO32 - s.bytes))
    decreases |turns|
  {
    hide LimitReached, Offer, Add32;
    if turns == [] || LimitReached(s, turns[0].now) {
    } else {
      TakenContinues(s, mss, turns[0]);
      var d := Taken(s, mss, turns[0]);
      if turns[0].err == ErrOk && s.bytes >= HEADER {
        var s' := s.(bytes := Add32(s.bytes, |d|));
        var rest := Sent(s', mss, turns[1..]);
        assert Sent(s, mss, turns) == d + rest;
        SentContinues(s', mss, turns[1..]);
        FirstConcat(s.settings, s.bytes, d, rest);
      }
    }
  }

  /** d from position b, then rest from the wrapped position after it. */
  lemma FirstConcat(header: Settings, b: u32, d: seq<u8>, rest: seq<u8>)
    requires Continues(header, b, d) && |d| < TWO32
    requires Continues(header, Add32(b, |d|), First(rest, TWO32 - Add32(b, |d|)))
    ensures Continues(header, b, First(d + rest, TWO32 - b))
  {
    if b + |d| < TWO32 {
      var r := First(rest, TWO32 - (b + |d|));
      ContinuesConcat(header, b, d, r);
      assert First(d + rest, TWO32 - b) == d + r;
    } else {
      assert First(d + rest, TWO32 - b) == d[..TWO32 - b];
    }
  }

  // ---------------------------------------------------------------- limits

  lemma AmountBound(header: Settings)
    ensures TimeLimited(header) <==> Amount(header) >= TWO31
  {
  }

  /** A byte-limited session writes only below its amount, and then at most one segment. */
  lemma {:induction false} SentWithinBudget(s: Session, mss: Mss, turns: seq<Turn>)
    requires !TimeLimited(s.settings) && s.bytes < Amount(s.settings) + mss
    ensures s.bytes + |Sent(s, mss, turns)| < Amount(s.settings) + mss
    ensures Finished(s, mss, turns) ==> s.bytes + |Sent(s, mss, turns)| >= Amount(s.settings)
    decreases |turns|
  {
    hide Offer, Amount, Halve;
    AmountBound(s.settings);
    if turns == [] || LimitReached(s, turns[0].now) {
    } else {
      TakenContinues(s, mss, turns[0]);
      var d := Taken(s, mss, turns[0]);
      if turns[0].err == ErrOk && s.bytes >= HEADER {
        SentWithinBudget(s.(bytes := Add32(s.bytes, |d|)), mss, turns[1..]);
      }
    }
  }

  /** The last round of a call is the one whose clock counts; T gives the readings on an unbounded clock. */
  lemma {:induction false} TimeLimitExact(s: Session, mss: Mss, turns: seq<Turn>, start: nat, T: seq<nat>)
    requires TimeLimited(s.settings) && Rounds(s, mss, turns)
    requires s.timeStarted == Low32(start) && |T| == |turns|
    requires forall i :: 0 <= i < |T| ==> start <= T[i] < start + TWO32 && turns[i].now == Low32(T[i])
    ensures Finished(s, mss, turns) <==> T[|T| - 1] >= start + TimeLimitMs(s.settings)
    ensures forall i :: 0 <= i < |T| - 1 ==> T[i] < start + TimeLimitMs(s.settings)
    ensures T[0] >= start + TimeLimitMs(s.settings) ==> Sent(s, mss, turns) == []
    decreases |turns|
  {
    hide Offer, Amount, TimeLimitMs, Halve;
    ElapsedTime(start, T[0]);
    if !LimitReached(s, turns[0].now) && |turns| > 1 {
      TimeLimitExact(s.(bytes := Add32(s.bytes, |Taken(s, mss, turns[0])|)), mss, turns[1..], start, T[1..]);
    }
  }

  lemma {:induction false} ElapsedTime(start: nat, t: nat)
    requires start <= t < start + TWO32
    ensures Sub32(Low32(t), Low32(start)) == t - start
  {
    if start >= TWO32 { ElapsedTime(start - TWO32, t - TWO32); }
  }

  // ---------------------------------------------------------------- over whole runs

  /** The history of a sending block agrees with the header it was made for; while its session lives,
      the record's counter is the length of that history modulo 2^32. */
  ghost predicate SenderOk(st: State, p: Pid)
    requires p in st.pcbs
  {
    var t := st.pcbs[p];
    && (!t.origin.Sender() ==> t.written == [])
    && (t.origin.Sender() ==>
          && IsStream(t.origin.header, t.written)
          && (!TimeLimited(t.origin.header) ==> |t.written| < Amount(t.origin.header) + st.mss))
    && (Live(st, p) && Arg(st, p) in st.recs ==>
          && (!SessionOf(st, p).server <==> t.origin.Sender())
          && (t.origin.Sender() ==>
                SessionOf(st, p).settings == t.origin.header && SessionOf(st, p).bytes == Low32(|t.written|)))
  }

  ghost predicate Streams(st: State) {
    forall p :: p in st.pcbs ==> SenderOk(st, p)
  }

  lemma StreamGrows(s: Session, mss: Mss, turns: seq<Turn>, w: seq<u8>)
    requires s.bytes == Low32(|w|) && IsStream(s.settings, w)
    ensures IsStream(s.settings, w + Sent(s, mss, turns))
  {
    hide LimitReached, Offer, StreamByte, Sent;
    var d := Sent(s, mss, turns);
    if |w| < TWO32 {
      SentContinues(s, mss, turns);
      var d' := First(d, TWO32 - |w|);
      assert First(w + d, TWO32) == w + d';
      ContinuesConcat(s.settings, 0, w, d');
    } else {
      assert First(w + d, TWO32) == First(w, TWO32);
    }
  }

  lemma WroteSenderOk(st: State, p: Pid, turns: seq<Turn>)
    requires p != NULL && Live(st, p) && Reaches(st, p) && !SessionOf(st, p).server && SenderOk(st, p)
    ensures SenderOk(Wrote(st, Arg(st, p), Sent(SessionOf(st, p), st.mss, turns)), p)
  {
    hide LimitReached, Amount, Sent, IsStream, TimeLimited;
    var s := SessionOf(st, p);
    var t := st.pcbs[p];
    Low32Sum(|t.written|, |Sent(s, st.mss, turns)|);
    StreamGrows(s, st.mss, turns, t.written);
    if !TimeLimited(t.origin.header) {
      AmountBound(t.origin.header);
      SentWithinBudget(s, st.mss, turns);
    }
  }

  lemma SendMoreSenderOk(st: State, p: Pid, turns: seq<Turn>, how: Closing)
    requires p != NULL && Live(st, p) && Reaches(st, p) && !SessionOf(st, p).server && SenderOk(st, p)
    ensures p in SendMore(st, Arg(st, p), turns, how).pcbs && SenderOk(SendMore(st, Arg(st, p), turns, how), p)
  {
    hide LimitReached, Continues, Amount;
    var a := Arg(st, p);
    SendMoreIs(st, a, turns, how);
    WroteSenderOk(st, p, turns);
    if Finished(st.recs[a], st.mss, turns) {
      CloseSenderOk(Wrote(st, a, Sent(st.recs[a], st.mss, turns)), p, DoneClient, how);
    }
  }

  lemma CloseSenderOk(st: State, p: Pid, kind: Kind, how: Closing)
    requires p != NULL && Live(st, p) && Reaches(st, p) && SenderOk(st, p)
    ensures var st' := Close(st, Arg(st, p), kind, how);
            p in st'.pcbs && !Live(st', p) && SenderOk(st', p)
  {
  }

  lemma ConnectedSenderOk(st: State, e: Event)
    requires Owned(st) && Enabled(st, e) && e.EvConnected? && SenderOk(st, e.p)
    ensures e.p in Step(st, e).pcbs && SenderOk(Step(st, e), e.p)
  {
    hide Rounds, SendMore, IsStream, Amount, TimeLimited, Close;
    var p := e.p;
    CallbackArgument(st, p);
    var a := Arg(st, p);
    var st1 := st.(pcbs := st.pcbs[p := st.pcbs[p].(onConnected := false)]);
    if e.ok {
      SendMoreSenderOk(WithRec(st1, a, st.recs[a].(pollCount := 0, timeStarted := e.now)), p, e.turns, e.how);
    } else {
      CloseSenderOk(st1, p, AbortedRemote, e.how);
    }
  }

  lemma RecvEndSenderOk(st: State, e: Event)
    requires Owned(st) && Enabled(st, e) && e.EvRecvEnd? && e.p != NULL && SenderOk(st, e.p)
    ensures e.p in Step(st, e).pcbs && SenderOk(Step(st, e), e.p)
  {
    hide IsStream, Amount, TimeLimited, TxStartPassive, Close, Owned;
    var p, a := e.p, Arg(st, e.p);
    CallbackArgument(st, p);
    TxStartPassiveOwned(st, a, e.env);
    var st1 := TxStartPassive(st, a, e.env).st;
    SameMss(st, a, e.env);
    UntouchedSenderOk(st, st1, p);
    CloseSenderOk(st1, p, DoneServer, e.how);
    CloseSenderOk(st, p, DoneServer, e.how);
  }

  lemma SameMss(st: State, a: Addr, env: StartEnv)
    requires a in st.recs && st.recs[a].connPcb in st.pcbs
    ensures TxStartPassive(st, a, env).st.mss == st.mss
  {
  }

  /** The block and record of the event's own connection. */
  lemma SubjectSenderOk(st: State, e: Event)
    requires Owned(st) && Enabled(st, e) && Subject(e) != NULL && SenderOk(st, Subject(e))
    ensures Subject(e) in Step(st, e).pcbs && SenderOk(Step(st, e), Subject(e))
  {
    hide Rounds, SendMore, PollStep, RecvData, RecvEnd, IsStream, Amount, TimeLimited;
    var p := Subject(e);
    CallbackArgument(st, p);
    var a := Arg(st, p);
    match e
    case EvConnected(_, _, _, _, _) => ConnectedSenderOk(st, e);
    case EvSent(_, turns, how) =>
      SendMoreSenderOk(WithRec(st, a, st.recs[a].(pollCount := 0)), p, turns, how);
    case EvRecv(_, pkt, now, how, env) =>
      RecvDataSenderOk(st, p, pkt, now, how, env);
    case EvRecvEnd(_, _, _) => RecvEndSenderOk(st, e);
    case EvRecvErr(_, how) => CloseSenderOk(st, p, AbortedRemote, how);
    case EvPoll(_, turns, how) => PollSenderOk(st, p, turns, how);
    case EvErr(_) =>
    case EvVanished(_) =>
  }

  lemma PollSenderOk(st: State, p: Pid, turns: seq<Turn>, how: Closing)
    requires p != NULL && Live(st, p) && Reaches(st, p) && SenderOk(st, p)
    ensures var st' := PollStep(st, Arg(st, p), turns, how); p in st'.pcbs && SenderOk(st', p)
  {
    hide LimitReached, Continues, Amount;
    var a := Arg(st, p);
    var st1 := WithRec(st, a, st.recs[a].(pollCount := Inc8(st.recs[a].pollCount)));
    assert SenderOk(st1, p);
    if st1.recs[a].pollCount >= MAX_IDLE { CloseSenderOk(st1, p, AbortedLocal, how); }
    else if !st.recs[a].server { SendMoreSenderOk(st1, p, turns, how); }
  }

  /** Receiving sessions write nothing, whatever arrives. */
  lemma RecvDataSenderOk(st: State, p: Pid, pkt: Pbuf, now: u32, how: Closing, env: StartEnv)
    requires Owned(st) && Live(st, p) && Reaches(st, p) && SessionOf(st, p).server && SenderOk(st, p)
    requires Arg(st, p) in st.order && ConnectionOk(st, Arg(st, p)) && FreshStart(st, env) && p != NULL
    ensures var st' := RecvData(st, Arg(st, p), pkt, now, how, env); p in st'.pcbs && SenderOk(st', p)
  {
    hide Owned, RecvData, Continues, Amount;
    RecvDataHandled(st, p, pkt, now, how, env);
  }

  lemma NewbornSenderOk(st: State, e: Event, st': State, p: Pid)
    requires p in st'.pcbs && Newborn(st', p) && Provenance(st, e, p, st'.pcbs[p].origin)
    ensures SenderOk(st', p)
  {
  }

  lemma StepStreams(st: State, e: Event)
    requires Owned(st) && Enabled(st, e) && !Aborts(st, e) && Streams(st)
    ensures Streams(Step(st, e))
  {
    hide Continues, Amount, TimeLimited, Low32, Rounds, Step, Enabled;
    var st' := Step(st, e);
    forall p | p in st'.pcbs ensures SenderOk(st', p) {
      if p !in st.pcbs {
        EventCreates(st, e, p);
        NewbornSenderOk(st, e, st', p);
      } else if p == Subject(e) {
        SubjectSenderOk(st, e);
      } else if Listener(st, p) {
        ListenerStays(st, e, p);
        CallbackArgument(st, p);
      } else {
        EventIsLocal(st, e, p);
        if Live(st, p) { CallbackArgument(st, p); }
        UntouchedSenderOk(st, st', p);
      }
    }
  }

  lemma UntouchedSenderOk(st: State, st': State, p: Pid)
    requires p in st.pcbs && Untouched(st, st', p) && SenderOk(st, p)
    requires Live(st, p) ==> Arg(st, p) in st.recs
    ensures SenderOk(st', p)
  {
    hide Continues, Amount;
  }

  /** Whatever pattern of refusals and retries a run sees, what every sending block ever made has handed to
      tcp_write begins like settings, settings, digits, for its first 2^32 bytes; a byte-limited one never gets
      that far, and stays under its amount plus one segment. */
  lemma {:induction false} RunStreams(st: State, es: seq<Event>)
    requires Owned(st) && Streams(st) && Runs(st, es) && AbortFree(st, es)
    ensures Streams(Run(st, es))
    decreases |es|
  {
    if es == [] {
    } else {
      StepOwned(st, es[0]);
      StepStreams(st, es[0]);
      RunStreams(Step(st, es[0]), es[1..]);
    }
  }
}
