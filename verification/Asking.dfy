/** What the sequence of calls says by itself: the clock readings that decide a time limit, the writes that make up a
    block's output, how a refused write is retried, and that nothing happens unasked. */
module Asking {
  import opened Words
  import opened WireSettings
  import opened IperfState
  import opened Ownership
  import opened Isolation
  import opened Creation
  import opened Receiving
  import opened Sending
  import opened Calls

  /** The answers of the clock, in order. */
  function Readings(calls: seq<Call>): seq<u32> {
    if calls == [] then []
    else (if calls[0].Clock? then [calls[0].now] else []) + Readings(calls[1..])
  }

  predicate TakenBy(c: Call, p: Pid) {
    c.Write? && c.pcb == p && c.err == ErrOk
  }

  /** What the writes on p that were accepted carried, in order. */
  function Carried(calls: seq<Call>, p: Pid): seq<u8> {
    if calls == [] then []
    else (if TakenBy(calls[0], p) then calls[0].data else []) + Carried(calls[1..], p)
  }

  lemma Joined<T>(x: seq<T>, y: seq<T>, z: seq<T>)
    ensures x + y + z == x + (y + z)
  {
  }

  lemma {:induction false} ReadingsConcat(a: seq<Call>, b: seq<Call>)
    ensures Readings(a + b) == Readings(a) + Readings(b)
  {
    if a == [] {
      assert a + b == b;
    } else {
      assert (a + b)[0] == a[0] && (a + b)[1..] == a[1..] + b;
      ReadingsConcat(a[1..], b);
      Joined(if a[0].Clock? then [a[0].now] else [], Readings(a[1..]), Readings(b));
    }
  }

  lemma {:induction false} CarriedConcat(a: seq<Call>, b: seq<Call>, p: Pid)
    ensures Carried(a + b, p) == Carried(a, p) + Carried(b, p)
  {
    if a == [] {
      assert a + b == b;
    } else {
      assert (a + b)[0] == a[0] && (a + b)[1..] == a[1..] + b;
      CarriedConcat(a[1..], b, p);
      Joined(if TakenBy(a[0], p) then a[0].data else [], Carried(a[1..], p), Carried(b, p));
    }
  }

  lemma ThreeParts(a: seq<Call>, b: seq<Call>, c: seq<Call>, p: Pid)
    ensures Readings(a + b + c) == Readings(a) + Readings(b) + Readings(c)
    ensures Carried(a + b + c, p) == Carried(a, p) + Carried(b, p) + Carried(c, p)
  {
    hide *;
    ReadingsConcat(a + b, c);
    ReadingsConcat(a, b);
    CarriedConcat(a + b, c, p);
    CarriedConcat(a, b, p);
  }

  lemma EmptyEnds(d: seq<u8>, rest: seq<u8>)
    ensures [] + d + rest == d + rest && d + [] == d
  {
  }

  lemma {:induction false} NoReadings(calls: seq<Call>)
    requires forall c :: c in calls ==> !c.Clock?
    ensures Readings(calls) == []
  {
    if calls != [] { NoReadings(calls[1..]); }
  }

  lemma {:induction false} NothingCarried(calls: seq<Call>, p: Pid)
    requires forall c :: c in calls ==> !TakenBy(c, p)
    ensures Carried(calls, p) == []
  {
    if calls != [] { NothingCarried(calls[1..], p); }
  }

  // ---------------------------------------------------------------- one round

  /** The constant buffer holds the ten digits over and over. */
  lemma BufferIs()
    ensures |TxBuf()| == 1600 && TxBuf()[..10] == [48, 49, 50, 51, 52, 53, 54, 55, 56, 57]
    ensures forall i :: 10 <= i < 1600 ==> TxBuf()[i] == TxBuf()[i - 10]
  {
    assert forall i :: 10 <= i < 1600 ==> i % 10 == (i - 10) % 10;
  }

  /** How much a round offers first. */
  lemma OfferLength(s: Session, mss: Mss)
    ensures |Offer(s, mss)| ==
            if s.bytes < 24 then 24 - s.bytes
            else if s.bytes < 48 then 48 - s.bytes
            else if s.bytes == 48 then mss - 24 else mss
  {
  }

  lemma {:induction false} RefusalAt(p: Pid, d: seq<u8>, copy: bool, more: bool, k: nat, i: nat)
    requires i < k
    ensures |Refusals(p, d, copy, more, k)| == k
    ensures Refusals(p, d, copy, more, k)[i] == Write(p, d[..Halve(|d|, i)], copy, more, ErrMem)
  {
    if i < k - 1 {
      RefusalAt(p, d, copy, more, k - 1, i);
    } else if k > 1 {
      RefusalAt(p, d, copy, more, k - 1, 0);
    }
  }

  lemma WriteAt(p: Pid, d: seq<u8>, copy: bool, more: bool, k: nat, err: Err, i: nat)
    requires i <= k
    ensures var c := WriteCalls(p, d, copy, more, k, err);
            |c| == k + 1 && c[i] == Write(p, d[..Halve(|d|, i)], copy, more, if i < k then ErrMem else err)
  {
    if i < k { RefusalAt(p, d, copy, more, k, i); } else if k > 0 { RefusalAt(p, d, copy, more, k, 0); }
  }

  /** A round begins with everything there is to offer; a refused write is followed by one of half as many of the same
      bytes if these are at least half a segment, and is the last one otherwise; any other answer ends the round. The
      settings are copied by the stack; what is not copied lies in the constant buffer, so a record that goes takes no
      unsent data with it. */
  lemma RetriesExactly(s: Session, mss: Mss, t: Turn, i: nat)
    requires IsTurn(t, |Offer(s, mss)|, mss) && i < |RoundCalls(s, mss, t)|
    ensures var c := RoundCalls(s, mss, t);
            && c[i].Write? && c[i].pcb == s.connPcb
            && (i == 0 ==> c[i].data == Offer(s, mss))
            && (i + 1 < |c| ==>
                  && c[i].err == ErrMem && |c[i].data| / 2 >= mss / 2
                  && c[i + 1].Write? && c[i + 1].data == c[i].data[..|c[i].data| / 2])
            && (i + 1 == |c| ==> c[i].err == t.err && (t.err == ErrMem ==> |c[i].data| / 2 < mss / 2))
            && (c[i].copy <==> s.bytes < 48) && (c[i].more <==> 24 <= s.bytes < 48)
            && (!c[i].copy ==> var off := s.bytes % 10;
                               off + |c[i].data| <= 1600 && c[i].data == TxBuf()[off..off + |c[i].data|])
  {
    hide RoundCalls, WriteCalls, Offer, TxBuf;
    var d := Offer(s, mss);
    RoundIs(s, mss, t);
    WriteAt(s.connPcb, d, s.bytes < 48, 24 <= s.bytes < 48, t.halvings, t.err, i);
    if i < t.halvings {
      WriteAt(s.connPcb, d, s.bytes < 48, 24 <= s.bytes < 48, t.halvings, t.err, i + 1);
    }
    if s.bytes >= 48 { FromBuffer(s, mss, Halve(|d|, i)); }
  }

  lemma RoundIs(s: Session, mss: Mss, t: Turn)
    ensures RoundCalls(s, mss, t) ==
            WriteCalls(s.connPcb, Offer(s, mss), s.bytes < 48, 24 <= s.bytes < 48, t.halvings, t.err)
    ensures |RoundCalls(s, mss, t)| == t.halvings + 1
  {
    WriteAt(s.connPcb, Offer(s, mss), s.bytes < 48, 24 <= s.bytes < 48, t.halvings, t.err, 0);
  }

  lemma FromBuffer(s: Session, mss: Mss, n: nat)
    requires s.bytes >= 48 && n <= |Offer(s, mss)|
    ensures var off := s.bytes % 10; off + n <= 1600 && Offer(s, mss)[..n] == TxBuf()[off..off + n]
  {
  }

  // ---------------------------------------------------------------- one call of the send loop

  lemma RoundSilent(s: Session, mss: Mss, t: Turn, p: Pid)
    ensures Readings(RoundCalls(s, mss, t)) == []
    ensures Carried(RoundCalls(s, mss, t), p) == if p == s.connPcb then Taken(s, mss, t) else []
  {
    hide WriteCalls, Refusals, Offer, Readings, Carried;
    var d, k, copy, more := Offer(s, mss), t.halvings, s.bytes < 2 * HEADER, HEADER <= s.bytes < 2 * HEADER;
    WriteParts(s.connPcb, d, copy, more, k, t.err);
    forall c | c in RoundCalls(s, mss, t) ensures c.Write? {
      var i :| 0 <= i < |RoundCalls(s, mss, t)| && RoundCalls(s, mss, t)[i] == c;
      WriteAt(s.connPcb, d, copy, more, k, t.err, i);
    }
    NoReadings(RoundCalls(s, mss, t));
    RefusedOnly(s.connPcb, d, copy, more, k, p);
    CarriedConcat(Refusals(s.connPcb, d, copy, more, k), [Write(s.connPcb, d[..Halve(|d|, k)], copy, more, t.err)], p);
    CarriedOne(Write(s.connPcb, d[..Halve(|d|, k)], copy, more, t.err), p);
  }

  lemma WriteParts(p: Pid, d: seq<u8>, copy: bool, more: bool, k: nat, err: Err)
    ensures WriteCalls(p, d, copy, more, k, err) ==
            Refusals(p, d, copy, more, k) + [Write(p, d[..Halve(|d|, k)], copy, more, err)]
    ensures |WriteCalls(p, d, copy, more, k, err)| == k + 1
  {
    WriteAt(p, d, copy, more, k, err, 0);
  }

  lemma RefusedOnly(p: Pid, d: seq<u8>, copy: bool, more: bool, k: nat, q: Pid)
    ensures Carried(Refusals(p, d, copy, more, k), q) == []
  {
    hide Refusals, Carried;
    if k > 0 {
      RefusalAt(p, d, copy, more, k, 0);
      forall c | c in Refusals(p, d, copy, more, k) ensures !TakenBy(c, q) {
        var i :| 0 <= i < k && Refusals(p, d, copy, more, k)[i] == c;
        RefusalAt(p, d, copy, more, k, i);
      }
      NothingCarried(Refusals(p, d, copy, more, k), q);
    } else {
      NoRefusals(p, d, copy, more, q);
    }
  }

  lemma NoRefusals(p: Pid, d: seq<u8>, copy: bool, more: bool, q: Pid)
    ensures Carried(Refusals(p, d, copy, more, 0), q) == []
  {
  }

  lemma CarriedOne(c: Call, p: Pid)
    ensures Carried([c], p) == if TakenBy(c, p) then c.data else []
  {
    assert [c][1..] == [];
  }

  lemma LimitSilent(s: Session, t: Turn, p: Pid)
    ensures Readings(LimitCalls(s, t)) == if TimeLimited(s.settings) then [t.now] else []
    ensures Carried(LimitCalls(s, t), p) == []
  {
    assert [Clock(t.now)][1..] == [];
  }

  lemma CloseSilent(s: Session, how: Closing, p: Pid)
    ensures Readings(CloseCalls(s, how)) == [] && Carried(CloseCalls(s, how), p) == []
  {
    hide Readings, Carried;
    NoReadings(CloseCalls(s, how));
    NothingCarried(CloseCalls(s, how), p);
  }

  /** A time-limited call reads the clock once for every round, and these readings are what its rounds decide by; a
      byte-limited one never does. */
  lemma {:induction false} SendReads(s: Session, mss: Mss, turns: seq<Turn>, how: Closing)
    requires Rounds(s, mss, turns)
    ensures var r := Readings(SendCalls(s, mss, turns, how));
            if TimeLimited(s.settings) then |r| == |turns| && forall i :: 0 <= i < |turns| ==> r[i] == turns[i].now
            else r == []
    decreases |turns|
  {
    hide LimitReached, LimitCalls, RoundCalls, CloseCalls, Taken, Readings, Carried, Offer, IsTurn, TimeLimited;
    var t := turns[0];
    LimitSilent(s, t, s.connPcb);
    if LimitReached(s, t.now) {
      CloseSilent(s, how, s.connPcb);
      ReadingsConcat(LimitCalls(s, t), CloseCalls(s, how));
    } else {
      RoundSilent(s, mss, t, s.connPcb);
      var s1 := s.(bytes := Add32(s.bytes, |Taken(s, mss, t)|));
      var goes := t.err == ErrOk && s.bytes >= HEADER;
      var rest := if goes then SendCalls(s1, mss, turns[1..], how) else [Output(s.connPcb)];
      if goes { SendReads(s1, mss, turns[1..], how); } else { OutputSilent(s.connPcb, s.connPcb); }
      ThreeParts(LimitCalls(s, t), RoundCalls(s, mss, t), rest, s.connPcb);
    }
  }

  /** What a call writes is what its accepted writes carry, all of it on its own block. */
  lemma {:induction false} SendWrites(s: Session, mss: Mss, turns: seq<Turn>, how: Closing, p: Pid)
    ensures Carried(SendCalls(s, mss, turns, how), p) == if p == s.connPcb then Sent(s, mss, turns) else []
    decreases |turns|
  {
    hide LimitReached, LimitCalls, RoundCalls, CloseCalls, Taken, Carried, Offer;
    if turns == [] {
      NothingCarried([], p);
    } else {
      var t := turns[0];
      LimitSilent(s, t, p);
      if LimitReached(s, t.now) {
        CloseSilent(s, how, p);
        CarriedConcat(LimitCalls(s, t), CloseCalls(s, how), p);
      } else {
        RoundSilent(s, mss, t, p);
        var s1 := s.(bytes := Add32(s.bytes, |Taken(s, mss, t)|));
        var goes := t.err == ErrOk && s.bytes >= HEADER;
        var rest := if goes then SendCalls(s1, mss, turns[1..], how) else [Output(s.connPcb)];
        if goes { SendWrites(s1, mss, turns[1..], how, p); } else { OutputSilent(s.connPcb, p); }
        ThreeParts(LimitCalls(s, t), RoundCalls(s, mss, t), rest, p);
        EmptyEnds(Taken(s, mss, t), Carried(rest, p));
      }
    }
  }

  /** A call goes on until its limit is reached or the stack refuses a write for good, except that the first header
      goes alone, also where the count has wrapped; unless it closes the session it ends by asking the stack to send. */
  lemma {:induction false} SendsUntilRefused(s: Session, mss: Mss, turns: seq<Turn>, how: Closing)
    requires Rounds(s, mss, turns)
    ensures forall i :: 0 <= i < |turns| - 1 ==> turns[i].err == ErrOk
    ensures s.bytes < 24 ==> |turns| == 1
    ensures !Finished(s, mss, turns) ==>
              && (turns[|turns| - 1].err == ErrOk ==> s.bytes < 24 || s.bytes + |Sent(s, mss, turns)| >= 0x1_0000_0000)
              && var calls := SendCalls(s, mss, turns, how);
                 calls != [] && calls[|calls| - 1] == Output(s.connPcb)
    decreases |turns|
  {
    hide LimitReached, LimitCalls, RoundCalls, CloseCalls, Taken, Offer, IsTurn;
    if !LimitReached(s, turns[0].now) && turns[0].err == ErrOk && s.bytes >= HEADER {
      var s1 := s.(bytes := Add32(s.bytes, |Taken(s, mss, turns[0])|));
      if s.bytes + |Taken(s, mss, turns[0])| < TWO32 { assert s1.bytes == s.bytes + |Taken(s, mss, turns[0])|; }
      SendsUntilRefused(s1, mss, turns[1..], how);
    }
  }

  lemma OutputSilent(q: Pid, p: Pid)
    ensures Readings([Output(q)]) == [] && Carried([Output(q)], p) == []
  {
    hide Readings, Carried;
    NoReadings([Output(q)]);
    NothingCarried([Output(q)], p);
  }

  // ---------------------------------------------------------------- events

  lemma StartWrites(ip: Ip, port: u16, env: StartEnv, senv: ServerEnv, noAddr: bool, kind: ClientType)
    ensures forall c :: c in StartCalls(ip, port, env) ==> !c.Write?
    ensures forall c :: c in ServerCalls(noAddr, senv) ==> !c.Write?
    ensures forall c :: c in ClientCalls(kind, ip, port, env, senv) ==> !c.Write?
  {
    assert forall c :: c in ServerCalls(false, senv) ==> !c.Write?;
  }

  /** A callback on a receiving session, and an error, write nothing. */
  lemma ReceivingWrites(s: Session, ip: Ip, mss: Mss, e: Event)
    requires e.EvRecv? || e.EvRecvEnd? || e.EvRecvErr? || e.EvErr? || e.EvVanished? || (e.EvConnected? && !e.ok)
    ensures forall c :: c in CallbackCalls(s, ip, mss, e) ==> !c.Write?
  {
    hide StartCalls, Flat, HeaderDue, AnswerTest, AnswerNow, RemotePort;
    if e.EvRecv? {
      if TotLen(e.pkt) >= HEADER {
        StartWrites(ip, RemotePort(Flat(e.pkt.chain)[..HEADER]), e.env, ServerEnv(0, 0, ErrOk, 0), true, InvalidType);
      }
    } else if e.EvRecvEnd? {
      StartWrites(ip, RemotePort(s.settings), e.env, ServerEnv(0, 0, ErrOk, 0), true, InvalidType);
    }
  }

  lemma OtherWrites(st: State, e: Event, p: Pid)
    requires Subject(e) == NULL && NULL !in st.pcbs
    ensures Carried(EventCalls(st, e), p) == []
  {
    hide Carried, StartCalls, ServerCalls, ClientCalls;
    match e
    case EvStartServer(noAddr, _, senv) =>
      StartWrites(0, 0, StartEnv(0, 0, 0, ErrOk, Gone), senv, noAddr, InvalidType);
      NothingCarried(EventCalls(st, e), p);
    case EvStartClient(kind, ip, port, _, env, senv) =>
      StartWrites(ip, port, env, senv, true, kind);
      NothingCarried(EventCalls(st, e), p);
    case _ => NothingCarried(EventCalls(st, e), p);
  }

  lemma SendMoreWrites(st: State, p: Pid, turns: seq<Turn>, how: Closing)
    requires p != NULL && Reaches(st, p)
    ensures var st' := SendMore(st, Arg(st, p), turns, how);
            p in st'.pcbs && st'.pcbs[p].written == st.pcbs[p].written + Sent(SessionOf(st, p), st.mss, turns)
  {
    hide Sent, Finished, SendMore, Add32, Without;
    SendMoreIs(st, Arg(st, p), turns, how);
  }

  lemma ClosedWrites(st: State, p: Pid, kind: Kind, how: Closing)
    requires p != NULL && Reaches(st, p)
    ensures var st' := Close(st, Arg(st, p), kind, how);
            p in st'.pcbs && st'.pcbs[p].written == st.pcbs[p].written
  {
    hide Without;
  }

  /** An event that calls the send loop on p adds what its accepted writes on p carry. */
  ghost predicate WritesLogged(st: State, e: Event, p: Pid)
    requires p in st.pcbs
  {
    var st' := Step(st, e);
    p in st'.pcbs && st'.pcbs[p].written == st.pcbs[p].written + Carried(EventCalls(st, e), p)
  }

  lemma ConnectedWrites(st: State, e: Event)
    requires Owned(st) && Enabled(st, e) && e.EvConnected? && e.ok
    ensures WritesLogged(st, e, e.p)
    ensures forall q :: q != e.p ==> Carried(EventCalls(st, e), q) == []
  {
    hide Rounds, SendMore, Carried, SendCalls, Sent, CallbackOk, ListedOk;
    var p := e.p;
    CallbackArgument(st, p);
    var s := st.recs[Arg(st, p)].(pollCount := 0, timeStarted := e.now);
    var st1 := st.(pcbs := st.pcbs[p := st.pcbs[p].(onConnected := false)]);
    SendMoreWrites(WithRec(st1, Arg(st, p), s), p, e.turns, e.how);
    forall q ensures Carried(EventCalls(st, e), q) == if q == p then Sent(s, st.mss, e.turns) else [] {
      SendWrites(s, st.mss, e.turns, e.how, q);
      CarriedConcat([Clock(e.now)], SendCalls(s, st.mss, e.turns, e.how), q);
      CarriedOne(Clock(e.now), q);
    }
  }

  lemma SentWrites(st: State, e: Event)
    requires Owned(st) && Enabled(st, e) && e.EvSent?
    ensures WritesLogged(st, e, e.p)
    ensures forall q :: q != e.p ==> Carried(EventCalls(st, e), q) == []
  {
    hide Rounds, SendMore, Carried, SendCalls, Sent, CallbackOk, ListedOk;
    var p := e.p;
    CallbackArgument(st, p);
    var s := st.recs[Arg(st, p)].(pollCount := 0);
    SendMoreWrites(WithRec(st, Arg(st, p), s), p, e.turns, e.how);
    forall q ensures Carried(EventCalls(st, e), q) == if q == p then Sent(s, st.mss, e.turns) else [] {
      SendWrites(s, st.mss, e.turns, e.how, q);
    }
  }

  lemma PollWrites(st: State, e: Event)
    requires Owned(st) && Enabled(st, e) && e.EvPoll?
    ensures WritesLogged(st, e, e.p)
    ensures forall q :: q != e.p ==> Carried(EventCalls(st, e), q) == []
  {
    hide Rounds, SendMore, Carried, SendCalls, Sent, Close, CloseCalls, CallbackOk, ListedOk;
    var p := e.p;
    CallbackArgument(st, p);
    var s := st.recs[Arg(st, p)].(pollCount := Inc8(st.recs[Arg(st, p)].pollCount));
    var st1 := WithRec(st, Arg(st, p), s);
    SendMoreWrites(st1, p, e.turns, e.how);
    ClosedWrites(st1, p, AbortedLocal, e.how);
    forall q ensures Carried(SendCalls(s, st.mss, e.turns, e.how), q) ==
                     if q == p then Sent(s, st.mss, e.turns) else []
    {
      SendWrites(s, st.mss, e.turns, e.how, q);
    }
    forall q ensures Carried(CloseCalls(s, e.how), q) == [] && Carried([], q) == [] {
      CloseSilent(s, e.how, q);
      NothingCarried([], q);
    }
  }

  lemma ReceiverWrites(st: State, e: Event)
    requires Owned(st) && Enabled(st, e) && Subject(e) != NULL && !e.EvSent? && !e.EvPoll?
    requires e.EvConnected? ==> !e.ok
    ensures WritesLogged(st, e, e.p)
    ensures forall q :: q != e.p ==> Carried(EventCalls(st, e), q) == []
  {
    hide Rounds, Carried, CallbackCalls, CallbackOk, ListedOk, Close, RecvData, RecvEnd;
    var p := e.p;
    CallbackArgument(st, p);
    var a := Arg(st, p);
    ReceivingWrites(st.recs[a], st.pcbs[p].remoteIp, st.mss, e);
    forall q ensures Carried(EventCalls(st, e), q) == [] {
      NothingCarried(EventCalls(st, e), q);
    }
    match e
    case EvConnected(_, _, _, _, how) =>
      ClosedWrites(st.(pcbs := st.pcbs[p := st.pcbs[p].(onConnected := false)]), p, AbortedRemote, how);
    case EvRecv(_, pkt, now, how, env) => RecvDataHandled(st, p, pkt, now, how, env);
    case EvRecvEnd(_, how, env) => EndWrites(st, p, how, env);
    case EvRecvErr(_, how) => ClosedWrites(st, p, AbortedRemote, how);
    case EvErr(_) => ErrWrites(st, p);
    case EvVanished(_) =>
  }

  lemma EndWrites(st: State, p: Pid, how: Closing, env: StartEnv)
    requires Owned(st) && Reaches(st, p) && Arg(st, p) in st.order && p != NULL
    requires ConnectionOk(st, Arg(st, p)) && FreshStart(st, env)
    ensures var st' := RecvEnd(st, Arg(st, p), how, env);
            p in st'.pcbs && st'.pcbs[p].written == st.pcbs[p].written
  {
    hide Close, TxStartPassive, Owned;
    PassiveKeeps(st, st, p, env);
    assert WithRec(st, Arg(st, p), st.recs[Arg(st, p)]) == st;
    ClosedWrites(st, p, DoneServer, how);
    ClosedWrites(TxStartPassive(st, Arg(st, p), env).st, p, DoneServer, how);
  }

  lemma ErrWrites(st: State, p: Pid)
    requires p != NULL && Reaches(st, p)
    ensures var st' := Step(st, EvErr(p)); p in st'.pcbs && st'.pcbs[p].written == st.pcbs[p].written
  {
    hide Without;
  }

  /** What a block was handed so far. */
  function Written(st: State, p: Pid): seq<u8> {
    if p in st.pcbs then st.pcbs[p].written else []
  }

  /** The output of every block grows by exactly what the accepted writes on it carry. */
  lemma EventWrites(st: State, e: Event, p: Pid)
    requires Owned(st) && Enabled(st, e) && !Aborts(st, e)
    ensures Written(Step(st, e), p) == Written(st, p) + Carried(EventCalls(st, e), p)
  {
    hide Step, EventCalls, Carried, Aborts, Enabled, CallbackOk, ListedOk;
    SubjectThere(st, e);
    if Subject(e) == NULL {
      OtherWrites(st, e, p);
    } else if e.EvSent? {
      SentWrites(st, e);
    } else if e.EvPoll? {
      PollWrites(st, e);
    } else if e.EvConnected? && e.ok {
      ConnectedWrites(st, e);
    } else {
      ReceiverWrites(st, e);
    }
    if p in st.pcbs {
      if p != Subject(e) { OthersWritten(st, e, p); }
    } else if p in Step(st, e).pcbs {
      EventCreates(st, e, p);
    }
  }

  lemma SubjectThere(st: State, e: Event)
    requires Enabled(st, e)
    ensures Subject(e) != NULL ==> Subject(e) in st.pcbs && Subject(e) == e.p
  {
    hide Rounds;
  }

  lemma OthersWritten(st: State, e: Event, p: Pid)
    requires Owned(st) && Enabled(st, e) && !Aborts(st, e) && p in st.pcbs && p != Subject(e)
    ensures p in Step(st, e).pcbs && Step(st, e).pcbs[p].written == st.pcbs[p].written
  {
    hide Step, Enabled, Aborts, Owned;
    if Listener(st, p) { ListenerStays(st, e, p); } else { EventIsLocal(st, e, p); }
  }

  /** Over every run: what a block was handed is what the accepted writes on it carried, in order. */
  lemma {:induction false} RunWrites(st: State, es: seq<Event>, p: Pid)
    requires Owned(st) && Runs(st, es) && AbortFree(st, es)
    ensures Written(Run(st, es), p) == Written(st, p) + Carried(RunCalls(st, es), p)
    decreases |es|
  {
    hide Step, Enabled, Owned, EventCalls, Carried, Aborts, Written;
    if es == [] {
      NothingCarried([], p);
    } else {
      StepOwned(st, es[0]);
      var st1 := Step(st, es[0]);
      EventWrites(st, es[0], p);
      RunWrites(st1, es[1..], p);
      CarriedConcat(EventCalls(st, es[0]), RunCalls(st1, es[1..]), p);
    }
  }

  /** From power-up: the accepted writes on a sending block carry its stream, whatever was refused in between. */
  lemma OutputIsStream(mss: Mss, es: seq<Event>, p: Pid)
    requires Runs(InitState(mss), es) && AbortFree(InitState(mss), es)
    ensures var st := Run(InitState(mss), es);
            p in st.pcbs && st.pcbs[p].origin.Sender() ==>
              IsStream(st.pcbs[p].origin.header, Carried(RunCalls(InitState(mss), es), p))
  {
    hide Runs, Run, AbortFree, RunCalls, Carried, IsStream;
    var st := InitState(mss);
    RunWrites(st, es, p);
    assert [] + Carried(RunCalls(st, es), p) == Carried(RunCalls(st, es), p);
    RunStreams(st, es);
    assert p in Run(st, es).pcbs ==> SenderOk(Run(st, es), p);
  }
}
