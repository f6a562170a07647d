/** How the engine treats the blocks of the stack: calls only on blocks that may still call back, one close for each,
    and nothing after it. */
module BlockUse {
  import opened Words
  import opened WireSettings
  import opened IperfState
  import opened Ownership
  import opened Isolation
  import opened Receiving
  import opened Sending
  import opened Calls
  import opened Causes

  /** The block a call is about. */
  function On(c: Call): Pid {
    match c
    case Connect(p, _, _, _) => p
    case Write(p, _, _, _, _) => p
    case Output(p) => p
    case ClosePcb(p, _) => p
    case AbortPcb(p) => p
    case Bind(p, _) => p
    case Listen(p, _) => p
    case _ => NULL
  }

  predicate Ends(c: Call) {
    c.ClosePcb? || c.AbortPcb?
  }

  /** A block is closed once and for all: no call on it comes after, but for the abort right after a close that
      failed. */
  ghost predicate Orderly(calls: seq<Call>) {
    forall i, j :: 0 <= i < j < |calls| && Ends(calls[i]) && On(calls[j]) == On(calls[i]) ==>
      j == i + 1 && calls[i].ClosePcb? && calls[i].how == Fails && calls[j].AbortPcb?
  }

  /** The calls name q only if its callbacks are armed or it is new, and if they close it none is armed any more. */
  ghost predicate UsedRight(st: State, st': State, calls: seq<Call>, q: Pid) {
    && (q in st.pcbs && !st.pcbs[q].Armed() ==>
          q in st'.pcbs && !st'.pcbs[q].Armed() && forall c :: c in calls ==> On(c) != q)
    && (forall c :: c in calls && Ends(c) && On(c) == q ==> q in st'.pcbs && !st'.pcbs[q].Armed())
  }

  ghost predicate Used(st: State, st': State, calls: seq<Call>) {
    Orderly(calls) && forall q :: UsedRight(st, st', calls, q)
  }

  lemma NeverAgain(a: seq<Call>, b: seq<Call>, i: nat, j: nat)
    requires i < |a| && j < |b| && Ends(a[i])
    requires forall c, d :: c in a && d in b && Ends(c) ==> On(c) != On(d)
    ensures On(a[i]) != On(b[j])
  {
  }

  lemma OrderlyConcat(a: seq<Call>, b: seq<Call>)
    requires Orderly(a) && Orderly(b)
    requires forall c, d :: c in a && d in b && Ends(c) ==> On(c) != On(d)
    ensures Orderly(a + b)
  {
    var c := a + b;
    forall i, j | 0 <= i < j < |c| && Ends(c[i]) && On(c[j]) == On(c[i])
      ensures j == i + 1 && c[i].ClosePcb? && c[i].how == Fails && c[j].AbortPcb?
    {
      if i < |a| && j >= |a| {
        NeverAgain(a, b, i, j - |a|);
      } else if i >= |a| {
        assert c[i] == b[i - |a|] && c[j] == b[j - |a|];
      }
    }
  }

  lemma UsedTwice(st: State, st1: State, st2: State, c1: seq<Call>, c2: seq<Call>)
    requires Used(st, st1, c1) && Used(st1, st2, c2)
    ensures Used(st, st2, c1 + c2)
  {
    forall c, d | c in c1 && d in c2 && Ends(c) ensures On(c) != On(d) {
      assert UsedRight(st, st1, c1, On(c)) && UsedRight(st1, st2, c2, On(c));
    }
    OrderlyConcat(c1, c2);
    forall q ensures UsedRight(st, st2, c1 + c2, q) {
      assert UsedRight(st, st1, c1, q) && UsedRight(st1, st2, c2, q);
    }
  }

  /** Nothing but counters and records changed. */
  ghost predicate SameArmed(st: State, st': State) {
    forall q :: q in st.pcbs ==> q in st'.pcbs && (st'.pcbs[q].Armed() ==> st.pcbs[q].Armed())
  }

  lemma UsedAfter(st: State, st1: State, st': State, calls: seq<Call>)
    requires SameArmed(st, st1) && Used(st1, st', calls)
    ensures Used(st, st', calls)
  {
    forall q ensures UsedRight(st, st', calls, q) { assert UsedRight(st1, st', calls, q); }
  }

  lemma UsedBefore(st: State, st1: State, st': State, calls: seq<Call>)
    requires Used(st, st1, calls) && SameArmed(st1, st')
    ensures Used(st, st', calls)
  {
    forall q ensures UsedRight(st, st', calls, q) { assert UsedRight(st, st1, calls, q); }
  }

  /** The record's block, or a listener's, still has callbacks. */
  ghost predicate InUse(st: State, s: Session) {
    && NULL !in st.pcbs && (s.connPcb != NULL ==> s.connPcb in st.pcbs && st.pcbs[s.connPcb].Armed())
    && (s.connPcb == NULL && s.serverPcb != NULL ==> s.serverPcb in st.pcbs && st.pcbs[s.serverPcb].Armed())
  }

  lemma CloseUsed(st: State, a: Addr, kind: Kind, how: Closing)
    requires a in st.recs && InUse(st, st.recs[a])
    requires st.recs[a].connPcb != NULL ==> !st.pcbs[st.recs[a].connPcb].onAccept
    ensures Used(st, Close(st, a, kind, how), CloseCalls(st.recs[a], how))
  {
    hide Without;
    forall q ensures UsedRight(st, Close(st, a, kind, how), CloseCalls(st.recs[a], how), q) {}
  }

  /** A closed session's block calls nobody back; it is freed at once unless the stack lets it linger, and a close that
      fails is followed by an abort. */
  lemma CloseExactly(st: State, a: Addr, kind: Kind, how: Closing)
    requires a in st.recs && st.recs[a].connPcb in st.pcbs && st.recs[a].connPcb != NULL
    requires !st.pcbs[st.recs[a].connPcb].onAccept
    ensures var p, st' := st.recs[a].connPcb, Close(st, a, kind, how);
            var t := st.pcbs[p];
            && p in st'.pcbs
            && st'.pcbs[p] == t.(arg := NULL, onConnected := false, onSent := false, onRecv := false, onPoll := false,
                                 onErr := false, freed := t.freed || how != Lingers || t.onConnected)
            && forall q :: q in st.pcbs && q != p ==> q in st'.pcbs && st'.pcbs[q] == st.pcbs[q]
    ensures var p := st.recs[a].connPcb;
            CloseCalls(st.recs[a], how) ==
            if how == Fails then [ClosePcb(p, Fails), AbortPcb(p)] else [ClosePcb(p, how)]
  {
    hide Without;
  }

  lemma StartUsed(st: State, h: Settings, reports: bool, master: Addr, ip: Ip, port: u16, why: Origin, env: StartEnv)
    requires FreshStart(st, env) && NULL !in st.pcbs
    ensures Used(st, TxStart(st, h, reports, master, ip, port, why, env).st, StartCalls(ip, port, env))
  {
    hide Without;
    var st', calls := TxStart(st, h, reports, master, ip, port, why, env).st, StartCalls(ip, port, env);
    forall q ensures UsedRight(st, st', calls, q) {}
  }

  lemma ServerUsed(st: State, noAddr: bool, reports: bool, master: Addr, env: ServerEnv)
    requires FreshServer(st, env) && NULL !in st.pcbs
    ensures Used(st, StartServerImpl(st, noAddr, reports, master, env).st, ServerCalls(noAddr, env))
  {
    hide StartServerImpl;
    var o, calls := StartServerImpl(st, noAddr, reports, master, env), ServerCalls(noAddr, env);
    ServerBlocks(st, noAddr, reports, master, env);
    forall q ensures UsedRight(st, o.st, calls, q) {}
  }

  /** A server start leaves the blocks that were there alone, and the one it closes without callbacks. */
  lemma ServerBlocks(st: State, noAddr: bool, reports: bool, master: Addr, env: ServerEnv)
    requires FreshServer(st, env)
    ensures var st' := StartServerImpl(st, noAddr, reports, master, env).st;
            && (forall q :: q in st.pcbs ==> q in st'.pcbs && st'.pcbs[q] == st.pcbs[q])
            && (!noAddr && env.block != NULL && env.pcb != NULL && env.bind == ErrOk && env.listen == NULL ==>
                  env.pcb in st'.pcbs && !st'.pcbs[env.pcb].Armed())
  {
    hide ListenRecord;
  }

  lemma PassiveUsed(st: State, a: Addr, env: StartEnv)
    requires FreshStart(st, env) && a in st.recs && st.recs[a].connPcb in st.pcbs && NULL !in st.pcbs
    ensures var s := st.recs[a];
            Used(st, TxStartPassive(st, a, env).st,
                 StartCalls(st.pcbs[s.connPcb].remoteIp, RemotePort(s.settings), env))
  {
    hide TxStart, StartCalls, Used;
    var s := st.recs[a];
    var o := TxStart(st, s.settings, s.reports, s.master, st.pcbs[s.connPcb].remoteIp, RemotePort(s.settings),
                     Reverse(s.connPcb, WithoutFlags(s.settings)), env);
    StartUsed(st, s.settings, s.reports, s.master, st.pcbs[s.connPcb].remoteIp, RemotePort(s.settings),
              Reverse(s.connPcb, WithoutFlags(s.settings)), env);
    UsedBefore(st, o.st, TxStartPassive(st, a, env).st,
               StartCalls(st.pcbs[s.connPcb].remoteIp, RemotePort(s.settings), env));
  }

  // ---------------------------------------------------------------- the send loop

  /** All calls of the loop are on the session's block, and only a call that finds the limit reached closes it. */
  lemma {:induction false} SendOn(s: Session, mss: Mss, turns: seq<Turn>, how: Closing)
    requires s.connPcb != NULL
    ensures Orderly(SendCalls(s, mss, turns, how))
    ensures forall c :: c in SendCalls(s, mss, turns, how) ==>
              On(c) in {NULL, s.connPcb} && (Ends(c) ==> On(c) == s.connPcb && Finished(s, mss, turns))
    decreases |turns|
  {
    hide LimitReached, Taken, Offer, RoundCalls, LimitCalls;
    if turns != [] {
      LimitOn(s, turns[0]);
      if LimitReached(s, turns[0].now) {
        OrderlyConcat(LimitCalls(s, turns[0]), CloseCalls(s, how));
      } else {
        RoundOn(s, mss, turns[0]);
        var goes := turns[0].err == ErrOk && s.bytes >= HEADER;
        var s' := s.(bytes := Add32(s.bytes, |Taken(s, mss, turns[0])|));
        var rest := if goes then SendCalls(s', mss, turns[1..], how) else [Output(s.connPcb)];
        if goes { SendOn(s', mss, turns[1..], how); }
        NoEnds(LimitCalls(s, turns[0]) + RoundCalls(s, mss, turns[0]));
        OrderlyConcat(LimitCalls(s, turns[0]) + RoundCalls(s, mss, turns[0]), rest);
      }
    }
  }

  lemma NoEnds(calls: seq<Call>)
    requires forall c :: c in calls ==> !Ends(c)
    ensures Orderly(calls)
  {
  }

  lemma LimitOn(s: Session, t: Turn)
    ensures Orderly(LimitCalls(s, t)) && forall c :: c in LimitCalls(s, t) ==> On(c) == NULL && !Ends(c)
  {
  }

  lemma RoundOn(s: Session, mss: Mss, t: Turn)
    ensures forall c :: c in RoundCalls(s, mss, t) ==> On(c) == s.connPcb && !Ends(c)
  {
    hide Offer;
    RefusalsOn(s.connPcb, Offer(s, mss), s.bytes < 2 * HEADER, HEADER <= s.bytes < 2 * HEADER, t.halvings);
  }

  lemma {:induction false} RefusalsOn(p: Pid, d: seq<u8>, copy: bool, more: bool, k: nat)
    ensures forall c :: c in Refusals(p, d, copy, more, k) ==> On(c) == p && !Ends(c)
  {
    if k > 0 { RefusalsOn(p, d, copy, more, k - 1); }
  }

  lemma SendUsed(st: State, a: Addr, turns: seq<Turn>, how: Closing)
    requires a in st.recs && InUse(st, st.recs[a]) && st.recs[a].connPcb != NULL
    requires !st.pcbs[st.recs[a].connPcb].onAccept
    ensures Used(st, SendMore(st, a, turns, how), SendCalls(st.recs[a], st.mss, turns, how))
  {
    hide Sent, Finished, SendMore, SendCalls, Add32, Without;
    var s, st' := st.recs[a], SendMore(st, a, turns, how);
    SendMoreIs(st, a, turns, how);
    SendOn(s, st.mss, turns, how);
    assert forall q :: q in st.pcbs ==> q in st'.pcbs && (q != s.connPcb ==> st'.pcbs[q] == st.pcbs[q]);
    assert Finished(s, st.mss, turns) ==> !st'.pcbs[s.connPcb].Armed();
  }

  // ---------------------------------------------------------------- receiving

  lemma CountUsed(st: State, a: Addr, p: Pid, pkt: Pbuf, now: u32)
    requires a in st.recs && p in st.pcbs && TotLen(pkt) >= HEADER && NULL !in st.pcbs
    ensures Used(st, CountHeader(st, a, p, pkt, now), HeaderCalls(st.recs[a], now))
  {
    hide Flat, Add32;
  }

  lemma RejectUsed(st: State, a: Addr, kind: Kind, how: Closing, pkt: Pbuf)
    requires a in st.recs && InUse(st, st.recs[a])
    requires st.recs[a].connPcb != NULL ==> !st.pcbs[st.recs[a].connPcb].onAccept
    ensures Used(st, Rejected(st, a, kind, how, pkt), CloseCalls(st.recs[a], how))
  {
    hide Close, CloseCalls, Used;
    CloseUsed(st, a, kind, how);
    UsedBefore(st, Close(st, a, kind, how), Rejected(st, a, kind, how, pkt), CloseCalls(st.recs[a], how));
  }

  lemma ConnectionInUse(st: State, a: Addr)
    requires Owned(st) && a in st.recs && ConnectionOk(st, a)
    ensures InUse(st, st.recs[a]) && st.recs[a].connPcb != NULL && !st.pcbs[st.recs[a].connPcb].onAccept
  {
  }

  /** The start back of a first header, then the count or the close. */
  lemma BackUsed(st: State, a: Addr, pkt: Pbuf, now: u32, how: Closing, env: StartEnv)
    requires Owned(st) && a in st.recs && a in st.order && ConnectionOk(st, a) && FreshStart(st, env)
    requires TotLen(pkt) >= HEADER
    ensures st.recs[a].connPcb in st.pcbs
    ensures var p, o := st.recs[a].connPcb, TxStartPassive(st, a, env);
            a in o.st.recs && p in o.st.pcbs
    ensures var s, p, o := st.recs[a], st.recs[a].connPcb, TxStartPassive(st, a, env);
            var st' := if o.err == ErrOk then CountHeader(o.st, a, p, pkt, now)
                       else Rejected(o.st, a, AbortedLocalTxError, how, pkt);
            && (o.err == ErrOk <==> Starts(env))
            && Used(st, st', StartCalls(st.pcbs[p].remoteIp, RemotePort(s.settings), env) +
                             if o.err == ErrOk then HeaderCalls(s, now) else CloseCalls(s, how))
  {
    hide TxStartPassive, StartCalls, HeaderCalls, CloseCalls, Flat, Owned, Used, CountHeader, Rejected;
    var s, p := st.recs[a], st.recs[a].connPcb;
    NotNull(st);
    PassiveUsed(st, a, env);
    TxStartPassiveOwned(st, a, env);
    var o, start := TxStartPassive(st, a, env), StartCalls(st.pcbs[p].remoteIp, RemotePort(s.settings), env);
    NotNull(o.st);
    BackOutcome(st, a, env);
    if o.err == ErrOk {
      CountUsed(o.st, a, p, pkt, now);
      UsedTwice(st, o.st, CountHeader(o.st, a, p, pkt, now), start, HeaderCalls(s, now));
    } else {
      ConnectionInUse(st, a);
      RejectUsed(o.st, a, AbortedLocalTxError, how, pkt);
      UsedTwice(st, o.st, Rejected(o.st, a, AbortedLocalTxError, how, pkt), start, CloseCalls(s, how));
    }
  }

  lemma FirstUsed(st: State, a: Addr, pkt: Pbuf, now: u32, how: Closing, env: StartEnv)
    requires Owned(st) && a in st.recs && a in st.order && ConnectionOk(st, a) && FreshStart(st, env)
    requires TotLen(pkt) >= HEADER
    ensures var s, p := st.recs[a], st.recs[a].connPcb;
            Used(st, RecvFirst(st, a, pkt, now, how, env),
                 FirstCalls(s, st.pcbs[p].remoteIp, Flat(pkt.chain)[..HEADER], now, how, env))
  {
    hide TxStartPassive, StartCalls, HeaderCalls, CloseCalls, Flat, Owned, ConnectionOk, Used, CountHeader, Rejected;
    var s, p := st.recs[a], st.recs[a].connPcb;
    HasBlock(st, a);
    NotNull(st);
    var st1 := TookHeader(st, a, pkt);
    SetRecordOwned(st, a, st1.recs[a]);
    StillConnection(st, st1, a);
    SameCalls(s, st1.recs[a], now, how);
    BackUsed(st1, a, pkt, now, how, env);
    CountUsed(st1, a, p, pkt, now);
    UsedAfter(st, st1, RecvFirst(st, a, pkt, now, how, env),
              FirstCalls(s, st.pcbs[p].remoteIp, Flat(pkt.chain)[..HEADER], now, how, env));
  }

  lemma PacketUsed(st: State, a: Addr, pkt: Pbuf, now: u32, how: Closing, env: StartEnv)
    requires Owned(st) && a in st.recs && a in st.order && ConnectionOk(st, a) && FreshStart(st, env)
    ensures var s, p := st.recs[a].(pollCount := 0), st.recs[a].connPcb;
            Used(st, RecvData(st, a, pkt, now, how, env), PacketCalls(s, st.pcbs[p].remoteIp, pkt, now, how, env))
  {
    hide RecvFirst, FirstCalls, HeaderCalls, CloseCalls, Flat, Owned, ConnectionOk, Rejected, CountHeader, HeaderDue,
         Used, InUse;
    HasBlock(st, a);
    NotNull(st);
    var s, p := st.recs[a].(pollCount := 0), st.recs[a].connPcb;
    var st0, st' := WithRec(st, a, s), RecvData(st, a, pkt, now, how, env);
    SetRecordOwned(st, a, s);
    StillConnection(st, st0, a);
    if !HeaderDue(s) {
      NoCalls(st, st');
    } else {
      ConnectionInUse(st0, a);
      RejectUsed(st0, a, AbortedLocalDataError, how, pkt);
      if TotLen(pkt) >= HEADER {
        if !s.haveSettings { FirstUsed(st0, a, pkt, now, how, env); } else { CountUsed(st0, a, p, pkt, now); }
      }
      UsedAfter(st, st0, st', PacketCalls(s, st.pcbs[p].remoteIp, pkt, now, how, env));
    }
  }

  lemma NoCalls(st: State, st': State)
    requires SameArmed(st, st')
    ensures Used(st, st', [])
  {
  }

  lemma EndUsed(st: State, a: Addr, how: Closing, env: StartEnv)
    requires Owned(st) && a in st.recs && a in st.order && ConnectionOk(st, a) && FreshStart(st, env)
    ensures Used(st, RecvEnd(st, a, how, env), EndCalls(st.recs[a], st.pcbs[st.recs[a].connPcb].remoteIp, how, env))
  {
    hide TxStartPassive, StartCalls, CloseCalls, Close, Owned, Used;
    NotNull(st);
    ConnectionInUse(st, a);
    var s := st.recs[a];
    if AnswerTest(s.settings) && !AnswerNow(s.settings) {
      PassiveUsed(st, a, env);
      TxStartPassiveOwned(st, a, env);
      var st1 := TxStartPassive(st, a, env).st;
      NotNull(st1);
      CloseUsed(st1, a, DoneServer, how);
      UsedTwice(st, st1, Close(st1, a, DoneServer, how),
                StartCalls(st.pcbs[s.connPcb].remoteIp, RemotePort(s.settings), env), CloseCalls(s, how));
    } else {
      CloseUsed(st, a, DoneServer, how);
      assert [] + CloseCalls(s, how) == CloseCalls(s, how);
    }
  }

  // ---------------------------------------------------------------- the other events

  lemma AcceptUsed(st: State, e: Event)
    requires Owned(st) && Enabled(st, e) && e.EvAccept?
    ensures Used(st, Step(st, e), EventCalls(st, e))
  {
    hide Without, ListedOk, CallbackOk;
    CallbackArgument(st, e.l);
    forall q ensures UsedRight(st, Step(st, e), EventCalls(st, e), q) {}
  }

  lemma ConnectedUsed(st: State, e: Event)
    requires Owned(st) && Enabled(st, e) && e.EvConnected?
    ensures Used(st, Step(st, e), EventCalls(st, e))
  {
    hide Rounds, SendMore, SendCalls, Close, CloseCalls, ListedOk, CallbackOk, Used;
    CallbackArgument(st, e.p);
    NotNull(st);
    var a, st' := Arg(st, e.p), Step(st, e);
    var st1 := st.(pcbs := st.pcbs[e.p := st.pcbs[e.p].(onConnected := false)]);
    if e.ok {
      var s := st.recs[a].(pollCount := 0, timeStarted := e.now);
      ClockUsed(st1, e.now);
      SendUsed(WithRec(st1, a, s), a, e.turns, e.how);
      UsedAfter(st1, WithRec(st1, a, s), st', SendCalls(s, st.mss, e.turns, e.how));
      UsedTwice(st1, st1, st', [Clock(e.now)], SendCalls(s, st.mss, e.turns, e.how));
    } else {
      CloseUsed(st1, a, AbortedRemote, e.how);
    }
    UsedAfter(st, st1, st', EventCalls(st, e));
  }

  lemma ClockUsed(st: State, now: u32)
    requires NULL !in st.pcbs
    ensures Used(st, st, [Clock(now)])
  {
  }

  lemma PollUsed(st: State, e: Event)
    requires Owned(st) && Enabled(st, e) && e.EvPoll?
    ensures Used(st, Step(st, e), EventCalls(st, e))
  {
    hide Rounds, SendMore, SendCalls, Close, CloseCalls, ListedOk, CallbackOk, Used;
    CallbackArgument(st, e.p);
    NotNull(st);
    var a, st' := Arg(st, e.p), Step(st, e);
    var st1 := WithRec(st, a, st.recs[a].(pollCount := Inc8(st.recs[a].pollCount)));
    CloseUsed(st1, a, AbortedLocal, e.how);
    SendUsed(st1, a, e.turns, e.how);
    NoCalls(st1, st1);
    UsedAfter(st, st1, st', EventCalls(st, e));
  }

  lemma ClientUsed(st: State, e: Event)
    requires Owned(st) && Enabled(st, e) && e.EvStartClient?
    ensures Used(st, Step(st, e), EventCalls(st, e))
  {
    hide TxStart, StartCalls, ServerCalls, ClientSettings, StartServerImpl, OpenSecondary, Owned, Used;
    var h := ClientSettings(e.kind);
    NotNull(st);
    if e.kind == InvalidType {
      NoCalls(st, st);
    } else {
      StartUsed(st, h, e.reports, NULL, e.ip, e.port, Started(h), e.env);
      var o, start := TxStart(st, h, e.reports, NULL, e.ip, e.port, Started(h), e.env), StartCalls(e.ip, e.port, e.env);
      StartOutcome(st, h, e.reports, NULL, e.ip, e.port, Started(h), e.env);
      if o.err == ErrOk && e.kind in {Dual, Tradeoff} {
        SecondaryUsed(o, e.kind, e.ip, e.reports, e.senv);
        UsedTwice(st, o.st, Step(st, e), start, ServerCalls(false, e.senv));
      } else {
        assert start + [] == start;
      }
    }
  }

  lemma SecondaryUsed(o: Outcome, kind: ClientType, ip: Ip, reports: bool, senv: ServerEnv)
    requires FreshServer(o.st, senv) && NULL !in o.st.pcbs
    ensures Used(o.st, OpenSecondary(o, kind, ip, reports, senv).st, ServerCalls(false, senv))
  {
    hide StartServerImpl, ServerCalls, Keep, Used;
    ServerUsed(o.st, false, reports, o.conn, senv);
    UsedBefore(o.st, StartServerImpl(o.st, false, reports, o.conn, senv).st,
               OpenSecondary(o, kind, ip, reports, senv).st, ServerCalls(false, senv));
  }

  lemma ErrUsed(st: State, p: Pid)
    requires Owned(st) && Reaches(st, p)
    ensures Used(st, Step(st, EvErr(p)), EventCalls(st, EvErr(p)))
  {
    hide Without, Owned;
    NotNull(st);
  }

  /** Every event, aborts included: the engine makes calls only on blocks that are new or still have callbacks, closes
      each at most once, makes no call on it afterwards but the abort after a close that failed, and leaves it no
      callback. */
  lemma EventUses(st: State, e: Event)
    requires Owned(st) && Enabled(st, e)
    ensures Used(st, Step(st, e), EventCalls(st, e))
  {
    hide Rounds, SendMore, SendCalls, Close, CloseCalls, RecvData, PacketCalls, RecvEnd, EndCalls, ListedOk, CallbackOk,
         Used;
    NotNull(st);
    if Subject(e) != NULL { CallbackArgument(st, Subject(e)); }
    match e
    case EvAccept(_, _, _, _, _, _, _) => AcceptUsed(st, e);
    case EvConnected(_, _, _, _, _) => ConnectedUsed(st, e);
    case EvSent(p, turns, how) =>
      var st1 := WithRec(st, Arg(st, p), st.recs[Arg(st, p)].(pollCount := 0));
      SendUsed(st1, Arg(st, p), turns, how);
      UsedAfter(st, st1, Step(st, e), EventCalls(st, e));
    case EvRecv(p, pkt, now, how, env) => PacketUsed(st, Arg(st, p), pkt, now, how, env);
    case EvRecvEnd(p, how, env) => EndUsed(st, Arg(st, p), how, env);
    case EvRecvErr(p, how) => CloseUsed(st, Arg(st, p), AbortedRemote, how);
    case EvPoll(_, _, _) => PollUsed(st, e);
    case EvErr(p) => ErrUsed(st, p);
    case EvVanished(p) => NoCalls(st, Step(st, e));
    case EvStartServer(noAddr, reports, senv) => ServerUsed(st, noAddr, reports, NULL, senv);
    case EvStartClient(_, _, _, _, _, _) => ClientUsed(st, e);
    case EvAbort(_) => NoCalls(st, Step(st, e));
  }

  // ---------------------------------------------------------------- runs

  /** Over every run: no call on a block once it was closed, and none on a block without callbacks. */
  lemma {:induction false} RunUses(st: State, es: seq<Event>)
    requires Owned(st) && Runs(st, es) && AbortFree(st, es)
    ensures Used(st, Run(st, es), RunCalls(st, es))
    decreases |es|
  {
    hide Used, Step, Enabled, Owned, Aborts, EventCalls;
    if es == [] {
      NoCalls(st, st);
    } else {
      StepOwned(st, es[0]);
      EventUses(st, es[0]);
      RunUses(Step(st, es[0]), es[1..]);
      UsedTwice(st, Step(st, es[0]), Run(st, es), EventCalls(st, es[0]), RunCalls(Step(st, es[0]), es[1..]));
    }
  }
}
