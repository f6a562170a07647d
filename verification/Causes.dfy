/** Nothing happens unasked: a record is memory the engine asked for, a start time a reading of the clock, a new block
    one it asked the stack for or was given, connecting or listening because it asked for that, and a block is freed
    or loses its callbacks because the engine closed it or the stack took it. */
module Causes {
  import opened Words
  import opened WireSettings
  import opened IperfState
  import opened Ownership
  import opened Isolation
  import opened Receiving
  import opened Sending
  import opened Calls

  ghost predicate Listened(calls: seq<Call>, q: Pid) {
    exists p :: Listen(p, q) in calls && Bind(p, ErrOk) in calls
  }

  /** tcp_listen put a listening block in its place. */
  ghost predicate Replaced(calls: seq<Call>, q: Pid) {
    exists l :: l != NULL && Listen(q, l) in calls
  }

  ghost predicate Closes(calls: seq<Call>, q: Pid) {
    exists how :: ClosePcb(q, how) in calls
  }

  ghost predicate RecordCaused(st: State, st': State, calls: seq<Call>, a: Addr) {
    a in st'.recs ==>
      var s' := st'.recs[a];
      if a in st.recs then
        s'.connPcb == st.recs[a].connPcb && (s'.timeStarted == st.recs[a].timeStarted || Clock(s'.timeStarted) in calls)
      else Alloc(a) in calls && (s'.connPcb == NULL || Clock(s'.timeStarted) in calls)
  }

  /** A block that was there is not connected or listened on again, and loses its callbacks only by a close. */
  ghost predicate BlockKept(t: Tcb, t': Tcb, calls: seq<Call>, q: Pid) {
    && t'.remoteIp == t.remoteIp && t'.remotePort == t.remotePort
    && (t'.onConnected ==> t.onConnected) && (t'.onAccept ==> t.onAccept)
    && ((t'.freed && !t.freed) || (t.Armed() && !t'.Armed()) ==> Closes(calls, q))
  }

  ghost predicate BlockCaused(st: State, st': State, calls: seq<Call>, q: Pid) {
    if q in st.pcbs then q in st'.pcbs && BlockKept(st.pcbs[q], st'.pcbs[q], calls, q)
    else
      q in st'.pcbs ==>
        var t := st'.pcbs[q];
        && (NewPcb(q) in calls || Listened(calls, q)) && (t.onAccept ==> Listened(calls, q))
        && (t.onConnected ==> Connect(q, t.remoteIp, t.remotePort, ErrOk) in calls)
        && (t.freed ==> Closes(calls, q) || Replaced(calls, q))
  }

  /** The blocks in `stack` are the stack's own doing. */
  ghost predicate Caused(st: State, st': State, calls: seq<Call>, stack: set<Pid>) {
    && (forall a :: RecordCaused(st, st', calls, a))
    && (forall q :: q !in stack ==> BlockCaused(st, st', calls, q))
  }

  lemma CausedTwice(st: State, st1: State, st2: State, c1: seq<Call>, c2: seq<Call>, stack: set<Pid>)
    requires Caused(st, st1, c1, stack) && Caused(st1, st2, c2, stack)
    requires forall a :: a in st.recs && a in st2.recs ==> a in st1.recs
    ensures Caused(st, st2, c1 + c2, stack)
  {
    forall a ensures RecordCaused(st, st2, c1 + c2, a) {
      assert RecordCaused(st, st1, c1, a) && RecordCaused(st1, st2, c2, a);
    }
    forall q | q !in stack ensures BlockCaused(st, st2, c1 + c2, q) {
      assert BlockCaused(st, st1, c1, q) && BlockCaused(st1, st2, c2, q);
      if Closes(c1, q) { var how :| ClosePcb(q, how) in c1; assert ClosePcb(q, how) in c1 + c2; }
      if Closes(c2, q) { var how :| ClosePcb(q, how) in c2; assert ClosePcb(q, how) in c1 + c2; }
      if Replaced(c1, q) { var l :| l != NULL && Listen(q, l) in c1; assert Listen(q, l) in c1 + c2; }
      if Replaced(c2, q) { var l :| l != NULL && Listen(q, l) in c2; assert Listen(q, l) in c1 + c2; }
      if Listened(c1, q) { var p :| Listen(p, q) in c1 && Bind(p, ErrOk) in c1; assert Listen(p, q) in c1 + c2; }
      if Listened(c2, q) { var p :| Listen(p, q) in c2 && Bind(p, ErrOk) in c2; assert Listen(p, q) in c1 + c2; }
    }
  }

  // ---------------------------------------------------------------- the pieces of an event

  predicate Alike(t: Tcb, t': Tcb) {
    && t'.freed == t.freed && t'.remoteIp == t.remoteIp && t'.remotePort == t.remotePort
    && (t'.onConnected ==> t.onConnected) && (t'.onAccept ==> t.onAccept) && (t'.Armed() <==> t.Armed())
  }

  /** Only counters changed. */
  ghost predicate SameStart(st: State, st1: State) {
    && st1.recs.Keys == st.recs.Keys && st1.pcbs.Keys == st.pcbs.Keys
    && (forall a :: a in st.recs ==> st1.recs[a].connPcb == st.recs[a].connPcb &&
                                     st1.recs[a].timeStarted == st.recs[a].timeStarted)
    && (forall q :: q in st.pcbs ==> Alike(st.pcbs[q], st1.pcbs[q]))
  }

  lemma CausedAfter(st: State, st1: State, st': State, calls: seq<Call>)
    requires SameStart(st, st1) && Caused(st1, st', calls, {})
    ensures Caused(st, st', calls, {})
  {
    forall a ensures RecordCaused(st, st', calls, a) { assert RecordCaused(st1, st', calls, a); }
    forall q ensures BlockCaused(st, st', calls, q) { assert BlockCaused(st1, st', calls, q); }
  }

  lemma NothingCaused(st: State, st': State)
    requires st'.recs.Keys <= st.recs.Keys && st'.pcbs == st.pcbs
    requires forall a :: a in st'.recs ==> st'.recs[a].connPcb == st.recs[a].connPcb &&
                                           st'.recs[a].timeStarted == st.recs[a].timeStarted
    ensures Caused(st, st', [], {})
  {
  }

  lemma CloseCaused(st: State, a: Addr, kind: Kind, how: Closing)
    requires a in st.recs && NULL !in st.pcbs
    ensures Caused(st, Close(st, a, kind, how), CloseCalls(st.recs[a], how), {})
  {
    hide Without;
    var s, calls, st' := st.recs[a], CloseCalls(st.recs[a], how), Close(st, a, kind, how);
    forall q ensures BlockCaused(st, st', calls, q) {
      if s.connPcb != NULL && q == s.connPcb { assert ClosePcb(q, how) in calls; }
      if s.connPcb == NULL && s.serverPcb != NULL && q == s.serverPcb { assert ClosePcb(q, Gone) in calls; }
    }
  }

  lemma StartCaused(st: State, h: Settings, reports: bool, master: Addr, ip: Ip, port: u16, why: Origin, env: StartEnv)
    requires FreshStart(st, env)
    ensures Caused(st, TxStart(st, h, reports, master, ip, port, why, env).st, StartCalls(ip, port, env), {})
  {
    hide Without;
    var o, calls := TxStart(st, h, reports, master, ip, port, why, env), StartCalls(ip, port, env);
    if env.block != NULL && env.pcb != NULL {
      assert Alloc(env.block) == calls[0] && NewPcb(env.pcb) == calls[1] && Clock(env.now) == calls[2];
      assert Connect(env.pcb, ip, port, env.connect) == calls[3];
    }
    forall a ensures RecordCaused(st, o.st, calls, a) {}
    forall q ensures BlockCaused(st, o.st, calls, q) {}
  }

  lemma ServerCaused(st: State, noAddr: bool, reports: bool, master: Addr, env: ServerEnv)
    requires FreshServer(st, env)
    ensures Caused(st, StartServerImpl(st, noAddr, reports, master, env).st, ServerCalls(noAddr, env), {})
  {
    var o, calls := StartServerImpl(st, noAddr, reports, master, env), ServerCalls(noAddr, env);
    if !noAddr && env.block != NULL {
      assert calls[0] == Alloc(env.block);
      if env.pcb != NULL {
        assert calls[1] == NewPcb(env.pcb);
        if env.bind == ErrOk { assert calls[2] == Bind(env.pcb, ErrOk) && calls[3] == Listen(env.pcb, env.listen); }
      }
    }
    forall a ensures RecordCaused(st, o.st, calls, a) {}
    forall q ensures BlockCaused(st, o.st, calls, q) {}
  }

  lemma PassiveCaused(st: State, a: Addr, env: StartEnv)
    requires FreshStart(st, env) && a in st.recs && st.recs[a].connPcb in st.pcbs
    ensures var s := st.recs[a];
            Caused(st, TxStartPassive(st, a, env).st,
                   StartCalls(st.pcbs[s.connPcb].remoteIp, RemotePort(s.settings), env), {})
  {
    hide TxStart, StartCalls;
    var s := st.recs[a];
    StartCaused(st, s.settings, s.reports, s.master, st.pcbs[s.connPcb].remoteIp, RemotePort(s.settings),
                Reverse(s.connPcb, WithoutFlags(s.settings)), env);
    var o := TxStart(st, s.settings, s.reports, s.master, st.pcbs[s.connPcb].remoteIp, RemotePort(s.settings),
                     Reverse(s.connPcb, WithoutFlags(s.settings)), env);
    var st', calls := TxStartPassive(st, a, env).st, StartCalls(st.pcbs[s.connPcb].remoteIp, RemotePort(s.settings),
        env);
    forall b ensures RecordCaused(st, st', calls, b) { assert RecordCaused(st, o.st, calls, b); }
    forall q ensures BlockCaused(st, st', calls, q) { assert BlockCaused(st, o.st, calls, q); }
  }

  lemma SendCaused(st: State, a: Addr, turns: seq<Turn>, how: Closing)
    requires a in st.recs && st.recs[a].connPcb in st.pcbs && NULL !in st.pcbs
    ensures Caused(st, SendMore(st, a, turns, how), SendCalls(st.recs[a], st.mss, turns, how), {})
  {
    hide Sent, Finished, SendMore, SendCalls, Close, CloseCalls, Add32;
    var s := st.recs[a];
    var st1 := Wrote(st, a, Sent(s, st.mss, turns));
    SendMoreIs(st, a, turns, how);
    if Finished(s, st.mss, turns) {
      FinishedCloses(s, st.mss, turns, how);
      CloseCaused(st1, a, DoneClient, how);
      var st', calls := Close(st1, a, DoneClient, how), SendCalls(s, st.mss, turns, how);
      SameClosing(s, st1.recs[a], how);
      forall b ensures RecordCaused(st, st', calls, b) { assert RecordCaused(st1, st', CloseCalls(s, how), b); }
      forall q ensures BlockCaused(st, st', calls, q) {
        assert BlockCaused(st1, st', CloseCalls(s, how), q);
        if Closes(CloseCalls(s, how), q) { var h :| ClosePcb(q, h) in CloseCalls(s, how); assert ClosePcb(q,
            h) in calls; }
      }
    }
  }

  lemma SameClosing(s: Session, s': Session, how: Closing)
    requires s.connPcb == s'.connPcb && s.serverPcb == s'.serverPcb
    ensures CloseCalls(s, how) == CloseCalls(s', how)
  {
  }

  /** A call that finds the limit reached ends with the calls of the close. */
  lemma {:induction false} FinishedCloses(s: Session, mss: Mss, turns: seq<Turn>, how: Closing)
    requires Finished(s, mss, turns)
    ensures forall c :: c in CloseCalls(s, how) ==> c in SendCalls(s, mss, turns, how)
    decreases |turns|
  {
    hide LimitReached, Taken, CloseCalls, LimitCalls, RoundCalls;
    if !LimitReached(s, turns[0].now) {
      var s' := s.(bytes := Add32(s.bytes, |Taken(s, mss, turns[0])|));
      FinishedCloses(s', mss, turns[1..], how);
      SameClosing(s, s', how);
    }
  }

  // ---------------------------------------------------------------- events

  lemma FirstCaused(st: State, a: Addr, pkt: Pbuf, now: u32, how: Closing, env: StartEnv)
    requires Owned(st) && a in st.recs && a in st.order && ConnectionOk(st, a) && FreshStart(st, env)
    requires TotLen(pkt) >= HEADER
    ensures var s, p := st.recs[a], st.recs[a].connPcb;
            Caused(st, RecvFirst(st, a, pkt, now, how, env),
                   FirstCalls(s, st.pcbs[p].remoteIp, Flat(pkt.chain)[..HEADER], now, how, env), {})
  {
    hide TxStartPassive, StartCalls, HeaderCalls, CloseCalls, Flat, Close, Owned, ConnectionOk, Caused, CountHeader,
         Rejected;
    var s, p, h := st.recs[a], st.recs[a].connPcb, Flat(pkt.chain)[..HEADER];
    HasBlock(st, a);
    var st1 := TookHeader(st, a, pkt);
    SameCalls(s, st1.recs[a], now, how);
    if AnswerTest(h) && AnswerNow(h) {
      SetRecordOwned(st, a, st1.recs[a]);
      StillConnection(st, st1, a);
      BackCaused(st1, a, pkt, now, how, env);
    } else {
      CountCaused(st1, a, p, pkt, now);
    }
    CausedAfter(st, st1, RecvFirst(st, a, pkt, now, how, env), FirstCalls(s, st.pcbs[p].remoteIp, h, now, how, env));
  }

  /** The start back of a first header, then the count or the close. */
  lemma BackCaused(st: State, a: Addr, pkt: Pbuf, now: u32, how: Closing, env: StartEnv)
    requires Owned(st) && a in st.recs && a in st.order && ConnectionOk(st, a) && FreshStart(st, env)
    requires TotLen(pkt) >= HEADER
    ensures st.recs[a].connPcb in st.pcbs
    ensures var p, o := st.recs[a].connPcb, TxStartPassive(st, a, env);
            a in o.st.recs && p in o.st.pcbs
    ensures var s, p, o := st.recs[a], st.recs[a].connPcb, TxStartPassive(st, a, env);
            var st' := if o.err == ErrOk then CountHeader(o.st, a, p, pkt, now)
                       else Rejected(o.st, a, AbortedLocalTxError, how, pkt);
            && (o.err == ErrOk <==> Starts(env))
            && Caused(st, st', StartCalls(st.pcbs[p].remoteIp, RemotePort(s.settings), env) +
                               if o.err == ErrOk then HeaderCalls(s, now) else CloseCalls(s, how), {})
  {
    hide TxStartPassive, StartCalls, HeaderCalls, CloseCalls, Flat, Owned, Caused, CountHeader, Rejected;
    var s, p := st.recs[a], st.recs[a].connPcb;
    PassiveCaused(st, a, env);
    TxStartPassiveOwned(st, a, env);
    var o, start := TxStartPassive(st, a, env), StartCalls(st.pcbs[p].remoteIp, RemotePort(s.settings), env);
    NotNull(o.st);
    BackOutcome(st, a, env);
    if o.err == ErrOk {
      CountCaused(o.st, a, p, pkt, now);
      CausedTwice(st, o.st, CountHeader(o.st, a, p, pkt, now), start, HeaderCalls(s, now), {});
    } else {
      RejectCaused(o.st, a, AbortedLocalTxError, how, pkt);
      CausedTwice(st, o.st, Rejected(o.st, a, AbortedLocalTxError, how, pkt), start, CloseCalls(s, how), {});
    }
  }

  lemma BackOutcome(st: State, a: Addr, env: StartEnv)
    requires a in st.recs && st.recs[a].connPcb in st.pcbs && FreshStart(st, env)
    ensures TxStartPassive(st, a, env).err == ErrOk <==> Starts(env)
  {
    hide TxStart;
    var s := st.recs[a];
    StartOutcome(st, s.settings, s.reports, s.master, st.pcbs[s.connPcb].remoteIp, RemotePort(s.settings),
                 Reverse(s.connPcb, WithoutFlags(s.settings)), env);
  }

  /** The calls depend on the blocks and the count of a record alone. */
  lemma SameCalls(s: Session, s': Session, now: u32, how: Closing)
    requires s.connPcb == s'.connPcb && s.serverPcb == s'.serverPcb && s.bytes == s'.bytes
    ensures CloseCalls(s, how) == CloseCalls(s', how) && HeaderCalls(s, now) == HeaderCalls(s', now)
  {
  }

  lemma NotNull(st: State)
    requires Owned(st)
    ensures NULL !in st.pcbs
  {
  }

  lemma HasBlock(st: State, a: Addr)
    requires a in st.recs && ConnectionOk(st, a)
    ensures st.recs[a].connPcb in st.pcbs
  {
  }

  lemma StillConnection(st: State, st1: State, a: Addr)
    requires a in st.recs && ConnectionOk(st, a) && a in st1.recs && st1.pcbs == st.pcbs
    requires SameRole(st.recs[a], st1.recs[a])
    ensures ConnectionOk(st1, a)
  {
  }

  lemma CountCaused(st: State, a: Addr, p: Pid, pkt: Pbuf, now: u32)
    requires a in st.recs && p in st.pcbs && TotLen(pkt) >= HEADER
    ensures Caused(st, CountHeader(st, a, p, pkt, now), HeaderCalls(st.recs[a], now), {})
  {
    hide Flat, Add32;
    var st', calls := CountHeader(st, a, p, pkt, now), HeaderCalls(st.recs[a], now);
    if Add32(st.recs[a].bytes, HEADER) <= HEADER { assert Clock(now) == calls[0]; }
    forall b ensures RecordCaused(st, st', calls, b) {}
    forall q ensures BlockCaused(st, st', calls, q) {}
  }

  lemma RejectCaused(st: State, a: Addr, kind: Kind, how: Closing, pkt: Pbuf)
    requires a in st.recs && NULL !in st.pcbs
    ensures Caused(st, Rejected(st, a, kind, how, pkt), CloseCalls(st.recs[a], how), {})
  {
    hide Close, CloseCalls;
    var st1, st', calls := Close(st, a, kind, how), Rejected(st, a, kind, how, pkt), CloseCalls(st.recs[a], how);
    CloseCaused(st, a, kind, how);
    forall b ensures RecordCaused(st, st', calls, b) { assert RecordCaused(st, st1, calls, b); }
    forall q ensures BlockCaused(st, st', calls, q) { assert BlockCaused(st, st1, calls, q); }
  }

  lemma PacketCaused(st: State, a: Addr, pkt: Pbuf, now: u32, how: Closing, env: StartEnv)
    requires Owned(st) && a in st.recs && a in st.order && ConnectionOk(st, a) && FreshStart(st, env)
    ensures var s, p := st.recs[a].(pollCount := 0), st.recs[a].connPcb;
            Caused(st, RecvData(st, a, pkt, now, how, env), PacketCalls(s, st.pcbs[p].remoteIp, pkt, now, how, env), {})
  {
    hide RecvFirst, FirstCalls, HeaderCalls, CloseCalls, Flat, Owned, ConnectionOk, Rejected, CountHeader, HeaderDue,
         Caused;
    HasBlock(st, a);
    NotNull(st);
    var s, p := st.recs[a].(pollCount := 0), st.recs[a].connPcb;
    var st0, st' := WithRec(st, a, s), RecvData(st, a, pkt, now, how, env);
    SetRecordOwned(st, a, s);
    StillConnection(st, st0, a);
    if !HeaderDue(s) {
      CountedCaused(st0, a, s.(bytes := Add32(s.bytes, TotLen(pkt))), p, pkt);
    } else if TotLen(pkt) < HEADER {
      RejectCaused(st0, a, AbortedLocalDataError, how, pkt);
    } else if !s.haveSettings {
      FirstCaused(st0, a, pkt, now, how, env);
    } else if AnswerTest(s.settings) && Flat(pkt.chain)[..HEADER] != s.settings {
      RejectCaused(st0, a, AbortedLocalDataError, how, pkt);
    } else {
      CountCaused(st0, a, p, pkt, now);
    }
    CausedAfter(st, st0, st', PacketCalls(s, st.pcbs[p].remoteIp, pkt, now, how, env));
  }

  lemma CountedCaused(st: State, a: Addr, s: Session, p: Pid, pkt: Pbuf)
    requires a in st.recs && p in st.pcbs
    requires s.connPcb == st.recs[a].connPcb && s.timeStarted == st.recs[a].timeStarted
    ensures Caused(st, Consumed(WithRec(st, a, s), p, pkt), [], {})
  {
    hide Flat;
  }

  lemma EndCaused(st: State, a: Addr, how: Closing, env: StartEnv)
    requires Owned(st) && a in st.recs && a in st.order && ConnectionOk(st, a) && FreshStart(st, env)
    ensures Caused(st, RecvEnd(st, a, how, env),
                   EndCalls(st.recs[a], st.pcbs[st.recs[a].connPcb].remoteIp, how, env), {})
  {
    hide TxStartPassive, StartCalls, CloseCalls, Close, Owned;
    NotNull(st);
    var s := st.recs[a];
    if AnswerTest(s.settings) && !AnswerNow(s.settings) {
      PassiveCaused(st, a, env);
      TxStartPassiveOwned(st, a, env);
      var st1 := TxStartPassive(st, a, env).st;
      NotNull(st1);
      CloseCaused(st1, a, DoneServer, how);
      CausedTwice(st, st1, Close(st1, a, DoneServer, how),
                  StartCalls(st.pcbs[s.connPcb].remoteIp, RemotePort(s.settings), env), CloseCalls(s, how), {});
    } else {
      CloseCaused(st, a, DoneServer, how);
      assert [] + CloseCalls(s, how) == CloseCalls(s, how);
    }
  }

  lemma AcceptCaused(st: State, e: Event)
    requires Owned(st) && Enabled(st, e) && e.EvAccept?
    ensures Caused(st, Step(st, e), EventCalls(st, e), {e.q})
  {
    hide Without, ListedOk, CallbackOk;
    CallbackArgument(st, e.l);
    var a, st', calls := Arg(st, e.l), Step(st, e), EventCalls(st, e);
    var s := st.recs[a];
    if e.ok && e.q != NULL && e.block != NULL && (!s.specificRemote || e.ip == s.remoteAddr) {
      assert calls[0] == Alloc(e.block) && calls[1] == Clock(e.now);
      if s.specificRemote && (!s.tradeoff || s.master !in st.order) { assert calls[2] == ClosePcb(s.serverPcb, Gone); }
    }
    forall b ensures RecordCaused(st, st', calls, b) {}
    forall q | q != e.q ensures BlockCaused(st, st', calls, q) {}
  }

  lemma ClientCaused(st: State, e: Event)
    requires Owned(st) && Enabled(st, e) && e.EvStartClient?
    ensures Caused(st, Step(st, e), EventCalls(st, e), {})
  {
    hide TxStart, StartCalls, ServerCalls, ClientSettings, StartServerImpl, OpenSecondary, Owned;
    var h := ClientSettings(e.kind);
    var st' := Step(st, e);
    if e.kind == InvalidType {
      NothingCaused(st, st');
    } else {
      StartCaused(st, h, e.reports, NULL, e.ip, e.port, Started(h), e.env);
      var o, start := TxStart(st, h, e.reports, NULL, e.ip, e.port, Started(h), e.env), StartCalls(e.ip, e.port, e.env);
      StartOutcome(st, h, e.reports, NULL, e.ip, e.port, Started(h), e.env);
      if o.err == ErrOk && e.kind in {Dual, Tradeoff} {
        SecondaryCaused(o, e.kind, e.ip, e.reports, e.senv);
        CausedTwice(st, o.st, st', start, ServerCalls(false, e.senv), {});
      } else {
        assert start + [] == start;
      }
    }
  }

  lemma StartOutcome(st: State, h: Settings, reports: bool, master: Addr, ip: Ip, port: u16, why: Origin, env: StartEnv)
    requires FreshStart(st, env)
    ensures var o := TxStart(st, h, reports, master, ip, port, why, env);
            && (o.err == ErrOk <==> Starts(env)) && st.recs.Keys <= o.st.recs.Keys <= st.recs.Keys + {env.block}
            && o.st.pcbs.Keys <= st.pcbs.Keys + {env.pcb}
  {
    hide Without;
  }

  lemma SecondaryCaused(o: Outcome, kind: ClientType, ip: Ip, reports: bool, senv: ServerEnv)
    requires FreshServer(o.st, senv)
    ensures Caused(o.st, OpenSecondary(o, kind, ip, reports, senv).st, ServerCalls(false, senv), {})
    ensures forall a :: a in OpenSecondary(o, kind, ip, reports, senv).st.recs && a !in o.st.recs ==> a == senv.block
  {
    hide StartServerImpl, ServerCalls, Keep;
    var so := StartServerImpl(o.st, false, reports, o.conn, senv);
    var st', calls := OpenSecondary(o, kind, ip, reports, senv).st, ServerCalls(false, senv);
    ServerCaused(o.st, false, reports, o.conn, senv);
    ServerKeys(o.st, reports, o.conn, senv);
    forall a ensures RecordCaused(o.st, st', calls, a) { assert RecordCaused(o.st, so.st, calls, a); }
    forall q ensures BlockCaused(o.st, st', calls, q) { assert BlockCaused(o.st, so.st, calls, q); }
  }

  lemma ServerKeys(st: State, reports: bool, master: Addr, senv: ServerEnv)
    ensures StartServerImpl(st, false, reports, master, senv).st.recs.Keys <= st.recs.Keys + {senv.block}
  {
  }

  /** The blocks an event changes by the stack's own doing: the one of an accepted connection, or one it freed. */
  function Own(e: Event): set<Pid> {
    match e
    case EvAccept(_, _, q, _, _, _, _) => {q}
    case EvErr(p) => {p}
    case EvVanished(p) => {p}
    case _ => {}
  }

  /** Every event: a new record is memory the engine was given by the allocator, a start time it sets is a reading of
      the clock it took, a new block is one it asked the stack for, connecting or listening because it asked for that
      and the stack agreed, and a block loses its callbacks because it closed it; the stack itself only brings the
      blocks of incoming connections and takes those it says it lost. */
  lemma NothingUnasked(st: State, e: Event)
    requires Owned(st) && Enabled(st, e)
    ensures Caused(st, Step(st, e), EventCalls(st, e), Own(e))
  {
    hide Rounds, SendMore, SendCalls, Close, CloseCalls, RecvData, PacketCalls, RecvEnd, EndCalls, ListedOk, CallbackOk;
    NotNull(st);
    if Subject(e) != NULL { CallbackArgument(st, Subject(e)); }
    match e
    case EvAccept(_, _, _, _, _, _, _) => AcceptCaused(st, e);
    case EvConnected(_, _, _, _, _) => ConnectedCaused(st, e);
    case EvSent(p, turns, how) =>
      var st1 := WithRec(st, Arg(st, p), st.recs[Arg(st, p)].(pollCount := 0));
      SendCaused(st1, Arg(st, p), turns, how);
      CausedAfter(st, st1, Step(st, e), EventCalls(st, e));
    case EvRecv(p, pkt, now, how, env) => PacketCaused(st, Arg(st, p), pkt, now, how, env);
    case EvRecvEnd(p, how, env) => EndCaused(st, Arg(st, p), how, env);
    case EvRecvErr(p, how) => CloseCaused(st, Arg(st, p), AbortedRemote, how);
    case EvPoll(_, _, _) => PollCaused(st, e);
    case EvErr(p) => ErrCaused(st, p);
    case EvVanished(p) =>
    case EvStartServer(noAddr, reports, senv) => ServerCaused(st, noAddr, reports, NULL, senv);
    case EvStartClient(_, _, _, _, _, _) => ClientCaused(st, e);
    case EvAbort(session) => NothingCaused(st, Step(st, e));
  }

  lemma ConnectedCaused(st: State, e: Event)
    requires Owned(st) && Enabled(st, e) && e.EvConnected?
    ensures Caused(st, Step(st, e), EventCalls(st, e), {})
  {
    hide Rounds, SendMore, SendCalls, Close, CloseCalls, ListedOk, CallbackOk;
    CallbackArgument(st, e.p);
    var a, st' := Arg(st, e.p), Step(st, e);
    var st1 := st.(pcbs := st.pcbs[e.p := st.pcbs[e.p].(onConnected := false)]);
    if e.ok {
      var s := st.recs[a].(pollCount := 0, timeStarted := e.now);
      var st2 := WithRec(st1, a, s);
      assert Caused(st1, st2, [Clock(e.now)], {});
      SendCaused(st2, a, e.turns, e.how);
      CausedTwice(st1, st2, st', [Clock(e.now)], SendCalls(s, st.mss, e.turns, e.how), {});
    } else {
      CloseCaused(st1, a, AbortedRemote, e.how);
    }
    CausedAfter(st, st1, st', EventCalls(st, e));
  }

  lemma PollCaused(st: State, e: Event)
    requires Owned(st) && Enabled(st, e) && e.EvPoll?
    ensures Caused(st, Step(st, e), EventCalls(st, e), {})
  {
    hide Rounds, SendMore, SendCalls, Close, CloseCalls, ListedOk, CallbackOk;
    CallbackArgument(st, e.p);
    var a, st', calls := Arg(st, e.p), Step(st, e), EventCalls(st, e);
    var s := st.recs[a].(pollCount := Inc8(st.recs[a].pollCount));
    var st1 := WithRec(st, a, s);
    CloseCaused(st1, a, AbortedLocal, e.how);
    SendCaused(st1, a, e.turns, e.how);
    NothingCaused(st1, st1);
    CausedAfter(st, st1, st', calls);
  }

  lemma ErrCaused(st: State, p: Pid)
    requires Owned(st) && Reaches(st, p)
    ensures Caused(st, Step(st, EvErr(p)), EventCalls(st, EvErr(p)), {p})
  {
    hide Without, Owned;
    NotNull(st);
  }

  // ---------------------------------------------------------------- runs

  /** Every session's start time is a reading of the clock among the calls. */
  ghost predicate ClockStarted(st: State, calls: seq<Call>) {
    forall a :: a in st.recs && st.recs[a].connPcb != NULL ==> Clock(st.recs[a].timeStarted) in calls
  }

  /** Over every run a session's time starts at a reading the engine took. */
  lemma {:induction false} RunClockStarted(st: State, calls: seq<Call>, es: seq<Event>)
    requires Owned(st) && Runs(st, es) && AbortFree(st, es) && ClockStarted(st, calls)
    ensures ClockStarted(Run(st, es), calls + RunCalls(st, es))
    decreases |es|
  {
    hide Step, Enabled, Owned, Aborts, EventCalls;
    if es == [] {
      assert calls + [] == calls;
    } else {
      StepOwned(st, es[0]);
      NothingUnasked(st, es[0]);
      var st1, c := Step(st, es[0]), EventCalls(st, es[0]);
      forall a | a in st1.recs && st1.recs[a].connPcb != NULL
        ensures Clock(st1.recs[a].timeStarted) in calls + c
      {
        assert RecordCaused(st, st1, c, a);
      }
      RunClockStarted(st1, calls + c, es[1..]);
      assert calls + c + RunCalls(st1, es[1..]) == calls + (c + RunCalls(st1, es[1..]));
    }
  }
}
