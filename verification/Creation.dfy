/** What every new control block looks like at the end of the event that made it. */
module Creation {
  import opened Words
  import opened WireSettings
  import opened IperfState
  import opened Ownership
  import opened Isolation

  /** Untouched history, and a session that has seen nothing yet. */
  ghost predicate Newborn(st: State, p: Pid)
    requires p in st.pcbs
  {
    && st.pcbs[p].written == [] && st.pcbs[p].credit == 0
    && (Live(st, p) ==>
          && Arg(st, p) in st.recs
          && var s := SessionOf(st, p);
             && s.bytes == 0 && s.pollCount == 0
             && (s.server ==> s == ZeroSession.(server := true, master := s.master, connPcb := p,
                                                timeStarted := s.timeStarted, reports := s.reports)
                              && st.pcbs[p].origin.Accepted?)
             && (!s.server ==> st.pcbs[p].origin.Sender() && s.settings == st.pcbs[p].origin.header))
  }

  lemma StartNewborn(st: State, settings: Settings, reports: bool, master: Addr, ip: Ip, port: u16,
                     why: Origin, env: StartEnv, p: Pid)
    requires Owned(st) && FreshStart(st, env) && why.Sender() && why.header == settings && p !in st.pcbs
    ensures var o := TxStart(st, settings, reports, master, ip, port, why, env);
            && (p in o.st.pcbs ==> p == env.pcb && Newborn(o.st, p) && o.st.pcbs[p].origin == why)
            && (o.err == ErrOk ==> env.pcb in o.st.pcbs)
  {
    if env.block != NULL && env.pcb != NULL && env.connect != ErrOk {
      ConnectFails(st, settings, reports, master, ip, port, why, env);
    }
  }

  lemma PassiveNewborn(st: State, a: Addr, env: StartEnv, p: Pid)
    requires Owned(st) && a in st.order && a in st.recs && ConnectionOk(st, a) && FreshStart(st, env)
    requires p !in st.pcbs
    ensures var o := TxStartPassive(st, a, env);
            p in o.st.pcbs ==>
              && p == env.pcb && Newborn(o.st, p)
              && o.st.pcbs[p].origin == Reverse(st.recs[a].connPcb, WithoutFlags(st.recs[a].settings))
  {
    var s := st.recs[a];
    var why := Reverse(s.connPcb, WithoutFlags(s.settings));
    var o := TxStart(st, s.settings, s.reports, s.master, st.pcbs[s.connPcb].remoteIp,
                     RemotePort(s.settings), why, env);
    if env.block != NULL && env.pcb != NULL && env.connect != ErrOk {
      ConnectFails(st, s.settings, s.reports, s.master, st.pcbs[s.connPcb].remoteIp,
                   RemotePort(s.settings), why, env);
    }
  }

  /** Close, Consumed and updates of another record do not disturb a newborn. */
  lemma StaysNewborn(st: State, st': State, a: Addr, p: Pid)
    requires Apart(st, a, p) && Newborn(st, p) && Untouched(st, st', p)
    ensures Newborn(st', p)
  {
  }

  lemma RecvFirstNewborn(st: State, a: Addr, pkt: Pbuf, now: u32, how: Closing, env: StartEnv, p: Pid)
    requires Owned(st) && a in st.order && a in st.recs && ConnectionOk(st, a) && FreshStart(st, env)
    requires TotLen(pkt) >= HEADER && p !in st.pcbs
    ensures var st' := RecvFirst(st, a, pkt, now, how, env);
            p in st'.pcbs ==>
              && Newborn(st', p) && p == env.pcb
              && var h := Flat(pkt.chain)[..HEADER];
                 AnswerTest(h) && AnswerNow(h) && st'.pcbs[p].origin == Reverse(st.recs[a].connPcb, WithoutFlags(h))
  {
    var st1 := TookHeader(st, a, pkt);
    if AnswerTest(st1.recs[a].settings) && AnswerNow(st1.recs[a].settings) {
      SetRecordOwned(st, a, st1.recs[a]);
      assert ConnectionOk(st1, a);
      PassiveNewborn(st1, a, env, p);
      TxStartPassiveOwned(st1, a, env);
      var o := TxStartPassive(st1, a, env);
      if p in o.st.pcbs {
        ApartFromOwned(o.st, a, p);
        if o.err != ErrOk { CloseLocal(o.st, a, AbortedLocalTxError, how, p); }
        else { ConsumedLocal(o.st, a, HeaderCounted(o.st.recs[a], TotLen(pkt), now), pkt, p); }
        StaysNewborn(o.st, RecvFirst(st, a, pkt, now, how, env), a, p);
      }
    }
  }

  lemma RecvEndNewborn(st: State, a: Addr, how: Closing, env: StartEnv, p: Pid)
    requires Owned(st) && a in st.order && a in st.recs && ConnectionOk(st, a) && FreshStart(st, env)
    requires p !in st.pcbs
    ensures var st' := RecvEnd(st, a, how, env);
            p in st'.pcbs ==>
              && Newborn(st', p) && p == env.pcb
              && var h := st.recs[a].settings;
                 AnswerTest(h) && !AnswerNow(h) && st'.pcbs[p].origin == Reverse(st.recs[a].connPcb, WithoutFlags(h))
  {
    var s := st.recs[a];
    if AnswerTest(s.settings) && !AnswerNow(s.settings) {
      PassiveNewborn(st, a, env, p);
      TxStartPassiveOwned(st, a, env);
      var o := TxStartPassive(st, a, env);
      if p in o.st.pcbs {
        ApartFromOwned(o.st, a, p);
        CloseLocal(o.st, a, DoneServer, how, p);
        StaysNewborn(o.st, RecvEnd(st, a, how, env), a, p);
      }
    }
  }

  lemma ClientNewborn(st: State, kind: ClientType, ip: Ip, port: u16, reports: bool, env: StartEnv, senv: ServerEnv,
                      p: Pid)
    requires Owned(st) && FreshStart(st, env) && FreshServer(st, senv)
    requires senv.block == NULL || env.block != senv.block
    requires env.pcb == NULL || (env.pcb != senv.pcb && env.pcb != senv.listen)
    requires !Aborts(st, EvStartClient(kind, ip, port, reports, env, senv))
    requires p !in st.pcbs
    ensures var st' := StartClient(st, kind, ip, port, reports, env, senv).st;
            p in st'.pcbs ==>
              && Newborn(st', p) && st'.pcbs[p].origin in {Listening, Started(ClientSettings(kind))}
              && (st'.pcbs[p].origin.Started? ==> p == env.pcb)
  {
    hide ClientSettings, Owned;
    var header := ClientSettings(kind);
    var o := TxStart(st, header, reports, NULL, ip, port, Started(header), env);
    TxStartOwned(st, header, reports, NULL, ip, port, Started(header), env);
    StartNewborn(st, header, reports, NULL, ip, port, Started(header), env, p);
    if kind in {Dual, Tradeoff} && o.err == ErrOk && p in o.st.pcbs {
      assert FreshServer(o.st, senv);
      ServerLocal(o.st, false, reports, o.conn, senv, p);
    }
  }

  lemma AcceptNewborn(st: State, e: Event, p: Pid)
    requires Owned(st) && Enabled(st, e) && e.EvAccept? && p !in st.pcbs
    ensures var st' := Step(st, e);
            p in st'.pcbs ==>
              && p == e.q && Newborn(st', p) && st'.pcbs[p].origin in {Dropped, Accepted(e.l)}
  {
    CallbackArgument(st, e.l);
  }

  /** Where a control block that an event made comes from. */
  ghost predicate Provenance(st: State, e: Event, p: Pid, o: Origin) {
    match o
    case Listening => e.EvStartServer? || e.EvStartClient?
    case Dropped => e.EvAccept?
    case Accepted(l) => e.EvAccept? && e.l == l && e.q == p
    case Started(h) => e.EvStartClient? && h == ClientSettings(e.kind) && p == e.env.pcb
    case Reverse(of, h) =>
      && (e.EvRecv? || e.EvRecvEnd?) && p == e.env.pcb && of == e.p && Arg(st, of) in st.recs
      && var s := SessionOf(st, of);
         if e.EvRecv? then
           && !s.haveSettings && TotLen(e.pkt) >= HEADER
           && var g := Flat(e.pkt.chain)[..HEADER]; AnswerTest(g) && AnswerNow(g) && h == WithoutFlags(g)
         else AnswerTest(s.settings) && !AnswerNow(s.settings) && h == WithoutFlags(s.settings)
  }

  /** Every block an event creates starts with an empty history; a sender's session holds exactly the
      header its origin names, and a connection back names the received session that asked for it. */
  lemma EventCreates(st: State, e: Event, p: Pid)
    requires Owned(st) && Enabled(st, e) && !Aborts(st, e)
    requires p !in st.pcbs && p in Step(st, e).pcbs
    ensures Newborn(Step(st, e), p)
    ensures Provenance(st, e, p, Step(st, e).pcbs[p].origin)
  {
    hide SendMore, Rounds, MakeSettings, Owned, RecvData;
    match e
    case EvAccept(_, _, _, _, _, _, _) => AcceptNewborn(st, e, p);
    case EvConnected(_, _, _, _, _) => SenderKeys(st, e);
    case EvSent(_, _, _) => SenderKeys(st, e);
    case EvRecv(q, pkt, now, how, env) =>
      CallbackArgument(st, q);
      RecvDataNewborn(st, Arg(st, q), pkt, now, how, env, p);
    case EvRecvEnd(q, how, env) =>
      CallbackArgument(st, q);
      RecvEndNewborn(st, Arg(st, q), how, env, p);
    case EvRecvErr(_, _) => ClosingKeys(st, e);
    case EvPoll(_, _, _) => SenderKeys(st, e);
    case EvErr(_) => ClosingKeys(st, e);
    case EvVanished(_) =>
    case EvStartServer(noAddr, reports, senv) => ServerNewborn(st, noAddr, reports, senv, p);
    case EvStartClient(kind, ip, port, reports, env, senv) => ClientNewborn(st, kind, ip, port, reports, env, senv, p);
    case EvAbort(session) =>
  }

  lemma ServerNewborn(st: State, noAddr: bool, reports: bool, senv: ServerEnv, p: Pid)
    requires p !in st.pcbs
    ensures var st' := StartServerImpl(st, noAddr, reports, NULL, senv).st;
            p in st'.pcbs ==> Newborn(st', p) && st'.pcbs[p].origin == Listening
  {
  }

  lemma ClosingKeys(st: State, e: Event)
    requires Owned(st) && Enabled(st, e) && (e.EvRecvErr? || e.EvErr?)
    ensures Step(st, e).pcbs.Keys == st.pcbs.Keys
  {
    CallbackArgument(st, e.p);
  }

  lemma SenderKeys(st: State, e: Event)
    requires Owned(st) && Enabled(st, e) && (e.EvConnected? || e.EvSent? || e.EvPoll?)
    ensures Step(st, e).pcbs.Keys == st.pcbs.Keys
  {
    hide SendMore, Rounds;
    var q, a := e.p, Arg(st, e.p);
    CallbackArgument(st, q);
    match e
    case EvConnected(_, ok, now, turns, how) =>
      var st1 := st.(pcbs := st.pcbs[q := st.pcbs[q].(onConnected := false)]);
      SendMoreLocal(WithRec(st1, a, st.recs[a].(pollCount := 0, timeStarted := now)), a, turns, how);
    case EvSent(_, turns, how) =>
      SendMoreLocal(WithRec(st, a, st.recs[a].(pollCount := 0)), a, turns, how);
    case EvPoll(_, turns, how) => PollKeys(st, a, turns, how);
    case _ =>
  }

  lemma PollKeys(st: State, a: Addr, turns: seq<Turn>, how: Closing)
    requires Owned(st) && a in st.order && a in st.recs && ConnectionOk(st, a)
    ensures PollStep(st, a, turns, how).pcbs.Keys == st.pcbs.Keys
  {
    var n := Inc8(st.recs[a].pollCount);
    var st1 := WithRec(st, a, st.recs[a].(pollCount := n));
    if n < MAX_IDLE && !st.recs[a].server { SendMoreLocal(st1, a, turns, how); }
  }

  lemma RecvDataNewborn(st: State, a: Addr, pkt: Pbuf, now: u32, how: Closing, env: StartEnv, p: Pid)
    requires Owned(st) && a in st.order && a in st.recs && ConnectionOk(st, a) && FreshStart(st, env)
    requires p !in st.pcbs
    ensures var st' := RecvData(st, a, pkt, now, how, env);
            p in st'.pcbs ==>
              && Newborn(st', p) && p == env.pcb
              && TotLen(pkt) >= HEADER && !st.recs[a].haveSettings
              && var h := Flat(pkt.chain)[..HEADER];
                 AnswerTest(h) && AnswerNow(h) && st'.pcbs[p].origin == Reverse(st.recs[a].connPcb, WithoutFlags(h))
  {
    var s := st.recs[a].(pollCount := 0);
    if HeaderDue(s) && TotLen(pkt) >= HEADER && !s.haveSettings {
      SetRecordOwned(st, a, s);
      assert ConnectionOk(WithRec(st, a, s), a);
      RecvFirstNewborn(WithRec(st, a, s), a, pkt, now, how, env, p);
    }
  }
}
