/** Which events open a connection, and to whom: exactly those that are asked for one. */
module Connecting {
  import opened Words
  import opened WireSettings
  import opened IperfState
  import opened Ownership
  import opened Isolation
  import opened Answering

  /** The block joins this host to ip and port for this reason, and is open exactly if `up`. */
  ghost predicate Made(st: State, p: Pid, ip: Ip, port: u16, why: Origin, up: bool) {
    && p in st.pcbs && (Live(st, p) <==> up)
    && st.pcbs[p].remoteIp == ip && st.pcbs[p].remotePort == port && st.pcbs[p].origin == why
  }

  /** malloc and tcp_new gave the start what it needs. */
  predicate Supplied(env: StartEnv) {
    env.block != NULL && env.pcb != NULL
  }

  lemma StartMakes(st: State, h: Settings, reports: bool, master: Addr, ip: Ip, port: u16, why: Origin, env: StartEnv)
    requires FreshStart(st, env)
    ensures var o := TxStart(st, h, reports, master, ip, port, why, env);
            if Supplied(env) then Made(o.st, env.pcb, ip, port, why, env.connect == ErrOk) else env.pcb !in o.st.pcbs
  {
    hide Without;
  }

  /** The connection back for a session with settings h goes to the host the session came from, at the port h names,
      and announces h without its flags. */
  ghost predicate MadeBack(st: State, st': State, q: Pid, h: Settings, env: StartEnv)
    requires q in st.pcbs
  {
    if Supplied(env) then
      Made(st', env.pcb, st.pcbs[q].remoteIp, RemotePort(h), Reverse(q, WithoutFlags(h)), env.connect == ErrOk)
    else env.pcb !in st'.pcbs
  }

  lemma PassiveMakes(st: State, a: Addr, env: StartEnv)
    requires FreshStart(st, env) && a in st.recs && st.recs[a].connPcb in st.pcbs
    ensures MadeBack(st, TxStartPassive(st, a, env).st, st.recs[a].connPcb, st.recs[a].settings, env)
  {
    hide TxStart;
    var s := st.recs[a];
    StartMakes(st, s.settings, s.reports, s.master, st.pcbs[s.connPcb].remoteIp, RemotePort(s.settings),
               Reverse(s.connPcb, WithoutFlags(s.settings)), env);
  }

  /** A close or a count on another connection does not touch it. */
  lemma CloseMakes(st: State, a: Addr, kind: Kind, how: Closing, p: Pid)
    requires a in st.recs && st.recs[a].connPcb in st.pcbs && st.recs[a].connPcb != NULL && p != st.recs[a].connPcb
    ensures var st' := Close(st, a, kind, how); p in st'.pcbs <==> p in st.pcbs
    ensures var st' := Close(st, a, kind, how); p in st.pcbs ==> st'.pcbs[p] == st.pcbs[p]
  {
    hide Without;
  }

  /** The first header asks for a test back at once. */
  predicate AsksNow(s: Session, pkt: Pbuf) {
    && !s.haveSettings && TotLen(pkt) >= HEADER
    && var h := Flat(pkt.chain)[..HEADER]; AnswerTest(h) && AnswerNow(h)
  }

  lemma RecvFirstMakes(st: State, a: Addr, pkt: Pbuf, now: u32, how: Closing, env: StartEnv)
    requires Owned(st) && a in st.recs && a in st.order && ConnectionOk(st, a) && FreshStart(st, env)
    requires TotLen(pkt) >= HEADER && !st.recs[a].haveSettings
    ensures var st' := RecvFirst(st, a, pkt, now, how, env);
            if AsksNow(st.recs[a], pkt) then MadeBack(st, st', st.recs[a].connPcb, Flat(pkt.chain)[..HEADER], env)
            else env.pcb !in st'.pcbs
  {
    hide Owned, Flat, TxStartPassive, HeaderCounted, Close;
    var st1, p := TookHeader(st, a, pkt), st.recs[a].connPcb;
    SetRecordOwned(st, a, st1.recs[a]);
    assert ConnectionOk(st1, a);
    if AsksNow(st.recs[a], pkt) {
      PassiveMakes(st1, a, env);
      TxStartPassiveOwned(st1, a, env);
      var o := TxStartPassive(st1, a, env);
      NotNull(st, p);
      CloseMakes(o.st, a, AbortedLocalTxError, how, env.pcb);
    }
  }

  lemma NotNull(st: State, p: Pid)
    requires Owned(st) && p in st.pcbs
    ensures p != NULL
  {
  }

  lemma RecvDataMakes(st: State, a: Addr, pkt: Pbuf, now: u32, how: Closing, env: StartEnv)
    requires Owned(st) && a in st.recs && a in st.order && ConnectionOk(st, a) && FreshStart(st, env)
    ensures var st' := RecvData(st, a, pkt, now, how, env);
            if AsksNow(st.recs[a], pkt) then MadeBack(st, st', st.recs[a].connPcb, Flat(pkt.chain)[..HEADER], env)
            else env.pcb !in st'.pcbs
  {
    hide Owned, Flat, RecvFirst, HeaderCounted, Close, MadeBack;
    var s := st.recs[a].(pollCount := 0);
    var st0 := WithRec(st, a, s);
    SetRecordOwned(st, a, s);
    assert ConnectionOk(st0, a);
    NotNull(st, s.connPcb);
    CloseMakes(st0, a, AbortedLocalDataError, how, env.pcb);
    if TotLen(pkt) >= HEADER && !s.haveSettings {
      RecvFirstMakes(st0, a, pkt, now, how, env);
      SameBack(st0, st, RecvFirst(st0, a, pkt, now, how, env), s.connPcb, Flat(pkt.chain)[..HEADER], env);
    }
  }

  lemma SameBack(st0: State, st: State, st': State, q: Pid, h: Settings, env: StartEnv)
    requires q in st.pcbs && q in st0.pcbs && st0.pcbs[q] == st.pcbs[q]
    ensures MadeBack(st0, st', q, h, env) <==> MadeBack(st, st', q, h, env)
  {
  }

  lemma RecvEndMakes(st: State, a: Addr, how: Closing, env: StartEnv)
    requires Owned(st) && a in st.recs && a in st.order && ConnectionOk(st, a) && FreshStart(st, env)
    ensures var st', s := RecvEnd(st, a, how, env), st.recs[a];
            if AnswerTest(s.settings) && !AnswerNow(s.settings) then MadeBack(st, st', s.connPcb, s.settings, env)
            else env.pcb !in st'.pcbs
  {
    hide Owned, TxStartPassive, Close;
    NotNull(st, st.recs[a].connPcb);
    PassiveMakes(st, a, env);
    TxStartPassiveOwned(st, a, env);
    CloseMakes(st, a, DoneServer, how, env.pcb);
    CloseMakes(TxStartPassive(st, a, env).st, a, DoneServer, how, env.pcb);
  }

  /** A received session is answered by an event if and only if the event is its first header and that asks for an
      answer at once, or its end and its header asks for one then, and memory and a block were there. The connection
      goes back to the host the session came from, at the port its header names, and stays if it could be started. */
  lemma AnswersExactly(st: State, e: Event)
    requires Owned(st) && Enabled(st, e) && (e.EvRecv? || e.EvRecvEnd?)
    ensures Arg(st, e.p) in st.recs
    ensures var s, st' := SessionOf(st, e.p), Step(st, e);
            var asks := if e.EvRecv? then AsksNow(s, e.pkt) else AnswerTest(s.settings) && !AnswerNow(s.settings);
            var h := if e.EvRecv? && asks then Flat(e.pkt.chain)[..HEADER] else s.settings;
            && (Answers(st', e.env.pcb, e.p) <==> asks && Supplied(e.env))
            && (asks && Supplied(e.env) ==>
                  Made(st', e.env.pcb, st.pcbs[e.p].remoteIp, RemotePort(h), Reverse(e.p, WithoutFlags(h)),
                       e.env.connect == ErrOk))
  {
    hide RecvData, RecvEnd, Rounds, Flat;
    CallbackArgument(st, e.p);
    var a := Arg(st, e.p);
    if e.EvRecv? { RecvDataMakes(st, a, e.pkt, e.now, e.how, e.env); } else { RecvEndMakes(st, a, e.how, e.env); }
  }

  /** A client start opens a connection to the host and port it was given if and only if the kind of test is valid
      and memory and a block were there; it stays if it could be started. */
  lemma StartsExactly(st: State, e: Event)
    requires Owned(st) && Enabled(st, e) && e.EvStartClient?
    ensures var st' := Step(st, e);
            if e.kind != InvalidType && Supplied(e.env) then
              Made(st', e.env.pcb, e.ip, e.port, Started(ClientSettings(e.kind)), e.env.connect == ErrOk)
            else e.env.pcb !in st'.pcbs
  {
    hide ClientSettings, Owned, TxStart;
    var h := ClientSettings(e.kind);
    StartMakes(st, h, e.reports, NULL, e.ip, e.port, Started(h), e.env);
    TxStartOwned(st, h, e.reports, NULL, e.ip, e.port, Started(h), e.env);
    var o := TxStart(st, h, e.reports, NULL, e.ip, e.port, Started(h), e.env);
    if o.err == ErrOk && e.kind in {Dual, Tradeoff} { SecondarySpares(o, e.kind, e.ip, e.reports, e.senv, e.env.pcb); }
  }

  lemma SecondarySpares(o: Outcome, kind: ClientType, ip: Ip, reports: bool, senv: ServerEnv, p: Pid)
    requires p != senv.pcb && p != senv.listen
    ensures var st' := OpenSecondary(o, kind, ip, reports, senv).st;
            (p in st'.pcbs <==> p in o.st.pcbs) && (p in o.st.pcbs ==> st'.pcbs[p] == o.st.pcbs[p])
  {
    hide Keep;
  }

  // ---------------------------------------------------------------- what the user gets back

  /** A server start returns its new record if and only if it was given an address, memory and a block, and bound and
      listened; the record is then listed, holds what the call was given and nothing else, and its listening block
      calls accept with it. Otherwise the handle is NULL and the list is what it was. */
  lemma ServerHandle(st: State, noAddr: bool, reports: bool, master: Addr, senv: ServerEnv)
    requires FreshServer(st, senv)
    ensures var o := StartServerImpl(st, noAddr, reports, master, senv);
            if !noAddr && senv.block != NULL && senv.pcb != NULL && senv.bind == ErrOk && senv.listen != NULL then
              && o.err == ErrOk && o.conn == senv.block && o.st.order == [senv.block] + st.order
              && o.st.recs == st.recs[senv.block := Session(true, master, senv.listen, NULL, 0, reports, 0, false, 0,
                                                            ZeroSettings(), false, false, 0)]
              && senv.listen in o.st.pcbs
              && o.st.pcbs[senv.listen] ==
                 Tcb(senv.block, true, false, false, false, false, false, false, 0, 0, [], 0, Listening)
            else
              && o.conn == NULL && o.st.order == st.order
              && o.err == (if noAddr then ErrArg
                           else if senv.block != NULL && senv.pcb != NULL && senv.bind != ErrOk then senv.bind
                           else ErrMem)
  {
  }

  /** A connection start returns its new record if and only if it was given memory and a block and could connect; the
      record then holds the settings, the clock reading, the report function and the master it was given. */
  lemma ConnectionHandle(st: State, h: Settings, reports: bool, master: Addr, ip: Ip, port: u16, why: Origin,
                         env: StartEnv)
    requires FreshStart(st, env)
    ensures var o := TxStart(st, h, reports, master, ip, port, why, env);
            if env.block != NULL && env.pcb != NULL && env.connect == ErrOk then
              && o.err == ErrOk && o.conn == env.block && o.st.order == [env.block] + st.order
              && o.st.recs == st.recs[env.block := Session(false, master, NULL, env.pcb, env.now, reports, 0, false,
                 0, h,
                                                           true, false, 0)]
              && o.st.pcbs == st.pcbs[env.pcb := Tcb(env.block, false, true, true, false, true, true, false, ip, port,
                                                     [], 0, why)]
            else
              o.conn == NULL && o.err == if env.block != NULL && env.pcb != NULL then env.connect else ErrMem
  {
    hide Close;
  }

  /** A connection back has the master and the report function of the session it answers, and its settings without
      their flags. */
  lemma AnswerHandle(st: State, a: Addr, env: StartEnv)
    requires FreshStart(st, env) && a in st.recs && st.recs[a].connPcb in st.pcbs
    ensures var o, s := TxStartPassive(st, a, env), st.recs[a];
            if env.block != NULL && env.pcb != NULL && env.connect == ErrOk then
              && o.err == ErrOk && o.st.order == [env.block] + st.order
              && o.st.recs == st.recs[env.block := Session(false, s.master, NULL, env.pcb, env.now, s.reports, 0,
                 false, 0,
                                                           [0, 0, 0, 0] + s.settings[4..], true, false, 0)]
            else o.err != ErrOk
  {
    hide TxStart;
    var s := st.recs[a];
    var why := Reverse(s.connPcb, WithoutFlags(s.settings));
    var ip, port := st.pcbs[s.connPcb].remoteIp, RemotePort(s.settings);
    ConnectionHandle(st, s.settings, s.reports, s.master, ip, port, why, env);
    var o := TxStart(st, s.settings, s.reports, s.master, ip, port, why, env);
    if o.err == ErrOk {
      assert TxStartPassive(st, a, env).st.recs ==
             st.recs[env.block := o.st.recs[env.block].(settings := WithoutFlags(s.settings))];
    }
  }

  /** A test start returns the client's record, never the listener's, if and only if the kind is valid, the client
      could be started and, for a dual or tradeoff test, its listener came up; otherwise NULL. */
  lemma ClientHandle(st: State, e: Event)
    requires e.EvStartClient? && Enabled(st, e)
    ensures var o := StartClient(st, e.kind, e.ip, e.port, e.reports, e.env, e.senv);
            var client := Session(false, NULL, NULL, e.env.pcb, e.env.now, e.reports, 0, false, 0,
                                  ClientSettings(e.kind), true, false, 0);
            var up := e.kind != InvalidType && e.env.block != NULL && e.env.pcb != NULL && e.env.connect == ErrOk;
            var listens := e.senv.block != NULL && e.senv.pcb != NULL && e.senv.bind == ErrOk && e.senv.listen != NULL;
            && Step(st, e) == o.st
            && o.conn == (if up && (e.kind == UnidirectionalTest || listens) then e.env.block else NULL)
            && (o.conn != NULL ==> o.conn in o.st.recs && o.st.recs[o.conn] == client && !client.server)
            && (o.conn != NULL && e.kind == UnidirectionalTest ==> o.st.order == [e.env.block] + st.order)
            && (o.conn != NULL && e.kind != UnidirectionalTest ==>
                  && o.st.order == [e.senv.block, e.env.block] + st.order
                  && e.senv.block in o.st.recs
                  && o.st.recs[e.senv.block] ==
                     Session(true, e.env.block, e.senv.listen, NULL, 0, e.reports, 0, e.kind == Tradeoff, 0,
                             ZeroSettings(), false, true, e.ip))
  {
    hide ClientSettings, TxStart, StartServerImpl, AbortSession;
    var h := ClientSettings(e.kind);
    ConnectionHandle(st, h, e.reports, NULL, e.ip, e.port, Started(h), e.env);
    var o := TxStart(st, h, e.reports, NULL, e.ip, e.port, Started(h), e.env);
    if o.err == ErrOk && e.kind in {Dual, Tradeoff} { ServerHandle(o.st, false, e.reports, o.conn, e.senv); }
  }
}
