/** What one event may touch: the connection it is about, listeners, and blocks it creates. */
module Isolation {
  import opened Words
  import opened WireSettings
  import opened IperfState
  import opened Ownership

  /** The connection a callback is about; NULL for the other entry points. */
  function Subject(e: Event): Pid {
    match e
    case EvConnected(p, _, _, _, _) => p
    case EvSent(p, _, _) => p
    case EvRecv(p, _, _, _, _) => p
    case EvRecvEnd(p, _, _) => p
    case EvRecvErr(p, _) => p
    case EvPoll(p, _, _) => p
    case EvErr(p) => p
    case EvVanished(p) => p
    case _ => NULL
  }

  /** A connection whose session has not been closed. */
  predicate Live(st: State, p: Pid) {
    p in st.pcbs && st.pcbs[p].onPoll
  }

  function SessionOf(st: State, p: Pid): Session
    requires Arg(st, p) in st.recs
  {
    st.recs[Arg(st, p)]
  }

  /** The block still joins the same two hosts for the same reason. */
  predicate SameEnds(t: Tcb, t': Tcb) {
    t'.origin == t.origin && t'.remoteIp == t.remoteIp && t'.remotePort == t.remotePort
  }

  /** p's block, and the record behind it if there is one, are as they were. */
  ghost predicate Untouched(st: State, st': State, p: Pid)
    requires p in st.pcbs
  {
    && st'.mss == st.mss && p in st'.pcbs && st'.pcbs[p] == st.pcbs[p]
    && (st.pcbs[p].Armed() && Arg(st, p) in st.recs ==>
          Arg(st, p) in st'.recs && st'.recs[Arg(st, p)] == st.recs[Arg(st, p)])
  }

  ghost predicate Listener(st: State, p: Pid) {
    p in st.pcbs && st.pcbs[p].onAccept
  }

  lemma SendMoreLocal(st: State, a: Addr, turns: seq<Turn>, how: Closing)
    requires a in st.recs && st.recs[a].connPcb in st.pcbs && st.recs[a].connPcb != NULL
    ensures var st' := SendMore(st, a, turns, how);
            && st'.mss == st.mss && st'.pcbs.Keys == st.pcbs.Keys
            && (forall b :: b != a && b in st.recs ==> b in st'.recs && st'.recs[b] == st.recs[b])
            && (forall p :: p != st.recs[a].connPcb && p in st.pcbs ==> st'.pcbs[p] == st.pcbs[p])
    decreases |turns|
  {
    if turns == [] || LimitReached(st.recs[a], turns[0].now) {
    } else {
      SendMoreLocal(Wrote(st, a, Taken(st.recs[a], st.mss, turns[0])), a, turns[1..], how);
    }
  }

  /** p is not the connection of record a. */
  ghost predicate Apart(st: State, a: Addr, p: Pid) {
    && a in st.recs && p in st.pcbs && st.recs[a].connPcb in st.pcbs && st.recs[a].connPcb != NULL
    && p != st.recs[a].connPcb && (st.pcbs[p].Armed() ==> Arg(st, p) != a)
  }

  lemma ApartFromOwned(st: State, a: Addr, p: Pid)
    requires Owned(st) && a in st.order && a in st.recs && ConnectionOk(st, a)
    requires p in st.pcbs && p != st.recs[a].connPcb
    ensures Apart(st, a, p)
  {
    assert CallbackOk(st, p);
  }

  lemma WithRecLocal(st: State, a: Addr, s: Session, p: Pid)
    requires Apart(st, a, p) && s.connPcb == st.recs[a].connPcb
    ensures Untouched(st, WithRec(st, a, s), p) && Apart(WithRec(st, a, s), a, p)
  {
  }

  lemma ConsumedLocal(st: State, a: Addr, s: Session, pkt: Pbuf, p: Pid)
    requires Apart(st, a, p)
    ensures Untouched(st, Consumed(WithRec(st, a, s), st.recs[a].connPcb, pkt), p)
  {
  }

  lemma CloseLocal(st: State, a: Addr, kind: Kind, how: Closing, p: Pid)
    requires Apart(st, a, p)
    ensures Untouched(st, Close(st, a, kind, how), p)
  {
  }

  lemma PassiveLocal(st: State, a: Addr, env: StartEnv, p: Pid)
    requires Owned(st) && a in st.order && a in st.recs && ConnectionOk(st, a) && FreshStart(st, env)
    requires Apart(st, a, p)
    ensures Untouched(st, TxStartPassive(st, a, env).st, p) && Apart(TxStartPassive(st, a, env).st, a, p)
    ensures a in TxStartPassive(st, a, env).st.order
    ensures TxStartPassive(st, a, env).st.recs[a] == st.recs[a]
  {
    TxStartPassiveOwned(st, a, env);
  }

  lemma RecvFirstLocal(st: State, a: Addr, pkt: Pbuf, now: u32, how: Closing, env: StartEnv, p: Pid)
    requires Owned(st) && a in st.order && a in st.recs && ConnectionOk(st, a) && FreshStart(st, env)
    requires TotLen(pkt) >= HEADER && Apart(st, a, p)
    ensures Untouched(st, RecvFirst(st, a, pkt, now, how, env), p)
  {
    var st1 := TookHeader(st, a, pkt);
    WithRecLocal(st, a, st1.recs[a], p);
    if AnswerTest(st1.recs[a].settings) && AnswerNow(st1.recs[a].settings) {
      SetRecordOwned(st, a, st1.recs[a]);
      assert ConnectionOk(st1, a);
      PassiveLocal(st1, a, env, p);
      var o := TxStartPassive(st1, a, env);
      if o.err != ErrOk { CloseLocal(o.st, a, AbortedLocalTxError, how, p); }
      else { ConsumedLocal(o.st, a, HeaderCounted(o.st.recs[a], TotLen(pkt), now), pkt, p); }
    } else {
      ConsumedLocal(st1, a, HeaderCounted(st1.recs[a], TotLen(pkt), now), pkt, p);
    }
  }

  lemma RecvDataLocal(st: State, a: Addr, pkt: Pbuf, now: u32, how: Closing, env: StartEnv, p: Pid)
    requires Owned(st) && a in st.order && a in st.recs && ConnectionOk(st, a) && FreshStart(st, env)
    requires p in st.pcbs && p != st.recs[a].connPcb
    ensures Untouched(st, RecvData(st, a, pkt, now, how, env), p)
  {
    var s := st.recs[a].(pollCount := 0);
    var st0 := WithRec(st, a, s);
    ApartFromOwned(st, a, p);
    WithRecLocal(st, a, s, p);
    if !HeaderDue(s) {
      ConsumedLocal(st0, a, s.(bytes := Add32(s.bytes, TotLen(pkt))), pkt, p);
    } else if TotLen(pkt) < HEADER {
      CloseLocal(st0, a, AbortedLocalDataError, how, p);
    } else if !s.haveSettings {
      SetRecordOwned(st, a, s);
      assert ConnectionOk(st0, a);
      RecvFirstLocal(st0, a, pkt, now, how, env, p);
    } else if AnswerTest(s.settings) && Flat(pkt.chain)[..HEADER] != s.settings {
      CloseLocal(st0, a, AbortedLocalDataError, how, p);
    } else {
      ConsumedLocal(st0, a, HeaderCounted(s, TotLen(pkt), now), pkt, p);
    }
  }

  lemma RecvEndLocal(st: State, a: Addr, how: Closing, env: StartEnv, p: Pid)
    requires Owned(st) && a in st.order && a in st.recs && ConnectionOk(st, a) && FreshStart(st, env)
    requires p in st.pcbs && p != st.recs[a].connPcb
    ensures Untouched(st, RecvEnd(st, a, how, env), p)
  {
    ApartFromOwned(st, a, p);
    var s := st.recs[a];
    if AnswerTest(s.settings) && !AnswerNow(s.settings) {
      PassiveLocal(st, a, env, p);
      CloseLocal(TxStartPassive(st, a, env).st, a, DoneServer, how, p);
    } else {
      CloseLocal(st, a, DoneServer, how, p);
    }
  }

  /** lwiperf_tcp_client_send_more after the callback updated its record. */
  lemma SenderLocal(st: State, q: Pid, s: Session, turns: seq<Turn>, how: Closing, p: Pid)
    requires Owned(st) && Reaches(st, q) && Arg(st, q) in st.order && ConnectionOk(st, Arg(st, q))
    requires p in st.pcbs && p != q && s.connPcb == q
    ensures Untouched(st, SendMore(WithRec(st, Arg(st, q), s), Arg(st, q), turns, how), p)
  {
    ApartFromOwned(st, Arg(st, q), p);
    SendMoreLocal(WithRec(st, Arg(st, q), s), Arg(st, q), turns, how);
  }

  lemma ConnectedLocal(st: State, e: Event, p: Pid)
    requires Owned(st) && Enabled(st, e) && e.EvConnected?
    requires p in st.pcbs && p != Subject(e)
    ensures Untouched(st, Step(st, e), p)
  {
    var q, a := e.p, Arg(st, e.p);
    CallbackArgument(st, q);
    var st1 := st.(pcbs := st.pcbs[q := st.pcbs[q].(onConnected := false)]);
    ConnectedOwned(st, q);
    assert ConnectionOk(st1, a) && Untouched(st, st1, p);
    if e.ok {
      SenderLocal(st1, q, st.recs[a].(pollCount := 0, timeStarted := e.now), e.turns, e.how, p);
    } else {
      ApartFromOwned(st1, a, p);
      CloseLocal(st1, a, AbortedRemote, e.how, p);
    }
  }

  lemma PollLocal(st: State, a: Addr, turns: seq<Turn>, how: Closing, p: Pid)
    requires Owned(st) && a in st.order && a in st.recs && ConnectionOk(st, a)
    requires p in st.pcbs && p != st.recs[a].connPcb
    ensures Untouched(st, PollStep(st, a, turns, how), p)
  {
    var n := Inc8(st.recs[a].pollCount);
    var s := st.recs[a].(pollCount := n);
    ApartFromOwned(st, a, p);
    WithRecLocal(st, a, s, p);
    if n >= MAX_IDLE {
      CloseLocal(WithRec(st, a, s), a, AbortedLocal, how, p);
    } else if !s.server {
      SenderLocal(st, s.connPcb, s, turns, how, p);
    }
  }

  lemma AcceptLocal(st: State, e: Event, p: Pid)
    requires Owned(st) && Enabled(st, e) && e.EvAccept?
    requires p in st.pcbs && p != e.l
    ensures Untouched(st, Step(st, e), p)
  {
    CallbackArgument(st, e.l);
    assert CallbackOk(st, p);
    if st.pcbs[p].Armed() { CallbackArgument(st, p); }
  }

  lemma ServerLocal(st: State, noAddr: bool, reports: bool, master: Addr, senv: ServerEnv, p: Pid)
    requires FreshServer(st, senv) && p in st.pcbs
    ensures Untouched(st, StartServerImpl(st, noAddr, reports, master, senv).st, p)
  {
  }

  lemma SecondaryLocal(st: State, o: Outcome, kind: ClientType, ip: Ip, reports: bool, senv: ServerEnv, p: Pid)
    requires Owned(st) && p in st.pcbs && Untouched(st, o.st, p)
    requires o.conn in o.st.recs && o.conn !in st.recs && FreshServer(o.st, senv)
    ensures var so := StartServerImpl(o.st, false, reports, o.conn, senv);
            so.err == ErrOk ==>
              var s := so.st.recs[so.conn].(specificRemote := true, remoteAddr := ip, tradeoff := kind == Tradeoff);
              Untouched(st, WithRec(so.st, so.conn, s), p)
  {
    ServerLocal(o.st, false, reports, o.conn, senv, p);
    if st.pcbs[p].Armed() { assert CallbackOk(st, p); }
  }

  lemma ClientLocal(st: State, kind: ClientType, ip: Ip, port: u16, reports: bool, env: StartEnv, senv: ServerEnv,
                    p: Pid)
    requires Owned(st) && FreshStart(st, env) && FreshServer(st, senv)
    requires senv.block == NULL || env.block != senv.block
    requires env.pcb == NULL || (env.pcb != senv.pcb && env.pcb != senv.listen)
    requires !Aborts(st, EvStartClient(kind, ip, port, reports, env, senv))
    requires p in st.pcbs
    ensures Untouched(st, StartClient(st, kind, ip, port, reports, env, senv).st, p)
  {
    hide Stored, CallbackOk, Owned;
    var header := ClientSettings(kind);
    var o := TxStart(st, header, reports, NULL, ip, port, Started(header), env);
    TxStartOwned(st, header, reports, NULL, ip, port, Started(header), env);
    assert Untouched(st, o.st, p);
    if kind in {Dual, Tradeoff} && o.err == ErrOk {
      assert FreshServer(o.st, senv);
      SecondaryLocal(st, o, kind, ip, reports, senv, p);
    }
  }

  /** An event on one connection, an accept, or the start of a test leaves every other connection's
      record and control block alone. */
  lemma EventIsLocal(st: State, e: Event, p: Pid)
    requires Owned(st) && Enabled(st, e) && !Aborts(st, e)
    requires p in st.pcbs && p != Subject(e) && !Listener(st, p)
    ensures Untouched(st, Step(st, e), p)
  {
    hide Step;
    EventSpares(st, e, p);
  }

  /** The same for every block but the listener of an accept. */
  lemma EventSpares(st: State, e: Event, p: Pid)
    requires Owned(st) && Enabled(st, e) && !Aborts(st, e)
    requires p in st.pcbs && p != Subject(e) && !(e.EvAccept? && p == e.l)
    ensures Untouched(st, Step(st, e), p)
  {
    hide Step;
    if e.EvAccept? { AcceptLocal(st, e, p); } else { OtherEventsLocal(st, e, p); }
  }

  lemma OtherEventsLocal(st: State, e: Event, p: Pid)
    requires Owned(st) && Enabled(st, e) && !Aborts(st, e) && !e.EvAccept?
    requires p in st.pcbs && p != Subject(e)
    ensures Untouched(st, Step(st, e), p)
  {
    match e
    case EvConnected(_, _, _, _, _) => ConnectedLocal(st, e, p);
    case EvSent(q, turns, how) =>
      CallbackArgument(st, q);
      SenderLocal(st, q, SessionOf(st, q).(pollCount := 0), turns, how, p);
    case EvRecv(q, pkt, now, how, env) =>
      CallbackArgument(st, q);
      RecvDataLocal(st, Arg(st, q), pkt, now, how, env, p);
    case EvRecvEnd(q, how, env) =>
      CallbackArgument(st, q);
      RecvEndLocal(st, Arg(st, q), how, env, p);
    case EvRecvErr(q, how) =>
      CallbackArgument(st, q);
      ApartFromOwned(st, Arg(st, q), p);
      CloseLocal(st, Arg(st, q), AbortedRemote, how, p);
    case EvPoll(q, turns, how) =>
      CallbackArgument(st, q);
      PollLocal(st, Arg(st, q), turns, how, p);
    case EvErr(q) =>
      CallbackArgument(st, q);
      ApartFromOwned(st, Arg(st, q), p);
    case EvStartServer(noAddr, reports, senv) => ServerLocal(st, noAddr, reports, NULL, senv, p);
    case EvStartClient(kind, ip, port, reports, env, senv) => ClientLocal(st, kind, ip, port, reports, env, senv, p);
    case EvVanished(q) => CallbackArgument(st, q);
    case EvAbort(session) => AbortLocal(st, session, p);
  }

  /** An abort that frees only orphans leaves every record alone that a callback names. */
  lemma AbortLocal(st: State, session: Addr, p: Pid)
    requires Owned(st) && !FreesUsed(st, session) && p in st.pcbs
    ensures Untouched(st, AbortSession(st, session), p)
  {
    if st.pcbs[p].Armed() {
      CallbackArgument(st, p);
      NotOrphaned(st, p);
    }
  }

  /** A listening block is left alone or freed. */
  lemma ListenerStays(st: State, e: Event, p: Pid)
    requires Owned(st) && Enabled(st, e) && !Aborts(st, e) && Listener(st, p)
    ensures p in Step(st, e).pcbs && Step(st, e).pcbs[p] in {st.pcbs[p], Freed(st.pcbs[p])}
    ensures Step(st, e).mss == st.mss
  {
    CallbackArgument(st, p);
    if e.EvAccept? {
      CallbackArgument(st, e.l);
    } else {
      assert p != Subject(e) by {
        if p == Subject(e) { CallbackArgument(st, Subject(e)); }
      }
      OtherEventsLocal(st, e, p);
    }
  }
}
