/** Where orphans come from: from the blocks the stack freed without a word, and from nothing else. */
module Vanishing {
  import opened Words
  import opened WireSettings
  import opened IperfState
  import opened Ownership
  import opened Isolation
  import opened Sending
  import opened Effects
  import opened Listening
  import opened Orphans

  // ---------------------------------------------------------------- which block a record names

  /** Every record that names a block of st named it in st; no block and no leaked record gets lost. */
  ghost predicate Grows(st: State, st': State) {
    && st.pcbs.Keys <= st'.pcbs.Keys && st.leaked <= st'.leaked
    && forall b :: b in st'.recs && st'.recs[b].connPcb in st.pcbs ==>
         b in st.recs && st'.recs[b].connPcb == st.recs[b].connPcb
  }

  lemma GrowsTrans(st: State, st1: State, st2: State)
    requires Grows(st, st1) && Grows(st1, st2)
    ensures Grows(st, st2)
  {
  }

  lemma SetGrows(st: State, st1: State, b: Addr, s: Session)
    requires Grows(st, st1) && b in st1.recs && s.connPcb == st1.recs[b].connPcb
    ensures Grows(st, WithRec(st1, b, s))
  {
  }

  lemma CloseGrows(st: State, st1: State, b: Addr, kind: Kind, how: Closing)
    requires Grows(st, st1) && b in st1.recs
    ensures Grows(st, Close(st1, b, kind, how))
  {
    hide Without;
  }

  lemma RejectedGrows(st: State, st1: State, b: Addr, kind: Kind, how: Closing, pkt: Pbuf)
    requires Grows(st, st1) && b in st1.recs
    ensures Grows(st, Rejected(st1, b, kind, how, pkt))
  {
    hide Close;
    CloseGrows(st, st1, b, kind, how);
  }

  lemma CountedGrows(st: State, st1: State, b: Addr, s: Session, p: Pid, pkt: Pbuf)
    requires Grows(st, st1) && b in st1.recs && p in st1.pcbs && s.connPcb == st1.recs[b].connPcb
    ensures Grows(st, Consumed(WithRec(st1, b, s), p, pkt))
  {
  }

  lemma SendMoreGrows(st: State, st1: State, b: Addr, turns: seq<Turn>, how: Closing)
    requires Grows(st, st1) && b in st1.recs && st1.recs[b].connPcb in st1.pcbs
    ensures Grows(st, SendMore(st1, b, turns, how))
  {
    hide Sent, Finished, Close;
    SendMoreIs(st1, b, turns, how);
    CloseGrows(st, Wrote(st1, b, Sent(st1.recs[b], st1.mss, turns)), b, DoneClient, how);
  }

  lemma StartGrows(st: State, h: Settings, reports: bool, master: Addr, ip: Ip, port: u16, why: Origin, env: StartEnv)
    requires Owned(st) && FreshStart(st, env)
    ensures Grows(st, TxStart(st, h, reports, master, ip, port, why, env).st)
  {
    TxStartOwned(st, h, reports, master, ip, port, why, env);
  }

  lemma PassiveGrows(st: State, b: Addr, env: StartEnv)
    requires Owned(st) && b in st.recs && b in st.order && ConnectionOk(st, b) && FreshStart(st, env)
    ensures var o := TxStartPassive(st, b, env);
            Grows(st, o.st) && b in o.st.recs && o.st.recs[b] == st.recs[b] && st.recs[b].connPcb in o.st.pcbs
  {
    hide TxStart, Owned;
    var s := st.recs[b];
    TxStartPassiveOwned(st, b, env);
    StartGrows(st, s.settings, s.reports, s.master, st.pcbs[s.connPcb].remoteIp,
               RemotePort(s.settings), Reverse(s.connPcb, WithoutFlags(s.settings)), env);
  }

  lemma RecvFirstGrows(st: State, st0: State, b: Addr, pkt: Pbuf, now: u32, how: Closing, env: StartEnv)
    requires Owned(st0) && b in st0.recs && b in st0.order && ConnectionOk(st0, b) && FreshStart(st0, env)
    requires TotLen(pkt) >= HEADER && b in st.recs && st0 == WithRec(st, b, st0.recs[b])
    requires st0.recs[b].connPcb == st.recs[b].connPcb
    ensures Grows(st, RecvFirst(st0, b, pkt, now, how, env))
  {
    hide Owned, Flat, TxStartPassive, Rejected, Consumed;
    var st1, p := TookHeader(st0, b, pkt), st0.recs[b].connPcb;
    SetRecordOwned(st0, b, st1.recs[b]);
    assert ConnectionOk(st1, b);
    PassiveGrows(st1, b, env);
    var o := TxStartPassive(st1, b, env);
    SetGrows(st, st, b, st1.recs[b]);
    assert st1 == WithRec(st, b, st1.recs[b]);
    GrowsTrans(st, st1, o.st);
    RejectedGrows(st, o.st, b, AbortedLocalTxError, how, pkt);
    CountedGrows(st, o.st, b, HeaderCounted(o.st.recs[b], TotLen(pkt), now), p, pkt);
    CountedGrows(st, st1, b, HeaderCounted(st1.recs[b], TotLen(pkt), now), p, pkt);
  }

  lemma RecvDataGrows(st: State, b: Addr, pkt: Pbuf, now: u32, how: Closing, env: StartEnv)
    requires Owned(st) && b in st.recs && b in st.order && ConnectionOk(st, b) && FreshStart(st, env)
    ensures Grows(st, RecvData(st, b, pkt, now, how, env))
  {
    hide Owned, Flat, RecvFirst, HeaderDue, Rejected, Consumed;
    var p, s := st.recs[b].connPcb, st.recs[b].(pollCount := 0);
    var st0 := WithRec(st, b, s);
    SetRecordOwned(st, b, s);
    assert ConnectionOk(st0, b);
    SetGrows(st, st, b, s);
    RejectedGrows(st, st0, b, AbortedLocalDataError, how, pkt);
    CountedGrows(st, st0, b, s.(bytes := Add32(s.bytes, TotLen(pkt))), p, pkt);
    if TotLen(pkt) >= HEADER {
      RecvFirstGrows(st, st0, b, pkt, now, how, env);
      CountedGrows(st, st0, b, HeaderCounted(s, TotLen(pkt), now), p, pkt);
    }
  }

  lemma RecvEndGrows(st: State, b: Addr, how: Closing, env: StartEnv)
    requires Owned(st) && b in st.recs && b in st.order && ConnectionOk(st, b) && FreshStart(st, env)
    ensures Grows(st, RecvEnd(st, b, how, env))
  {
    hide Owned, TxStartPassive, Close;
    PassiveGrows(st, b, env);
    CloseGrows(st, st, b, DoneServer, how);
    CloseGrows(st, TxStartPassive(st, b, env).st, b, DoneServer, how);
  }

  lemma PollGrows(st: State, b: Addr, turns: seq<Turn>, how: Closing)
    requires b in st.recs && st.recs[b].connPcb in st.pcbs
    ensures Grows(st, PollStep(st, b, turns, how))
  {
    hide SendMore, Close;
    var st1 := WithRec(st, b, st.recs[b].(pollCount := Inc8(st.recs[b].pollCount)));
    CloseGrows(st, st1, b, AbortedLocal, how);
    SendMoreGrows(st, st1, b, turns, how);
  }

  lemma CallbackGrows(st: State, e: Event)
    requires Owned(st) && Enabled(st, e) && Subject(e) != NULL
    ensures Grows(st, Step(st, e))
  {
    hide Rounds, SendMore, RecvData, RecvEnd, PollStep, Close;
    CallbackArgument(st, Subject(e));
    var b := Arg(st, Subject(e));
    match e
    case EvConnected(p, ok, now, turns, how) =>
      var st1 := st.(pcbs := st.pcbs[p := st.pcbs[p].(onConnected := false)]);
      CloseGrows(st, st1, b, AbortedRemote, how);
      SendMoreGrows(st, WithRec(st1, b, st.recs[b].(pollCount := 0, timeStarted := now)), b, turns, how);
    case EvSent(p, turns, how) => SendMoreGrows(st, WithRec(st, b, st.recs[b].(pollCount := 0)), b, turns, how);
    case EvRecv(p, pkt, now, how, env) => RecvDataGrows(st, b, pkt, now, how, env);
    case EvRecvEnd(p, how, env) => RecvEndGrows(st, b, how, env);
    case EvRecvErr(p, how) => CloseGrows(st, st, b, AbortedRemote, how);
    case EvPoll(p, turns, how) => PollGrows(st, b, turns, how);
    case EvErr(p) => ErrGrows(st, p);
    case EvVanished(_) =>
  }

  lemma ErrGrows(st: State, p: Pid)
    requires Reaches(st, p) && NULL !in st.pcbs
    ensures Grows(st, Step(st, EvErr(p)))
  {
    hide Without;
  }

  lemma AcceptGrows(st: State, e: Event)
    requires Owned(st) && Enabled(st, e) && e.EvAccept?
    ensures Grows(st, Step(st, e))
  {
    hide Without;
    CallbackArgument(st, e.l);
  }

  lemma ServerGrows(st: State, st1: State, noAddr: bool, reports: bool, master: Addr, env: ServerEnv)
    requires NULL !in st.pcbs && Grows(st, st1)
    ensures Grows(st, StartServerImpl(st1, noAddr, reports, master, env).st)
  {
  }

  lemma ClientGrows(st: State, e: Event)
    requires Owned(st) && Enabled(st, e) && e.EvStartClient? && !Aborts(st, e)
    ensures Grows(st, Step(st, e))
  {
    hide ClientSettings, ConnectionOk, TxStart, OpenSecondary, Owned;
    var h := ClientSettings(e.kind);
    TxStartOwned(st, h, e.reports, NULL, e.ip, e.port, Started(h), e.env);
    StartGrows(st, h, e.reports, NULL, e.ip, e.port, Started(h), e.env);
    var o := TxStart(st, h, e.reports, NULL, e.ip, e.port, Started(h), e.env);
    if o.err == ErrOk && e.kind in {Dual, Tradeoff} {
      StillFresh(st, e, h);
      SecondaryGrows(o, e.kind, e.ip, e.reports, e.senv);
      GrowsTrans(st, o.st, OpenSecondary(o, e.kind, e.ip, e.reports, e.senv).st);
    }
  }

  lemma SecondaryGrows(o: Outcome, kind: ClientType, ip: Ip, reports: bool, senv: ServerEnv)
    requires NULL !in o.st.pcbs && FreshServer(o.st, senv)
    requires !(senv.block == NULL || senv.pcb == NULL || senv.bind != ErrOk || senv.listen == NULL)
    ensures Grows(o.st, OpenSecondary(o, kind, ip, reports, senv).st)
  {
    ServerGrows(o.st, o.st, false, reports, o.conn, senv);
  }

  lemma StepGrows(st: State, e: Event)
    requires Owned(st) && Enabled(st, e) && !Aborts(st, e)
    ensures Grows(st, Step(st, e))
  {
    hide StartServerImpl, StartClient, Admit, AcceptErr, Rounds, SendMore, RecvData, RecvEnd, PollStep, Close, NoDup;
    if Subject(e) != NULL {
      CallbackGrows(st, e);
    } else {
      match e
      case EvAccept(_, _, _, _, _, _, _) => AcceptGrows(st, e);
      case EvStartServer(noAddr, reports, senv) => ServerGrows(st, st, noAddr, reports, NULL, senv);
      case EvStartClient(_, _, _, _, _, _) => ClientGrows(st, e);
      case _ =>
    }
  }

  // ---------------------------------------------------------------- over whole runs

  /** The history of silent frees is the one the state records, and what was freed stays freed. */
  ghost predicate Vanishings(st: State, past: seq<Event>) {
    (forall p :: p in st.vanished <==> EvVanished(p) in past) && StayFreed(st)
  }

  ghost predicate StayFreed(st: State) {
    forall p :: p in st.vanished ==> p in st.pcbs && st.pcbs[p].freed
  }

  lemma StepVanishings(st: State, past: seq<Event>, e: Event)
    requires Owned(st) && Enabled(st, e) && !Aborts(st, e) && Vanishings(st, past)
    ensures Vanishings(Step(st, e), past + [e])
  {
    hide Step, Owned, Enabled;
    StepVanished(st, e);
    var st' := Step(st, e);
    forall p ensures p in st'.vanished <==> EvVanished(p) in past + [e] {
      assert EvVanished(p) in past + [e] <==> EvVanished(p) in past || EvVanished(p) == e;
    }
    forall p | p in st'.vanished ensures p in st'.pcbs && st'.pcbs[p].freed {
      if p in st.vanished {
        FreedIsIdle(st, e, p);
        EventSpares(st, e, p);
      } else {
        VanishedFrees(st, p);
      }
    }
  }

  lemma VanishedFrees(st: State, p: Pid)
    requires Enabled(st, EvVanished(p))
    ensures var st' := Step(st, EvVanished(p)); p in st'.pcbs && st'.pcbs[p].freed
  {
  }

  lemma {:induction false} RunVanishings(st: State, past: seq<Event>, es: seq<Event>)
    requires Owned(st) && Vanishings(st, past) && Runs(st, es) && AbortFree(st, es)
    ensures Vanishings(Run(st, es), past + es)
    decreases |es|
  {
    hide Step, Enabled, Owned, Vanishings;
    if es == [] {
      assert past + es == past;
    } else {
      StepOwned(st, es[0]);
      StepVanishings(st, past, es[0]);
      RunVanishings(Step(st, es[0]), past + [es[0]], es[1..]);
      assert past + [es[0]] + es[1..] == past + es;
    }
  }

  /** The orphans on the list are exactly the records whose block the stack freed without a word. */
  lemma OrphansExactly(st: State, past: seq<Event>, a: Addr)
    requires Owned(st) && Vanishings(st, past) && a in st.order
    ensures a in st.recs && (Orphaned(st, a) <==> EvVanished(st.recs[a].connPcb) in past)
  {
    assert ListedOk(st, a);
  }

  /** No event but a silent free of its block makes an orphan: an orphan after any other was one before, with the
      same record. */
  lemma NoOtherOrphans(st: State, e: Event, a: Addr)
    requires Owned(st) && Enabled(st, e) && !Aborts(st, e) && StayFreed(st)
    requires a in Step(st, e).order && Orphaned(Step(st, e), a) && (e.EvVanished? ==> Arg(st, e.p) != a)
    ensures a in st.order && Orphaned(st, a) && Step(st, e).recs[a] == st.recs[a]
  {
    hide Step, Enabled, NoDup;
    var p := Step(st, e).recs[a].connPcb;
    StepOwned(st, e);
    StepVanished(st, e);
    StepGrows(st, e);
    if e.EvVanished? && e.p == p { NamedOnce(st, e, a); }
    assert a in st.recs && a in st.order;
    assert ListedOk(st, a);
    if AbortsIt(st, e, a) { AbortedGoes(st, e, a); } else { StepKeepsOrphan(st, e, a); }
  }

  /** A silently freed block was named by no record but its own. */
  lemma NamedOnce(st: State, e: Event, a: Addr)
    requires Owned(st) && Enabled(st, e) && e.EvVanished?
    requires a in Step(st, e).order && a in Step(st, e).recs && Step(st, e).recs[a].connPcb == e.p
    ensures Arg(st, e.p) == a
  {
    CallbackArgument(st, e.p);
    assert ListedOk(st, a);
  }

  lemma AbortedGoes(st: State, e: Event, a: Addr)
    requires Owned(st) && AbortsIt(st, e, a)
    ensures a !in Step(st, e).order
  {
    KeepProps(st.recs, st.order, e.session);
  }
}
