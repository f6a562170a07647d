/** What becomes of a client whose block the stack freed without a word: nothing, unless the user aborts it. */
module Orphans {
  import opened Words
  import opened WireSettings
  import opened IperfState
  import opened Ownership
  import opened Isolation
  import opened Sending
  import opened Effects
  import opened Listening

  /** The record stays listed as it was, and freed blocks stay freed. */
  ghost predicate Keeps(st: State, st': State, a: Addr)
    requires a in st.recs
  {
    && a in st'.recs && st'.recs[a] == st.recs[a] && a in st'.order
    && forall p :: p in st.pcbs ==> p in st'.pcbs && (st.pcbs[p].freed ==> st'.pcbs[p].freed)
  }

  lemma CloseKeeps(st: State, b: Addr, kind: Kind, how: Closing, a: Addr)
    requires NoDup(st.order) && a in st.recs && a in st.order && b in st.recs && a != b
    ensures Keeps(st, Close(st, b, kind, how), a)
  {
    WithoutProps(st.order, b);
  }

  lemma SendMoreKeeps(st: State, b: Addr, turns: seq<Turn>, how: Closing, a: Addr)
    requires NoDup(st.order) && a in st.recs && a in st.order && b in st.recs && a != b
    requires st.recs[b].connPcb in st.pcbs
    ensures Keeps(st, SendMore(st, b, turns, how), a)
  {
    hide Sent, Finished, Close, NoDup;
    SendMoreIs(st, b, turns, how);
    CloseKeeps(Wrote(st, b, Sent(st.recs[b], st.mss, turns)), b, DoneClient, how, a);
  }

  lemma RejectedKeeps(st: State, b: Addr, kind: Kind, how: Closing, pkt: Pbuf, a: Addr)
    requires NoDup(st.order) && a in st.recs && a in st.order && b in st.recs && a != b
    ensures Keeps(st, Rejected(st, b, kind, how, pkt), a)
  {
    hide Close, NoDup;
    CloseKeeps(st, b, kind, how, a);
  }

  lemma CountedKeeps(st: State, b: Addr, s: Session, p: Pid, pkt: Pbuf, a: Addr)
    requires a in st.recs && a in st.order && a != b && p in st.pcbs
    ensures Keeps(st, Consumed(WithRec(st, b, s), p, pkt), a)
  {
  }

  lemma PassiveKeepsOthers(st: State, b: Addr, env: StartEnv, a: Addr)
    requires Owned(st) && a in st.recs && a in st.order && b in st.recs && b in st.order && a != b
    requires ConnectionOk(st, b) && FreshStart(st, env)
    ensures var o := TxStartPassive(st, b, env);
            Owned(o.st) && Keeps(st, o.st, a) && b in o.st.recs && NoDup(o.st.order)
  {
    hide TxStartPassive;
    TxStartPassiveOwned(st, b, env);
  }

  lemma RecvFirstKeeps(st: State, b: Addr, pkt: Pbuf, now: u32, how: Closing, env: StartEnv, a: Addr)
    requires Owned(st) && a in st.recs && a in st.order && b in st.recs && b in st.order && a != b
    requires ConnectionOk(st, b) && FreshStart(st, env) && TotLen(pkt) >= HEADER
    ensures Keeps(st, RecvFirst(st, b, pkt, now, how, env), a)
  {
    hide Owned, Flat, TxStartPassive, HeaderCounted, Rejected, Consumed;
    var st1, p := TookHeader(st, b, pkt), st.recs[b].connPcb;
    SetRecordOwned(st, b, st1.recs[b]);
    assert ConnectionOk(st1, b);
    if AnswerTest(st1.recs[b].settings) && AnswerNow(st1.recs[b].settings) {
      PassiveKeepsOthers(st1, b, env, a);
      var o := TxStartPassive(st1, b, env);
      RejectedKeeps(o.st, b, AbortedLocalTxError, how, pkt, a);
      if p in o.st.pcbs { CountedKeeps(o.st, b, HeaderCounted(o.st.recs[b], TotLen(pkt), now), p, pkt, a); }
    } else {
      CountedKeeps(st1, b, HeaderCounted(st1.recs[b], TotLen(pkt), now), p, pkt, a);
    }
  }

  lemma RecvDataKeeps(st: State, b: Addr, pkt: Pbuf, now: u32, how: Closing, env: StartEnv, a: Addr)
    requires Owned(st) && a in st.recs && a in st.order && b in st.recs && b in st.order && a != b
    requires ConnectionOk(st, b) && FreshStart(st, env)
    ensures Keeps(st, RecvData(st, b, pkt, now, how, env), a)
  {
    hide Owned, Flat, RecvFirst, HeaderCounted, HeaderDue, Rejected, Consumed;
    var p, s := st.recs[b].connPcb, st.recs[b].(pollCount := 0);
    var st0 := WithRec(st, b, s);
    SetRecordOwned(st, b, s);
    assert ConnectionOk(st0, b) && NoDup(st0.order) by { OwnedNoDup(st0); }
    RejectedKeeps(st0, b, AbortedLocalDataError, how, pkt, a);
    CountedKeeps(st0, b, s.(bytes := Add32(s.bytes, TotLen(pkt))), p, pkt, a);
    if TotLen(pkt) >= HEADER {
      RecvFirstKeeps(st0, b, pkt, now, how, env, a);
      CountedKeeps(st0, b, HeaderCounted(s, TotLen(pkt), now), p, pkt, a);
    }
  }

  lemma OwnedNoDup(st: State)
    requires Owned(st)
    ensures NoDup(st.order)
  {
  }

  lemma RecvEndKeeps(st: State, b: Addr, how: Closing, env: StartEnv, a: Addr)
    requires Owned(st) && a in st.recs && a in st.order && b in st.recs && b in st.order && a != b
    requires ConnectionOk(st, b) && FreshStart(st, env)
    ensures Keeps(st, RecvEnd(st, b, how, env), a)
  {
    hide Owned, TxStartPassive, Close, NoDup;
    OwnedNoDup(st);
    PassiveKeepsOthers(st, b, env, a);
    CloseKeeps(st, b, DoneServer, how, a);
    CloseKeeps(TxStartPassive(st, b, env).st, b, DoneServer, how, a);
  }

  lemma AcceptKeeps(st: State, e: Event, a: Addr)
    requires Owned(st) && Enabled(st, e) && e.EvAccept? && Orphaned(st, a) && a in st.order
    ensures Keeps(st, Step(st, e), a)
  {
    CallbackArgument(st, e.l);
    NotOrphaned(st, e.l);
    WithoutProps(st.order, Arg(st, e.l));
  }

  lemma ServerKeeps(st: State, noAddr: bool, reports: bool, master: Addr, env: ServerEnv, a: Addr)
    requires FreshServer(st, env) && a in st.recs && a in st.order
    ensures Keeps(st, StartServerImpl(st, noAddr, reports, master, env).st, a)
  {
  }

  lemma SecondaryKeeps(o: Outcome, kind: ClientType, ip: Ip, reports: bool, senv: ServerEnv, a: Addr)
    requires FreshServer(o.st, senv) && a in o.st.recs && a in o.st.order
    requires !(senv.block == NULL || senv.pcb == NULL || senv.bind != ErrOk || senv.listen == NULL)
    ensures Keeps(o.st, OpenSecondary(o, kind, ip, reports, senv).st, a)
  {
    ServerKeeps(o.st, false, reports, o.conn, senv, a);
  }

  lemma StillFresh(st: State, e: Event, h: Settings)
    requires Enabled(st, e) && e.EvStartClient?
    ensures var o := TxStart(st, h, e.reports, NULL, e.ip, e.port, Started(h), e.env);
            o.err == ErrOk ==> FreshServer(o.st, e.senv)
  {
  }

  lemma ClientKeeps(st: State, e: Event, a: Addr)
    requires Owned(st) && Enabled(st, e) && e.EvStartClient? && !Aborts(st, e) && a in st.recs && a in st.order
    ensures Keeps(st, Step(st, e), a)
  {
    hide ClientSettings, Owned, OpenSecondary, ConnectionOk, TxStart;
    var h := ClientSettings(e.kind);
    TxStartOwned(st, h, e.reports, NULL, e.ip, e.port, Started(h), e.env);
    var o := TxStart(st, h, e.reports, NULL, e.ip, e.port, Started(h), e.env);
    if o.err == ErrOk && e.kind in {Dual, Tradeoff} {
      StillFresh(st, e, h);
      SecondaryKeeps(o, e.kind, e.ip, e.reports, e.senv, a);
    }
  }

  lemma ConnectedKeeps(st: State, e: Event, a: Addr)
    requires NoDup(st.order) && a in st.recs && a in st.order && e.EvConnected? && Reaches(st, e.p) && a != Arg(st, e.p)
    ensures Keeps(st, Step(st, e), a)
  {
    hide SendMore, Close, NoDup;
    var b := Arg(st, e.p);
    var st1 := st.(pcbs := st.pcbs[e.p := st.pcbs[e.p].(onConnected := false)]);
    CloseKeeps(st1, b, AbortedRemote, e.how, a);
    SendMoreKeeps(WithRec(st1, b, st.recs[b].(pollCount := 0, timeStarted := e.now)), b, e.turns, e.how, a);
  }

  lemma PollKeeps(st: State, b: Addr, turns: seq<Turn>, how: Closing, a: Addr)
    requires NoDup(st.order) && a in st.recs && a in st.order && b in st.recs && a != b
    requires st.recs[b].connPcb in st.pcbs
    ensures Keeps(st, PollStep(st, b, turns, how), a)
  {
    hide SendMore, Close, NoDup;
    var st1 := WithRec(st, b, st.recs[b].(pollCount := Inc8(st.recs[b].pollCount)));
    CloseKeeps(st1, b, AbortedLocal, how, a);
    SendMoreKeeps(st1, b, turns, how, a);
  }

  lemma ErrKeeps(st: State, p: Pid, a: Addr)
    requires NoDup(st.order) && a in st.recs && a in st.order && Reaches(st, p) && a != Arg(st, p)
    ensures Keeps(st, Step(st, EvErr(p)), a)
  {
    hide Close, NoDup;
    var b := Arg(st, p);
    var st1 := st.(pcbs := st.pcbs[p := Freed(st.pcbs[p])]);
    CloseKeeps(WithRec(st1, b, st.recs[b].(connPcb := NULL, serverPcb := NULL)), b, AbortedRemote, Gone, a);
  }

  /** The event is an abort that names the orphan or its master. */
  predicate AbortsIt(st: State, e: Event, a: Addr) {
    e.EvAbort? && Targets(st.recs, a, e.session)
  }

  /** A callback on another connection. */
  lemma CallbackKeeps(st: State, e: Event, a: Addr)
    requires Owned(st) && Enabled(st, e) && Subject(e) != NULL && Orphaned(st, a) && a in st.order
    ensures Keeps(st, Step(st, e), a) && Subject(e) != st.recs[a].connPcb
  {
    hide Rounds, SendMore, RecvData, RecvEnd, PollStep, Close, NoDup;
    OwnedNoDup(st);
    CallbackArgument(st, Subject(e));
    NotOrphaned(st, Subject(e));
    match e
    case EvConnected(_, _, _, _, _) => ConnectedKeeps(st, e, a);
    case EvSent(p, turns, how) =>
      SendMoreKeeps(WithRec(st, Arg(st, p), SessionOf(st, p).(pollCount := 0)), Arg(st, p), turns, how, a);
    case EvRecv(p, pkt, now, how, env) => RecvDataKeeps(st, Arg(st, p), pkt, now, how, env, a);
    case EvRecvEnd(p, how, env) => RecvEndKeeps(st, Arg(st, p), how, env, a);
    case EvRecvErr(p, how) => CloseKeeps(st, Arg(st, p), AbortedRemote, how, a);
    case EvPoll(p, turns, how) => PollKeeps(st, Arg(st, p), turns, how, a);
    case EvErr(p) => ErrKeeps(st, p, a);
    case EvVanished(_) =>
  }

  /** No event but an abort that names it changes an orphan, or is about its block. */
  lemma StepKeepsOrphan(st: State, e: Event, a: Addr)
    requires Owned(st) && Enabled(st, e) && !Aborts(st, e) && Orphaned(st, a) && a in st.order && !AbortsIt(st, e, a)
    ensures Keeps(st, Step(st, e), a) && Orphaned(Step(st, e), a)
    ensures Subject(e) != st.recs[a].connPcb || Subject(e) == NULL
  {
    StepVanished(st, e);
    if Subject(e) != NULL {
      hide Step, Enabled;
      CallbackKeeps(st, e, a);
    } else {
      OtherKeeps(st, e, a);
    }
  }

  lemma OtherKeeps(st: State, e: Event, a: Addr)
    requires Owned(st) && Enabled(st, e) && !Aborts(st, e) && Orphaned(st, a) && a in st.order && !AbortsIt(st, e, a)
    requires Subject(e) == NULL
    ensures Keeps(st, Step(st, e), a)
  {
    hide StartServerImpl, StartClient, Admit, AcceptErr, Rounds, SendMore, RecvData, RecvEnd, PollStep, Close, NoDup;
    OwnedNoDup(st);
    match e
    case EvAccept(_, _, _, _, _, _, _) => AcceptKeeps(st, e, a);
    case EvStartServer(noAddr, reports, senv) => ServerKeeps(st, noAddr, reports, NULL, senv, a);
    case EvStartClient(_, _, _, _, _, _) => ClientKeeps(st, e, a);
    case EvAbort(session) => KeepProps(st.recs, st.order, session);
    case _ =>
  }

  /** The run holds no abort that names the orphan. */
  predicate LeftAlone(st: State, es: seq<Event>, a: Addr)
    decreases |es|
  {
    es == [] || (!AbortsIt(st, es[0], a) && LeftAlone(Step(st, es[0]), es[1..], a))
  }

  /** An orphan stays on the list, never freed, over every run that does not abort it. */
  lemma {:induction false} OrphanStays(st: State, es: seq<Event>, a: Addr)
    requires Owned(st) && Runs(st, es) && AbortFree(st, es) && LeftAlone(st, es, a) && Orphaned(st, a) && a in st.order
    ensures var st' := Run(st, es);
            a in st'.order && a in st'.recs && st'.recs[a] == st.recs[a] && Orphaned(st', a)
    decreases |es|
  {
    hide Step, Enabled, Owned, AbortsIt;
    if es != [] {
      StepOwned(st, es[0]);
      StepKeepsOrphan(st, es[0], a);
      OrphanStays(Step(st, es[0]), es[1..], a);
    }
  }

  /** So a tradeoff listener whose client is an orphan never closes, whatever connects: it goes on letting in every
      connection from its remote host. */
  lemma {:induction false} OrphanKeepsListener(st: State, es: seq<Event>, l: Pid)
    requires Owned(st) && Runs(st, es) && AbortFree(st, es) && Secondary(st, l) && SessionOf(st, l).tradeoff
    requires var a := SessionOf(st, l).master; Orphaned(st, a) && a in st.order && LeftAlone(st, es, a)
    ensures !Closes(st, es, l) && Secondary(Run(st, es), l)
    decreases |es|
  {
    hide Step, Enabled, Owned, Orphaned, AbortsIt, AcceptErr;
    if es != [] {
      var e := es[0];
      StepOwned(st, e);
      StepKeepsOrphan(st, e, SessionOf(st, l).master);
      NextListener(st, e, l);
      if e.EvAccept? && e.l == l {
        AcceptOn(st, e);
        if Admits(st, e, l) { SecondaryAccept(st, e); }
      } else {
        ListenerUntouched(st, e, l);
      }
      OrphanKeepsListener(Step(st, e), es[1..], l);
    }
  }
}
