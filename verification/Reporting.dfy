/** Which reports the user gets: one for each session that ends, and about what. */
module Reporting {
  import opened Words
  import opened WireSettings
  import opened IperfState
  import opened Ownership
  import opened Isolation
  import opened Receiving
  import opened Sending
  import opened Effects
  import opened Connecting

  /** A start whose tcp_connect failed is reported, if its session has a report function. */
  function StartReport(env: StartEnv, reports: bool): seq<Report> {
    if Supplied(env) && env.connect != ErrOk && reports then [Report(env.block, AbortedLocal, env.pcb, 0)] else []
  }

  /** Whether the callback starts a connection back. */
  predicate StartsBack(s: Session, e: Event) {
    match e
    case EvRecv(_, pkt, _, _, _) => AsksNow(s, pkt)
    case EvRecvEnd(_, _, _) => AnswerTest(s.settings) && !AnswerNow(s.settings)
    case _ => false
  }

  function BackReport(s: Session, e: Event): seq<Report> {
    match e
    case EvRecv(_, _, _, _, env) => if StartsBack(s, e) then StartReport(env, s.reports) else []
    case EvRecvEnd(_, _, env) => if StartsBack(s, e) then StartReport(env, s.reports) else []
    case _ => []
  }

  /** Why a session that does not survive its callback ends. */
  function EndKind(s: Session, e: Event): Kind {
    match e
    case EvConnected(_, ok, _, _, _) => if ok then DoneClient else AbortedRemote
    case EvSent(_, _, _) => DoneClient
    case EvRecv(_, pkt, _, _, _) =>
      if TotLen(pkt) < HEADER || s.haveSettings then AbortedLocalDataError else AbortedLocalTxError
    case EvRecvEnd(_, _, _) => DoneServer
    case EvPoll(_, _, _) => if Inc8(s.pollCount) >= MAX_IDLE then AbortedLocal else DoneClient
    case _ => AbortedRemote
  }

  /** Its count at the end, what the callback still sent included. */
  function EndBytes(s: Session, mss: Mss, e: Event): u32 {
    match e
    case EvConnected(_, ok, now, turns, _) =>
      if ok then AfterSending(s.(pollCount := 0, timeStarted := now), mss, turns).bytes else s.bytes
    case EvSent(_, turns, _) => AfterSending(s.(pollCount := 0), mss, turns).bytes
    case EvPoll(_, turns, _) =>
      var s' := s.(pollCount := Inc8(s.pollCount));
      if s'.pollCount >= MAX_IDLE || s.server then s.bytes else AfterSending(s', mss, turns).bytes
    case _ => s.bytes
  }

  /** The report of the session itself: none while it goes on or when the stack drops its block without a word;
      after an error callback the addresses are read through NULL. */
  function EndReport(s: Session, a: Addr, mss: Mss, e: Event): seq<Report> {
    if Survives(s, mss, e) || e.EvVanished? || !s.reports then []
    else [Report(a, EndKind(s, e), if e.EvErr? then NULL else Subject(e), EndBytes(s, mss, e))]
  }

  // ---------------------------------------------------------------- one callback

  lemma CloseReports(st: State, p: Pid, kind: Kind, how: Closing)
    requires Reaches(st, p)
    ensures Close(st, Arg(st, p), kind, how).reports ==
            st.reports + if SessionOf(st, p).reports then [Report(Arg(st, p), kind, p, SessionOf(st, p).bytes)] else []
  {
  }

  lemma SendMoreReports(st: State, p: Pid, turns: seq<Turn>, how: Closing)
    requires Reaches(st, p)
    ensures var s := SessionOf(st, p);
            SendMore(st, Arg(st, p), turns, how).reports ==
            st.reports + if Finished(s, st.mss, turns) && s.reports
                         then [Report(Arg(st, p), DoneClient, p, AfterSending(s, st.mss, turns).bytes)] else []
  {
    hide Sent, Finished, Close, Add32;
    var a := Arg(st, p);
    SendMoreIs(st, a, turns, how);
    var st1 := Wrote(st, a, Sent(st.recs[a], st.mss, turns));
    CloseReports(st1, p, DoneClient, how);
  }

  lemma TxStartReports(st: State, h: Settings, reports: bool, master: Addr, ip: Ip, port: u16, why: Origin,
                       env: StartEnv)
    ensures TxStart(st, h, reports, master, ip, port, why, env).st.reports == st.reports + StartReport(env, reports)
  {
    hide Without;
  }

  lemma PassiveReports(st: State, a: Addr, env: StartEnv)
    requires a in st.recs && st.recs[a].connPcb in st.pcbs
    ensures TxStartPassive(st, a, env).st.reports == st.reports + StartReport(env, st.recs[a].reports)
  {
    hide TxStart, StartReport;
    var s := st.recs[a];
    TxStartReports(st, s.settings, s.reports, s.master, st.pcbs[s.connPcb].remoteIp, RemotePort(s.settings),
                   Reverse(s.connPcb, WithoutFlags(s.settings)), env);
  }

  lemma RejectedReports(st: State, p: Pid, kind: Kind, how: Closing, pkt: Pbuf)
    requires Reaches(st, p)
    ensures Rejected(st, Arg(st, p), kind, how, pkt).reports ==
            st.reports + if SessionOf(st, p).reports then [Report(Arg(st, p), kind, p, SessionOf(st, p).bytes)] else []
  {
    hide Close;
    CloseReports(st, p, kind, how);
  }

  lemma RecvFirstReports(st: State, p: Pid, pkt: Pbuf, now: u32, how: Closing, env: StartEnv)
    requires Owned(st) && Reaches(st, p) && Arg(st, p) in st.order && ConnectionOk(st, Arg(st, p)) &&
             FreshStart(st, env)
    requires TotLen(pkt) >= HEADER && !SessionOf(st, p).haveSettings
    ensures var s := SessionOf(st, p);
            RecvFirst(st, Arg(st, p), pkt, now, how, env).reports ==
            st.reports + (if AsksNow(s, pkt) then StartReport(env, s.reports) else []) +
            if AsksNow(s, pkt) && !Starts(env) && s.reports
            then [Report(Arg(st, p), AbortedLocalTxError, p, s.bytes)] else []
  {
    hide Owned, Flat, TxStartPassive, HeaderCounted, Rejected, StartReport;
    var a := Arg(st, p);
    var st1 := TookHeader(st, a, pkt);
    PassiveReports(st1, a, env);
    PassiveKeeps(st, st1, p, env);
    var o := TxStartPassive(st1, a, env);
    if AsksNow(SessionOf(st, p), pkt) { RejectedReports(o.st, p, AbortedLocalTxError, how, pkt); }
  }

  lemma RecvDataReports(st: State, e: Event)
    requires Owned(st) && e.EvRecv? && Reaches(st, e.p) && Arg(st, e.p) in st.order
    requires ConnectionOk(st, Arg(st, e.p)) && FreshStart(st, e.env)
    ensures var s, a := SessionOf(st, e.p), Arg(st, e.p);
            RecvData(st, a, e.pkt, e.now, e.how, e.env).reports ==
            st.reports + BackReport(s, e) + EndReport(s, a, st.mss, e)
  {
    hide Owned, Flat, RecvFirst, HeaderCounted, Rejected, StartReport;
    var p, pkt := e.p, e.pkt;
    var a := Arg(st, p);
    var s := st.recs[a].(pollCount := 0);
    var st0 := WithRec(st, a, s);
    SetRecordOwned(st, a, s);
    assert ConnectionOk(st0, a);
    RejectedReports(st0, p, AbortedLocalDataError, e.how, pkt);
    if TotLen(pkt) >= HEADER && !s.haveSettings { RecvFirstReports(st0, p, pkt, e.now, e.how, e.env); }
  }

  lemma RecvEndReports(st: State, e: Event)
    requires Owned(st) && e.EvRecvEnd? && Reaches(st, e.p) && Arg(st, e.p) in st.order
    requires ConnectionOk(st, Arg(st, e.p)) && FreshStart(st, e.env)
    ensures var s, a := SessionOf(st, e.p), Arg(st, e.p);
            RecvEnd(st, a, e.how, e.env).reports == st.reports + BackReport(s, e) + EndReport(s, a, st.mss, e)
  {
    hide Owned, TxStartPassive, Close, StartReport;
    var a := Arg(st, e.p);
    PassiveReports(st, a, e.env);
    assert WithRec(st, a, st.recs[a]) == st;
    PassiveKeeps(st, st, e.p, e.env);
    CloseReports(st, e.p, DoneServer, e.how);
    CloseReports(TxStartPassive(st, a, e.env).st, e.p, DoneServer, e.how);
  }

  lemma PollReports(st: State, e: Event)
    requires e.EvPoll? && Reaches(st, e.p)
    ensures PollStep(st, Arg(st, e.p), e.turns, e.how).reports ==
            st.reports + EndReport(SessionOf(st, e.p), Arg(st, e.p), st.mss, e)
  {
    hide SendMore, Close, AfterSending, Finished;
    var a := Arg(st, e.p);
    var s := st.recs[a].(pollCount := Inc8(st.recs[a].pollCount));
    CloseReports(WithRec(st, a, s), e.p, AbortedLocal, e.how);
    SendMoreReports(WithRec(st, a, s), e.p, e.turns, e.how);
  }

  lemma ErrReports(st: State, p: Pid)
    requires Reaches(st, p)
    ensures Step(st, EvErr(p)).reports ==
            st.reports + EndReport(SessionOf(st, p), Arg(st, p), st.mss, EvErr(p))
  {
    hide Without;
  }

  /** What one callback reports, in closed form. */
  lemma CallbackReports(st: State, e: Event)
    requires Owned(st) && Enabled(st, e) && Subject(e) != NULL
    ensures Arg(st, Subject(e)) in st.recs
    ensures var s, a := SessionOf(st, Subject(e)), Arg(st, Subject(e));
            Step(st, e).reports == st.reports + BackReport(s, e) + EndReport(s, a, st.mss, e)
  {
    hide Rounds, SendMore, Close, RecvData, RecvEnd, PollStep, AfterSending, Kept, Finished, Flat;
    var p := Subject(e);
    CallbackArgument(st, p);
    var a := Arg(st, p);
    match e
    case EvConnected(_, ok, now, turns, how) =>
      var st1 := st.(pcbs := st.pcbs[p := st.pcbs[p].(onConnected := false)]);
      CloseReports(st1, p, AbortedRemote, how);
      SendMoreReports(WithRec(st1, a, st.recs[a].(pollCount := 0, timeStarted := now)), p, turns, how);
    case EvSent(_, turns, how) => SendMoreReports(WithRec(st, a, st.recs[a].(pollCount := 0)), p, turns, how);
    case EvRecv(_, _, _, _, _) => RecvDataReports(st, e);
    case EvRecvEnd(_, _, _) => RecvEndReports(st, e);
    case EvRecvErr(_, how) => CloseReports(st, p, AbortedRemote, how);
    case EvPoll(_, _, _) => PollReports(st, e);
    case EvErr(_) => ErrReports(st, p);
    case EvVanished(_) =>
  }

  // ---------------------------------------------------------------- every event

  /** The reports an event adds. */
  function NewReports(st: State, e: Event): seq<Report> {
    if Subject(e) != NULL then
      if Arg(st, Subject(e)) in st.recs then
        var s := SessionOf(st, Subject(e));
        BackReport(s, e) + EndReport(s, Arg(st, Subject(e)), st.mss, e)
      else []
    else if e.EvStartClient? && e.kind != InvalidType then StartReport(e.env, e.reports)
    else []
  }

  lemma AcceptReports(st: State, e: Event)
    requires Owned(st) && Enabled(st, e) && e.EvAccept?
    ensures Step(st, e).reports == st.reports
  {
    hide Without;
    CallbackArgument(st, e.l);
  }

  lemma ClientReports(st: State, e: Event)
    requires e.EvStartClient?
    ensures Step(st, e).reports == st.reports + if e.kind != InvalidType then StartReport(e.env, e.reports) else []
  {
    hide ClientSettings, TxStart, StartReport;
    var h := ClientSettings(e.kind);
    TxStartReports(st, h, e.reports, NULL, e.ip, e.port, Started(h), e.env);
  }

  /** Each event adds exactly these reports: one for the session it ends, if that has a report function and the block
      did not vanish, and one for a connection it tries in vain to start. */
  lemma StepReports(st: State, e: Event)
    requires Owned(st) && Enabled(st, e)
    ensures Step(st, e).reports == st.reports + NewReports(st, e)
  {
    if Subject(e) != NULL {
      hide Step, Enabled, BackReport, EndReport;
      CallbackReports(st, e);
      Regroup(st.reports, BackReport(SessionOf(st, Subject(e)), e),
              EndReport(SessionOf(st, Subject(e)), Arg(st, Subject(e)), st.mss, e));
    } else if e.EvAccept? {
      AcceptReports(st, e);
    } else if e.EvStartClient? {
      ClientReports(st, e);
    } else {
      OtherReports(st, e);
    }
  }

  lemma Regroup(a: seq<Report>, b: seq<Report>, c: seq<Report>)
    ensures a + b + c == a + (b + c)
  {
  }

  lemma OtherReports(st: State, e: Event)
    requires Owned(st) && Enabled(st, e) && Subject(e) == NULL && !e.EvAccept? && !e.EvStartClient?
    ensures Step(st, e).reports == st.reports
  {
    hide Rounds;
  }

  /** The addresses of a report are read through NULL if and only if it follows an error callback. */
  lemma NullOnlyAfterError(st: State, e: Event, r: Report)
    requires Owned(st) && Enabled(st, e) && r in NewReports(st, e)
    ensures r.pcb == NULL <==> e.EvErr?
  {
    hide Owned, Rounds, Survives, AfterSending;
  }

  /** Reports that name block p. */
  function Count(rs: seq<Report>, p: Pid): nat {
    if rs == [] then 0 else Count(rs[..|rs| - 1], p) + if rs[|rs| - 1].pcb == p then 1 else 0
  }

  lemma {:induction false} CountConcat(a: seq<Report>, b: seq<Report>, p: Pid)
    ensures Count(a + b, p) == Count(a, p) + Count(b, p)
  {
    if b == [] {
      assert a + b == a;
    } else {
      CountConcat(a, b[..|b| - 1], p);
      assert (a + b)[..|a + b| - 1] == a + b[..|b| - 1];
    }
  }

  /** No connection is reported twice, and none before it is over. */
  ghost predicate ReportedOnce(st: State) {
    forall p :: p != NULL ==> ReportOk(st, p)
  }

  ghost predicate ReportOk(st: State, p: Pid) {
    Count(st.reports, p) <= if p !in st.pcbs || Live(st, p) then 0 else 1
  }

  /** An event reports only connections it ends or tries in vain to start. */
  lemma ReportedEnds(st: State, e: Event, p: Pid)
    requires Owned(st) && Enabled(st, e) && !Aborts(st, e) && p != NULL
    ensures Count(NewReports(st, e), p) <= 1
    ensures Count(NewReports(st, e), p) == 1 ==>
              && (p !in st.pcbs || Live(st, p))
              && p in Step(st, e).pcbs && !Live(Step(st, e), p)
  {
    hide Step, Owned, Rounds, BackReport, EndReport;
    if Subject(e) != NULL {
      CallbackArgument(st, Subject(e));
      var s, a := SessionOf(st, Subject(e)), Arg(st, Subject(e));
      CountConcat(BackReport(s, e), EndReport(s, a, st.mss, e), p);
      BackCounted(st, e, p);
      EndCounted(st, e, p);
    } else if e.EvStartClient? {
      StartsExactly(st, e);
      CountAtMost(NewReports(st, e), p);
    }
  }

  lemma BackCounted(st: State, e: Event, p: Pid)
    requires Owned(st) && Enabled(st, e) && Subject(e) != NULL && p != NULL
    ensures Arg(st, Subject(e)) in st.recs
    ensures var n := Count(BackReport(SessionOf(st, Subject(e)), e), p);
            n <= 1 && (n == 1 ==> p !in st.pcbs && p in Step(st, e).pcbs && !Live(Step(st, e), p))
  {
    hide Step, Owned, Rounds, Flat;
    CallbackArgument(st, Subject(e));
    CountAtMost(BackReport(SessionOf(st, Subject(e)), e), p);
    if BackReport(SessionOf(st, Subject(e)), e) != [] { AnswersExactly(st, e); }
  }

  lemma EndCounted(st: State, e: Event, p: Pid)
    requires Owned(st) && Enabled(st, e) && Subject(e) != NULL && p != NULL
    ensures Arg(st, Subject(e)) in st.recs
    ensures var n := Count(EndReport(SessionOf(st, Subject(e)), Arg(st, Subject(e)), st.mss, e), p);
            n <= 1 && (n == 1 ==> p == Subject(e) && Live(st, p) && p in Step(st, e).pcbs && !Live(Step(st, e), p))
  {
    hide Step, Enabled, Owned, Survives, EndKind, EndBytes;
    SubjectAfter(st, e);
    CountAtMost(EndReport(SessionOf(st, Subject(e)), Arg(st, Subject(e)), st.mss, e), p);
  }

  lemma CountAtMost(rs: seq<Report>, p: Pid)
    requires |rs| <= 1
    ensures Count(rs, p) == if rs != [] && rs[0].pcb == p then 1 else 0
  {
    if rs != [] { assert rs[..0] == []; }
  }

  lemma StepReportedOnce(st: State, e: Event)
    requires Owned(st) && Enabled(st, e) && !Aborts(st, e) && ReportedOnce(st)
    ensures ReportedOnce(Step(st, e))
  {
    hide Step, Enabled, Owned, NewReports;
    var st' := Step(st, e);
    StepReports(st, e);
    forall p | p != NULL ensures ReportOk(st', p) {
      assert ReportOk(st, p);
      CountConcat(st.reports, NewReports(st, e), p);
      ReportedEnds(st, e, p);
      if p in st.pcbs { StillThere(st, e, p); }
    }
  }

  /** A block stays, and one whose session is over is not revived. */
  lemma StillThere(st: State, e: Event, p: Pid)
    requires Owned(st) && Enabled(st, e) && !Aborts(st, e) && p in st.pcbs
    ensures p in Step(st, e).pcbs && (Live(Step(st, e), p) ==> Live(st, p))
  {
    hide Step, Enabled;
    if p == Subject(e) { SubjectAfter(st, e); }
    else if Listener(st, p) { ListenerStays(st, e, p); }
    else { EventIsLocal(st, e, p); }
  }

  /** Over every run no connection is reported twice, and none before it is over. */
  lemma {:induction false} RunReportedOnce(st: State, es: seq<Event>)
    requires Owned(st) && Runs(st, es) && AbortFree(st, es) && ReportedOnce(st)
    ensures ReportedOnce(Run(st, es))
    decreases |es|
  {
    hide Step, Enabled, Owned, ReportedOnce;
    if es != [] {
      StepOwned(st, es[0]);
      StepReportedOnce(st, es[0]);
      RunReportedOnce(Step(st, es[0]), es[1..]);
    }
  }
}
