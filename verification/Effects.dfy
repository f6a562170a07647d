/** What one callback does to its own session, in closed form. */
module Effects {
  import opened Words
  import opened IperfState
  import opened Ownership
  import opened Isolation
  import opened Receiving
  import opened Sending

  function AfterSending(s: Session, mss: Mss, turns: seq<Turn>): Session {
    s.(bytes := Add32(s.bytes, |Sent(s, mss, turns)|))
  }

  /** The record of the event's connection afterwards, if the session is still there. */
  function SessionAfter(s: Session, mss: Mss, e: Event): Session {
    match e
    case EvConnected(_, _, now, turns, _) => AfterSending(s.(pollCount := 0, timeStarted := now), mss, turns)
    case EvSent(_, turns, _) => AfterSending(s.(pollCount := 0), mss, turns)
    case EvRecv(_, pkt, now, _, _) => Received(s, pkt, now)
    case EvPoll(_, turns, _) =>
      var s' := s.(pollCount := Inc8(s.pollCount));
      if s.server then s' else AfterSending(s', mss, turns)
    case _ => s
  }

  /** The session is still there after the event. */
  predicate Survives(s: Session, mss: Mss, e: Event) {
    match e
    case EvConnected(_, ok, now, turns, _) => ok && !Finished(s.(pollCount := 0, timeStarted := now), mss, turns)
    case EvSent(_, turns, _) => !Finished(s.(pollCount := 0), mss, turns)
    case EvRecv(_, pkt, _, _, env) => Kept(s, pkt, env)
    case EvPoll(_, turns, _) =>
      var s' := s.(pollCount := Inc8(s.pollCount));
      s'.pollCount < MAX_IDLE && (s.server || !Finished(s', mss, turns))
    case _ => false
  }

  ghost predicate EndsOr(st: State, st': State, p: Pid, s': Session)
    requires p in st.pcbs
  {
    && p in st'.pcbs && st'.freed == st.freed && st'.vanished == st.vanished && SameEnds(st.pcbs[p], st'.pcbs[p])
    && (Live(st, p) && !Live(st', p) ==> Arg(st, p) !in st'.recs)
    && (Live(st', p) ==>
          && Arg(st', p) == Arg(st, p) && Arg(st, p) in st'.recs && st'.recs[Arg(st, p)] == s'
          && st'.pcbs[p].credit == st.pcbs[p].credit)
  }

  /** p's session is over: its block calls nobody back, its record is freed. */
  ghost predicate Ends(st: State, st': State, p: Pid)
    requires p in st.pcbs
  {
    && p in st'.pcbs && !Live(st', p) && Arg(st, p) !in st'.recs
    && st'.freed == st.freed && st'.vanished == st.vanished && SameEnds(st.pcbs[p], st'.pcbs[p])
  }

  lemma CloseEnds(st: State, p: Pid, kind: Kind, how: Closing)
    requires p != NULL && Reaches(st, p)
    ensures Ends(st, Close(st, Arg(st, p), kind, how), p)
  {
  }

  lemma SendingEndsOr(st: State, p: Pid, turns: seq<Turn>, how: Closing)
    requires p != NULL && Reaches(st, p)
    ensures EndsOr(st, SendMore(st, Arg(st, p), turns, how), p, AfterSending(SessionOf(st, p), st.mss, turns))
    ensures Live(st, p) ==>
              (Live(SendMore(st, Arg(st, p), turns, how), p) <==> !Finished(SessionOf(st, p), st.mss, turns))
  {
    hide LimitReached, Sent, Close, Add32;
    var a := Arg(st, p);
    SendMoreIs(st, a, turns, how);
    CloseEnds(Wrote(st, a, Sent(st.recs[a], st.mss, turns)), p, DoneClient, how);
  }

  lemma PollEndsOr(st: State, p: Pid, turns: seq<Turn>, how: Closing)
    requires p != NULL && Live(st, p) && Reaches(st, p)
    ensures var st' := PollStep(st, Arg(st, p), turns, how);
            && EndsOr(st, st', p, SessionAfter(SessionOf(st, p), st.mss, EvPoll(p, turns, how)))
            && (Live(st', p) <==> Survives(SessionOf(st, p), st.mss, EvPoll(p, turns, how)))
  {
    hide SendMore, Close, AfterSending, Finished;
    var a := Arg(st, p);
    var s := st.recs[a].(pollCount := Inc8(st.recs[a].pollCount));
    CloseEnds(WithRec(st, a, s), p, AbortedLocal, how);
    SendingEndsOr(WithRec(st, a, s), p, turns, how);
  }

  lemma RecvEndEnds(st: State, p: Pid, how: Closing, env: StartEnv)
    requires Owned(st) && Live(st, p) && Reaches(st, p) && Arg(st, p) in st.order && p != NULL
    requires ConnectionOk(st, Arg(st, p)) && FreshStart(st, env)
    ensures Ends(st, RecvEnd(st, Arg(st, p), how, env), p)
  {
    hide Close;
    var a := Arg(st, p);
    CloseEnds(st, p, DoneServer, how);
    PassiveKeeps(st, st, p, env);
    assert WithRec(st, a, st.recs[a]) == st;
    CloseEnds(TxStartPassive(st, a, env).st, p, DoneServer, how);
  }

  /** One callback, one closed form: whether its session survives, and what its record then becomes; if it does not,
      the record is freed, unless it was the stack that freed the block without a word. */
  lemma SubjectAfter(st: State, e: Event)
    requires Owned(st) && Enabled(st, e) && Subject(e) != NULL
    ensures var p, st' := Subject(e), Step(st, e);
            && Arg(st, p) in st.recs && Live(st, p) && Reaches(st, p)
            && p in st'.pcbs && SameEnds(st.pcbs[p], st'.pcbs[p])
            && st'.freed == st.freed + (if e.EvRecv? then [e.pkt.id] else [])
            && st'.vanished == st.vanished + (if e.EvVanished? then {p} else {})
            && (!Live(st', p) && !e.EvVanished? ==> Arg(st, p) !in st'.recs)
            && (Live(st', p) <==> Survives(SessionOf(st, p), st.mss, e))
            && (Live(st', p) ==>
                  && Arg(st', p) == Arg(st, p) && Arg(st, p) in st'.recs
                  && st'.recs[Arg(st, p)] == SessionAfter(SessionOf(st, p), st.mss, e)
                  && st'.pcbs[p].credit == st.pcbs[p].credit + (if e.EvRecv? then TotLen(e.pkt) else 0))
  {
    hide Rounds, SendMore, Close, RecvData, RecvEnd, PollStep, AfterSending, Received, Kept, Finished, Flat;
    var p := Subject(e);
    CallbackArgument(st, p);
    var a := Arg(st, p);
    match e
    case EvConnected(_, ok, now, turns, how) =>
      var st1 := st.(pcbs := st.pcbs[p := st.pcbs[p].(onConnected := false)]);
      CloseEnds(st1, p, AbortedRemote, how);
      SendingEndsOr(WithRec(st1, a, st.recs[a].(pollCount := 0, timeStarted := now)), p, turns, how);
    case EvSent(_, turns, how) =>
      SendingEndsOr(WithRec(st, a, st.recs[a].(pollCount := 0)), p, turns, how);
    case EvRecv(_, pkt, now, how, env) => RecvDataHandled(st, p, pkt, now, how, env);
    case EvRecvEnd(_, how, env) => RecvEndEnds(st, p, how, env);
    case EvRecvErr(_, how) => CloseEnds(st, p, AbortedRemote, how);
    case EvPoll(_, turns, how) => PollEndsOr(st, p, turns, how);
    case EvErr(_) => ErrEnds(st, p);
    case EvVanished(_) =>
  }

  lemma ErrEnds(st: State, p: Pid)
    requires p != NULL && Reaches(st, p)
    ensures Ends(st, Step(st, EvErr(p)), p)
  {
  }

  /** Data arrives only at receiving sessions; only sending ones connect or see acknowledgements. */
  lemma SubjectRole(st: State, e: Event)
    requires Owned(st) && Enabled(st, e) && Subject(e) != NULL
    ensures Arg(st, Subject(e)) in st.recs
    ensures e.EvRecv? || e.EvRecvEnd? || e.EvRecvErr? ==> SessionOf(st, Subject(e)).server
    ensures e.EvConnected? || e.EvSent? ==> !SessionOf(st, Subject(e)).server
  {
    hide Rounds;
    CallbackArgument(st, Subject(e));
  }

  /** No event but the stack's own adds to the blocks it freed without a word. */
  lemma StepVanished(st: State, e: Event)
    requires Owned(st) && Enabled(st, e) && !Aborts(st, e)
    ensures Step(st, e).vanished == st.vanished + (if e.EvVanished? then {e.p} else {})
  {
    hide Rounds, ClientSettings;
    if !e.EvAccept? && !e.EvStartServer? && !e.EvStartClient? && !e.EvAbort? {
      hide Step;
      SubjectAfter(st, e);
    }
  }

  /** Every packet delivered is given back once, by the event that delivered it, and by no other. */
  lemma StepFrees(st: State, e: Event)
    requires Owned(st) && Enabled(st, e) && !Aborts(st, e)
    ensures Step(st, e).freed == st.freed + (if e.EvRecv? then [e.pkt.id] else [])
  {
    hide Rounds, ClientSettings;
    if !e.EvAccept? && !e.EvStartServer? && !e.EvStartClient? && !e.EvAbort? {
      hide Step;
      SubjectAfter(st, e);
    }
  }
}
