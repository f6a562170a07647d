/** The answer protocol at one host: who connects back, and how often. */
module Answering {
  import opened WireSettings
  import opened IperfState
  import opened Ownership
  import opened Isolation
  import opened Creation
  import opened Receiving
  import opened Effects

  /** r is a connection back on behalf of the received session q. */
  ghost predicate Answers(st: State, r: Pid, q: Pid) {
    r in st.pcbs && st.pcbs[r].origin.Reverse? && st.pcbs[r].origin.of == q
  }

  /** An answered session was received, and if it is still open it holds a header that asked for an answer
      at once; the answer itself announces flags 0. */
  ghost predicate AnswerOk(st: State, r: Pid, q: Pid) {
    && q in st.pcbs && st.pcbs[q].origin.Accepted?
    && (Live(st, q) && Arg(st, q) in st.recs ==>
          var s := SessionOf(st, q); s.haveSettings && AnswerTest(s.settings) && AnswerNow(s.settings))
    && (Answers(st, r, q) ==> !AnswerTest(st.pcbs[r].origin.header) && !AnswerNow(st.pcbs[r].origin.header))
  }

  ghost predicate AnsweredOnce(st: State) {
    && (forall r, q :: Answers(st, r, q) ==> AnswerOk(st, r, q))
    && (forall r, r', q :: Answers(st, r, q) && Answers(st, r', q) ==> r == r')
  }

  /** A live session was accepted exactly when it is a receiving one. */
  ghost predicate RoleOk(st: State, p: Pid) {
    Live(st, p) && Arg(st, p) in st.recs ==> (SessionOf(st, p).server <==> st.pcbs[p].origin.Accepted?)
  }

  ghost predicate Roles(st: State) {
    forall p :: RoleOk(st, p)
  }

  lemma OriginFixed(st: State, e: Event, p: Pid)
    requires Owned(st) && Enabled(st, e) && !Aborts(st, e) && p in st.pcbs
    ensures p in Step(st, e).pcbs && SameEnds(st.pcbs[p], Step(st, e).pcbs[p])
  {
    hide Step, Enabled;
    if p == Subject(e) { SubjectAfter(st, e); }
    else if Listener(st, p) { ListenerStays(st, e, p); }
    else { EventIsLocal(st, e, p); }
  }

  /** A session that has its header keeps it. */
  lemma HeaderStays(s: Session, mss: Mss, e: Event)
    requires s.haveSettings
    ensures var s' := SessionAfter(s, mss, e); s'.haveSettings && s'.settings == s.settings && s'.server == s.server
  {
  }

  lemma RoleAfter(s: Session, mss: Mss, e: Event)
    ensures SessionAfter(s, mss, e).server == s.server
  {
  }

  lemma StepRoles(st: State, e: Event)
    requires Owned(st) && Enabled(st, e) && !Aborts(st, e) && Roles(st)
    ensures Roles(Step(st, e))
  {
    hide Step, Enabled, SessionAfter;
    var st' := Step(st, e);
    forall p ensures RoleOk(st', p) {
      if p in st'.pcbs && p !in st.pcbs { EventCreates(st, e, p); }
      else if p in st.pcbs {
        assert RoleOk(st, p);
        if p == Subject(e) { SubjectAfter(st, e); RoleAfter(SessionOf(st, p), st.mss, e); }
        else if Listener(st, p) { ListenerStays(st, e, p); CallbackArgument(st, p); }
        else { EventIsLocal(st, e, p); if Live(st, p) { CallbackArgument(st, p); } }
      }
    }
  }

  /** What an answered session looks like after one more event. */
  lemma AnsweredStays(st: State, e: Event, r: Pid, q: Pid)
    requires Owned(st) && Enabled(st, e) && !Aborts(st, e) && Answers(st, r, q) && AnswerOk(st, r, q)
    ensures Answers(Step(st, e), r, q) && AnswerOk(Step(st, e), r, q)
  {
    hide Step, Enabled, SessionAfter;
    OriginFixed(st, e, r);
    OriginFixed(st, e, q);
    if q == Subject(e) {
      SubjectAfter(st, e);
      HeaderStays(SessionOf(st, q), st.mss, e);
    } else if Listener(st, q) {
      ListenerStays(st, e, q);
      CallbackArgument(st, q);
    } else {
      EventIsLocal(st, e, q);
      if Live(st, q) { CallbackArgument(st, q); }
    }
  }

  /** A new answer: its session has never been answered, and never will be again. */
  lemma NewAnswer(st: State, e: Event, r: Pid, q: Pid)
    requires Owned(st) && Enabled(st, e) && !Aborts(st, e) && AnsweredOnce(st) && Roles(st)
    requires r !in st.pcbs && Answers(Step(st, e), r, q)
    ensures AnswerOk(Step(st, e), r, q)
    ensures forall x :: !Answers(st, x, q)
    ensures (e.EvRecv? || e.EvRecvEnd?) && r == e.env.pcb
  {
    hide Step, Enabled, SessionAfter, Received, HeaderDue, Flat;
    var st' := Step(st, e);
    EventCreates(st, e, r);
    assert Provenance(st, e, r, st'.pcbs[r].origin);
    assert q == e.p;
    SubjectNotNull(st, e);
    SubjectAfter(st, e);
    SubjectRole(st, e);
    assert RoleOk(st, q);
    OriginFixed(st, e, q);
    if e.EvRecv? { FirstHeader(SessionOf(st, q), st.mss, e); }
  }

  lemma SubjectNotNull(st: State, e: Event)
    requires Owned(st) && Enabled(st, e) && (e.EvRecv? || e.EvRecvEnd?)
    ensures Subject(e) != NULL
  {
  }

  lemma FirstHeader(s: Session, mss: Mss, e: Event)
    requires e.EvRecv? && !s.haveSettings && TotLen(e.pkt) >= HEADER
    ensures var s' := SessionAfter(s, mss, e); s'.haveSettings && s'.settings == Flat(e.pkt.chain)[..HEADER]
  {
    hide Flat;
    FirstReceived(s, e.pkt, e.now);
  }

  lemma StepAnswers(st: State, e: Event)
    requires Owned(st) && Enabled(st, e) && !Aborts(st, e) && AnsweredOnce(st) && Roles(st)
    ensures AnsweredOnce(Step(st, e))
  {
    hide Step, Enabled, AnswerOk;
    var st' := Step(st, e);
    forall r, q | Answers(st', r, q)
      ensures AnswerOk(st', r, q)
      ensures r in st.pcbs ==> Answers(st, r, q)
      ensures r !in st.pcbs ==> (e.EvRecv? || e.EvRecvEnd?) && r == e.env.pcb && forall x :: !Answers(st, x, q)
    {
      if r in st.pcbs {
        OriginFixed(st, e, r);
        AnsweredStays(st, e, r, q);
      } else {
        NewAnswer(st, e, r, q);
      }
    }
  }

  /** Over any run, each received session is answered by at most one connection back in its whole life:
      when its header arrives if that asks for an answer at once, at its end otherwise, never both. */
  lemma {:induction false} RunAnswers(st: State, es: seq<Event>)
    requires Owned(st) && Roles(st) && AnsweredOnce(st) && Runs(st, es) && AbortFree(st, es)
    ensures Roles(Run(st, es)) && AnsweredOnce(Run(st, es))
    decreases |es|
  {
    if es == [] {
    } else {
      StepOwned(st, es[0]);
      StepRoles(st, es[0]);
      StepAnswers(st, es[0]);
      RunAnswers(Step(st, es[0]), es[1..]);
    }
  }

  lemma {:induction false} SubsetSize(S: set<Pid>, T: set<Pid>)
    requires S <= T
    ensures |S| <= |T|
    decreases S
  {
    if x :| x in S { SubsetSize(S - {x}, T - {x}); }
  }
}
