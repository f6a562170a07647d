/** The secondary listener of a dual or tradeoff test: whom it lets in, and when it goes. */
module Listening {
  import opened WireSettings
  import opened IperfState
  import opened Ownership
  import opened Isolation
  import opened Creation
  import opened Effects
  import opened Answering

  /** l listens on behalf of a client session. */
  ghost predicate Secondary(st: State, l: Pid) {
    Listener(st, l) && Arg(st, l) in st.recs && SessionOf(st, l).specificRemote
  }

  function AcceptedBy(st: State, l: Pid): set<Pid> {
    set q | q in st.pcbs && st.pcbs[q].origin == Accepted(l)
  }

  /** A connection is let in if and only if the stack delivered it without an error, memory was there, and the
      listener is not bound to one host or this is the host. It then has a record at the head of the list, and the
      listener goes exactly if it is bound to one host and is in dual mode or its client is off the list. Otherwise the
      connection is dropped and no record changes. */
  lemma AcceptExactly(st: State, e: Event)
    requires Owned(st) && Enabled(st, e) && e.EvAccept?
    ensures Arg(st, e.l) in st.recs
    ensures var a, st' := Arg(st, e.l), Step(st, e);
            var s := st.recs[a];
            var lets := e.ok && e.q != NULL && e.block != NULL && (!s.specificRemote || e.ip == s.remoteAddr);
            var goes := s.specificRemote && (!s.tradeoff || s.master !in st.order);
            && (Live(st', e.q) <==> lets) && (Admits(st, e, e.l) <==> lets) && st'.reports == st.reports
            && (forall p :: p in st.pcbs && (p != e.l || !lets || !goes) ==> p in st'.pcbs && st'.pcbs[p] == st.pcbs[p])
            && (lets ==>
                  && st'.pcbs[e.q] == Tcb(e.block, false, false, false, true, true, true, false, e.ip, e.port, [], 0,
                                          Accepted(e.l))
                  && st'.order == [e.block] + (if goes then Without(st.order, a) else st.order)
                  && st'.recs == (if goes then st.recs - {a} else st.recs)[
                                 e.block := Session(true, if s.specificRemote then s.master else a, NULL, e.q, e.now,
                                                    s.reports, 0, false, 0, ZeroSettings(), false, false, 0)]
                  && e.l in st'.pcbs && (goes ==> st'.pcbs[e.l].freed && !st'.pcbs[e.l].Armed()))
            && (!lets ==>
                  && st'.recs == st.recs && st'.order == st.order
                  && (e.q != NULL ==>
                        e.q in st'.pcbs && st'.pcbs[e.q].origin == Dropped && st'.pcbs[e.q].freed &&
                        !st'.pcbs[e.q].Armed()))
  {
    hide Without, ListedOk, CallbackOk, ConnectionOk;
    CallbackArgument(st, e.l);
  }

  /** An accepted connection comes from the listener's remote host and answers to the client, not to the
      listener; the listener goes, unreported, exactly in dual mode or once its client has left the list. */
  lemma SecondaryAccept(st: State, e: Event)
    requires Owned(st) && Enabled(st, e) && e.EvAccept? && Secondary(st, e.l)
    requires AcceptErr(st, Arg(st, e.l), e.ok, e.q, e.ip, e.block) == ErrOk
    ensures var s, st' := SessionOf(st, e.l), Step(st, e);
            && e.ip == s.remoteAddr && st'.reports == st.reports
            && e.block in st'.recs && st'.recs[e.block].master == s.master && st'.recs[e.block].connPcb == e.q
            && e.q in st'.pcbs && st'.pcbs[e.q].origin == Accepted(e.l) && st'.pcbs[e.q].remoteIp == e.ip
            && e.l in st'.pcbs
            && (ListenerDone(st, s) ==> st'.pcbs[e.l] == Freed(st.pcbs[e.l]) && Arg(st, e.l) !in st'.recs)
            && (!ListenerDone(st, s) ==>
               Secondary(st', e.l) && Arg(st', e.l) == Arg(st, e.l) && SessionOf(st', e.l) == s)
            && (ListenerDone(st, s) <==> !s.tradeoff || s.master !in st.order)
  {
    CallbackArgument(st, e.l);
    if ListenerDone(st, SessionOf(st, e.l)) {
      AdmitClosed(st, e.l, Arg(st, e.l), e.q, e.ip, e.port, e.block, e.now);
    }
  }

  /** A refused connection changes nothing but its own block. */
  lemma SecondaryRefuse(st: State, e: Event)
    requires Owned(st) && Enabled(st, e) && e.EvAccept?
    requires AcceptErr(st, Arg(st, e.l), e.ok, e.q, e.ip, e.block) != ErrOk
    ensures var st' := Step(st, e);
            && st'.recs == st.recs && st'.order == st.order
            && (forall p :: p in st.pcbs ==> p in st'.pcbs && st'.pcbs[p] == st.pcbs[p])
            && (forall p :: p in st'.pcbs && p !in st.pcbs ==> st'.pcbs[p].origin == Dropped)
  {
  }

  // ---------------------------------------------------------------- whole runs

  /** The record of a listener is out of reach of every event but an accept on it. */
  lemma ListenerUntouched(st: State, e: Event, l: Pid)
    requires Owned(st) && Enabled(st, e) && !Aborts(st, e) && Secondary(st, l)
    requires !e.EvAccept? || e.l != l
    ensures Secondary(Step(st, e), l) && Arg(Step(st, e), l) == Arg(st, l)
    ensures SessionOf(Step(st, e), l) == SessionOf(st, l)
  {
    hide Step, Rounds;
    CallbackArgument(st, l);
    if l == Subject(e) { CallbackArgument(st, Subject(e)); }
    EventSpares(st, e, l);
  }

  lemma AcceptedOnlyBy(st: State, e: Event, l: Pid)
    requires Owned(st) && Enabled(st, e) && !Aborts(st, e)
    requires !e.EvAccept? || e.l != l
    ensures AcceptedBy(Step(st, e), l) == AcceptedBy(st, l)
  {
    hide Step, Enabled;
    var st' := Step(st, e);
    forall q | q in st'.pcbs ensures q in AcceptedBy(st', l) <==> q in AcceptedBy(st, l) {
      if q in st.pcbs { OriginFixed(st, e, q); } else { EventCreates(st, e, q); }
    }
    forall q | q in st.pcbs ensures q in st'.pcbs { OriginFixed(st, e, q); }
  }

  lemma AcceptOn(st: State, e: Event)
    requires Owned(st) && Enabled(st, e) && e.EvAccept? && Secondary(st, e.l)
    ensures var st', l := Step(st, e), e.l;
            && l in st'.pcbs
            && (AcceptErr(st, Arg(st, l), e.ok, e.q, e.ip, e.block) == ErrOk ==>
                  && AcceptedBy(st', l) == AcceptedBy(st, l) + {e.q} && e.q !in AcceptedBy(st, l)
                  && (ListenerDone(st, SessionOf(st, l)) ==> st'.pcbs[l] == Freed(st.pcbs[l])))
            && (AcceptErr(st, Arg(st, l), e.ok, e.q, e.ip, e.block) != ErrOk ==>
                  && AcceptedBy(st', l) == AcceptedBy(st, l) && Secondary(st', l)
                  && Arg(st', l) == Arg(st, l) && SessionOf(st', l) == SessionOf(st, l))
  {
    hide Keep;
    CallbackArgument(st, e.l);
    if AcceptErr(st, Arg(st, e.l), e.ok, e.q, e.ip, e.block) == ErrOk {
      SecondaryAccept(st, e);
      if ListenerDone(st, SessionOf(st, e.l)) {
        AdmitClosed(st, e.l, Arg(st, e.l), e.q, e.ip, e.port, e.block, e.now);
      }
    } else {
      SecondaryRefuse(st, e);
    }
  }

  /** The event is an accept on l that lets its connection in. */
  predicate Admits(st: State, e: Event, l: Pid) {
    e.EvAccept? && e.l == l && AcceptErr(st, Arg(st, l), e.ok, e.q, e.ip, e.block) == ErrOk
  }

  /** An accept lets a connection in while l's work is done: dual mode, or the client's address is not listed. */
  predicate Closes(st: State, es: seq<Event>, l: Pid)
    decreases |es|
  {
    es != [] && ((Admits(st, es[0], l) && ListenerDone(st, SessionOf(st, l))) || Closes(Step(st, es[0]), es[1..], l))
  }

  /** How many connections get in while the client's address is listed, in tradeoff mode. */
  function LetIn(st: State, es: seq<Event>, l: Pid): nat
    decreases |es|
  {
    if es == [] then 0
    else
      (if Admits(st, es[0], l) && !ListenerDone(st, SessionOf(st, l)) then 1 else 0) +
      LetIn(Step(st, es[0]), es[1..], l)
  }

  /** A freed listener accepts nothing more. */
  lemma {:induction false} ListenerStaysGone(st: State, es: seq<Event>, l: Pid)
    requires Owned(st) && Runs(st, es) && AbortFree(st, es) && l in st.pcbs && st.pcbs[l].freed
    ensures l in Run(st, es).pcbs && Run(st, es).pcbs[l] == st.pcbs[l]
    ensures AcceptedBy(Run(st, es), l) == AcceptedBy(st, l)
    ensures !Closes(st, es, l) && LetIn(st, es, l) == 0
    decreases |es|
  {
    hide Step, Enabled;
    if es != [] {
      var e := es[0];
      StepOwned(st, e);
      FreedIsIdle(st, e, l);
      EventSpares(st, e, l);
      AcceptedOnlyBy(st, e, l);
      ListenerStaysGone(Step(st, e), es[1..], l);
    }
  }

  lemma FreedIsIdle(st: State, e: Event, l: Pid)
    requires Owned(st) && Enabled(st, e) && l in st.pcbs && st.pcbs[l].freed
    ensures l != Subject(e) && !(e.EvAccept? && e.l == l)
  {
    hide Rounds;
    assert CallbackOk(st, l);
  }

  /** Over any run a secondary listener is there until an accept finds its work done, and gone from then on; the
      connections it takes are those let in before and, if it goes, the one it goes with. */
  lemma {:induction false} ListenerRun(st: State, es: seq<Event>, l: Pid)
    requires Owned(st) && Runs(st, es) && AbortFree(st, es) && Secondary(st, l)
    ensures var st' := Run(st, es);
            && l in st'.pcbs
            && (Secondary(st', l) <==> !Closes(st, es, l))
            && (Closes(st, es, l) ==> st'.pcbs[l].freed)
            && (!Closes(st, es, l) ==> Arg(st', l) == Arg(st, l) && SessionOf(st', l) == SessionOf(st, l))
            && |AcceptedBy(st', l)| == |AcceptedBy(st, l)| + LetIn(st, es, l) + (if Closes(st, es, l) then 1 else 0)
    decreases |es|
  {
    hide Step, Enabled, Owned, AcceptErr;
    if es != [] {
      var e := es[0];
      StepOwned(st, e);
      if Admits(st, e, l) {
        AcceptOn(st, e);
        SecondaryAccept(st, e);
        if ListenerDone(st, SessionOf(st, l)) {
          ListenerStaysGone(Step(st, e), es[1..], l);
        } else {
          ListenerRun(Step(st, e), es[1..], l);
        }
      } else {
        if e.EvAccept? && e.l == l { AcceptOn(st, e); }
        else {
          ListenerUntouched(st, e, l);
          AcceptedOnlyBy(st, e, l);
        }
        ListenerRun(Step(st, e), es[1..], l);
      }
    }
  }

  /** One connection and then no listener; none while it is there. */
  ghost predicate OneConnection(st: State, st': State, l: Pid) {
    && (Secondary(st', l) ==> AcceptedBy(st', l) == AcceptedBy(st, l))
    && (!Secondary(st', l) ==>
          l in st'.pcbs && st'.pcbs[l].freed && |AcceptedBy(st', l)| == |AcceptedBy(st, l)| + 1)
  }

  /** The listener takes exactly one connection if and only if none gets in while, in tradeoff mode, the client's
      address is on the list. */
  lemma {:induction false} OneConnectionIff(st: State, es: seq<Event>, l: Pid)
    requires Owned(st) && Runs(st, es) && AbortFree(st, es) && Secondary(st, l)
    ensures OneConnection(st, Run(st, es), l) <==> LetIn(st, es, l) == 0
  {
    hide Owned, AcceptedBy, Step;
    ListenerRun(st, es, l);
    AcceptedGrows(st, es, l);
    if LetIn(st, es, l) == 0 && Secondary(Run(st, es), l) {
      SameSize(AcceptedBy(st, l), AcceptedBy(Run(st, es), l));
    }
  }

  lemma {:induction false} AcceptedGrows(st: State, es: seq<Event>, l: Pid)
    requires Owned(st) && Runs(st, es) && AbortFree(st, es)
    ensures AcceptedBy(st, l) <= AcceptedBy(Run(st, es), l)
    decreases |es|
  {
    hide Step, Enabled, Owned;
    if es != [] {
      StepOwned(st, es[0]);
      forall q | q in AcceptedBy(st, l) ensures q in AcceptedBy(Step(st, es[0]), l) { OriginFixed(st, es[0], q); }
      AcceptedGrows(Step(st, es[0]), es[1..], l);
    }
  }

  lemma SameSize(S: set<Pid>, T: set<Pid>)
    requires S <= T && |S| == |T|
    ensures S == T
  {
    if x :| x in T && x !in S { assert S <= T - {x}; SubsetSize(S, T - {x}); }
  }

  /** In dual mode nothing gets in but the connection the listener goes with. */
  lemma {:induction false} DualLetsInNone(st: State, es: seq<Event>, l: Pid)
    requires Owned(st) && Runs(st, es) && AbortFree(st, es) && Secondary(st, l) && !SessionOf(st, l).tradeoff
    ensures LetIn(st, es, l) == 0
    decreases |es|
  {
    hide Step, Enabled, Owned, AcceptErr;
    if es != [] {
      NextListener(st, es[0], l);
      if Secondary(Step(st, es[0]), l) { DualLetsInNone(Step(st, es[0]), es[1..], l); }
      else { ListenerStaysGone(Step(st, es[0]), es[1..], l); }
    }
  }

  /** One event later the listener is as it was, or freed. */
  lemma NextListener(st: State, e: Event, l: Pid)
    requires Owned(st) && Enabled(st, e) && !Aborts(st, e) && Secondary(st, l)
    ensures var st' := Step(st, e);
            && Owned(st') && l in st'.pcbs
            && (Secondary(st', l) ==> Arg(st', l) == Arg(st, l) && SessionOf(st', l) == SessionOf(st, l))
            && (!Secondary(st', l) ==> st'.pcbs[l].freed)
  {
    hide Step, Enabled, Owned, AcceptErr;
    StepOwned(st, e);
    if e.EvAccept? && e.l == l {
      AcceptOn(st, e);
      if Admits(st, e, l) { SecondaryAccept(st, e); }
    } else {
      ListenerUntouched(st, e, l);
    }
  }

  /** The client's address is on the list at no point of the run. */
  ghost predicate ClientGone(st: State, es: seq<Event>, m: Addr)
    decreases |es|
  {
    m !in st.order && (es == [] || ClientGone(Step(st, es[0]), es[1..], m))
  }

  /** In tradeoff mode, once the client has left and while its address does not come back, neither. */
  lemma {:induction false} GoneLetsInNone(st: State, es: seq<Event>, l: Pid)
    requires Owned(st) && Runs(st, es) && AbortFree(st, es) && Secondary(st, l) &&
             ClientGone(st, es, SessionOf(st, l).master)
    ensures LetIn(st, es, l) == 0
    decreases |es|
  {
    hide Step, Enabled, Owned, AcceptErr;
    if es != [] {
      NextListener(st, es[0], l);
      if Secondary(Step(st, es[0]), l) { GoneLetsInNone(Step(st, es[0]), es[1..], l); }
      else { ListenerStaysGone(Step(st, es[0]), es[1..], l); }
    }
  }

  /** The connections l let in come from the remote host, and while they last they answer to the client m. */
  ghost predicate AnswerTo(st: State, l: Pid, m: Addr, ip: Ip) {
    forall q :: q in AcceptedBy(st, l) ==>
      && st.pcbs[q].remoteIp == ip
      && (Live(st, q) ==> Arg(st, q) in st.recs && SessionOf(st, q).master == m)
  }

  lemma MasterStays(s: Session, mss: Mss, e: Event)
    ensures SessionAfter(s, mss, e).master == s.master
  {
  }

  lemma StepAnswerTo(st: State, e: Event, l: Pid, m: Addr, ip: Ip)
    requires Owned(st) && Enabled(st, e) && !Aborts(st, e) && AnswerTo(st, l, m, ip)
    requires Admits(st, e, l) ==>
               Secondary(st, l) && SessionOf(st, l).master == m && SessionOf(st, l).remoteAddr == ip
    ensures AnswerTo(Step(st, e), l, m, ip)
  {
    hide Step, Enabled, Owned, AcceptErr, SessionAfter, Survives;
    var st' := Step(st, e);
    forall q | q in AcceptedBy(st', l)
      ensures st'.pcbs[q].remoteIp == ip && (Live(st', q) ==> Arg(st', q) in st'.recs && SessionOf(st', q).master == m)
    {
      if q in st.pcbs {
        OriginFixed(st, e, q);
        OldAnswersTo(st, e, q);
      } else {
        NewAnswersTo(st, e, l, q);
      }
    }
  }

  lemma OldAnswersTo(st: State, e: Event, q: Pid)
    requires Owned(st) && Enabled(st, e) && !Aborts(st, e) && q in st.pcbs && st.pcbs[q].origin.Accepted?
    ensures var st' := Step(st, e);
            q in st'.pcbs && Live(st', q) ==>
              && Live(st, q) && Arg(st, q) in st.recs && Arg(st', q) in st'.recs
              && SessionOf(st', q).master == SessionOf(st, q).master
  {
    hide Step, Enabled, SessionAfter, Survives;
    if q == Subject(e) {
      SubjectAfter(st, e);
      MasterStays(SessionOf(st, q), st.mss, e);
    } else if Listener(st, q) {
      ListenerStays(st, e, q);
      ListenerIdle(st, q);
    } else {
      EventIsLocal(st, e, q);
      if Live(st, q) { CallbackArgument(st, q); }
    }
  }

  lemma ListenerIdle(st: State, q: Pid)
    requires Owned(st) && Listener(st, q)
    ensures !Live(st, q)
  {
    CallbackArgument(st, q);
  }

  lemma NewAnswersTo(st: State, e: Event, l: Pid, q: Pid)
    requires Owned(st) && Enabled(st, e) && !Aborts(st, e) && q !in st.pcbs && q in AcceptedBy(Step(st, e), l)
    requires Admits(st, e, l) ==> Secondary(st, l)
    ensures Admits(st, e, l) && Secondary(st, l)
    ensures var st', s := Step(st, e), SessionOf(st, l);
            && st'.pcbs[q].remoteIp == s.remoteAddr
            && (Live(st', q) ==> Arg(st', q) in st'.recs && SessionOf(st', q).master == s.master)
  {
    hide Owned;
    EventCreates(st, e, q);
    if Admits(st, e, l) {
      SecondaryAccept(st, e);
      AcceptedArg(st, e);
    } else {
      SecondaryRefuse(st, e);
    }
  }

  lemma AcceptedArg(st: State, e: Event)
    requires Owned(st) && Enabled(st, e) && e.EvAccept? && Secondary(st, e.l) && Admits(st, e, e.l)
    ensures e.q in Step(st, e).pcbs && Arg(Step(st, e), e.q) == e.block
  {
    CallbackArgument(st, e.l);
  }

  /** Over any run every connection a secondary listener lets in comes from its remote host, and answers to its client
      for as long as it lasts. */
  lemma {:induction false} RunAnswerTo(st: State, es: seq<Event>, l: Pid, m: Addr, ip: Ip)
    requires Owned(st) && Runs(st, es) && AbortFree(st, es) && AnswerTo(st, l, m, ip) && l in st.pcbs
    requires st.pcbs[l].freed ||
             (Secondary(st, l) && SessionOf(st, l).master == m && SessionOf(st, l).remoteAddr == ip)
    ensures AnswerTo(Run(st, es), l, m, ip)
    decreases |es|
  {
    hide Step, Enabled, Owned, AcceptErr, AnswerTo;
    if es != [] {
      StepOwned(st, es[0]);
      if st.pcbs[l].freed {
        FreedIsIdle(st, es[0], l);
        EventSpares(st, es[0], l);
      } else {
        NextListener(st, es[0], l);
      }
      StepAnswerTo(st, es[0], l, m, ip);
      RunAnswerTo(Step(st, es[0]), es[1..], l, m, ip);
    }
  }

  // ---------------------------------------------------------------- from the user's call on

  /** Accepted connections name listening blocks that exist. */
  ghost predicate Sourced(st: State) {
    forall q :: q in st.pcbs && st.pcbs[q].origin.Accepted? ==> st.pcbs[q].origin.listener in st.pcbs
  }

  lemma StepSourced(st: State, e: Event)
    requires Owned(st) && Enabled(st, e) && !Aborts(st, e) && Sourced(st)
    ensures Sourced(Step(st, e))
  {
    hide Step, Owned, Rounds;
    var st' := Step(st, e);
    forall q | q in st'.pcbs && st'.pcbs[q].origin.Accepted? ensures st'.pcbs[q].origin.listener in st'.pcbs {
      if q in st.pcbs {
        OriginFixed(st, e, q);
        OriginFixed(st, e, st.pcbs[q].origin.listener);
      } else {
        EventCreates(st, e, q);
        OriginFixed(st, e, e.l);
      }
    }
  }

  lemma {:induction false} RunSourced(st: State, es: seq<Event>)
    requires Owned(st) && Runs(st, es) && AbortFree(st, es) && Sourced(st)
    ensures Sourced(Run(st, es))
    decreases |es|
  {
    hide Step, Enabled, Owned;
    if es != [] {
      StepOwned(st, es[0]);
      StepSourced(st, es[0]);
      RunSourced(Step(st, es[0]), es[1..]);
    }
  }

  lemma SecondaryUp(o: Outcome, kind: ClientType, ip: Ip, reports: bool, senv: ServerEnv)
    requires FreshServer(o.st, senv) && o.conn in o.st.order
    requires senv.block != NULL && senv.pcb != NULL && senv.bind == ErrOk && senv.listen != NULL
    ensures var st', l := OpenSecondary(o, kind, ip, reports, senv).st, senv.listen;
            && Secondary(st', l) && o.conn in st'.order
            && SessionOf(st', l).master == o.conn && SessionOf(st', l).remoteAddr == ip
            && (SessionOf(st', l).tradeoff <==> kind == Tradeoff)
            && forall q :: q in st'.pcbs ==>
                 (q in o.st.pcbs && st'.pcbs[q] == o.st.pcbs[q]) || st'.pcbs[q].origin == IperfState.Listening
  {
  }

  /** A dual or tradeoff start that comes up has opened a listener for the client: it waits for the remote host,
      answers to the client, and has taken no connection yet. */
  lemma StartOpensListener(st: State, e: Event)
    requires Owned(st) && Sourced(st) && Enabled(st, e) && !Aborts(st, e)
    requires e.EvStartClient? && e.kind in {Dual, Tradeoff}
    requires e.env.block != NULL && e.env.pcb != NULL && e.env.connect == ErrOk
    ensures var st', l := Step(st, e), e.senv.listen;
            && Owned(st') && Secondary(st', l) && e.env.block in st'.order
            && SessionOf(st', l).master == e.env.block && SessionOf(st', l).remoteAddr == e.ip
            && (SessionOf(st', l).tradeoff <==> e.kind == Tradeoff)
            && AcceptedBy(st', l) == {}
  {
    hide ClientSettings, Owned, OpenSecondary, Rounds, SendMore, RecvData, RecvEnd, PollStep, Secondary;
    StepOwned(st, e);
    var h := ClientSettings(e.kind);
    TxStartOwned(st, h, e.reports, NULL, e.ip, e.port, Started(h), e.env);
    SecondaryUp(TxStart(st, h, e.reports, NULL, e.ip, e.port, Started(h), e.env), e.kind, e.ip, e.reports, e.senv);
  }

  /** The whole life of the listener a test was started with: a dual test lets in one connection, with which the
      listener goes; a tradeoff test those that come while the client's address is listed, and then the same. All
      come from the host the test was started with, and answer to the client. */
  lemma {:induction false} TestListenerLife(st: State, e: Event, es: seq<Event>)
    requires Owned(st) && Sourced(st) && Enabled(st, e) && !Aborts(st, e)
    requires e.EvStartClient? && e.kind in {Dual, Tradeoff}
    requires e.env.block != NULL && e.env.pcb != NULL && e.env.connect == ErrOk
    requires Runs(Step(st, e), es) && AbortFree(Step(st, e), es)
    ensures var st1, st', l := Step(st, e), Run(Step(st, e), es), e.senv.listen;
            && |AcceptedBy(st', l)| == LetIn(st1, es, l) + (if Closes(st1, es, l) then 1 else 0)
            && (Secondary(st', l) <==> !Closes(st1, es, l))
            && (e.kind == Dual ==> LetIn(st1, es, l) == 0)
            && AnswerTo(st', l, e.env.block, e.ip)
  {
    hide Owned, Step, Enabled, Runs, AbortFree, Run, Closes, LetIn;
    StartOpensListener(st, e);
    ListenerRun(Step(st, e), es, e.senv.listen);
    if e.kind == Dual { DualLetsInNone(Step(st, e), es, e.senv.listen); }
    RunAnswerTo(Step(st, e), es, e.senv.listen, e.env.block, e.ip);
  }

  // ---------------------------------------------------------------- a reused address

  function Accept7(q: Pid, block: Addr): Event {
    EvAccept(3, true, q, 7, 1, block, 0)
  }

  const TradeoffStart :=
    EvStartClient(Tradeoff, 7, 5001, false, StartEnv(1, 1, 0, ErrOk, Gone), ServerEnv(2, 2, ErrOk, 3))
  const PlainStart :=
    EvStartClient(UnidirectionalTest, 9, 5001, false, StartEnv(1, 4, 0, ErrOk, Gone), ServerEnv(0, 0, ErrOk, 0))

  function Client(pcb: Pid, kind: ClientType): Session {
    ClientRecord(ClientSettings(kind), false, NULL, pcb, 0)
  }

  function ClientBlock(block: Addr, ip: Ip, kind: ClientType): Tcb {
    ClientTcb(block, ip, 5001, Started(ClientSettings(kind)), true)
  }

  const SecondaryListener := ZeroSession.(server := true, master := 1, serverPcb := 3, tradeoff := true,
                                          specificRemote := true, remoteAddr := 7)

  /** A tradeoff client at address 1 with its listener (block 3) at address 2. */
  function TradeoffUp(): State {
    State(1460, map[1 := Client(1, Tradeoff), 2 := SecondaryListener], [2, 1], false, {},
          map[1 := ClientBlock(1, 7, Tradeoff), 2 := Freed(FreshTcb), 3 := FreshTcb.(arg := 2, onAccept := true)],
          [], [], {})
  }

  /** The client's connection failed and its record was freed. */
  function ClientLost(): State {
    State(1460, map[2 := SecondaryListener], [2], false, {},
          map[1 := Freed(ClientBlock(1, 7, Tradeoff)), 2 := Freed(FreshTcb),
              3 := FreshTcb.(arg := 2, onAccept := true)], [], [], {})
  }

  /** malloc handed address 1 to an unrelated client: the listener takes that one for its master. */
  function ReusedAddress(): State {
    var st := ClientLost();
    st.(recs := st.recs[1 := Client(4, UnidirectionalTest)], order := [1, 2],
        pcbs := st.pcbs[4 := ClientBlock(1, 9, UnidirectionalTest)])
  }

  lemma TradeoffComesUp()
    ensures var st, e := InitState(1460), TradeoffStart;
            Enabled(st, e) && !Aborts(st, e) && Step(st, e) == TradeoffUp()
  {
    hide ClientSettings, Rounds;
    var settings := ClientSettings(Tradeoff);
    var o := TxStart(InitState(1460), settings, false, NULL, 7, 5001, Started(settings), TradeoffStart.env);
    assert o.st == State(1460, map[1 := Client(1, Tradeoff)], [1], false, {}, map[1 := ClientBlock(1, 7, Tradeoff)],
           [], [], {});
    assert o.err == ErrOk && o.conn == 1;
    SecondaryComesUp(o.st);
  }

  lemma SecondaryComesUp(st: State)
    requires st == State(1460, map[1 := Client(1, Tradeoff)], [1], false, {}, map[1 := ClientBlock(1, 7, Tradeoff)],
             [], [], {})
    ensures var so := StartServerImpl(st, false, false, 1, TradeoffStart.senv);
            && so.err == ErrOk && so.conn == 2 && so.conn in so.st.recs
            && WithRec(so.st, 2, so.st.recs[2].(specificRemote := true, remoteAddr := 7, tradeoff := true)) ==
               TradeoffUp()
  {
    hide ClientSettings;
    var so := StartServerImpl(st, false, false, 1, TradeoffStart.senv);
    var st' := WithRec(so.st, 2, so.st.recs[2].(specificRemote := true, remoteAddr := 7, tradeoff := true));
    assert st'.recs == TradeoffUp().recs;
    assert st'.pcbs == TradeoffUp().pcbs;
  }

  lemma ClientGetsLost()
    ensures var st, e := TradeoffUp(), EvErr(1);
            Enabled(st, e) && !Aborts(st, e) && Step(st, e) == ClientLost()
  {
    hide ClientSettings, Rounds;
    assert Without([2, 1], 1) == [2];
    assert Step(TradeoffUp(), EvErr(1)).recs == ClientLost().recs;
    assert Step(TradeoffUp(), EvErr(1)).pcbs == ClientLost().pcbs;
  }

  lemma AddressReused()
    ensures var st, e := ClientLost(), PlainStart;
            Enabled(st, e) && !Aborts(st, e) && Step(st, e) == ReusedAddress()
  {
    hide ClientSettings, Rounds;
  }

  lemma ReachReusedAddress()
    ensures var es := [TradeoffStart, EvErr(1), PlainStart];
            && Runs(InitState(1460), es) && AbortFree(InitState(1460), es) &&
               Run(InitState(1460), es) == ReusedAddress()
    ensures Owned(ReusedAddress())
  {
    TradeoffComesUp();
    ClientGetsLost();
    AddressReused();
    hide Step, Enabled, Aborts, TradeoffUp, ClientLost, ReusedAddress;
    RunThree(InitState(1460), TradeoffStart, EvErr(1), PlainStart);
    RunOwned(InitState(1460), [TradeoffStart, EvErr(1), PlainStart]);
  }

  lemma RunThree(st: State, e1: Event, e2: Event, e3: Event)
    requires Enabled(st, e1) && !Aborts(st, e1)
    requires var st1 := Step(st, e1); Enabled(st1, e2) && !Aborts(st1, e2)
    requires var st2 := Step(Step(st, e1), e2); Enabled(st2, e3) && !Aborts(st2, e3)
    ensures var es := [e1, e2, e3];
            && Runs(st, es) && AbortFree(st, es) && Run(st, es) == Step(Step(Step(st, e1), e2), e3)
  {
    hide Step, Enabled, Aborts;
    RunTwo(Step(st, e1), e2, e3);
    assert [e1, e2, e3][1..] == [e2, e3];
  }

  lemma RunTwo(st: State, e1: Event, e2: Event)
    requires Enabled(st, e1) && !Aborts(st, e1)
    requires var st1 := Step(st, e1); Enabled(st1, e2) && !Aborts(st1, e2)
    ensures var es := [e1, e2];
            Runs(st, es) && AbortFree(st, es) && Run(st, es) == Step(Step(st, e1), e2)
  {
    hide Step, Enabled, Aborts;
    var st1 := Step(st, e1);
    assert [e1, e2][1..] == [e2] && [e2][1..] == [];
    assert Runs(st1, [e2]) && AbortFree(st1, [e2]) && Run(st1, [e2]) == Step(st1, e2);
  }

  /** Without the condition on the address the property fails: from this reachable state, in which the client
      the listener was opened for has left, the listener accepts two connections and still listens. */
  lemma ReusedAddressKeepsListening()
    ensures var st, es := ReusedAddress(), [Accept7(5, 3), Accept7(6, 4)];
            && Owned(st) && Secondary(st, 3) && SessionOf(st, 3).tradeoff
            && Runs(st, es) && AbortFree(st, es) && Secondary(Run(st, es), 3)
            && AcceptedBy(Run(st, es), 3) == AcceptedBy(st, 3) + {5, 6}
  {
    hide AcceptedBy;
    ReachReusedAddress();
    ListenerOfReused();
    hide Step, Enabled, Aborts, ReusedAddress, Owned, Secondary;
    var st, e, e' := ReusedAddress(), Accept7(5, 3), Accept7(6, 4);
    AcceptStays(st, e);
    AcceptStays(Step(st, e), e');
    RunTwo(st, e, e');
  }

  lemma ListenerOfReused()
    ensures var st := ReusedAddress();
            && Secondary(st, 3) && Arg(st, 3) == 2 && SessionOf(st, 3) == SecondaryListener && 1 in st.order
            && st.pcbs.Keys == {1, 2, 3, 4} && st.recs.Keys == {1, 2}
  {
    hide ClientSettings;
  }

  /** An accept while the listener's master address is on the list. */
  lemma AcceptStays(st: State, e: Event)
    requires Owned(st) && e.EvAccept? && e.l == 3 && e.q !in st.pcbs && e.q != NULL && e.block !in st.recs &&
             e.block != NULL
    requires Secondary(st, 3) && Arg(st, 3) == 2 && SessionOf(st, 3) == SecondaryListener && 1 in st.order && e.ok &&
             e.ip == 7
    ensures Enabled(st, e) && !Aborts(st, e)
    ensures var st' := Step(st, e);
            && Owned(st') && Secondary(st', 3) && Arg(st', 3) == 2 && SessionOf(st', 3) == SecondaryListener &&
               1 in st'.order
            && st'.pcbs.Keys == st.pcbs.Keys + {e.q} && st'.recs.Keys == st.recs.Keys + {e.block}
            && AcceptedBy(st', 3) == AcceptedBy(st, 3) + {e.q}
  {
    hide Step, Rounds;
    SecondaryAccept(st, e);
    AcceptOn(st, e);
    AcceptKeys(st, e);
    StepOwned(st, e);
  }

  lemma AcceptKeys(st: State, e: Event)
    requires Owned(st) && Enabled(st, e) && e.EvAccept? && Secondary(st, e.l)
    requires AcceptErr(st, Arg(st, e.l), e.ok, e.q, e.ip, e.block) == ErrOk && !ListenerDone(st, SessionOf(st, e.l))
    ensures var st' := Step(st, e);
            st'.pcbs.Keys == st.pcbs.Keys + {e.q} && st'.recs.Keys == st.recs.Keys + {e.block} &&
                st'.order == [e.block] + st.order
  {
    CallbackArgument(st, e.l);
  }
}
