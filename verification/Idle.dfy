/** The idle bound: how poll_count follows a connection's events, and what silence does to it. */
module Idle {
  import opened Words
  import opened IperfState
  import opened Ownership
  import opened Isolation
  import opened Creation
  import opened Sending
  import opened Effects

  /** Polls of p since its last progress (connected, acknowledged or received data). */
  function Quiet(past: seq<Event>, p: Pid): nat {
    if past == [] then 0
    else
      var e, before := past[|past| - 1], past[..|past| - 1];
      if Subject(e) != p then Quiet(before, p)
      else if e.EvPoll? then Quiet(before, p) + 1
      else 0
  }

  ghost predicate CountOk(st: State, p: Pid, quiet: nat) {
    && (p !in st.pcbs ==> quiet == 0)
    && (Live(st, p) && Arg(st, p) in st.recs ==> SessionOf(st, p).pollCount == quiet < 10)
  }

  ghost predicate Counts(st: State, past: seq<Event>) {
    forall p :: p != NULL ==> CountOk(st, p, Quiet(past, p))
  }

  lemma QuietAfter(past: seq<Event>, e: Event, p: Pid)
    ensures Quiet(past + [e], p) ==
            if Subject(e) != p then Quiet(past, p) else if e.EvPoll? then Quiet(past, p) + 1 else 0
  {
    assert (past + [e])[..|past|] == past;
  }

  lemma SubjectCount(st: State, e: Event, quiet: nat)
    requires Owned(st) && Enabled(st, e) && Subject(e) != NULL && CountOk(st, Subject(e), quiet)
    ensures CountOk(Step(st, e), Subject(e), if e.EvPoll? then quiet + 1 else 0)
  {
    hide Enabled, Step, Owned, HeaderDue, LimitReached;
    SubjectAfter(st, e);
  }

  lemma OtherCount(st: State, e: Event, p: Pid, quiet: nat)
    requires Owned(st) && Enabled(st, e) && !Aborts(st, e) && CountOk(st, p, quiet) && p != Subject(e)
    ensures CountOk(Step(st, e), p, quiet)
  {
    hide Step, Rounds;
    var st' := Step(st, e);
    if p in st'.pcbs && p !in st.pcbs {
      EventCreates(st, e, p);
    } else if p in st.pcbs {
      if Listener(st, p) {
        ListenerStays(st, e, p);
        CallbackArgument(st, p);
      } else {
        EventIsLocal(st, e, p);
        if Live(st, p) { CallbackArgument(st, p); }
      }
    }
  }

  lemma StepCounts(st: State, past: seq<Event>, e: Event)
    requires Owned(st) && Enabled(st, e) && !Aborts(st, e) && Counts(st, past)
    ensures Counts(Step(st, e), past + [e])
  {
    hide Step, Enabled;
    forall p | p != NULL ensures CountOk(Step(st, e), p, Quiet(past + [e], p)) {
      QuietAfter(past, e, p);
      if p == Subject(e) { SubjectCount(st, e, Quiet(past, p)); }
      else { OtherCount(st, e, p, Quiet(past, p)); }
    }
  }

  /** In every reachable state a live connection's poll_count is the number of polls since its last progress,
      and below the idle limit, so the byte never overflows. */
  lemma {:induction false} RunCounts(st: State, past: seq<Event>, es: seq<Event>)
    requires Owned(st) && Counts(st, past) && Runs(st, es) && AbortFree(st, es)
    ensures Counts(Run(st, es), past + es)
    decreases |es|
  {
    if es == [] {
      assert past + es == past;
    } else {
      StepOwned(st, es[0]);
      StepCounts(st, past, es[0]);
      RunCounts(Step(st, es[0]), past + [es[0]], es[1..]);
      assert past + [es[0]] + es[1..] == past + es;
    }
  }

  /** Polls of p in a run. */
  function Polls(es: seq<Event>, p: Pid): nat {
    if es == [] then 0 else (if es[0].EvPoll? && es[0].p == p then 1 else 0) + Polls(es[1..], p)
  }

  /** A poll of p in the run sends its session's last data. */
  predicate PollFinishes(st: State, es: seq<Event>, p: Pid)
    decreases |es|
  {
    es != [] &&
    ((es[0].EvPoll? && es[0].p == p && Finishes(st, es[0])) || PollFinishes(Step(st, es[0]), es[1..], p))
  }

  predicate Finishes(st: State, e: Event)
    requires e.EvPoll?
  {
    Arg(st, e.p) in st.recs &&
    var s := SessionOf(st, e.p);
    !s.server && Finished(s.(pollCount := Inc8(s.pollCount)), st.mss, e.turns)
  }

  /** Once a connection's session is over, it stays over, and nothing polls it any more. */
  lemma {:induction false} StaysOver(st: State, es: seq<Event>, p: Pid)
    requires Owned(st) && Runs(st, es) && AbortFree(st, es) && p in st.pcbs && !Live(st, p) && p != NULL
    ensures p in Run(st, es).pcbs && !Live(Run(st, es), p)
    ensures Polls(es, p) == 0 && !PollFinishes(st, es, p)
    decreases |es|
  {
    hide Step, Enabled, Finishes;
    if es != [] {
      var e := es[0];
      StepOwned(st, e);
      if p == Subject(e) { SubjectAfter(st, e); }
      else if Listener(st, p) { ListenerStays(st, e, p); }
      else { EventIsLocal(st, e, p); }
      StaysOver(Step(st, e), es[1..], p);
    }
  }

  /** A connection that sees nothing but polls is open exactly as long as they number fewer than ten since its last
      progress and none of them sends the last of its data. */
  lemma {:induction false} SilenceCloses(st: State, es: seq<Event>, p: Pid)
    requires Owned(st) && Runs(st, es) && AbortFree(st, es) && p != NULL
    requires Live(st, p) && Reaches(st, p) && SessionOf(st, p).pollCount < 10
    requires forall e :: e in es && Subject(e) == p ==> e.EvPoll?
    ensures p in Run(st, es).pcbs
    ensures Live(Run(st, es), p) <==>
            SessionOf(st, p).pollCount + Polls(es, p) < 10 && !PollFinishes(st, es, p)
    ensures SessionOf(st, p).server ==> !PollFinishes(st, es, p)
    decreases |es|
  {
    hide Enabled, Step, Finished;
    if es != [] {
      var e := es[0];
      var st1 := Step(st, e);
      StepOwned(st, e);
      if p == Subject(e) { SubjectAfter(st, e); }
      else { NotListener(st, p); EventIsLocal(st, e, p); }
      if Live(st1, p) {
        CallbackArgument(st1, p);
        SilenceCloses(st1, es[1..], p);
      } else {
        StaysOver(st1, es[1..], p);
      }
    }
  }

  /** A silent receiving session is closed by exactly ten polls. */
  lemma SilentReceiver(st: State, es: seq<Event>, p: Pid)
    requires Owned(st) && Runs(st, es) && AbortFree(st, es) && p != NULL
    requires Live(st, p) && Reaches(st, p) && SessionOf(st, p).server && SessionOf(st, p).pollCount < 10
    requires forall e :: e in es && Subject(e) == p ==> e.EvPoll?
    ensures Live(Run(st, es), p) <==> SessionOf(st, p).pollCount + Polls(es, p) < 10
  {
    hide Owned, Runs, AbortFree, Run;
    SilenceCloses(st, es, p);
  }

  lemma NotListener(st: State, p: Pid)
    requires Owned(st) && Live(st, p)
    ensures !Listener(st, p)
  {
    CallbackArgument(st, p);
  }
}
