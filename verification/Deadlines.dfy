/** A time-limited test over whole runs, on an unbounded clock of which the engine sees 32 bits. */
module Deadlines {
  import opened Words
  import opened WireSettings
  import opened IperfState
  import opened Ownership
  import opened Isolation
  import opened Sending
  import opened Effects
  import opened Idle

  /** The rounds of an event that may send. */
  function TurnsOf(e: Event): seq<Turn> {
    match e
    case EvConnected(_, _, _, turns, _) => turns
    case EvSent(_, turns, _) => turns
    case EvPoll(_, turns, _) => turns
    case _ => []
  }

  /** ts are the true times of the event's clock readings, less than 2^32 ms after start. */
  ghost predicate Times(e: Event, ts: seq<nat>, start: nat) {
    && |ts| == |TurnsOf(e)|
    && forall k :: 0 <= k < |ts| ==> start <= ts[k] < start + TWO32 && TurnsOf(e)[k].now == Low32(ts[k])
  }

  ghost predicate AllTimes(es: seq<Event>, T: seq<seq<nat>>, start: nat) {
    |T| == |es| && forall i :: 0 <= i < |es| ==> Times(es[i], T[i], start)
  }

  /** The event's last clock reading is before the limit. */
  predicate Early(ts: seq<nat>, limit: nat) {
    ts != [] && ts[|ts| - 1] < limit
  }

  /** Every event of p sends before the limit, and no poll is the tenth in a row. */
  predicate InTime(es: seq<Event>, T: seq<seq<nat>>, p: Pid, limit: nat, quiet: nat)
    requires |T| == |es|
  {
    if es == [] then true
    else if Subject(es[0]) != p then InTime(es[1..], T[1..], p, limit, quiet)
    else
      && (es[0].EvSent? || (es[0].EvPoll? && quiet + 1 < 10))
      && Early(T[0], limit)
      && InTime(es[1..], T[1..], p, limit, if es[0].EvPoll? then quiet + 1 else 0)
  }

  /** p's session is a live sender that may send for n units of 10 ms from start on. */
  ghost predicate Timed(st: State, p: Pid, start: nat, n: nat) {
    && p != NULL && Live(st, p) && Reaches(st, p)
    && var s := SessionOf(st, p);
       && !s.server && s.pollCount < 10 && s.timeStarted == Low32(start)
       && 1 <= n <= TWO31 && 10 * n < TWO32 && Amount(s.settings) == TWO32 - n
  }

  /** One call: it finishes exactly if its last reading is not early. */
  lemma CallFinishes(s: Session, mss: Mss, turns: seq<Turn>, start: nat, ts: seq<nat>, n: nat)
    requires Rounds(s, mss, turns) && s.timeStarted == Low32(start)
    requires 1 <= n <= TWO31 && 10 * n < TWO32 && Amount(s.settings) == TWO32 - n
    requires |ts| == |turns|
    requires forall k :: 0 <= k < |ts| ==> start <= ts[k] < start + TWO32 && turns[k].now == Low32(ts[k])
    ensures Finished(s, mss, turns) <==> !Early(ts, start + 10 * n)
  {
    hide LimitReached, Finished, TimeLimitMs, Low32, Amount;
    NegativeAmount(s.settings, n);
    TimeLimitExact(s, mss, turns, start, ts);
  }

  /** One event of p's: the session survives it exactly if it sends early and is not the tenth poll. */
  lemma StepTimed(st: State, e: Event, ts: seq<nat>, p: Pid, start: nat, n: nat)
    requires Owned(st) && Enabled(st, e) && Timed(st, p, start, n) && Subject(e) == p && !e.EvConnected?
    requires Times(e, ts, start)
    ensures var quiet := SessionOf(st, p).pollCount;
            Survives(SessionOf(st, p), st.mss, e) <==>
              (e.EvSent? || (e.EvPoll? && quiet + 1 < 10)) && Early(ts, start + 10 * n)
  {
    hide Rounds, Finished, Amount, Low32, Owned;
    SubjectRole(st, e);
    var s := SessionOf(st, p);
    match e
    case EvSent(_, turns, _) => CallFinishes(s.(pollCount := 0), st.mss, turns, start, ts, n);
    case EvPoll(_, turns, _) =>
      if s.pollCount + 1 < MAX_IDLE { CallFinishes(s.(pollCount := s.pollCount + 1), st.mss, turns, start, ts, n); }
    case _ =>
  }

  /** Over a run without a new connection of p, its session is open at the end exactly if no call read the clock at
      or after start + 10 n ms, no ten polls came in a row, and nothing else ended it: the first call that reads it
      there closes the session, and no earlier one does, however the 32-bit clock wraps. */
  lemma {:induction false} TimedRun(st: State, es: seq<Event>, T: seq<seq<nat>>, p: Pid, start: nat, n: nat)
    requires Owned(st) && Runs(st, es) && AbortFree(st, es) && Timed(st, p, start, n) && AllTimes(es, T, start)
    requires forall e :: e in es && Subject(e) == p ==> !e.EvConnected?
    ensures p in Run(st, es).pcbs
    ensures Live(Run(st, es), p) <==> InTime(es, T, p, start + 10 * n, SessionOf(st, p).pollCount)
    decreases |es|
  {
    hide Enabled, Step, Survives, Early, Amount, Low32, Sent;
    if es != [] {
      var e := es[0];
      var st1 := Step(st, e);
      StepOwned(st, e);
      if p == Subject(e) {
        SubjectAfter(st, e);
        StepTimed(st, e, T[0], p, start, n);
      } else {
        NotListener(st, p);
        EventIsLocal(st, e, p);
      }
      if Live(st1, p) {
        CallbackArgument(st1, p);
        TimedRun(st1, es[1..], T[1..], p, start, n);
      } else {
        StaysOver(st1, es[1..], p);
      }
    }
  }

  /** The same from the event on that connects the client, which is when its time starts. */
  lemma ConnectedRun(st: State, e: Event, ts: seq<nat>, es: seq<Event>, T: seq<seq<nat>>, start: nat, n: nat)
    requires Owned(st) && Enabled(st, e) && e.EvConnected? && e.ok && e.now == Low32(start) && Times(e, ts, start)
    requires Arg(st, e.p) in st.recs && 1 <= n <= TWO31 && 10 * n < TWO32
    requires Amount(SessionOf(st, e.p).settings) == TWO32 - n
    requires Runs(Step(st, e), es) && AbortFree(Step(st, e), es) && AllTimes(es, T, start)
    requires forall x :: x in es && Subject(x) == e.p ==> !x.EvConnected?
    ensures e.p in Run(Step(st, e), es).pcbs
    ensures Live(Run(Step(st, e), es), e.p) <==>
            Early(ts, start + 10 * n) && InTime(es, T, e.p, start + 10 * n, 0)
  {
    hide Step, Finished, Amount, Low32, Sent, InTime, Early, Run, Runs, AbortFree;
    var p, st1 := e.p, Step(st, e);
    CallbackArgument(st, p);
    var s := SessionOf(st, p);
    StepOwned(st, e);
    SubjectAfter(st, e);
    CallFinishes(s.(pollCount := 0, timeStarted := e.now), st.mss, e.turns, start, ts, n);
    if Live(st1, p) {
      SubjectRole(st, e);
      CallbackArgument(st1, p);
      TimedRun(st1, es, T, p, start, n);
    } else {
      StaysOver(st1, es, p);
    }
  }
}
