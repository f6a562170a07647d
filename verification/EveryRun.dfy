/** What holds after every run from power-up in which no listed session is aborted. */
module EveryRun {
  import opened IperfState
  import opened Ownership
  import opened Sending
  import Accounting = Receipts
  import opened Idle
  import opened Answering
  import opened Vanishing
  import opened Reporting
  import opened Calls
  import opened Asking
  import opened Causes
  import opened BlockUse

  lemma AtPowerUp(mss: Mss)
    ensures Owned(InitState(mss)) && Streams(InitState(mss))
    ensures Roles(InitState(mss)) && AnsweredOnce(InitState(mss))
    ensures Accounting.Receipts(InitState(mss), []) && Counts(InitState(mss), []) && Vanishings(InitState(mss), [])
    ensures ReportedOnce(InitState(mss)) && ClockStarted(InitState(mss), [])
  {
  }

  /** The listed records without a live block are those whose block the run let vanish. */
  ghost predicate OrphansExact(st: State, es: seq<Event>) {
    forall a :: a in st.order ==> a in st.recs && (Orphaned(st, a) <==> EvVanished(st.recs[a].connPcb) in es)
  }

  /** What the calls of a run say: every session's time starts at a reading of the clock, no call on a block comes after
      its close, and what a block was handed is what the accepted writes on it carried. */
  ghost predicate Logged(st: State, calls: seq<Call>) {
    ClockStarted(st, calls) && Orderly(calls) && forall p :: Written(st, p) == Carried(calls, p)
  }

  lemma RunLogged(mss: Mss, es: seq<Event>)
    requires Runs(InitState(mss), es) && AbortFree(InitState(mss), es)
    ensures Logged(Run(InitState(mss), es), RunCalls(InitState(mss), es))
  {
    hide Owned, Runs, AbortFree, Run, RunCalls, ClockStarted, Orderly, Carried, UsedRight;
    var st, calls := InitState(mss), RunCalls(InitState(mss), es);
    AtPowerUp(mss);
    RunClockStarted(st, [], es);
    assert [] + calls == calls;
    RunUses(st, es);
    forall p ensures Written(Run(st, es), p) == Carried(calls, p) {
      RunWrites(st, es, p);
      assert [] + Carried(calls, p) == Carried(calls, p);
    }
  }

  /** Whatever the stack, the allocator, the clock, the peers and the user do: records and control blocks own each
      other; every sender's output is a prefix of its stream; the packets delivered are given back once each and
      accounted for; the poll counts are exact; each received session is answered at most once; a listed record lacks
      a live block exactly if the stack freed it without a word; no connection is reported twice or too early; and the
      calls made on the way account for what was written, when sessions started, and one close for each block. */
  lemma Holds(mss: Mss, es: seq<Event>)
    requires Runs(InitState(mss), es) && AbortFree(InitState(mss), es)
    ensures var st := Run(InitState(mss), es);
            && Owned(st) && Streams(st) && Accounting.Receipts(st, es) && Counts(st, es) && AnsweredOnce(st)
            && OrphansExact(st, es) && ReportedOnce(st) && Logged(st, RunCalls(InitState(mss), es))
  {
    hide Owned, Streams, Accounting.Receipts, Counts, Vanishings, Orphaned, Roles, AnsweredOnce,
         ReportedOnce, Runs, AbortFree, Run, Logged, RunCalls;
    AtPowerUp(mss);
    var st := InitState(mss);
    assert [] + es == es;
    RunOwned(st, es);
    RunStreams(st, es);
    Accounting.RunReceipts(st, [], es);
    RunCounts(st, [], es);
    RunAnswers(st, es);
    RunVanishings(st, [], es);
    RunReportedOnce(st, es);
    RunLogged(mss, es);
    var st' := Run(st, es);
    forall a | a in st'.order
      ensures a in st'.recs && (Orphaned(st', a) <==> EvVanished(st'.recs[a].connPcb) in es)
    {
      OrphansExactly(st', es, a);
    }
  }
}
