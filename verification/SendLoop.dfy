/** The send loop one round at a time: appending the next round to the rounds already done. */
module SendLoop {
  import opened Words
  import opened WireSettings
  import opened IperfState
  import opened Calls

  /** Rounds after each of which the loop went round again. */
  predicate Going(s: Session, mss: Mss, turns: seq<Turn>)
    decreases |turns|
  {
    turns == [] ||
    (&& !LimitReached(s, turns[0].now) && IsTurn(turns[0], |Offer(s, mss)|, mss)
     && turns[0].err == ErrOk && s.bytes >= HEADER
     && Going(s.(bytes := Add32(s.bytes, |Taken(s, mss, turns[0])|)), mss, turns[1..]))
  }

  lemma {:induction false} GoingAhead(st: State, a: Addr, turns: seq<Turn>, how: Closing)
    requires a in st.recs && st.recs[a].connPcb in st.pcbs && Going(st.recs[a], st.mss, turns)
    ensures var st' := SendMore(st, a, turns, Gone);
            && SendMore(st, a, turns, how) == st'
            && a in st'.recs && st'.recs[a] == st.recs[a].(bytes := st'.recs[a].bytes)
            && st'.mss == st.mss && st'.pcbs.Keys == st.pcbs.Keys
    decreases |turns|
  {
    hide LimitReached, Offer, IsTurn;
    if turns != [] {
      GoingAhead(Wrote(st, a, Taken(st.recs[a], st.mss, turns[0])), a, turns[1..], how);
    }
  }

  /** One more round on top of rounds that went on. */
  lemma {:induction false} RoundSnoc(st: State, a: Addr, turns: seq<Turn>, t: Turn, how: Closing)
    requires a in st.recs && st.recs[a].connPcb in st.pcbs && Going(st.recs[a], st.mss, turns)
    requires var st' := SendMore(st, a, turns, Gone); a in st'.recs && st'.recs[a].connPcb in st'.pcbs
    ensures var st' := SendMore(st, a, turns, Gone);
            && SendMore(st, a, turns + [t], how) == SendMore(st', a, [t], how)
            && (Going(st'.recs[a], st.mss, [t]) ==> Going(st.recs[a], st.mss, turns + [t]))
            && (Rounds(st'.recs[a], st.mss, [t]) ==> Rounds(st.recs[a], st.mss, turns + [t]))
    decreases |turns|
  {
    hide LimitReached, Offer, IsTurn;
    if turns == [] {
      assert turns + [t] == [t];
    } else {
      assert (turns + [t])[1..] == turns[1..] + [t];
      var st1 := Wrote(st, a, Taken(st.recs[a], st.mss, turns[0]));
      GoingAhead(st, a, turns, how);
      RoundSnoc(st1, a, turns[1..], t, how);
    }
  }

  /** The calls of one more round come after those of the rounds before it. */
  lemma {:induction false} CallsSnoc(st: State, a: Addr, turns: seq<Turn>, t: Turn, how: Closing)
    requires a in st.recs && st.recs[a].connPcb in st.pcbs && Going(st.recs[a], st.mss, turns)
    requires var st' := SendMore(st, a, turns, Gone); a in st'.recs && st'.recs[a].connPcb in st'.pcbs
    ensures var s' := SendMore(st, a, turns, Gone).recs[a];
            SendCalls(st.recs[a], st.mss, turns + [t], how) ==
            SendCalls(st.recs[a], st.mss, turns, Gone) + SendCalls(s', st.mss, [t], how)
    decreases |turns|
  {
    hide LimitReached, Offer, IsTurn, LimitCalls, RoundCalls;
    if turns == [] {
      assert turns + [t] == [t];
    } else {
      assert (turns + [t])[1..] == turns[1..] + [t];
      var s := st.recs[a];
      var st1 := Wrote(st, a, Taken(s, st.mss, turns[0]));
      GoingAhead(st, a, turns, how);
      CallsSnoc(st1, a, turns[1..], t, how);
    }
  }

  /** The calls of a last round: nothing but the close when the limit is reached, tcp_output when it is not. */
  lemma LastCalls(s: Session, mss: Mss, t: Turn, how: Closing)
    ensures LimitReached(s, t.now) ==> SendCalls(s, mss, [t], how) == LimitCalls(s, t) + CloseCalls(s, how)
    ensures !LimitReached(s, t.now) ==>
              SendCalls(s, mss, [t], how) == LimitCalls(s, t) + RoundCalls(s, mss, t) +
                                             if t.err == ErrOk && s.bytes >= HEADER then [] else [Output(s.connPcb)]
  {
    hide LimitReached, Offer, LimitCalls, RoundCalls;
    assert [t][1..] == [];
  }

  lemma LimitRound(st: State, a: Addr, t: Turn, how: Closing)
    requires a in st.recs && st.recs[a].connPcb in st.pcbs && LimitReached(st.recs[a], t.now)
    ensures Rounds(st.recs[a], st.mss, [t]) && SendMore(st, a, [t], how) == Close(st, a, DoneClient, how)
  {
    hide Close, LimitReached;
  }

  /** Rounds that went on, and then one that finds the limit reached. */
  lemma ClosingRound(st0: State, a: Addr, turns: seq<Turn>, t: Turn, how: Closing, st: State, calls: seq<Call>)
    requires a in st0.recs && st0.recs[a].connPcb in st0.pcbs && Going(st0.recs[a], st0.mss, turns)
    requires st == SendMore(st0, a, turns, Gone) && a in st.recs && st.recs[a].connPcb in st.pcbs
    requires LimitReached(st.recs[a], t.now)
    ensures var s0, s := st0.recs[a], st.recs[a];
            && Rounds(s0, st0.mss, turns + [t])
            && SendMore(st0, a, turns + [t], how) == Close(st, a, DoneClient, how)
            && calls + SendCalls(s0, st0.mss, turns, Gone) + LimitCalls(s, t) + CloseCalls(s, how) ==
               calls + SendCalls(s0, st0.mss, turns + [t], how)
  {
    hide *;
    RoundSnoc(st0, a, turns, t, how);
    GoingAhead(st0, a, turns, Gone);
    LimitRound(st, a, t, how);
    CallsSnoc(st0, a, turns, t, how);
    LastCalls(st.recs[a], st0.mss, t, how);
    Associate(calls, SendCalls(st0.recs[a], st0.mss, turns, Gone), LimitCalls(st.recs[a], t),
              CloseCalls(st.recs[a], how));
  }

  /** Rounds that went on, and then one below the limit, which goes on or is the last. */
  lemma WritingRound(st0: State, a: Addr, turns: seq<Turn>, t: Turn, st: State, calls: seq<Call>)
    requires a in st0.recs && st0.recs[a].connPcb in st0.pcbs && Going(st0.recs[a], st0.mss, turns)
    requires st == SendMore(st0, a, turns, Gone) && a in st.recs && st.recs[a].connPcb in st.pcbs
    requires !LimitReached(st.recs[a], t.now)
    ensures var s0, s := st0.recs[a], st.recs[a];
            && (Going(s, st0.mss, [t]) ==> Going(s0, st0.mss, turns + [t]))
            && (Rounds(s, st0.mss, [t]) ==> Rounds(s0, st0.mss, turns + [t]))
            && SendMore(st0, a, turns + [t], Gone) == SendMore(st, a, [t], Gone)
            && calls + SendCalls(s0, st0.mss, turns, Gone) + LimitCalls(s, t) + RoundCalls(s, st0.mss, t) +
               (if t.err == ErrOk && s.bytes >= HEADER then [] else [Output(s.connPcb)]) ==
               calls + SendCalls(s0, st0.mss, turns + [t], Gone)
  {
    hide *;
    RoundSnoc(st0, a, turns, t, Gone);
    CallsSnoc(st0, a, turns, t, Gone);
    LastCalls(st.recs[a], st0.mss, t, Gone);
    var s := st.recs[a];
    var end := if t.err == ErrOk && s.bytes >= HEADER then [] else [Output(s.connPcb)];
    Regroup(calls, SendCalls(st0.recs[a], st0.mss, turns, Gone), LimitCalls(s, t), RoundCalls(s, st0.mss, t), end);
  }

  lemma Associate(a: seq<Call>, b: seq<Call>, c: seq<Call>, d: seq<Call>)
    ensures a + b + c + d == a + (b + (c + d))
  {
  }

  lemma Regroup(a: seq<Call>, b: seq<Call>, c: seq<Call>, d: seq<Call>, e: seq<Call>)
    ensures a + b + c + d + e == a + (b + (c + d + e))
  {
  }
}
