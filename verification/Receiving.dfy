/** What a receiving session does with the packets it is given. */
module Receiving {
  import opened Words
  import opened WireSettings
  import opened IperfState
  import opened Ownership
  import opened Isolation

  /** The session after a packet it kept. */
  function Received(s: Session, pkt: Pbuf, now: u32): Session {
    var s0 := s.(pollCount := 0);
    if !HeaderDue(s0) then s0.(bytes := Add32(s.bytes, TotLen(pkt)))
    else if TotLen(pkt) < HEADER then s0
    else if !s.haveSettings then
      HeaderCounted(s0.(settings := Flat(pkt.chain)[..HEADER], haveSettings := true), TotLen(pkt), now)
    else HeaderCounted(s0, TotLen(pkt), now)
  }

  /** The answers to a start with which it succeeds. */
  predicate Starts(env: StartEnv) {
    env.block != NULL && env.pcb != NULL && env.connect == ErrOk
  }

  /** The session goes on after the packet: no header is due, or it is all there and, the first time, can be
      answered if it asks for an answer at once, later repeats the settings if they ask for an answer at all. One is
      due before the settings are in and then at counts 24, 131096, 262168 and so on. */
  predicate Kept(s: Session, pkt: Pbuf, env: StartEnv) {
    || (s.haveSettings && !(s.bytes >= 24 && (s.bytes - 24) % 131072 == 0))
    || (TotLen(pkt) >= 24 &&
        var h := Flat(pkt.chain)[..24];
        if s.haveSettings then s.settings[0] >= 0x80 ==> h == s.settings
        else h[0] >= 0x80 && h[3] % 2 == 1 ==> Starts(env))
  }

  /** The subtraction in the code wraps, but only counts from 24 on can then be a multiple of the block. */
  lemma DueExactly(b: u32)
    ensures Sub32(b, HEADER) % BLOCK == 0 <==> b >= 24 && (b - 24) % 131072 == 0
  {
    if b < 24 { assert Sub32(b, HEADER) == BLOCK * 32767 + (131072 - 24 + b); }
  }

  /** A packet leads to one of two ends: if it is not kept the session is closed and its record freed, otherwise it
      and its block advance by this packet; either way the block has written nothing and the packet is freed once. */
  ghost predicate PacketHandled(st: State, st': State, p: Pid, pkt: Pbuf, now: u32, kept: bool)
    requires Reaches(st, p)
  {
    var a, t := Arg(st, p), st.pcbs[p];
    && p in st'.pcbs && st'.pcbs[p].written == t.written && SameEnds(t, st'.pcbs[p])
    && st'.freed == st.freed + [pkt.id] && st'.mss == st.mss && st'.vanished == st.vanished
    && (Live(st', p) <==> kept)
    && (!kept ==> a !in st'.recs)
    && (kept ==>
          && st'.pcbs[p] == t.(credit := t.credit + TotLen(pkt))
          && a in st'.recs && st'.recs[a] == Received(st.recs[a], pkt, now))
  }

  /** A state that differs from st only away from p's block, and in p's record. */
  ghost predicate Beside(st: State, st1: State, p: Pid)
    requires Reaches(st, p)
  {
    && p in st1.pcbs && st1.pcbs[p] == st.pcbs[p] && Arg(st, p) in st1.recs && st1.recs[Arg(st, p)].connPcb == p
    && st1.freed == st.freed && st1.mss == st.mss && st1.vanished == st.vanished
  }

  lemma RejectedEnds(st: State, st1: State, p: Pid, kind: Kind, how: Closing, pkt: Pbuf, now: u32)
    requires p != NULL && Reaches(st, p) && Beside(st, st1, p)
    ensures PacketHandled(st, Rejected(st1, Arg(st, p), kind, how, pkt), p, pkt, now, false)
  {
    hide Received, HeaderDue, Without;
  }

  lemma CountedAdvances(st: State, st1: State, p: Pid, pkt: Pbuf, now: u32)
    requires Live(st, p) && Reaches(st, p) && Beside(st, st1, p)
    ensures var st' := Consumed(WithRec(st1, Arg(st, p), Received(SessionOf(st, p), pkt, now)), p, pkt);
            PacketHandled(st, st', p, pkt, now, true)
  {
    hide Received, HeaderDue, Flat;
  }

  lemma RecvFirstHandled(st: State, st0: State, p: Pid, pkt: Pbuf, now: u32, how: Closing, env: StartEnv)
    requires Owned(st0) && Reaches(st0, p) && Arg(st0, p) in st0.order && ConnectionOk(st0, Arg(st0, p))
    requires FreshStart(st0, env) && TotLen(pkt) >= HEADER && p != NULL
    requires Live(st, p) && Reaches(st, p) && Beside(st, st0, p) && Arg(st0, p) == Arg(st, p)
    requires HeaderDue(SessionOf(st, p).(pollCount := 0))
    requires st0.recs[Arg(st, p)] == SessionOf(st, p).(pollCount := 0) && !SessionOf(st, p).haveSettings
    ensures PacketHandled(st, RecvFirst(st0, Arg(st, p), pkt, now, how, env), p, pkt, now,
                          Kept(SessionOf(st, p), pkt, env))
  {
    hide Flat, HeaderCounted, Owned, ConnectionOk, ListenerOk, Received, HeaderDue, Rejected, Consumed, PacketHandled,
         TxStartPassive;
    var a := Arg(st, p);
    var st1 := TookHeader(st0, a, pkt);
    FirstReceived(SessionOf(st, p), pkt, now);
    if AnswerTest(st1.recs[a].settings) && AnswerNow(st1.recs[a].settings) {
      PassiveKeeps(st0, st1, p, env);
      var o := TxStartPassive(st1, a, env);
      RejectedEnds(st, o.st, p, AbortedLocalTxError, how, pkt, now);
      if Starts(env) { CountedAdvances(st, o.st, p, pkt, now); }
    } else {
      CountedAdvances(st, st1, p, pkt, now);
    }
  }

  lemma FirstReceived(s: Session, pkt: Pbuf, now: u32)
    requires !s.haveSettings && TotLen(pkt) >= HEADER
    ensures Received(s, pkt, now) ==
            HeaderCounted(s.(pollCount := 0, settings := Flat(pkt.chain)[..HEADER], haveSettings := true),
                TotLen(pkt), now)
  {
  }

  lemma PassiveKeeps(st: State, st1: State, p: Pid, env: StartEnv)
    requires Owned(st) && Reaches(st, p) && Arg(st, p) in st.order && ConnectionOk(st, Arg(st, p)) &&
             FreshStart(st, env)
    requires var a := Arg(st, p);
             a in st1.recs && st1 == WithRec(st, a, st1.recs[a]) && SameRole(st.recs[a], st1.recs[a])
    ensures var a := Arg(st, p);
            var o := TxStartPassive(st1, a, env);
            && p in o.st.pcbs && o.st.pcbs[p] == st.pcbs[p] && a in o.st.recs && o.st.recs[a] == st1.recs[a]
            && o.st.freed == st.freed && o.st.mss == st.mss && o.st.vanished == st.vanished
            && (o.err == ErrOk <==> Starts(env))
  {
    var a := Arg(st, p);
    SetRecordOwned(st, a, st1.recs[a]);
    assert ConnectionOk(st1, a);
    TxStartPassiveOwned(st1, a, env);
  }

  lemma RecvDataHandled(st: State, p: Pid, pkt: Pbuf, now: u32, how: Closing, env: StartEnv)
    requires Owned(st) && Live(st, p) && Reaches(st, p) && Arg(st, p) in st.order
    requires ConnectionOk(st, Arg(st, p)) && FreshStart(st, env) && p != NULL
    ensures PacketHandled(st, RecvData(st, Arg(st, p), pkt, now, how, env), p, pkt, now,
                          Kept(SessionOf(st, p), pkt, env))
  {
    hide Flat, HeaderCounted, PacketHandled, Rejected, Consumed;
    var a := Arg(st, p);
    var s := st.recs[a].(pollCount := 0);
    var st0 := WithRec(st, a, s);
    DueExactly(s.bytes);
    if !HeaderDue(s) {
      CountedAdvances(st, st0, p, pkt, now);
      assert WithRec(st0, a, Received(st.recs[a], pkt, now)) ==
             WithRec(st0, a, s.(bytes := Add32(s.bytes, TotLen(pkt))));
    } else if TotLen(pkt) < HEADER {
      RejectedEnds(st, st0, p, AbortedLocalDataError, how, pkt, now);
    } else if !s.haveSettings {
      SetRecordOwned(st, a, s);
      assert ConnectionOk(st0, a);
      RecvFirstHandled(st, st0, p, pkt, now, how, env);
    } else if AnswerTest(s.settings) && Flat(pkt.chain)[..HEADER] != s.settings {
      RejectedEnds(st, st0, p, AbortedLocalDataError, how, pkt, now);
    } else {
      CountedAdvances(st, st0, p, pkt, now);
    }
  }
}
