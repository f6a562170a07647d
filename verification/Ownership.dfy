/** Who owns which record and which control block, over every run. */
module Ownership {
  import opened Words
  import opened WireSettings
  import opened IperfState

  // ---------------------------------------------------------------- sequences without repetition

  ghost predicate NoDup(s: seq<Addr>) {
    forall i, j :: 0 <= i < j < |s| ==> s[i] != s[j]
  }

  /** Removal deletes exactly the element and keeps the order of the others. */
  lemma {:induction false} WithoutProps(s: seq<Addr>, a: Addr)
    requires NoDup(s)
    ensures NoDup(Without(s, a)) && a !in Without(s, a)
    ensures forall x :: x in Without(s, a) <==> x in s && x != a
    ensures a !in s ==> Without(s, a) == s
  {
    if s == [] {
    } else {
      WithoutProps(s[1..], a);
      assert s == [s[0]] + s[1..];
      forall x ensures x in Without(s, a) <==> x in s && x != a {
        assert x in s <==> x == s[0] || x in s[1..];
      }
      if s[0] != a {
        var w := Without(s[1..], a);
        assert Without(s, a) == [s[0]] + w;
        assert s[0] !in w;
        forall i, j | 0 <= i < j < |w| + 1 ensures ([s[0]] + w)[i] != ([s[0]] + w)[j] {
          assert ([s[0]] + w)[j] == w[j - 1];
        }
      }
    }
  }

  // ---------------------------------------------------------------- the invariant

  /** A listed listener: its listening block calls accept with this record, and nothing else. */
  ghost predicate ListenerOk(st: State, a: Addr)
    requires a in st.recs
  {
    var s := st.recs[a];
    && s.server && s.connPcb == NULL && s.serverPcb in st.pcbs
    && (s.specificRemote <==> s.master != NULL)
    && var t := st.pcbs[s.serverPcb];
       t.arg == a && !t.freed && t.onAccept && !t.onConnected && !t.onSent && !t.onRecv && !t.onPoll && !t.onErr
  }

  /** A listed connection: its block calls back with this record, a receiver's on data, a sender's on
      acknowledged data, both on poll and error. */
  ghost predicate ConnectionOk(st: State, a: Addr)
    requires a in st.recs
  {
    var s := st.recs[a];
    && s.serverPcb == NULL && s.connPcb in st.pcbs && !s.specificRemote
    && (!s.server ==> s.haveSettings)
    && var t := st.pcbs[s.connPcb];
       && t.arg == a && !t.freed && !t.onAccept && t.onPoll && t.onErr
       && (t.onRecv <==> s.server) && (t.onSent <==> !s.server) && (t.onConnected ==> !s.server)
  }

  /** A listed client whose block the stack freed without a word: nothing will call back with it any more. */
  ghost predicate Orphaned(st: State, a: Addr) {
    a in st.recs &&
    var s := st.recs[a];
    && !s.server && s.serverPcb == NULL && !s.specificRemote && s.haveSettings
    && s.connPcb in st.vanished && s.connPcb in st.pcbs && st.pcbs[s.connPcb].freed
  }

  ghost predicate ListedOk(st: State, a: Addr)
    requires a in st.recs
  {
    ListenerOk(st, a) || ConnectionOk(st, a) || Orphaned(st, a)
  }

  /** An armed callback carries a listed record that names this very block. */
  ghost predicate CallbackOk(st: State, p: Pid)
    requires p in st.pcbs
  {
    var t := st.pcbs[p];
    && (t.freed ==> !t.Armed())
    && (t.Armed() ==>
          && t.arg in st.order && t.arg in st.recs
          && (st.recs[t.arg].connPcb == p || (st.recs[t.arg].serverPcb == p && st.recs[t.arg].connPcb == NULL)))
  }

  /** Every allocated record is on the list exactly once (or among the leaked ones), and records and
      live control blocks point at each other. */
  ghost predicate Owned(st: State) {
    && !st.headFreed && NoDup(st.order)
    && NULL !in st.recs && NULL !in st.pcbs
    && (forall a :: a in st.recs <==> a in st.order || a in st.leaked)
    && (forall a :: a in st.leaked ==> a !in st.order)
    && (forall a :: a in st.order ==> ListedOk(st, a))
    && (forall p :: p in st.pcbs ==> CallbackOk(st, p))
  }

  /** No callback ever runs on a freed record: the argument of an armed block is allocated and listed,
      and accept gets a listener, every other callback the connection of that block. */
  lemma CallbackArgument(st: State, p: Pid)
    requires Owned(st) && p in st.pcbs && st.pcbs[p].Armed()
    ensures Arg(st, p) in st.recs && Arg(st, p) in st.order && Arg(st, p) !in st.leaked
    ensures st.pcbs[p].onAccept ==> ListenerOk(st, Arg(st, p)) && st.recs[Arg(st, p)].serverPcb == p
    ensures !st.pcbs[p].onAccept ==> ConnectionOk(st, Arg(st, p)) && Reaches(st, p)
  {
    assert CallbackOk(st, p);
    var a := Arg(st, p);
    assert ListedOk(st, a);
  }

  // ---------------------------------------------------------------- updates in place

  /** Fields a callback may change without touching ownership. */
  ghost predicate SameRole(s: Session, s': Session) {
    && s.server == s'.server && s.master == s'.master && s.serverPcb == s'.serverPcb
    && s.connPcb == s'.connPcb && s.specificRemote == s'.specificRemote
    && (s.haveSettings ==> s'.haveSettings)
  }

  ghost predicate SameWiring(t: Tcb, t': Tcb) {
    && t.arg == t'.arg && t.onAccept == t'.onAccept && t.onSent == t'.onSent && t.onRecv == t'.onRecv
    && t.onPoll == t'.onPoll && t.onErr == t'.onErr && t.freed == t'.freed
    && (t'.onConnected ==> t.onConnected)
  }

  lemma UpdateOwned(st: State, st': State)
    requires Owned(st)
    requires st'.order == st.order && st'.headFreed == st.headFreed && st'.leaked == st.leaked
    requires st'.vanished == st.vanished
    requires st'.recs.Keys == st.recs.Keys && st'.pcbs.Keys == st.pcbs.Keys
    requires forall a :: a in st.recs ==> SameRole(st.recs[a], st'.recs[a])
    requires forall p :: p in st.pcbs ==> SameWiring(st.pcbs[p], st'.pcbs[p])
    ensures Owned(st')
  {
    forall a | a in st'.order ensures ListedOk(st', a) {
      assert ListedOk(st, a);
    }
    forall p | p in st'.pcbs ensures CallbackOk(st', p) {
      assert CallbackOk(st, p);
    }
  }

  lemma SetRecordOwned(st: State, a: Addr, s: Session)
    requires Owned(st) && a in st.recs && SameRole(st.recs[a], s)
    ensures Owned(WithRec(st, a, s))
  {
    UpdateOwned(st, WithRec(st, a, s));
  }

  // ---------------------------------------------------------------- primitives

  lemma CloseOwned(st: State, a: Addr, kind: Kind, how: Closing)
    requires Owned(st) && a in st.order && a in st.recs
    ensures Owned(Close(st, a, kind, how))
    ensures a !in Close(st, a, kind, how).recs
  {
    hide Without, NoDup;
    WithoutProps(st.order, a);
    var st' := Close(st, a, kind, how);
    assert ListedOk(st, a);
    forall x ensures x in st'.recs <==> x in st'.order || x in st'.leaked {
      assert x in st.recs <==> x in st.order || x in st.leaked;
    }
    forall b | b in st'.order ensures ListedOk(st', b) {
      assert ListedOk(st, b);
    }
    forall p | p in st'.pcbs ensures CallbackOk(st', p) {
      assert CallbackOk(st, p);
    }
  }

  /** A freshly allocated record joins the head of the list with a fresh block behind it. */
  lemma AddOwned(st: State, st': State, a: Addr, p: Pid)
    requires Owned(st) && a != NULL && p != NULL && a !in st.recs && p !in st.pcbs
    requires a in st'.recs && st'.recs == st.recs[a := st'.recs[a]]
    requires p in st'.pcbs && st'.pcbs == st.pcbs[p := st'.pcbs[p]]
    requires st'.order == [a] + st.order && st'.headFreed == st.headFreed && st'.leaked == st.leaked
    requires st'.vanished == st.vanished
    requires ListedOk(st', a)
    requires st'.pcbs[p].arg == a && !st'.pcbs[p].freed
    requires st'.recs[a].connPcb == p || (st'.recs[a].serverPcb == p && st'.recs[a].connPcb == NULL)
    ensures Owned(st')
  {
    forall b | b in st'.order ensures ListedOk(st', b) {
      if b != a {
        assert b in st.order;
        assert ListedOk(st, b);
      }
    }
    forall q | q in st'.pcbs ensures CallbackOk(st', q) {
      if q != p { assert CallbackOk(st, q); }
    }
  }

  /** A block nobody will be called back on. */
  lemma IdlePcbOwned(st: State, p: Pid, t: Tcb)
    requires Owned(st) && p != NULL && p !in st.pcbs && !t.Armed()
    ensures Owned(st.(pcbs := st.pcbs[p := t]))
  {
    var st' := st.(pcbs := st.pcbs[p := t]);
    forall b | b in st'.order ensures ListedOk(st', b) {
      assert ListedOk(st, b);
    }
    forall q | q in st'.pcbs ensures CallbackOk(st', q) {
      if q != p { assert CallbackOk(st, q); }
    }
  }

  // ---------------------------------------------------------------- entry points

  lemma {:induction false} SendMoreOwned(st: State, a: Addr, turns: seq<Turn>, how: Closing)
    requires Owned(st) && a in st.recs && a in st.order && ConnectionOk(st, a)
    ensures Owned(SendMore(st, a, turns, how))
    decreases |turns|
  {
    if turns == [] {
    } else if LimitReached(st.recs[a], turns[0].now) {
      CloseOwned(st, a, DoneClient, how);
    } else {
      var st' := Wrote(st, a, Taken(st.recs[a], st.mss, turns[0]));
      UpdateOwned(st, st');
      SendMoreOwned(st', a, turns[1..], how);
    }
  }

  lemma TxStartOwned(st: State, settings: Settings, reports: bool, master: Addr, ip: Ip, port: u16,
                     why: Origin, env: StartEnv)
    requires Owned(st) && FreshStart(st, env)
    ensures var o := TxStart(st, settings, reports, master, ip, port, why, env);
            && Owned(o.st) && o.st.leaked == st.leaked
            && (o.err == ErrOk <==> env.block != NULL && env.pcb != NULL && env.connect == ErrOk)
            && (forall a :: a in st.recs ==> a in o.st.recs && o.st.recs[a] == st.recs[a])
            && (forall p :: p in st.pcbs ==> p in o.st.pcbs && o.st.pcbs[p] == st.pcbs[p])
            && (o.err == ErrOk ==>
                  && o.conn == env.block && o.conn in o.st.recs && o.conn !in st.recs
                  && o.st.order == [o.conn] + st.order
                  && ConnectionOk(o.st, o.conn) && !o.st.recs[o.conn].server)
            && (o.err != ErrOk ==> o.conn == NULL && o.st.recs == st.recs && o.st.order == st.order)
  {
    var o := TxStart(st, settings, reports, master, ip, port, why, env);
    if env.block == NULL || env.pcb == NULL {
    } else {
      var a, p := env.block, env.pcb;
      var st1 := st.(recs := st.recs[a := ClientRecord(settings, reports, master, env.pcb, env.now)],
                     pcbs := st.pcbs[p := ClientTcb(env.block, ip, port, why, env.connect == ErrOk)]);
      assert forall b :: b in st.order ==> b in st.recs;
      if env.connect != ErrOk {
        ConnectFails(st, settings, reports, master, ip, port, why, env);
        IdlePcbOwned(st, p, o.st.pcbs[p]);
        UpdateOwned(st.(pcbs := st.pcbs[p := o.st.pcbs[p]]), o.st);
      } else {
        AddOwned(st, o.st, a, p);
      }
    }
  }

  /** A refused tcp_connect: the close works on an unlisted record, frees it, and leaves the list alone. */
  lemma ConnectFails(st: State, settings: Settings, reports: bool, master: Addr, ip: Ip, port: u16,
                     why: Origin, env: StartEnv)
    requires Owned(st) && FreshStart(st, env) && env.block != NULL && env.pcb != NULL && env.connect != ErrOk
    ensures var o := TxStart(st, settings, reports, master, ip, port, why, env);
            && env.pcb in o.st.pcbs && !o.st.pcbs[env.pcb].Armed()
            && o.st == st.(pcbs := st.pcbs[env.pcb := o.st.pcbs[env.pcb]],
                           reports := if reports then st.reports + [Report(env.block, AbortedLocal, env.pcb, 0)]
                                      else st.reports)
  {
    var o := TxStart(st, settings, reports, master, ip, port, why, env);
    assert env.block !in st.order;
    WithoutProps(st.order, env.block);
    assert o.st.recs == st.recs;
  }

  lemma TxStartPassiveOwned(st: State, a: Addr, env: StartEnv)
    requires Owned(st) && a in st.order && a in st.recs && ConnectionOk(st, a) && FreshStart(st, env)
    ensures var o := TxStartPassive(st, a, env);
            && Owned(o.st) && o.st.leaked == st.leaked && (forall b :: b in st.order ==> b in o.st.order)
            && (forall b :: b in st.recs ==> b in o.st.recs && o.st.recs[b] == st.recs[b])
            && (forall p :: p in st.pcbs ==> p in o.st.pcbs && o.st.pcbs[p] == st.pcbs[p])
  {
    hide Owned, TxStart;
    var s := st.recs[a];
    var o := TxStart(st, s.settings, s.reports, s.master, st.pcbs[s.connPcb].remoteIp,
                     RemotePort(s.settings), Reverse(s.connPcb, WithoutFlags(s.settings)), env);
    TxStartOwned(st, s.settings, s.reports, s.master, st.pcbs[s.connPcb].remoteIp,
                 RemotePort(s.settings), Reverse(s.connPcb, WithoutFlags(s.settings)), env);
    if o.err == ErrOk {
      var c := o.st.recs[o.conn];
      SetRecordOwned(o.st, o.conn, c.(settings := WithoutFlags(c.settings)));
    }
  }

  lemma CountHeaderOwned(st: State, a: Addr, p: Pid, pkt: Pbuf, now: u32)
    requires Owned(st) && a in st.recs && p in st.pcbs && TotLen(pkt) >= HEADER
    ensures Owned(CountHeader(st, a, p, pkt, now))
  {
    var s := HeaderCounted(st.recs[a], TotLen(pkt), now);
    SetRecordOwned(st, a, s);
    ConsumedOwned(WithRec(st, a, s), p, pkt);
  }

  lemma ConsumedOwned(st: State, p: Pid, pkt: Pbuf)
    requires Owned(st) && p in st.pcbs
    ensures Owned(Consumed(st, p, pkt))
  {
    UpdateOwned(st, Consumed(st, p, pkt));
  }

  lemma RejectedOwned(st: State, a: Addr, kind: Kind, how: Closing, pkt: Pbuf)
    requires Owned(st) && a in st.order && a in st.recs
    ensures Owned(Rejected(st, a, kind, how, pkt))
  {
    CloseOwned(st, a, kind, how);
    UpdateOwned(Close(st, a, kind, how), Rejected(st, a, kind, how, pkt));
  }

  lemma RecvFirstOwned(st: State, a: Addr, pkt: Pbuf, now: u32, how: Closing, env: StartEnv)
    requires Owned(st) && a in st.order && a in st.recs && ConnectionOk(st, a) && FreshStart(st, env)
    requires TotLen(pkt) >= HEADER
    ensures Owned(RecvFirst(st, a, pkt, now, how, env))
  {
    var p := st.recs[a].connPcb;
    var st1 := TookHeader(st, a, pkt);
    SetRecordOwned(st, a, st1.recs[a]);
    if AnswerTest(st1.recs[a].settings) && AnswerNow(st1.recs[a].settings) {
      TxStartPassiveOwned(st1, a, env);
      var o := TxStartPassive(st1, a, env);
      if o.err != ErrOk {
        RejectedOwned(o.st, a, AbortedLocalTxError, how, pkt);
      } else {
        CountHeaderOwned(o.st, a, p, pkt, now);
      }
    } else {
      CountHeaderOwned(st1, a, p, pkt, now);
    }
  }

  lemma RecvDataOwned(st: State, a: Addr, pkt: Pbuf, now: u32, how: Closing, env: StartEnv)
    requires Owned(st) && a in st.order && a in st.recs && ConnectionOk(st, a) && FreshStart(st, env)
    ensures Owned(RecvData(st, a, pkt, now, how, env))
  {
    var p := st.recs[a].connPcb;
    var s := st.recs[a].(pollCount := 0);
    var st0 := WithRec(st, a, s);
    SetRecordOwned(st, a, s);
    assert ConnectionOk(st0, a);
    if !HeaderDue(s) {
      var s' := s.(bytes := Add32(s.bytes, TotLen(pkt)));
      SetRecordOwned(st0, a, s');
      ConsumedOwned(WithRec(st0, a, s'), p, pkt);
    } else if TotLen(pkt) < HEADER {
      RejectedOwned(st0, a, AbortedLocalDataError, how, pkt);
    } else if !s.haveSettings {
      RecvFirstOwned(st0, a, pkt, now, how, env);
    } else if AnswerTest(s.settings) && Flat(pkt.chain)[..HEADER] != s.settings {
      RejectedOwned(st0, a, AbortedLocalDataError, how, pkt);
    } else {
      CountHeaderOwned(st0, a, p, pkt, now);
    }
  }

  lemma RecvEndOwned(st: State, a: Addr, how: Closing, env: StartEnv)
    requires Owned(st) && a in st.order && a in st.recs && ConnectionOk(st, a) && FreshStart(st, env)
    ensures Owned(RecvEnd(st, a, how, env))
  {
    var s := st.recs[a];
    if AnswerTest(s.settings) && !AnswerNow(s.settings) {
      TxStartPassiveOwned(st, a, env);
      CloseOwned(TxStartPassive(st, a, env).st, a, DoneServer, how);
    } else {
      CloseOwned(st, a, DoneServer, how);
    }
  }

  lemma AdmitOwned(st: State, l: Pid, a: Addr, q: Pid, ip: Ip, port: u16, block: Addr, now: u32)
    requires Owned(st) && a in st.order && a in st.recs && ListenerOk(st, a)
    requires FreshPcb(st, q) && FreshBlock(st, block) && q != NULL && block != NULL
    ensures Owned(Admit(st, l, a, q, ip, port, block, now))
  {
    var s := st.recs[a];
    var st' := Admit(st, l, a, q, ip, port, block, now);
    assert forall b :: b in st.order ==> b in st.recs;
    if ListenerDone(st, s) {
      // closing the listener before or after the new record joins comes to the same
      var quiet := WithRec(st, a, s.(reports := false));
      SetRecordOwned(st, a, s.(reports := false));
      var closed := Close(quiet, a, AbortedLocal, Gone);
      CloseOwned(quiet, a, AbortedLocal, Gone);
      AdmitClosed(st, l, a, q, ip, port, block, now);
      AddOwned(closed, st', block, q);
    } else {
      AddOwned(st, st', block, q);
    }
  }

  lemma AdmitClosed(st: State, l: Pid, a: Addr, q: Pid, ip: Ip, port: u16, block: Addr, now: u32)
    requires a in st.recs && ListenerDone(st, st.recs[a]) && ListenerOk(st, a)
    requires q !in st.pcbs && block !in st.recs
    ensures var s := st.recs[a];
            var st' := Admit(st, l, a, q, ip, port, block, now);
            var closed := Close(WithRec(st, a, s.(reports := false)), a, AbortedLocal, Gone);
            && st'.recs == closed.recs[block := st'.recs[block]] && st'.pcbs == closed.pcbs[q := st'.pcbs[q]]
            && st'.recs[block].master == s.master && st'.recs[block].connPcb == q && st'.recs[block].server
            && st'.order == [block] + closed.order && st'.reports == st.reports
            && st'.leaked == st.leaked && st'.headFreed == st.headFreed && st'.vanished == st.vanished
  {
  }

  lemma RefusedOwned(st: State, q: Pid, ip: Ip, port: u16)
    requires Owned(st) && FreshPcb(st, q)
    ensures Owned(Refused(st, q, ip, port))
  {
    if q != NULL {
      IdlePcbOwned(st, q, Refused(st, q, ip, port).pcbs[q]);
    }
  }

  /** The two error returns of a server start after which its record stays allocated for ever. */
  ghost predicate LeakingReturn(noAddr: bool, env: ServerEnv) {
    !noAddr && env.block != NULL && (env.pcb == NULL || env.bind != ErrOk)
  }

  /** A server start, with the secondary-listener fields its caller fills in on success; the leaked set
      grows by the new record exactly on the two leaking returns. */
  lemma StartServerOwned(st: State, noAddr: bool, reports: bool, master: Addr, env: ServerEnv,
                         ip: Ip, tradeoff: bool)
    requires Owned(st) && FreshServer(st, env)
    ensures var o := StartServerImpl(st, noAddr, reports, master, env);
            && o.st.leaked == st.leaked + (if LeakingReturn(noAddr, env) then {env.block} else {})
            && (o.err != ErrOk ==> Owned(o.st) && o.st.order == st.order)
            && (o.err == ErrOk ==>
                  && o.conn in o.st.recs && o.st.order == [o.conn] + st.order && o.conn !in st.recs
                  && var s := o.st.recs[o.conn].(specificRemote := master != NULL, remoteAddr := ip,
                     tradeoff := tradeoff);
                     Owned(WithRec(o.st, o.conn, s)))
  {
    var o := StartServerImpl(st, noAddr, reports, master, env);
    if noAddr || env.block == NULL {
    } else if env.pcb == NULL || env.bind != ErrOk {
      LeakOwned(st, env.block, o.st.recs[env.block]);
      var leak := st.(recs := st.recs[env.block := o.st.recs[env.block]], leaked := st.leaked + {env.block});
      if env.pcb != NULL {
        IdlePcbOwned(leak, env.pcb, FreshTcb);
        UpdateOwned(leak.(pcbs := leak.pcbs[env.pcb := FreshTcb]), o.st);
      }
    } else {
      var st1 := st.(pcbs := st.pcbs[env.pcb := Freed(FreshTcb)]);
      IdlePcbOwned(st, env.pcb, Freed(FreshTcb));
      if env.listen == NULL {
        UpdateOwned(st1, o.st);
      } else {
        var s := o.st.recs[o.conn].(specificRemote := master != NULL, remoteAddr := ip, tradeoff := tradeoff);
        AddOwned(st1, WithRec(o.st, o.conn, s), env.block, env.listen);
      }
    }
  }

  lemma LeakOwned(st: State, a: Addr, s: Session)
    requires Owned(st) && a !in st.recs && a != NULL
    ensures Owned(st.(recs := st.recs[a := s], leaked := st.leaked + {a}))
  {
    var st' := st.(recs := st.recs[a := s], leaked := st.leaked + {a});
    forall x ensures x in st'.recs <==> x in st'.order || x in st'.leaked {
      assert x in st.recs <==> x in st.order || x in st.leaked;
    }
    forall b | b in st'.order ensures ListedOk(st', b) {
      assert ListedOk(st, b);
    }
    forall q | q in st'.pcbs ensures CallbackOk(st', q) {
      assert CallbackOk(st, q);
    }
  }

  // ---------------------------------------------------------------- aborting

  /** Keeping drops the aborted records from the list, in order, and nothing else. */
  lemma {:induction false} KeepProps(recs: map<Addr, Session>, s: seq<Addr>, session: Addr)
    requires NoDup(s)
    ensures NoDup(Keep(recs, s, session))
    ensures forall x :: x in Keep(recs, s, session) <==> x in s && !Targets(recs, x, session)
    ensures (forall x :: x in s ==> !Targets(recs, x, session)) ==> Keep(recs, s, session) == s
  {
    if s == [] {
    } else {
      KeepProps(recs, s[1..], session);
      var k := Keep(recs, s[1..], session);
      assert s == [s[0]] + s[1..];
      assert s[0] !in k;
      forall x ensures x in Keep(recs, s, session) <==> x in s && !Targets(recs, x, session) {
        assert x in s <==> x == s[0] || x in s[1..];
      }
    }
  }

  /** The abort frees a record that a callback or the head pointer still names. */
  ghost predicate FreesUsed(st: State, session: Addr) {
    exists a :: a in st.order && Targets(st.recs, a, session) && (a == st.order[0] || !Orphaned(st, a))
  }

  /** What a callback carries is not an orphan. */
  lemma NotOrphaned(st: State, p: Pid)
    requires Owned(st) && p in st.pcbs && st.pcbs[p].Armed()
    ensures !Orphaned(st, Arg(st, p))
  {
    assert CallbackOk(st, p);
    assert ListedOk(st, Arg(st, p));
  }

  lemma AbortBreaks(st: State, session: Addr)
    requires Owned(st) && FreesUsed(st, session)
    ensures !Owned(AbortSession(st, session))
  {
    hide Keep, NoDup;
    var st' := AbortSession(st, session);
    var a :| a in st.order && Targets(st.recs, a, session) && (a == st.order[0] || !Orphaned(st, a));
    if a != st.order[0] {
      assert ListedOk(st, a);
      var p := if ListenerOk(st, a) then st.recs[a].serverPcb else st.recs[a].connPcb;
      assert p in st'.pcbs && st'.pcbs[p].Armed() && st'.pcbs[p].arg == a && a !in st'.recs;
      assert !CallbackOk(st', p);
    }
  }

  lemma AbortKeeps(st: State, session: Addr)
    requires Owned(st) && !FreesUsed(st, session)
    ensures Owned(AbortSession(st, session))
  {
    hide Keep, NoDup;
    KeepProps(st.recs, st.order, session);
    var st' := AbortSession(st, session);
    forall x ensures x in st'.recs <==> x in st'.order || x in st'.leaked {
      assert x in st.recs <==> x in st.order || x in st.leaked;
    }
    forall a | a in st'.order ensures ListedOk(st', a) { assert ListedOk(st, a); }
    forall p | p in st'.pcbs ensures CallbackOk(st', p) {
      assert CallbackOk(st, p);
      if st.pcbs[p].Armed() { NotOrphaned(st, p); }
    }
  }

  /** An abort frees the listed records that are the session or have it as master, and takes them off the list; it
      touches no block and reports nothing. */
  lemma AbortExactly(st: State, session: Addr)
    ensures var st' := AbortSession(st, session);
            && (forall a :: a in st'.recs <==>
                  a in st.recs && !(a in st.order && (a == session || st.recs[a].master == session)))
            && (forall a :: a in st'.recs ==> st'.recs[a] == st.recs[a])
            && (forall a :: a in st'.order <==>
                  a in st.order && a != session && (a in st.recs ==> st.recs[a].master != session))
            && st'.pcbs == st.pcbs && st'.reports == st.reports && st'.freed == st.freed
            && st'.leaked == st.leaked && st'.vanished == st.vanished
  {
    hide Keep;
    forall a ensures a in Keep(st.recs, st.order, session) <==>
                     a in st.order && a != session && (a in st.recs ==> st.recs[a].master != session)
    {
      KeepHas(st.recs, st.order, session, a);
    }
  }

  lemma {:induction false} KeepHas(recs: map<Addr, Session>, s: seq<Addr>, session: Addr, a: Addr)
    ensures a in Keep(recs, s, session) <==> a in s && !Targets(recs, a, session)
  {
    if s != [] {
      KeepHas(recs, s[1..], session, a);
      assert s == [s[0]] + s[1..];
    }
  }

  /** lwiperf_abort frees records but neither closes nor disarms their control blocks, nor moves the head pointer,
      so ownership survives an abort exactly when all it frees are orphans behind the head. */
  lemma AbortOwned(st: State, session: Addr)
    requires Owned(st)
    ensures Owned(AbortSession(st, session)) <==> !FreesUsed(st, session)
  {
    hide Owned, AbortSession, FreesUsed;
    if FreesUsed(st, session) { AbortBreaks(st, session); } else { AbortKeeps(st, session); }
  }

  // ---------------------------------------------------------------- runs

  /** The event makes the engine abort a session that is in use: directly, or because a dual or tradeoff
      client came up and its secondary listener did not. */
  ghost predicate Aborts(st: State, e: Event) {
    match e
    case EvAbort(session) => FreesUsed(st, session)
    case EvStartClient(kind, ip, port, reports, env, senv) =>
      && kind in {Dual, Tradeoff}
      && env.block != NULL && env.pcb != NULL && env.connect == ErrOk
      && (senv.block == NULL || senv.pcb == NULL || senv.bind != ErrOk || senv.listen == NULL)
    case _ => false
  }

  /** The second half of a dual or tradeoff start: the client at the head is aborted exactly if its listener does
      not come up. */
  lemma OpenSecondaryOwned(o: Outcome, kind: ClientType, ip: Ip, reports: bool, senv: ServerEnv)
    requires Owned(o.st) && FreshServer(o.st, senv) && o.conn != NULL && o.st.order != [] && o.st.order[0] == o.conn
    ensures Owned(OpenSecondary(o, kind, ip, reports, senv).st) <==>
            !(senv.block == NULL || senv.pcb == NULL || senv.bind != ErrOk || senv.listen == NULL)
  {
    hide Owned, AbortSession, ListenRecord;
    StartServerOwned(o.st, false, reports, o.conn, senv, ip, kind == Tradeoff);
    var so := StartServerImpl(o.st, false, reports, o.conn, senv);
    if so.err == ErrOk {
      assert so.conn in so.st.recs && (o.conn != NULL) == true;
    } else {
      AbortOwned(so.st, o.conn);
      assert o.conn in so.st.order && FreesUsed(so.st, o.conn);
    }
  }

  lemma StartClientOwned(st: State, kind: ClientType, ip: Ip, port: u16, reports: bool,
                         env: StartEnv, senv: ServerEnv)
    requires Owned(st) && Enabled(st, EvStartClient(kind, ip, port, reports, env, senv))
    ensures Owned(StartClient(st, kind, ip, port, reports, env, senv).st) <==>
            !Aborts(st, EvStartClient(kind, ip, port, reports, env, senv))
  {
    hide ClientSettings, Owned, OpenSecondary, ConnectionOk;
    if kind != InvalidType {
      TxStartOwned(st, ClientSettings(kind), reports, NULL, ip, port, Started(ClientSettings(kind)), env);
      var o := TxStart(st, ClientSettings(kind), reports, NULL, ip, port, Started(ClientSettings(kind)), env);
      if o.err == ErrOk && kind != UnidirectionalTest {
        OpenSecondaryOwned(o, kind, ip, reports, senv);
      }
    }
  }

  lemma ClientStepOwned(st: State, a: Addr, s: Session, turns: seq<Turn>, how: Closing)
    requires Owned(st) && a in st.recs && a in st.order && ConnectionOk(st, a) && SameRole(st.recs[a], s)
    ensures Owned(SendMore(WithRec(st, a, s), a, turns, how))
  {
    SetRecordOwned(st, a, s);
    SendMoreOwned(WithRec(st, a, s), a, turns, how);
  }

  lemma ConnectedOwned(st: State, p: Pid)
    requires Owned(st) && p in st.pcbs
    ensures Owned(st.(pcbs := st.pcbs[p := st.pcbs[p].(onConnected := false)]))
  {
    UpdateOwned(st, st.(pcbs := st.pcbs[p := st.pcbs[p].(onConnected := false)]));
  }

  lemma PollOwned(st: State, a: Addr, turns: seq<Turn>, how: Closing)
    requires Owned(st) && a in st.recs && a in st.order && ConnectionOk(st, a)
    ensures Owned(PollStep(st, a, turns, how))
  {
    var n := Inc8(st.recs[a].pollCount);
    var st1 := WithRec(st, a, st.recs[a].(pollCount := n));
    SetRecordOwned(st, a, st1.recs[a]);
    if n >= MAX_IDLE {
      CloseOwned(st1, a, AbortedLocal, how);
    } else if !st.recs[a].server {
      SendMoreOwned(st1, a, turns, how);
    }
  }

  /** The stack freed the block first; the record follows it. */
  lemma ErrOwned(st: State, p: Pid)
    requires Owned(st) && p in st.pcbs && st.pcbs[p].onErr
    ensures Owned(Step(st, EvErr(p)))
  {
    hide Taken, NoDup, Without;
    CallbackArgument(st, p);
    var a := Arg(st, p);
    var st' := Step(st, EvErr(p));
    WithoutProps(st.order, a);
    forall x ensures x in st'.recs <==> x in st'.order || x in st'.leaked {
      assert x in st.recs <==> x in st.order || x in st.leaked;
    }
    forall b | b in st'.order ensures ListedOk(st', b) {
      assert ListedOk(st, b);
    }
    forall q | q in st'.pcbs ensures CallbackOk(st', q) {
      assert CallbackOk(st, q);
    }
  }

  lemma VanishedOwned(st: State, p: Pid)
    requires Owned(st) && p in st.pcbs && st.pcbs[p].onSent
    ensures Owned(Step(st, EvVanished(p))) && Orphaned(Step(st, EvVanished(p)), Arg(st, p))
  {
    CallbackArgument(st, p);
    var st' := Step(st, EvVanished(p));
    forall a | a in st'.order ensures ListedOk(st', a) { assert ListedOk(st, a); }
    forall q | q in st'.pcbs ensures CallbackOk(st', q) { assert CallbackOk(st, q); }
  }

  /** Every entry point keeps ownership, except exactly those calls that abort a listed session. */
  lemma StepOwned(st: State, e: Event)
    requires Owned(st) && Enabled(st, e)
    ensures Owned(Step(st, e)) <==> !Aborts(st, e)
  {
    match e
    case EvAccept(l, ok, q, ip, port, block, now) =>
      CallbackArgument(st, l);
      if AcceptErr(st, Arg(st, l), ok, q, ip, block) == ErrOk {
        AdmitOwned(st, l, Arg(st, l), q, ip, port, block, now);
      } else {
        RefusedOwned(st, q, ip, port);
      }
    case EvConnected(p, ok, now, turns, how) =>
      CallbackArgument(st, p);
      var a := Arg(st, p);
      var st1 := st.(pcbs := st.pcbs[p := st.pcbs[p].(onConnected := false)]);
      ConnectedOwned(st, p);
      assert ConnectionOk(st1, a);
      if !ok { CloseOwned(st1, a, AbortedRemote, how); }
      else { ClientStepOwned(st1, a, st.recs[a].(pollCount := 0, timeStarted := now), turns, how); }
    case EvSent(p, turns, how) =>
      CallbackArgument(st, p);
      ClientStepOwned(st, Arg(st, p), st.recs[Arg(st, p)].(pollCount := 0), turns, how);
    case EvRecv(p, pkt, now, how, env) =>
      CallbackArgument(st, p);
      RecvDataOwned(st, Arg(st, p), pkt, now, how, env);
    case EvRecvEnd(p, how, env) =>
      CallbackArgument(st, p);
      RecvEndOwned(st, Arg(st, p), how, env);
    case EvRecvErr(p, how) =>
      CallbackArgument(st, p);
      CloseOwned(st, Arg(st, p), AbortedRemote, how);
    case EvPoll(p, turns, how) =>
      CallbackArgument(st, p);
      PollOwned(st, Arg(st, p), turns, how);
    case EvErr(p) => ErrOwned(st, p);
    case EvVanished(p) => VanishedOwned(st, p);
    case EvStartServer(noAddr, reports, senv) => PlainServerOwned(st, noAddr, reports, senv);
    case EvStartClient(kind, ip, port, reports, env, senv) =>
      StartClientOwned(st, kind, ip, port, reports, env, senv);
    case EvAbort(session) => AbortOwned(st, session);
  }

  lemma PlainServerOwned(st: State, noAddr: bool, reports: bool, env: ServerEnv)
    requires Owned(st) && FreshServer(st, env)
    ensures Owned(StartServerImpl(st, noAddr, reports, NULL, env).st)
  {
    hide Owned, FreshServer;
    var o := StartServerImpl(st, noAddr, reports, NULL, env);
    StartServerOwned(st, noAddr, reports, NULL, env, 0, false);
    if o.err == ErrOk {
      var s := o.st.recs[o.conn];
      assert s.(specificRemote := false, remoteAddr := 0, tradeoff := false) == s;
      assert WithRec(o.st, o.conn, s) == o.st;
    }
  }

  ghost predicate AbortFree(st: State, es: seq<Event>)
    decreases |es|
  {
    es == [] || (!Aborts(st, es[0]) && AbortFree(Step(st, es[0]), es[1..]))
  }

  lemma {:induction false} RunOwned(st: State, es: seq<Event>)
    requires Owned(st) && Runs(st, es) && AbortFree(st, es)
    ensures Owned(Run(st, es))
    decreases |es|
  {
    if es == [] {
    } else {
      StepOwned(st, es[0]);
      RunOwned(Step(st, es[0]), es[1..]);
    }
  }
}
