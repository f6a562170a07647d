/** The engine itself, statement by statement: records in an explicit heap, linked through their `next`
    fields. Every entry point is proved to take exactly the step IperfState gives it and to make exactly the calls that
    Calls gives it, with the answers the TCP stack, malloc and the clock chose returned as ghost results. */
module Iperf {
  import opened Words
  import opened WireSettings
  import opened IperfState
  import opened Ownership
  import opened Receiving
  import opened Sending
  import opened Connecting
  import opened SendLoop
  import opened Calls

  /** lwiperf_state_tcp as a heap block: the base's link and the rest. */
  datatype Node = Node(next: Addr, s: Session)

  /** The element of a list at k, NULL past its end. */
  function At(order: seq<Addr>, k: nat): Addr {
    if k < |order| then order[k] else NULL
  }

  /** Following `next` from head visits exactly the records of order. */
  ghost predicate Linked(mem: map<Addr, Node>, head: Addr, order: seq<Addr>) {
    && NoDup(order) && head == At(order, 0)
    && forall i :: 0 <= i < |order| ==> order[i] in mem && mem[order[i]].next == At(order, i + 1)
  }

  /** The records without their links. */
  function Recs(mem: map<Addr, Node>): map<Addr, Session> {
    map a | a in mem :: mem[a].s
  }

  /** A new link in a node, the record untouched. */
  function Relink(mem: map<Addr, Node>, a: Addr, next: Addr): map<Addr, Node>
    requires a in mem
  {
    mem[a := mem[a].(next := next)]
  }

  lemma RelinkRecs(mem: map<Addr, Node>, a: Addr, next: Addr)
    requires a in mem
    ensures Recs(Relink(mem, a, next)) == Recs(mem) && Relink(mem, a, next).Keys == mem.Keys
  {
  }

  lemma LinkedPush(mem: map<Addr, Node>, head: Addr, order: seq<Addr>, item: Addr)
    requires Linked(mem, head, order) && item in mem && item !in order
    ensures Linked(Relink(mem, item, head), item, [item] + order)
  {
    var order', mem' := [item] + order, Relink(mem, item, head);
    forall i | 0 <= i < |order'| ensures order'[i] in mem' && mem'[order'[i]].next == At(order', i + 1) {
      if i > 0 { assert order'[i] == order[i - 1] && At(order', i + 1) == At(order, i); }
    }
  }

  lemma LinkedAt(mem: map<Addr, Node>, head: Addr, order: seq<Addr>, k: nat)
    requires Linked(mem, head, order) && k < |order|
    ensures order[k] in mem && mem[order[k]].next == At(order, k + 1)
  {
  }

  lemma LinkedProps(mem: map<Addr, Node>, head: Addr, order: seq<Addr>)
    requires Linked(mem, head, order) && NULL !in mem
    ensures NoDup(order) && head == At(order, 0) && NULL !in order
    ensures forall i :: 0 <= i < |order| ==> order[i] in mem
  {
  }

  /** The heap after the k-th record was unlinked: its predecessor, if any, has taken over its link. */
  function Unlinked(mem: map<Addr, Node>, order: seq<Addr>, k: nat): map<Addr, Node>
    requires k < |order| && forall i :: 0 <= i < |order| ==> order[i] in mem
  {
    if k == 0 then mem else Relink(mem, order[k - 1], mem[order[k]].next)
  }

  lemma UnlinkedAt(mem: map<Addr, Node>, head: Addr, order: seq<Addr>, k: nat)
    requires Linked(mem, head, order) && k < |order|
    ensures forall i :: 0 <= i < |order| ==>
              order[i] in Unlinked(mem, order, k) &&
              Unlinked(mem, order, k)[order[i]].next == At(order, if i + 1 == k then k + 1 else i + 1)
  {
    hide NoDup;
    if k > 0 { OnlyAt(order, k - 1); }
  }

  /** Unlinking the k-th record: its predecessor (or the head) takes over its link. */
  lemma LinkedRemove(mem: map<Addr, Node>, head: Addr, order: seq<Addr>, k: nat)
    requires Linked(mem, head, order) && k < |order|
    ensures var next := mem[order[k]].next;
            var mem' := if k == 0 then mem else Relink(mem, order[k - 1], next);
            && Linked(mem', if k == 0 then next else head, order[..k] + order[k + 1..])
            && order[k] in mem'
            && forall i :: k <= i < |order| ==>
                 order[i] in mem' && mem'[order[i]].next == At(order, i + 1)
  {
    hide NoDup, Relink, At;
    var mem' := Unlinked(mem, order, k);
    var order' := order[..k] + order[k + 1..];
    RemovedNoDup(order, k);
    UnlinkedAt(mem, head, order, k);
    RemovedAt(order, k, 0);
    FirstOf(mem, head, order);
    forall i | 0 <= i < |order'| ensures order'[i] in mem' && mem'[order'[i]].next == At(order', i + 1) {
      RemovedAt(order, k, i + 1);
      assert order'[i] == order[if i < k then i else i + 1];
    }
  }

  lemma FirstOf(mem: map<Addr, Node>, head: Addr, order: seq<Addr>)
    requires Linked(mem, head, order) && order != []
    ensures head == At(order, 0) && mem[order[0]].next == At(order, 1)
  {
  }

  lemma OnlyAt(order: seq<Addr>, k: nat)
    requires k < |order| && NoDup(order)
    ensures forall i :: 0 <= i < |order| && i != k ==> order[i] != order[k]
  {
  }

  lemma RemovedNoDup(order: seq<Addr>, k: nat)
    requires k < |order| && NoDup(order)
    ensures NoDup(order[..k] + order[k + 1..])
  {
    var order' := order[..k] + order[k + 1..];
    assert forall i :: 0 <= i < |order'| ==> order'[i] == if i < k then order[i] else order[i + 1];
  }

  lemma RemovedAt(order: seq<Addr>, k: nat, i: nat)
    requires k < |order|
    ensures At(order[..k] + order[k + 1..], i) == At(order, if i < k then i else i + 1)
  {
  }

  lemma {:induction false} WithoutAt(s: seq<Addr>, k: nat)
    requires k < |s| && s[k] !in s[..k]
    ensures Without(s, s[k]) == s[..k] + s[k + 1..]
  {
    if k > 0 {
      assert s[1..][..k - 1] == s[1..k];
      WithoutAt(s[1..], k - 1);
    }
  }

  lemma {:induction false} WithoutAbsent(s: seq<Addr>, a: Addr)
    requires a !in s
    ensures Without(s, a) == s
  {
    if s != [] { WithoutAbsent(s[1..], a); }
  }

  /** A test start: allowed with fresh names, the step and the calls of its two halves, and the handle it gives. */
  lemma ClientEvent(st: State, e: Event)
    requires e.EvStartClient? && FreshStart(st, e.env) && FreshServer(st, e.senv)
    requires e.senv.block == NULL || e.env.block != e.senv.block
    requires e.env.pcb == NULL || (e.env.pcb != e.senv.pcb && e.env.pcb != e.senv.listen)
    ensures Enabled(st, e) && Step(st, e) ==
            IperfState.StartClient(st, e.kind, e.ip, e.port, e.reports, e.env, e.senv).st
    ensures EventCalls(st, e) == ClientCalls(e.kind, e.ip, e.port, e.env, e.senv)
    ensures var o := IperfState.StartClient(st, e.kind, e.ip, e.port, e.reports, e.env, e.senv);
            o.conn != NULL ==>
              o.conn in o.st.order && o.conn in o.st.recs && !o.st.recs[o.conn].server &&
              o.st.recs[o.conn].connPcb == e.env.pcb
  {
    hide ClientSettings, TxStart, IperfState.OpenSecondary;
    ClientHandle(st, e);
  }

  lemma StartedClient(st: State, settings: Settings, reports: bool, ip: Ip, port: u16, env: StartEnv)
    requires TxStart(st, settings, reports, NULL, ip, port, Started(settings), env).err == ErrOk
    ensures var o := TxStart(st, settings, reports, NULL, ip, port, Started(settings), env);
            && o.conn in o.st.recs && env.pcb != NULL && env.pcb in o.st.pcbs && o.st.recs[o.conn].connPcb == env.pcb
            && o.st.pcbs[env.pcb].remoteIp == ip && o.conn == env.block && st.recs.Keys <= o.st.recs.Keys
            && st.pcbs.Keys <= o.st.pcbs.Keys && !o.st.headFreed == !st.headFreed
  {
  }

  // ---------------------------------------------------------------- a server start, in pieces

  lemma NoServer(st: State, reports: bool, master: Addr, env: ServerEnv)
    ensures IperfState.StartServerImpl(st, true, reports, master, env) == Outcome(st, ErrArg, NULL)
    ensures env.block == NULL ==>
              IperfState.StartServerImpl(st, false, reports, master, env) == Outcome(st, ErrMem, NULL)
  {
  }

  lemma ServerLeaks(st: State, reports: bool, master: Addr, env: ServerEnv, st': State)
    requires env.block != NULL && (env.pcb == NULL || env.bind != ErrOk)
    requires st' == st.(recs := st.recs[env.block := ListenRecord(reports, master, env).(serverPcb := NULL)],
                        leaked := st.leaked + {env.block},
                        pcbs := if env.pcb == NULL then st.pcbs else st.pcbs[env.pcb := FreshTcb])
    ensures IperfState.StartServerImpl(st, false, reports, master, env) ==
            Outcome(st', if env.pcb == NULL then ErrMem else env.bind, NULL)
  {
  }

  lemma ServerFails(st: State, reports: bool, master: Addr, env: ServerEnv, s: Session, st': State)
    requires FreshServer(st, env) && env.block != NULL && env.pcb != NULL && env.bind == ErrOk && env.listen == NULL
    requires st'.recs == st.recs[env.block := s] - {env.block}
    requires st'.pcbs == st.pcbs[env.pcb := FreshTcb][env.pcb := Freed(FreshTcb)]
    requires st' == st.(recs := st'.recs, pcbs := st'.pcbs)
    ensures IperfState.StartServerImpl(st, false, reports, master, env) == Outcome(st', ErrMem, NULL)
  {
    assert st'.recs == st.recs;
    assert st'.pcbs == st.pcbs[env.pcb := Freed(FreshTcb)];
  }

  lemma ServerUp(st: State, reports: bool, master: Addr, env: ServerEnv, st': State)
    requires FreshServer(st, env) && env.block != NULL && env.pcb != NULL && env.bind == ErrOk && env.listen != NULL
    requires var s := ListenRecord(reports, master, env);
             st'.recs == st.recs[env.block := s.(serverPcb := NULL)][env.block := s]
    requires st'.pcbs == st.pcbs[env.pcb := FreshTcb][env.pcb := Freed(FreshTcb)][env.listen := FreshTcb][
                           env.listen := FreshTcb.(arg := env.block, onAccept := true)]
    requires st' == st.(recs := st'.recs, pcbs := st'.pcbs, order := [env.block] + st.order)
    ensures IperfState.StartServerImpl(st, false, reports, master, env) == Outcome(st', ErrOk, env.block)
  {
    assert st'.recs == st.recs[env.block := ListenRecord(reports, master, env)];
    assert st'.pcbs == st.pcbs[env.pcb := Freed(FreshTcb)][env.listen := FreshTcb.(arg := env.block, onAccept := true)];
  }

  /** The calls of a server start after malloc, return by return. */
  lemma ServerLogged(calls: seq<Call>, env: ServerEnv)
    ensures var all, got := calls + ListenCalls(env), calls + [NewPcb(env.pcb)];
            if env.pcb == NULL then got == all
            else if env.bind != ErrOk then got + [Bind(env.pcb, env.bind)] == all
            else if env.listen != NULL then got + [Bind(env.pcb, ErrOk)] + [Listen(env.pcb, env.listen)] == all
            else got + [Bind(env.pcb, ErrOk)] + [Listen(env.pcb, NULL)] + [ClosePcb(env.pcb, Gone)] == all
  {
  }

  // ---------------------------------------------------------------- accepting, in pieces

  function AcceptRecord(p: Pid, master: Addr, now: u32, report: bool): Session {
    ZeroSession.(server := true, master := master, connPcb := p, timeStarted := now, reports := report)
  }

  /** A block the stack made for an incoming connection; it inherits the listener's argument. */
  function NewConnection(arg: Addr, ip: Ip, port: u16, l: Pid): Tcb {
    Tcb(arg, false, false, false, false, false, false, false, ip, port, [], 0, Accepted(l))
  }

  /** Admit up to the wiring of the new record, and up to the closing of the listener. */
  function AdmitOpen(st: State, l: Pid, a: Addr, q: Pid, ip: Ip, port: u16, block: Addr, now: u32): State
    requires a in st.recs
  {
    var s := st.recs[a];
    st.(recs := st.recs[block := AcceptRecord(q, if s.specificRemote then s.master else a, now, s.reports)],
        pcbs := st.pcbs[q := Tcb(block, false, false, false, true, true, true, false, ip, port, [], 0, Accepted(l))])
  }

  function AdmitClose(st: State, l: Pid, a: Addr, q: Pid, ip: Ip, port: u16, block: Addr, now: u32): State
    requires a in st.recs
  {
    var st1 := AdmitOpen(st, l, a, q, ip, port, block, now);
    if ListenerDone(st, st.recs[a]) then Close(WithRec(st1, a, st1.recs[a].(reports := false)), a, AbortedLocal, Gone)
    else st1
  }

  lemma AdmitCloseBlock(st: State, l: Pid, a: Addr, q: Pid, ip: Ip, port: u16, block: Addr, now: u32)
    requires a in st.recs && block !in st.recs && block !in st.order && NoDup(st.order)
    ensures var st' := AdmitClose(st, l, a, q, ip, port, block, now);
            block in st'.recs && block !in st'.order && st'.headFreed == st.headFreed
  {
    WithoutProps(st.order, a);
  }

  lemma AdmitOpened(st: State, l: Pid, a: Addr, q: Pid, ip: Ip, port: u16, block: Addr, now: u32, st1: State)
    requires a in st.recs && block !in st.recs && q in st.pcbs && st.pcbs[q] == NewConnection(a, ip, port, l)
    requires var s := st.recs[a];
             st1 == st.(recs := st.recs[block := AcceptRecord(q, if s.specificRemote then s.master else a, now,
                                                              s.reports)],
                        pcbs := st.pcbs[q := st.pcbs[q].(arg := block, onRecv := true, onPoll := true, onErr := true)])
    ensures st1 == AdmitOpen(st, l, a, q, ip, port, block, now) && a in st1.recs && st1.recs[a] == st.recs[a]
    ensures block in st1.recs && st1.order == st.order && !st1.headFreed == !st.headFreed
  {
  }

  lemma AdmitDone(st: State, l: Pid, a: Addr, q: Pid, ip: Ip, port: u16, block: Addr, now: u32, st1: State)
    requires a in st.recs && block !in st.recs && st1 == AdmitOpen(st, l, a, q, ip, port, block, now)
    ensures a in st1.recs
    ensures var s := st.recs[a];
            AdmitClose(st, l, a, q, ip, port, block, now) ==
            if s.specificRemote && (!s.tradeoff || s.master !in st.order) then
              Close(WithRec(st1, a, s.(reports := false)), a, AbortedLocal, Gone)
            else st1
  {
    hide Close;
  }

  lemma AdmitListed(st: State, l: Pid, a: Addr, q: Pid, ip: Ip, port: u16, block: Addr, now: u32)
    requires a in st.recs && block !in st.recs
    ensures var st' := AdmitClose(st, l, a, q, ip, port, block, now);
            Admit(st, l, a, q, ip, port, block, now) == st'.(order := [block] + st'.order)
  {
    hide Close;
  }

  lemma ListenerStillOk(st: State, a: Addr, q: Pid, t: Tcb)
    requires Owned(st) && a in st.recs && ListenerOk(st, a) && q !in st.pcbs
    ensures ListenerOk(st.(pcbs := st.pcbs[q := t]), a) && q != st.recs[a].serverPcb
  {
  }

  /** The block the stack made is overwritten by the accept. */
  lemma AdmitOver(st: State, l: Pid, a: Addr, q: Pid, ip: Ip, port: u16, block: Addr, now: u32, t: Tcb)
    requires a in st.recs && st.recs[a].connPcb == NULL && st.recs[a].serverPcb in st.pcbs
    requires q !in st.pcbs && block !in st.recs
    ensures var st1 := st.(pcbs := st.pcbs[q := t]);
            Admit(st1, l, a, q, ip, port, block, now) == Admit(st, l, a, q, ip, port, block, now)
  {
    assert st.pcbs[q := t].Keys == st.pcbs.Keys + {q};
  }

  lemma AcceptStep(st: State, l: Pid, ok: bool, q: Pid, ip: Ip, port: u16, block: Addr, now: u32)
    requires l in st.pcbs && st.pcbs[l].onAccept && FreshPcb(st, q) && FreshBlock(st, block)
    requires st.pcbs[l].arg in st.recs && st.pcbs[l].arg != NULL
    ensures var ev, a := EvAccept(l, ok, q, ip, port, block, now), st.pcbs[l].arg;
            var s := st.recs[a];
            && Enabled(st, ev)
            && EventCalls(st, ev) == AcceptCalls(s, st.order, ok, q, ip, block, now)
            && (if ok && q != NULL && !(s.specificRemote && ip != s.remoteAddr) && block != NULL then
                  Step(st, ev) == Admit(st, l, a, q, ip, port, block, now)
                else Step(st, ev) == Refused(st, q, ip, port))
  {
    hide Admit, Refused, AcceptCalls;
  }

  lemma RefusedIs(st: State, q: Pid, ip: Ip, port: u16, t: Tcb)
    ensures q == NULL ==> Refused(st, q, ip, port) == st
    ensures q != NULL ==>
              var st1 := st.(pcbs := st.pcbs[q := t]);
              Refused(st, q, ip, port) == st1.(pcbs := st1.pcbs[q := DroppedTcb(ip, port)])
  {
    assert st.pcbs[q := t][q := DroppedTcb(ip, port)] == st.pcbs[q := DroppedTcb(ip, port)];
  }

  lemma CloseListenerHow(st': State, st: State, a: Addr, how: Closing)
    requires a in st.recs && st.recs[a].connPcb == NULL && st' == Close(st, a, AbortedLocal, how)
    ensures st' == Close(st, a, AbortedLocal, Gone)
  {
  }

  lemma PassiveStays(st: State, a: Addr, env: StartEnv)
    requires Owned(st) && a in st.order && a in st.recs && ConnectionOk(st, a) && FreshStart(st, env)
    ensures var o, p := TxStartPassive(st, a, env), st.recs[a].connPcb;
            a in o.st.recs && o.st.recs[a] == st.recs[a] && p in o.st.pcbs && o.st.pcbs[p] == st.pcbs[p] &&
                !o.st.headFreed
  {
    TxStartPassiveOwned(st, a, env);
  }

  /** Removing a 24-byte header from the first buffer shortens the chain by 24. */
  lemma StrippedChain(chain: seq<seq<u8>>)
    requires chain != [] && |chain[0]| >= HEADER
    ensures |Flat([chain[0][HEADER..]] + chain[1..])| == |Flat(chain)| - HEADER
  {
    assert ([chain[0][HEADER..]] + chain[1..])[1..] == chain[1..];
  }

  // ---------------------------------------------------------------- fresh blocks

  lemma NotInRecs(mem: map<Addr, Node>, a: Addr)
    requires a !in mem
    ensures a !in Recs(mem)
  {
  }

  lemma NotListed(mem: map<Addr, Node>, order: seq<Addr>, a: Addr)
    requires a !in mem
    ensures forall h :: Linked(mem, h, order) ==> a !in order
  {
  }

  lemma StartedRecord(st: State, settings: Settings, reports: bool, master: Addr, ip: Ip, port: u16, why: Origin,
                      env: StartEnv)
    requires TxStart(st, settings, reports, master, ip, port, why, env).err == ErrOk
    ensures var o := TxStart(st, settings, reports, master, ip, port, why, env); o.conn in o.st.recs
  {
  }

  /** The stack took data on p: it joins the stream and uses up send buffer. */
  ghost predicate TookData(pcbs: map<Pid, Tcb>, room: map<Pid, nat>, pcbs': map<Pid, Tcb>, room': map<Pid, nat>,
                           p: Pid, data: seq<u8>) {
    && p in pcbs && p in room && |data| <= room[p] && room' == room[p := room[p] - |data|]
    && pcbs' == pcbs[p := pcbs[p].(written := pcbs[p].written + data)]
  }

  // ---------------------------------------------------------------- rounds of the send loop

  /** The limit test of the loop. */
  predicate HasReached(s: Session, now: u32)
    ensures HasReached(s, now) <==> LimitReached(s, now)
  {
    if TimeLimited(s.settings) then
      var diffMs := Sub32(now, s.timeStarted);
      var time := Sub32(0, Amount(s.settings));
      diffMs >= Low32(time * 10)
    else s.bytes >= Amount(s.settings)
  }

  /** After a round below the limit, the record and its block are still the same ones. */
  lemma RoundBack(st: State, a: Addr, t: Turn, st': State)
    requires a in st.recs && st.recs[a].connPcb in st.pcbs && !LimitReached(st.recs[a], t.now)
    requires st' == SendMore(st, a, [t], Gone)
    ensures var p := st.recs[a].connPcb;
            && a in st'.recs && st'.recs[a] == st.recs[a].(bytes := st'.recs[a].bytes)
            && p in st'.pcbs && st'.pcbs[p] == st.pcbs[p].(written := st'.pcbs[p].written)
  {
    hide LimitReached, Offer;
    assert [t][1..] == [];
  }

  lemma RecsHas(mem: map<Addr, Node>, a: Addr)
    requires a in Recs(mem)
    ensures a in mem && Recs(mem)[a] == mem[a].s
  {
  }

  lemma TakenIs(s: Session, mss: Mss, t: Turn, buf: seq<u8>, off: nat, max: nat)
    requires off + max <= |buf| && buf[off..off + max] == Offer(s, mss) && t.err == ErrOk
    ensures Taken(s, mss, t) == buf[off..off + Halve(max, t.halvings)]
    ensures |Taken(s, mss, t)| == Halve(max, t.halvings)
  {
  }

  lemma WroteIs(st: State, a: Addr, data: seq<u8>, st': State)
    requires a in st.recs && st.recs[a].connPcb in st.pcbs
    requires var s, p := st.recs[a], st.recs[a].connPcb;
             st' == st.(recs := st.recs[a := s.(bytes := Add32(s.bytes, |data|))],
                        pcbs := st.pcbs[p := st.pcbs[p].(written := st.pcbs[p].written + data)])
    ensures st' == Wrote(st, a, data)
  {
  }

  lemma GoingNothing(st: State, a: Addr)
    requires a in st.recs && st.recs[a].connPcb in st.pcbs
    ensures Going(st.recs[a], st.mss, []) && SendMore(st, a, [], Gone) == st &&
            SendCalls(st.recs[a], st.mss, [], Gone) == []
  {
  }

  lemma WriteRound(st: State, a: Addr, t: Turn)
    requires a in st.recs && st.recs[a].connPcb in st.pcbs && !LimitReached(st.recs[a], t.now)
    requires var max := |Offer(st.recs[a], st.mss)|;
             && (forall j :: 1 <= j <= t.halvings ==> Halve(max, j) >= st.mss / 2)
             && (t.err == ErrMem ==> Halve(max, t.halvings + 1) < st.mss / 2)
    ensures var s := st.recs[a];
            && SendMore(st, a, [t], Gone) == Wrote(st, a, Taken(s, st.mss, t))
            && (t.err == ErrOk && s.bytes >= HEADER ==> Going(s, st.mss, [t]))
            && (!(t.err == ErrOk && s.bytes >= HEADER) ==> Rounds(s, st.mss, [t]))
            && (t.err != ErrOk ==> Taken(s, st.mss, t) == [])
  {
    hide LimitReached, Offer, Halve, Wrote;
    assert [t][1..] == [];
  }

  // ---------------------------------------------------------------- nodes and records

  lemma RecsAt(mem: map<Addr, Node>, a: Addr)
    requires a in mem
    ensures a in Recs(mem) && Recs(mem)[a] == mem[a].s
  {
  }

  lemma SetNode(mem: map<Addr, Node>, head: Addr, order: seq<Addr>, a: Addr, s: Session)
    requires a in mem
    ensures Recs(mem[a := mem[a].(s := s)]) == Recs(mem)[a := s]
    ensures Linked(mem, head, order) ==> Linked(mem[a := mem[a].(s := s)], head, order)
  {
  }

  lemma NewNode(mem: map<Addr, Node>, head: Addr, order: seq<Addr>, a: Addr, s: Session)
    requires a !in mem
    ensures Recs(mem[a := Node(NULL, s)]) == Recs(mem)[a := s]
    ensures Linked(mem, head, order) ==> Linked(mem[a := Node(NULL, s)], head, order) && a !in order
  {
  }

  lemma FreeNode(mem: map<Addr, Node>, head: Addr, order: seq<Addr>, a: Addr)
    requires a in mem && a !in order
    ensures Recs(mem - {a}) == Recs(mem) - {a}
    ensures Linked(mem, head, order) ==> Linked(mem - {a}, head, order)
  {
  }

  /** What a close reports and does to the blocks does not depend on the list or on earlier reports. */
  lemma SameClose(st: State, st1: State, a: Addr, kind: Kind)
    requires a in st.recs && st1.recs == st.recs && st1.pcbs == st.pcbs
    ensures st1.reports == st.reports ==> Reported(st1, a, kind) == Reported(st, a, kind)
    ensures forall how :: PcbsAfterClose(st1, st.recs[a], how) == PcbsAfterClose(st, st.recs[a], how)
  {
  }

  lemma Unlisted(s: seq<Addr>, a: Addr)
    requires NoDup(s)
    ensures a !in Without(s, a)
  {
    WithoutProps(s, a);
  }

  // ---------------------------------------------------------------- the abort loop

  /** What follows the j-th record of a list that goes on with tail. */
  function Successor(s: seq<Addr>, j: nat, tail: Addr): Addr {
    if j + 1 < |s| then s[j + 1] else tail
  }

  /** m is the heap after the first k records of the list were looked at: `gone` freed, `kept`
      relinked and followed by tail. */
  ghost predicate Swept(m0: map<Addr, Node>, m: map<Addr, Node>, was: seq<Addr>, k: nat, kept: seq<Addr>,
                        gone: set<Addr>, tail: Addr) {
    && k <= |was| && m.Keys == m0.Keys - gone && NoDup(kept) && NULL !in kept
    && (forall x :: x in m ==> m[x].s == m0[x].s && (x !in kept ==> m[x] == m0[x]))
    && (forall j :: k <= j < |was| ==> was[j] !in kept && was[j] !in gone)
    && Chained(m, kept, tail)
  }

  /** The records of kept are linked in order and the last one goes on with tail. */
  ghost predicate Chained(m: map<Addr, Node>, kept: seq<Addr>, tail: Addr) {
    forall j :: 0 <= j < |kept| ==> kept[j] in m && m[kept[j]].next == Successor(kept, j, tail)
  }

  ghost predicate Sorted(recs: map<Addr, Session>, was: seq<Addr>, k: nat, kept: seq<Addr>, gone: set<Addr>,
                         session: Addr) {
    && k <= |was| && kept == Keep(recs, was[..k], session)
    && gone == set a | a in was[..k] && Targets(recs, a, session)
  }

  lemma SweepStart(m: map<Addr, Node>, head: Addr, was: seq<Addr>, session: Addr)
    requires Linked(m, head, was) && NULL !in m
    ensures Swept(m, m, was, 0, [], {}, At(was, 0)) && Sorted(Recs(m), was, 0, [], {}, session)
    ensures head == At(was, 0) && NULL !in was
  {
    assert was[..0] == [];
  }

  lemma TargetAt(m0: map<Addr, Node>, a: Addr, session: Addr)
    requires a in m0
    ensures Targets(Recs(m0), a, session) <==> a == session || m0[a].s.master == session
  {
  }

  lemma SortedSnoc(recs: map<Addr, Session>, was: seq<Addr>, k: nat, kept: seq<Addr>, gone: set<Addr>, session: Addr)
    requires Sorted(recs, was, k, kept, gone, session) && k < |was|
    ensures Targets(recs, was[k], session) ==> Sorted(recs, was, k + 1, kept, gone + {was[k]}, session)
    ensures !Targets(recs, was[k], session) ==> Sorted(recs, was, k + 1, kept + [was[k]], gone, session)
  {
    hide Targets, Keep;
    KeepSnoc(recs, was, k, session);
    assert was[..k + 1] == was[..k] + [was[k]];
  }

  /** The record the loop looks at is still there, as it was. */
  lemma SweepAhead(m0: map<Addr, Node>, m: map<Addr, Node>, head: Addr, was: seq<Addr>, k: nat, kept: seq<Addr>,
                   gone: set<Addr>)
    requires Swept(m0, m, was, k, kept, gone, At(was, k)) && Linked(m0, head, was) && k < |was|
    ensures was[k] in m && was[k] in m0 && m[was[k]] == m0[was[k]] && m[was[k]].next == At(was, k + 1)
    ensures kept != [] ==> kept[|kept| - 1] in m && kept[|kept| - 1] != NULL
  {
  }

  lemma SweepKeep(m0: map<Addr, Node>, m: map<Addr, Node>, head: Addr, was: seq<Addr>, k: nat, kept: seq<Addr>,
                  gone: set<Addr>)
    requires Swept(m0, m, was, k, kept, gone, At(was, k)) && Linked(m0, head, was) && k < |was| && NULL !in m0
    ensures Swept(m0, m, was, k + 1, kept + [was[k]], gone, At(was, k + 1))
  {
    SweepAhead(m0, m, head, was, k, kept, gone);
    var kept' := kept + [was[k]];
    forall j | 0 <= j < |kept'|
      ensures kept'[j] in m && m[kept'[j]].next == Successor(kept', j, At(was, k + 1))
    {
      if j < |kept| {
        assert kept'[j] == kept[j] && Successor(kept', j, At(was, k + 1)) == Successor(kept, j, At(was, k));
      }
    }
  }

  lemma SweepRelink(m0: map<Addr, Node>, m: map<Addr, Node>, was: seq<Addr>, k: nat, kept: seq<Addr>,
                    gone: set<Addr>, tail: Addr, tail': Addr)
    requires Swept(m0, m, was, k, kept, gone, tail) && kept != []
    ensures kept[|kept| - 1] in m
    ensures Swept(m0, Relink(m, kept[|kept| - 1], tail'), was, k, kept, gone, tail')
  {
    RelinkChained(m, kept, tail, tail');
    hide Chained;
  }

  lemma RelinkChained(m: map<Addr, Node>, kept: seq<Addr>, tail: Addr, tail': Addr)
    requires Chained(m, kept, tail) && kept != [] && NoDup(kept)
    ensures kept[|kept| - 1] in m && Chained(Relink(m, kept[|kept| - 1], tail'), kept, tail')
  {
    var last := |kept| - 1;
    assert kept[last] in m;
    forall j | 0 <= j < last ensures kept[j] in m && kept[j] != kept[last] && m[kept[j]].next == kept[j + 1] {
      assert m[kept[j]].next == Successor(kept, j, tail);
    }
  }

  lemma SweepFree(m0: map<Addr, Node>, m: map<Addr, Node>, was: seq<Addr>, k: nat, kept: seq<Addr>, gone: set<Addr>,
                  tail: Addr)
    requires Swept(m0, m, was, k, kept, gone, tail) && NoDup(was) && k < |was|
    ensures Swept(m0, m - {was[k]}, was, k + 1, kept, gone + {was[k]}, tail)
  {
  }

  lemma SweepDrop(m0: map<Addr, Node>, m: map<Addr, Node>, head: Addr, was: seq<Addr>, k: nat, kept: seq<Addr>,
                  gone: set<Addr>)
    requires Swept(m0, m, was, k, kept, gone, At(was, k)) && Linked(m0, head, was) && k < |was|
    ensures kept != [] ==> kept[|kept| - 1] in m
    ensures var m1 := if kept == [] then m else Relink(m, kept[|kept| - 1], At(was, k + 1));
            Swept(m0, m1 - {was[k]}, was, k + 1, kept, gone + {was[k]}, At(was, k + 1))
  {
    if kept == [] {
      assert Swept(m0, m, was, k, kept, gone, At(was, k + 1));
      SweepFree(m0, m, was, k, kept, gone, At(was, k + 1));
    } else {
      SweepRelink(m0, m, was, k, kept, gone, At(was, k), At(was, k + 1));
      SweepFree(m0, Relink(m, kept[|kept| - 1], At(was, k + 1)), was, k, kept, gone, At(was, k + 1));
    }
  }

  lemma SweepDone(m0: map<Addr, Node>, m: map<Addr, Node>, head: Addr, was: seq<Addr>, kept: seq<Addr>,
                  gone: set<Addr>, session: Addr)
    requires Swept(m0, m, was, |was|, kept, gone, NULL) && Sorted(Recs(m0), was, |was|, kept, gone, session) &&
             Linked(m0, head, was)
    ensures kept == Keep(Recs(m0), was, session)
    ensures Recs(m) == Recs(m0) - (set a | a in was && Targets(Recs(m0), a, session))
    ensures NULL !in m0 ==> NULL !in m
    ensures was == [] || !Targets(Recs(m0), was[0], session) ==> Linked(m, head, kept)
  {
    assert was[..|was|] == was;
    RecsMinus(m0, m, gone);
    hide Targets, Keep, Recs, Swept, Linked;
    SweptNull(m0, m, was, kept, gone);
    LinkedHead(m0, head, was);
    if was != [] && !Targets(Recs(m0), was[0], session) {
      HeadKept(Recs(m0), was, session);
      SweptLinked(m0, m, was, kept, gone);
    }
  }

  lemma SweptLinked(m0: map<Addr, Node>, m: map<Addr, Node>, was: seq<Addr>, kept: seq<Addr>, gone: set<Addr>)
    requires Swept(m0, m, was, |was|, kept, gone, NULL) && kept != []
    ensures Linked(m, kept[0], kept)
  {
    forall i | 0 <= i < |kept| ensures kept[i] in m && m[kept[i]].next == At(kept, i + 1) {
      assert Successor(kept, i, NULL) == At(kept, i + 1);
    }
  }

  lemma SweptNull(m0: map<Addr, Node>, m: map<Addr, Node>, was: seq<Addr>, kept: seq<Addr>, gone: set<Addr>)
    requires Swept(m0, m, was, |was|, kept, gone, NULL)
    ensures NULL !in m0 ==> NULL !in m
    ensures was == [] && kept == [] ==> Linked(m, NULL, kept)
  {
  }

  lemma LinkedHead(mem: map<Addr, Node>, head: Addr, order: seq<Addr>)
    requires Linked(mem, head, order)
    ensures head == if order == [] then NULL else order[0]
  {
  }

  lemma RecsMinus(m0: map<Addr, Node>, m: map<Addr, Node>, gone: set<Addr>)
    requires m.Keys == m0.Keys - gone && forall x :: x in m ==> m[x].s == m0[x].s
    ensures Recs(m) == Recs(m0) - gone
  {
  }

  lemma HeadKept(recs: map<Addr, Session>, was: seq<Addr>, session: Addr)
    requires was != [] && !Targets(recs, was[0], session)
    ensures Keep(recs, was, session) != [] && Keep(recs, was, session)[0] == was[0]
  {
  }

  lemma {:induction false} KeepSnoc(recs: map<Addr, Session>, s: seq<Addr>, k: nat, session: Addr)
    requires k < |s|
    ensures Keep(recs, s[..k + 1], session) ==
            Keep(recs, s[..k], session) + (if Targets(recs, s[k], session) then [] else [s[k]])
  {
    if k > 0 {
      assert s[..k + 1][1..] == s[1..][..k] && s[..k][1..] == s[1..][..k - 1];
      KeepSnoc(recs, s[1..], k - 1, session);
    }
  }

  // ---------------------------------------------------------------- callbacks, one by one

  lemma SentEvent(st: State, p: Pid, turns: seq<Turn>, how: Closing)
    requires Reaches(st, p) && st.pcbs[p].onSent
    ensures var s, ev := st.recs[Arg(st, p)].(pollCount := 0), EvSent(p, turns, how);
            && (Rounds(s, st.mss, turns) ==> Enabled(st, ev))
            && Step(st, ev) == SendMore(WithRec(st, Arg(st, p), s), Arg(st, p), turns, how)
            && EventCalls(st, ev) == SendCalls(s, st.mss, turns, how)
  {
    hide Rounds, SendMore, SendCalls;
  }

  lemma ConnectedEvent(st: State, p: Pid, now: u32, turns: seq<Turn>, how: Closing)
    requires Reaches(st, p) && st.pcbs[p].onConnected
    ensures var s, ev := st.recs[Arg(st, p)].(pollCount := 0, timeStarted := now), EvConnected(p, true, now, turns,
            how);
            && (Rounds(s, st.mss, turns) ==> Enabled(st, ev))
            && Step(st, ev) == SendMore(WithRec(NoLongerConnecting(st, p), Arg(st, p), s), Arg(st, p), turns, how)
            && EventCalls(st, ev) == [Clock(now)] + SendCalls(s, st.mss, turns, how)
  {
    hide Rounds, SendMore, SendCalls;
  }

  /** The stack has left the connecting state. */
  function NoLongerConnecting(st: State, p: Pid): State
    requires p in st.pcbs
  {
    st.(pcbs := st.pcbs[p := st.pcbs[p].(onConnected := false)])
  }

  lemma ConnectFailedEvent(st: State, p: Pid, how: Closing)
    requires Reaches(st, p) && st.pcbs[p].onConnected
    ensures var ev := EvConnected(p, false, 0, [], how);
            && Enabled(st, ev)
            && Step(st, ev) == Close(NoLongerConnecting(st, p), Arg(st, p), AbortedRemote, how)
            && EventCalls(st, ev) == CloseCalls(st.recs[Arg(st, p)], how)
  {
    hide Rounds, Close, CloseCalls;
  }

  lemma PollEvent(st: State, p: Pid, turns: seq<Turn>, how: Closing)
    requires Reaches(st, p) && st.pcbs[p].onPoll
    ensures var a := Arg(st, p);
            var s, ev := st.recs[a].(pollCount := Inc8(st.recs[a].pollCount)), EvPoll(p, turns, how);
            && (s.pollCount >= MAX_IDLE || s.server || Rounds(s, st.mss, turns) ==> Enabled(st, ev))
            && Step(st, ev) ==
               (if s.pollCount >= MAX_IDLE then Close(WithRec(st, a, s), a, AbortedLocal, how)
                else if s.server then WithRec(st, a, s)
                else SendMore(WithRec(st, a, s), a, turns, how))
            && EventCalls(st, ev) == PollCalls(s, st.mss, turns, how)
  {
    hide Rounds, SendMore, Close, PollCalls;
  }

  lemma ErrEvent(st: State, p: Pid)
    requires Reaches(st, p) && st.pcbs[p].onErr
    ensures var a, st1 := Arg(st, p), st.(pcbs := st.pcbs[p := Freed(st.pcbs[p])]);
            && Enabled(st, EvErr(p)) && EventCalls(st, EvErr(p)) == []
            && Step(st, EvErr(p)) ==
               Close(WithRec(st1, a, st.recs[a].(connPcb := NULL, serverPcb := NULL)), a, AbortedRemote, Gone)
  {
    hide Close;
  }

  /** Closing a record that names no block does not depend on the stack. */
  lemma NoBlock(st: State, a: Addr, s: Session, how: Closing)
    requires s.connPcb == NULL && s.serverPcb == NULL && NULL !in st.pcbs
    ensures Close(WithRec(st, a, s), a, AbortedRemote, how) == Close(WithRec(st, a, s), a, AbortedRemote, Gone)
    ensures CloseCalls(s, how) == []
  {
  }

  lemma PacketEvent(st: State, p: Pid, pkt: Pbuf, now: u32, how: Closing, env: StartEnv)
    requires Reaches(st, p) && st.pcbs[p].onRecv && IsPacket(pkt) && FreshStart(st, env)
    ensures var ev := EvRecv(p, pkt, now, how, env);
            && Enabled(st, ev) && Step(st, ev) == RecvData(st, Arg(st, p), pkt, now, how, env)
            && EventCalls(st, ev) ==
               PacketCalls(st.recs[Arg(st, p)].(pollCount := 0), st.pcbs[p].remoteIp, pkt, now, how, env)
  {
    hide RecvData, PacketCalls, IsPacket;
  }

  lemma EndEvent(st: State, p: Pid, how: Closing, env: StartEnv)
    requires Reaches(st, p) && st.pcbs[p].onRecv && FreshStart(st, env)
    ensures var ev := EvRecvEnd(p, how, env);
            && Enabled(st, ev) && Step(st, ev) == RecvEnd(st, Arg(st, p), how, env)
            && EventCalls(st, ev) == EndCalls(st.recs[Arg(st, p)], st.pcbs[p].remoteIp, how, env)
  {
    hide RecvEnd, EndCalls;
  }

  lemma RecvErrEvent(st: State, p: Pid, how: Closing)
    requires Reaches(st, p) && st.pcbs[p].onRecv
    ensures var ev := EvRecvErr(p, how);
            && Enabled(st, ev) && Step(st, ev) == Close(st, Arg(st, p), AbortedRemote, how)
            && EventCalls(st, ev) == CloseCalls(st.recs[Arg(st, p)], how)
  {
    hide Close, CloseCalls;
  }

  // ---------------------------------------------------------------- a client start, in pieces

  /** The new record and block, wired to each other and connecting. */
  ghost predicate Opened(st: State, settings: Settings, reports: bool, master: Addr, ip: Ip, port: u16, why: Origin,
                         env: StartEnv, st1: State)
  {
    && env.block != NULL && env.pcb != NULL
    && st1 == st.(recs := st.recs[env.block := ClientRecord(settings, reports, master, env.pcb, env.now)],
                  pcbs := st.pcbs[env.pcb := ClientTcb(env.block, ip, port, why, env.connect == ErrOk)])
  }

  lemma StartUp(st: State, settings: Settings, reports: bool, master: Addr, ip: Ip, port: u16, why: Origin,
                env: StartEnv, st1: State)
    requires Opened(st, settings, reports, master, ip, port, why, env, st1)
    ensures env.block in st1.recs
    ensures TxStart(st, settings, reports, master, ip, port, why, env) ==
            if env.connect == ErrOk then Outcome(st1.(order := [env.block] + st1.order), ErrOk, env.block)
            else Outcome(Close(st1, env.block, AbortedLocal, env.how), env.connect, NULL)
  {
    hide Close, ClientRecord, ClientTcb;
  }

  lemma OpenedOver(st: State, q: Tcb, settings: Settings, reports: bool, master: Addr, ip: Ip, port: u16, why: Origin,
                   env: StartEnv, st1: State)
    requires Opened(st.(pcbs := st.pcbs[env.pcb := q]), settings, reports, master, ip, port, why, env, st1)
    ensures Opened(st, settings, reports, master, ip, port, why, env, st1)
  {
    hide ClientRecord, ClientTcb;
    assert st.pcbs[env.pcb := q][env.pcb := st1.pcbs[env.pcb]] == st.pcbs[env.pcb := st1.pcbs[env.pcb]];
  }

  lemma OpenedHow(st: State, settings: Settings, reports: bool, master: Addr, ip: Ip, port: u16, why: Origin,
                  env: StartEnv, how: Closing, st1: State)
    requires Opened(st, settings, reports, master, ip, port, why, env.(how := how), st1)
    ensures Opened(st, settings, reports, master, ip, port, why, env, st1)
  {
  }

  lemma NoClient(st: State, settings: Settings, reports: bool, master: Addr, ip: Ip, port: u16, why: Origin,
                 env: StartEnv)
    requires env.block == NULL || env.pcb == NULL
    ensures TxStart(st, settings, reports, master, ip, port, why, env) == Outcome(st, ErrMem, NULL)
  {
  }

  // ---------------------------------------------------------------- the calls of a start, in pieces

  lemma NoStart(calls: seq<Call>, ip: Ip, port: u16, env: StartEnv)
    ensures env.block == NULL ==> calls + [Alloc(NULL)] == calls + StartCalls(ip, port, env)
    ensures env.block != NULL && env.pcb == NULL ==>
              calls + [Alloc(env.block), NewPcb(NULL)] == calls + StartCalls(ip, port, env)
  {
  }

  lemma StartLogged(calls: seq<Call>, ip: Ip, port: u16, env: StartEnv, s: Session)
    requires env.block != NULL && env.pcb != NULL && s.connPcb == env.pcb
    ensures calls + [Alloc(env.block), NewPcb(env.pcb)] + [Clock(env.now), Connect(env.pcb, ip, port, env.connect)] +
            (if env.connect == ErrOk then [] else CloseCalls(s, env.how)) ==
            calls + StartCalls(ip, port, env)
  {
    var end := if env.connect == ErrOk then [] else CloseCalls(s, env.how);
    Regroup(calls, [], [Alloc(env.block), NewPcb(env.pcb)],
            [Clock(env.now), Connect(env.pcb, ip, port, env.connect)], end);
  }

  /** The calls for a first header: a start back if it asks for one, and then the clock, or the close. */
  lemma FirstLogged(calls: seq<Call>, s: Session, ip: Ip, h: Settings, now: u32, how: Closing, env: StartEnv)
    ensures var s', start := s.(settings := h, haveSettings := true), StartCalls(ip, RemotePort(h), env);
            var asks, first := AnswerTest(h) && AnswerNow(h), calls + FirstCalls(s, ip, h, now, how, env);
            && (!asks ==> calls + HeaderCalls(s', now) == first)
            && (asks && Starts(env) ==> calls + start + HeaderCalls(s', now) == first)
            && (asks && !Starts(env) ==> calls + start + CloseCalls(s', how) == first)
  {
    hide StartCalls, AnswerTest, AnswerNow;
  }

  /** The calls of an accept: memory, the clock, and the close of a listener whose work is done. */
  lemma AcceptLogged(calls: seq<Call>, s: Session, order: seq<Addr>, q: Pid, ip: Ip, block: Addr, now: u32)
    requires q != NULL
    ensures var all := calls + AcceptCalls(s, order, true, q, ip, block, now);
            if s.specificRemote && ip != s.remoteAddr then calls == all
            else if block == NULL then calls + [Alloc(NULL)] == all
            else if s.specificRemote && (!s.tradeoff || s.master !in order) then
              calls + [Alloc(block)] + [Clock(now)] + [ClosePcb(s.serverPcb, Gone)] == all
            else calls + [Alloc(block)] + [Clock(now)] == all
  {
  }

  // ---------------------------------------------------------------- runs, in pieces

  /** No event, or one that leads from st to st'. */
  ghost predicate Moved(st: State, evs: seq<Event>, st': State) {
    if evs == [] then st' == st else |evs| == 1 && Enabled(st, evs[0]) && st' == Step(st, evs[0])
  }

  lemma RunNone(st: State)
    ensures Runs(st, []) && Run(st, []) == st && RunCalls(st, []) == []
  {
  }

  lemma RunOne(st: State, e: Event)
    ensures RunCalls(st, [e]) == EventCalls(st, e)
    ensures Enabled(st, e) ==> Moved(st, [e], Step(st, e))
  {
    hide EventCalls, Enabled, Step;
    assert [e][1..] == [];
    assert EventCalls(st, e) + [] == EventCalls(st, e);
  }

  lemma {:induction false} RunMore(st: State, es: seq<Event>, evs: seq<Event>)
    requires Runs(st, es) && |evs| <= 1 && (evs != [] ==> Enabled(Run(st, es), evs[0]))
    ensures Runs(st, es + evs)
    ensures Run(st, es + evs) == if evs == [] then Run(st, es) else Step(Run(st, es), evs[0])
    ensures RunCalls(st, es + evs) == RunCalls(st, es) + RunCalls(Run(st, es), evs)
    decreases |es|
  {
    hide Enabled, Step, EventCalls;
    if evs == [] {
      assert es + evs == es;
    } else if es == [] {
      assert es + evs == evs && evs[1..] == [];
    } else {
      RunMore(Step(st, es[0]), es[1..], evs);
      assert (es + evs)[1..] == es[1..] + evs;
    }
  }

  /** A run and then no event or one more. */
  lemma RunLonger(st: State, es: seq<Event>, evs: seq<Event>, st': State, calls: seq<Call>)
    requires Runs(st, es) && Moved(Run(st, es), evs, st')
    ensures Runs(st, es + evs) && Run(st, es + evs) == st'
    ensures calls + RunCalls(st, es) + RunCalls(Run(st, es), evs) == calls + RunCalls(st, es + evs)
  {
    hide Enabled, Step, Runs, Run, RunCalls;
    RunMore(st, es, evs);
  }

  lemma NeverAborts(st: State, e: Event)
    requires !e.EvAbort? && !e.EvStartClient?
    ensures !Aborts(st, e)
  {
  }

  /** A listening block is no connection. */
  lemma OneSide(st: State, p: Pid)
    requires Owned(st) && p in st.pcbs && st.pcbs[p].Armed()
    ensures var t := st.pcbs[p];
            t.onConnected || t.onSent || t.onRecv || t.onPoll || t.onErr ==> !t.onAccept
  {
    CallbackArgument(st, p);
  }

  lemma NotFreed(st: State)
    requires Owned(st)
    ensures !st.headFreed
  {
  }

  /** A client start that returns a handle did not have to abort. */
  lemma HandleMeansUp(st: State, e: Event)
    requires e.EvStartClient? && Enabled(st, e)
    requires e.kind == UnidirectionalTest ||
             (e.senv.block != NULL && e.senv.pcb != NULL && e.senv.bind == ErrOk && e.senv.listen != NULL)
    ensures !Aborts(st, e)
  {
    hide ClientSettings, TxStart;
  }

  lemma AbortStep(st: State, session: Addr)
    ensures Enabled(st, EvAbort(session)) && Step(st, EvAbort(session)) == AbortSession(st, session)
    ensures EventCalls(st, EvAbort(session)) == []
  {
  }

  // ---------------------------------------------------------------- the engine

  class Engine {
    const mss: Mss
    var mem: map<Addr, Node>       // the heap blocks holding records
    var head: Addr                 // lwiperf_all_connections
    var pcbs: map<Pid, Tcb>        // the TCP stack's control blocks
    var room: map<Pid, nat>        // their free send buffers
    ghost var order: seq<Addr>     // the list, read along next from head
    ghost var headFreed: bool
    ghost var leaked: set<Addr>
    ghost var reports: seq<Report>
    ghost var freed: seq<nat>
    ghost var vanished: set<Pid>
    ghost var log: seq<Call>       // what was asked of the environment; only its methods below add to it

    ghost function Abs(): State
      reads this
    {
      State(mss, Recs(mem), order, headFreed, leaked, pcbs, reports, freed, vanished)
    }

    ghost predicate Valid()
      reads this
    {
      && NULL !in mem && NULL !in pcbs && room.Keys == pcbs.Keys
      && (!headFreed ==> Linked(mem, head, order))
    }

    constructor (m: Mss)
      ensures Valid() && Abs() == InitState(m) && log == []
    {
      mss, mem, head, pcbs, room := m, map[], NULL, map[], map[];
      order, headFreed, leaked, reports, freed, vanished, log := [], false, {}, [], [], {}, [];
    }

    // -------------------------------------------------------------- the active list

    /** lwiperf_list_add. */
    method ListAdd(item: Addr)
      requires Valid() && !headFreed && item in mem && item !in order
      modifies this`mem, this`head, this`order
      ensures Valid() && Abs() == old(Abs()).(order := [item] + old(order))
    {
      hide Linked, Recs;
      LinkedPush(mem, head, order, item);
      RelinkRecs(mem, item, head);
      mem := Relink(mem, item, head);
      head := item;
      order := [item] + order;
    }

    /** The debug loop after an unlink: the item was listed only once, so the assertion never fires. */
    method CheckUnique(item: Addr, from: Addr, ghost was: seq<Addr>, ghost j0: nat)
      requires 0 < j0 <= |was| && was[j0 - 1] == item && NoDup(was) && from == At(was, j0)
      requires forall i :: j0 <= i < |was| ==> was[i] in mem && mem[was[i]].next == At(was, i + 1)
    {
      var iter := from;
      ghost var j := j0;
      while iter != NULL
        invariant j0 <= j <= |was| && iter == At(was, j)
        decreases |was| - j
      {
        assert iter != item;
        iter, j := mem[iter].next, j + 1;
      }
    }

    /** lwiperf_list_remove: unlinking refines deletion from the sequence, every other link is kept. */
    method ListRemove(item: Addr)
      requires Valid() && !headFreed
      modifies this`mem, this`head, this`order
      ensures Valid() && Abs() == old(Abs()).(order := Without(old(order), item))
      ensures mem.Keys == old(mem).Keys && item !in order
    {
      hide Recs, Linked, NoDup;
      var prev, iter := NULL, head;
      ghost var k, was := 0, order;
      LinkedProps(mem, head, was);
      Unlisted(was, item);
      while iter != NULL
        invariant k <= |was| && iter == At(was, k) && prev == (if k == 0 then NULL else was[k - 1])
        invariant item !in was[..k]
        invariant mem == old(mem) && head == old(head) && order == was
        decreases |was| - k
      {
        LinkedAt(mem, head, was, k);
        if iter == item {
          LinkedRemove(mem, head, was, k);
          WithoutAt(was, k);
          order := was[..k] + was[k + 1..];
          if prev == NULL {
            head := mem[iter].next;
          } else {
            RelinkRecs(mem, prev, mem[iter].next);
            mem := Relink(mem, prev, mem[iter].next);
          }
          CheckUnique(item, mem[iter].next, was, k + 1);
          return;
        }
        prev, iter, k := iter, mem[iter].next, k + 1;
      }
      assert was[..k] == was;
      WithoutAbsent(was, item);
    }

    /** lwiperf_list_find: membership. */
    method ListFind(item: Addr) returns (r: Addr)
      requires Valid() && !headFreed
      ensures r == if item in order then item else NULL
    {
      hide Linked;
      LinkedProps(mem, head, order);
      var iter := head;
      ghost var k := 0;
      while iter != NULL
        invariant k <= |order| && iter == At(order, k) && item !in order[..k]
        decreases |order| - k
      {
        LinkedAt(mem, head, order, k);
        if iter == item { return item; }
        iter, k := mem[iter].next, k + 1;
      }
      assert order[..k] == order;
      return NULL;
    }

    /** lwiperf_abort: frees the session and all records whose master it is, relinks the others behind them,
        and never touches the head pointer. */
    method Abort(session: Addr)
      requires Valid() && !headFreed
      modifies this`mem, this`order, this`headFreed
      ensures Valid() && Abs() == AbortSession(old(Abs()), session)
    {
      hide Swept, Sorted, Linked, Recs, Keep, NoDup, Targets;
      ghost var was, wasMem := order, mem;
      var i, last := head, NULL;
      ghost var k, kept, gone := 0, [], {};
      SweepStart(mem, head, was, session);
      while i != NULL
        invariant k <= |was| && i == At(was, k) && last == (if kept == [] then NULL else kept[|kept| - 1])
        invariant Swept(wasMem, mem, was, k, kept, gone, i) && Sorted(Recs(wasMem), was, k, kept, gone, session)
        invariant order == was && head == old(head) && headFreed == old(headFreed)
        decreases |was| - k
      {
        SweepAhead(wasMem, mem, head, was, k, kept, gone);
        SortedSnoc(Recs(wasMem), was, k, kept, gone, session);
        TargetAt(wasMem, i, session);
        if i == session || mem[i].s.master == session {
          SweepDrop(wasMem, mem, head, was, k, kept, gone);
          var dealloc := i;
          i := mem[i].next;
          if last != NULL {
            mem := Relink(mem, last, i);
          }
          mem := mem - {dealloc};
          gone := gone + {dealloc};
        } else {
          SweepKeep(wasMem, mem, head, was, k, kept, gone);
          last := i;
          i := mem[i].next;
          kept := kept + [last];
        }
        k := k + 1;
      }
      SweepDone(wasMem, mem, head, was, kept, gone, session);
      order := kept;
      headFreed := was != [] && Targets(Recs(wasMem), was[0], session);
    }

    // -------------------------------------------------------------- memory, clock and records

    /** malloc: a block that is not in use, or NULL; freed blocks may come back. */
    method Malloc() returns (a: Addr)
      requires Valid()
      modifies this`log
      ensures Valid() && a !in mem && log == old(log) + [Alloc(a)]
    {
      hide Linked;
      a := *;
      if a in mem { a := NULL; }
      log := log + [Alloc(a)];
    }

    method SysNow() returns (now: u32)
      modifies this`log
      ensures log == old(log) + [Clock(now)]
    {
      now := *;
      log := log + [Clock(now)];
    }

    /** A record updated in place. */
    method Update(a: Addr, s: Session)
      requires Valid() && a in mem
      modifies this`mem
      ensures Valid() && Abs() == WithRec(old(Abs()), a, s)
      ensures mem.Keys == old(mem).Keys && mem[a].s == s
    {
      hide Linked, Recs;
      SetNode(mem, head, order, a, s);
      mem := mem[a := mem[a].(s := s)];
    }

    /** memset of a block fresh from malloc, then its fields. */
    method Fill(a: Addr, s: Session)
      requires Valid() && a !in mem && a != NULL
      modifies this`mem
      ensures Valid() && Abs() == WithRec(old(Abs()), a, s)
      ensures mem == old(mem)[a := Node(NULL, s)]
    {
      hide Linked, Recs;
      NewNode(mem, head, order, a, s);
      mem := mem[a := Node(NULL, s)];
    }

    /** mem_free of an unlisted record. */
    method Free(a: Addr)
      requires Valid() && a in mem && a !in order
      modifies this`mem
      ensures Valid() && Abs() == old(Abs()).(recs := old(Abs()).recs - {a})
      ensures mem == old(mem) - {a}
    {
      hide Linked, Recs;
      FreeNode(mem, head, order, a);
      mem := mem - {a};
    }

    // -------------------------------------------------------------- the TCP stack

    method SetPcb(p: Pid, t: Tcb)
      requires Valid() && p in pcbs
      modifies this`pcbs
      ensures Valid() && pcbs == old(pcbs)[p := t]
    {
      hide Linked;
      pcbs := pcbs[p := t];
    }

    /** tcp_new: a fresh block without callbacks, or NULL. */
    method TcpNew(origin: Origin) returns (p: Pid)
      requires Valid()
      modifies this`pcbs, this`room, this`log
      ensures Valid() && p !in old(pcbs) && log == old(log) + [NewPcb(p)]
      ensures pcbs == if p == NULL then old(pcbs) else old(pcbs)[p := FreshTcb.(origin := origin)]
    {
      hide Linked;
      p := *;
      if p in pcbs { p := NULL; }
      if p != NULL {
        pcbs := pcbs[p := FreshTcb.(origin := origin)];
        var free: nat := *;
        room := room[p := free];
      }
      log := log + [NewPcb(p)];
    }

    /** tcp_connect, which arms the connected callback on success. */
    method TcpConnect(p: Pid, ip: Ip, port: u16) returns (err: Err)
      requires Valid() && p in pcbs && !pcbs[p].freed
      modifies this`pcbs, this`log
      ensures Valid() && log == old(log) + [Connect(p, ip, port, err)]
      ensures pcbs == old(pcbs)[p := old(pcbs)[p].(remoteIp := ip, remotePort := port, onConnected := err == ErrOk)]
    {
      hide Linked;
      err := *;
      SetPcb(p, pcbs[p].(remoteIp := ip, remotePort := port, onConnected := err == ErrOk));
      log := log + [Connect(p, ip, port, err)];
    }

    /** tcp_close: listening and connecting blocks are freed; others are freed, linger, or are left to the caller. */
    method TcpClose(p: Pid) returns (err: Err, ghost how: Closing)
      requires Valid() && p in pcbs && !pcbs[p].freed
      modifies this`pcbs, this`log
      ensures Valid() && (err == ErrOk <==> how != Fails) && log == old(log) + [ClosePcb(p, how)]
      ensures old(pcbs)[p].onAccept || old(pcbs)[p].onConnected ==> how == Gone
      ensures pcbs == old(pcbs)[p := if err == ErrOk then TcpClosed(old(pcbs)[p], how) else old(pcbs)[p]]
    {
      hide Linked;
      err := *;
      var lingers: bool := *;
      if pcbs[p].onAccept || pcbs[p].onConnected { err, lingers := ErrOk, false; }
      how := if err != ErrOk then Fails else if lingers then Lingers else Gone;
      SetPcb(p, if err != ErrOk || lingers then pcbs[p] else Freed(pcbs[p]));
      log := log + [ClosePcb(p, how)];
    }

    /** tcp_abort: with the error callback disarmed it just frees the block. */
    method TcpAbort(p: Pid)
      requires Valid() && p in pcbs && !pcbs[p].freed && !pcbs[p].onErr
      modifies this`pcbs, this`log
      ensures Valid() && pcbs == old(pcbs)[p := Freed(old(pcbs)[p])] && log == old(log) + [AbortPcb(p)]
    {
      hide Linked;
      SetPcb(p, Freed(pcbs[p]));
      log := log + [AbortPcb(p)];
    }

    /** tcp_write: all of the data, if it fits the free send buffer, or an error. */
    method TcpWrite(p: Pid, data: seq<u8>, copy: bool, more: bool) returns (err: Err)
      requires Valid() && p in pcbs && !pcbs[p].freed
      modifies this`pcbs, this`room, this`log
      ensures Valid() && log == old(log) + [Write(p, data, copy, more, err)]
      ensures err == ErrOk ==> TookData(old(pcbs), old(room), pcbs, room, p, data)
      ensures err != ErrOk ==> pcbs == old(pcbs) && room == old(room)
    {
      hide Linked;
      err := *;
      if |data| > room[p] { err := ErrMem; }
      if err == ErrOk {
        pcbs := pcbs[p := pcbs[p].(written := pcbs[p].written + data)];
        room := room[p := room[p] - |data|];
      }
      log := log + [Write(p, data, copy, more, err)];
    }

    /** tcp_output: the stack may send what was written. */
    method TcpOutput(p: Pid)
      requires p in pcbs && !pcbs[p].freed
      modifies this`log
      ensures log == old(log) + [Output(p)]
    {
      log := log + [Output(p)];
    }

    // -------------------------------------------------------------- closing

    /** The stack's own move: the peer acknowledged n bytes, and their place in the send buffer is free again. */
    method Acknowledge(p: Pid, n: nat)
      requires Valid() && p in pcbs
      modifies this`room
      ensures Valid() && room == old(room)[p := old(room)[p] + n]
    {
      room := room[p := room[p] + n];
    }

    /** The stack's own move: the peer of a sending block closed, and the stack frees the block without a call. */
    method Vanish(p: Pid) returns (ghost ev: Event)
      requires Valid() && p in pcbs && pcbs[p].onSent && !pcbs[p].onConnected
      modifies this`pcbs, this`vanished
      ensures Valid() && ev == EvVanished(p) && Enabled(old(Abs()), ev) && Abs() == Step(old(Abs()), ev)
      ensures EventCalls(old(Abs()), ev) == []
    {
      hide Linked, Recs;
      SetPcb(p, Freed(pcbs[p]));
      vanished := vanished + {p};
      ev := EvVanished(p);
    }

    /** lwip_tcp_conn_report. */
    method ConnReport(conn: Addr, kind: Kind)
      requires Valid() && conn in mem
      modifies this`reports
      ensures Valid() && Abs() == old(Abs()).(reports := Reported(old(Abs()), conn, kind))
    {
      hide Linked;
      if mem[conn].s.reports {
        reports := reports + [Report(conn, kind, mem[conn].s.connPcb, mem[conn].s.bytes)];
      }
    }

    /** The connection half of lwiperf_tcp_close: every callback off, then close or abort. */
    method DisarmAndClose(p: Pid) returns (ghost how: Closing)
      requires Valid() && p in pcbs && !pcbs[p].freed && !pcbs[p].onAccept
      modifies this`pcbs, this`log
      ensures Valid() && pcbs == old(pcbs)[p := TcpClosed(Disarmed(old(pcbs)[p]), how)]
      ensures log == old(log) + [ClosePcb(p, how)] + if how == Fails then [AbortPcb(p)] else []
    {
      hide Linked;
      var t := pcbs[p];
      t := t.(arg := NULL);
      t := t.(onPoll := false);
      t := t.(onSent := false);
      t := t.(onRecv := false);
      t := t.(onErr := false);
      SetPcb(p, t);
      var err;
      err, how := TcpClose(p);
      if err != ErrOk {
        TcpAbort(p);
      }
    }

    /** The blocks of a record may be closed: none is freed, and each is of its kind. */
    ghost predicate Closable(s: Session)
      reads this
    {
      && (s.connPcb != NULL ==> s.connPcb in pcbs && !pcbs[s.connPcb].freed && !pcbs[s.connPcb].onAccept)
      && (s.connPcb == NULL && s.serverPcb != NULL ==>
            s.serverPcb in pcbs && !pcbs[s.serverPcb].freed && pcbs[s.serverPcb].onAccept)
    }

    /** The blocks' part of lwiperf_tcp_close. */
    method CloseBlocks(s: Session) returns (ghost how: Closing)
      requires Valid() && Closable(s)
      modifies this`pcbs, this`log
      ensures Valid() && pcbs == PcbsAfterClose(old(Abs()), s, how) && log == old(log) + CloseCalls(s, how)
    {
      hide Linked, Recs;
      how := Gone;
      if s.connPcb != NULL {
        how := DisarmAndClose(s.connPcb);
      } else if s.serverPcb != NULL {
        var err, h := TcpClose(s.serverPcb);
        assert err == ErrOk;
      }
    }

    /** lwiperf_tcp_close: unlink, report, disarm and close the block, free the record. */
    method CloseSession(conn: Addr, kind: Kind) returns (ghost how: Closing)
      requires Valid() && !headFreed && conn in mem && Closable(mem[conn].s)
      modifies this`mem, this`head, this`order, this`pcbs, this`reports, this`log
      ensures Valid() && Abs() == Close(old(Abs()), conn, kind, how)
      ensures log == old(log) + CloseCalls(old(mem)[conn].s, how)
    {
      hide Linked, Recs, Without, CloseCalls, Reported, PcbsAfterClose;
      RecsAt(mem, conn);
      ghost var st := Abs();
      ListRemove(conn);
      assert st.recs == Recs(mem);
      RecsAt(mem, conn);
      SameClose(st, Abs(), conn, kind);
      ConnReport(conn, kind);
      SameClose(st, Abs(), conn, kind);
      how := CloseBlocks(mem[conn].s);
      Free(conn);
    }

    // -------------------------------------------------------------- sending

    /** The inner loop of send_more: offer txlen bytes, halve on ERR_MEM, give up below half a segment.
        The data is read from buf at off, inside the buffer for every length tried. */
    method WriteHalving(p: Pid, buf: seq<u8>, off: nat, max: nat, copy: bool, flagMore: bool)
      returns (err: Err, txlen: nat, ghost halvings: nat)
      requires Valid() && p in pcbs && !pcbs[p].freed && 0 < max && off + max <= |buf|
      modifies this`pcbs, this`room, this`log
      ensures log == old(log) + WriteCalls(p, buf[off..off + max], copy, flagMore, halvings, err)
      ensures Valid() && txlen <= max
      ensures forall j :: 1 <= j <= halvings ==> Halve(max, j) >= mss / 2
      ensures err == ErrMem ==> Halve(max, halvings + 1) < mss / 2
      ensures err == ErrOk ==>
                && txlen == Halve(max, halvings) && 0 < txlen
                && TookData(old(pcbs), old(room), pcbs, room, p, buf[off..off + txlen])
      ensures err != ErrOk ==> pcbs == old(pcbs) && room == old(room)
    {
      hide Linked, TookData;
      txlen, halvings := max, 0;
      ghost var d := buf[off..off + max];
      assert d[..txlen] == buf[off..off + txlen];
      err := TcpWrite(p, buf[off..off + txlen], copy, flagMore);
      while err == ErrMem && txlen / 2 >= mss / 2
        invariant d == buf[off..off + max] && log == old(log) + WriteCalls(p, d, copy, flagMore, halvings, err)
        invariant Valid() && 0 < txlen <= max && txlen == Halve(max, halvings)
        invariant forall j :: 1 <= j <= halvings ==> Halve(max, j) >= mss / 2
        invariant err == ErrOk ==> TookData(old(pcbs), old(room), pcbs, room, p, buf[off..off + txlen])
        invariant err != ErrOk ==> pcbs == old(pcbs) && room == old(room)
        decreases txlen
      {
        txlen, halvings := txlen / 2, halvings + 1;
        assert d[..txlen] == buf[off..off + txlen];
        err := TcpWrite(p, buf[off..off + txlen], copy, flagMore);
      }
    }

    /** What to write next: the settings, the settings again, then digits from the constant buffer. */
    method NextData(s: Session)
      returns (buf: seq<u8>, off: nat, txlenMax: nat, copy: bool, flagMore: bool, sendMore: bool)
      ensures 0 < txlenMax && off + txlenMax <= |buf| && buf[off..off + txlenMax] == Offer(s, mss)
      ensures copy == (s.bytes < 2 * HEADER) && flagMore == (HEADER <= s.bytes < 2 * HEADER)
      ensures sendMore <==> s.bytes >= HEADER
    {
      sendMore, flagMore := false, false;
      if s.bytes < HEADER {
        buf, off, txlenMax, copy := s.settings, s.bytes, HEADER - s.bytes, true;
      } else if s.bytes < 2 * HEADER {
        buf, off, txlenMax, copy := s.settings, s.bytes - HEADER, 2 * HEADER - s.bytes, true;
        flagMore, sendMore := true, true;
      } else {
        buf, off, txlenMax, copy := TxBuf(), s.bytes % 10, mss, false;
        if s.bytes == 2 * HEADER { txlenMax := mss - HEADER; }
        sendMore := true;
      }
    }

    /** The writes of one round, and the count they add to the record. */
    method WriteData(conn: Addr, buf: seq<u8>, off: nat, max: nat, copy: bool, flagMore: bool)
      returns (err: Err, ghost halvings: nat, ghost data: seq<u8>)
      requires Valid() && conn in mem && 0 < max && off + max <= |buf|
      requires var p := mem[conn].s.connPcb; p in pcbs && !pcbs[p].freed
      modifies this`mem, this`pcbs, this`room, this`log
      ensures Valid() && conn in Recs(old(mem)) && old(mem)[conn].s.connPcb in old(pcbs)
      ensures Abs() == Wrote(old(Abs()), conn, data)
      ensures log == old(log) +
                     WriteCalls(old(mem)[conn].s.connPcb, buf[off..off + max], copy, flagMore, halvings, err)
      ensures data == if err == ErrOk then buf[off..off + Halve(max, halvings)] else []
      ensures forall j :: 1 <= j <= halvings ==> Halve(max, j) >= mss / 2
      ensures err == ErrMem ==> Halve(max, halvings + 1) < mss / 2
      ensures var p := old(mem)[conn].s.connPcb; p in room && (err == ErrOk ==> room[p] < old(room)[p])
    {
      hide Linked, Recs, Halve, Add32, WriteCalls;
      RecsAt(mem, conn);
      ghost var st := Abs();
      var s, p, txlen := mem[conn].s, mem[conn].s.connPcb, 0;
      err, txlen, halvings := WriteHalving(p, buf, off, max, copy, flagMore);
      data := [];
      if err == ErrOk {
        data := buf[off..off + txlen];
        Update(conn, s.(bytes := Add32(s.bytes, txlen)));
        WroteIs(st, conn, data, Abs());
      } else {
        WroteNothing(st, conn);
      }
    }

    /** One round below the limit; going on costs send buffer. */
    method SendRound(conn: Addr, now: u32) returns (more: bool, ghost t: Turn)
      requires Valid() && conn in mem && !LimitReached(mem[conn].s, now)
      requires var p := mem[conn].s.connPcb; p in pcbs && !pcbs[p].freed
      modifies this`mem, this`pcbs, this`room, this`log
      ensures Valid() && t.now == now && log == old(log) + RoundCalls(old(mem)[conn].s, mss, t)
      ensures more <==> t.err == ErrOk && old(mem)[conn].s.bytes >= HEADER
      ensures conn in Recs(old(mem)) && old(mem)[conn].s.connPcb in old(pcbs)
      ensures Abs() == SendMore(old(Abs()), conn, [t], Gone)
      ensures var s, p := old(mem)[conn].s, old(mem)[conn].s.connPcb;
              && (more ==> Going(s, mss, [t]) && p in room && room[p] < old(room)[p])
              && (!more ==> Rounds(s, mss, [t]))
    {
      hide Linked, Recs, Going, Rounds, SendMore, LimitReached, Halve, Offer, Wrote, Taken, WriteCalls;
      RecsAt(mem, conn);
      ghost var st := Abs();
      var s := mem[conn].s;
      var buf, off, txlenMax, copy, flagMore, err;
      ghost var halvings, data;
      buf, off, txlenMax, copy, flagMore, more := NextData(s);
      err, halvings, data := WriteData(conn, buf, off, txlenMax, copy, flagMore);
      t := Turn(now, halvings, err);
      WriteRound(st, conn, t);
      if err == ErrOk {
        TakenIs(s, mss, t, buf, off, txlenMax);
      } else {
        more := false;
      }
    }

    /** lwiperf_tcp_client_send_more: terminates because every round that goes on uses up send buffer. */
    method ClientSendMore(conn: Addr) returns (err: Err, ghost turns: seq<Turn>, ghost how: Closing)
      requires Valid() && !headFreed && conn in mem && !mem[conn].s.server
      requires var p := mem[conn].s.connPcb; p in pcbs && !pcbs[p].freed && !pcbs[p].onAccept
      modifies this
      ensures Valid() && err == ErrOk && Rounds(old(mem)[conn].s, mss, turns)
      ensures Abs() == SendMore(old(Abs()), conn, turns, how)
      ensures log == old(log) + SendCalls(old(mem)[conn].s, mss, turns, how)
    {
      hide Linked, Recs, Going, Rounds, SendMore, LimitReached, IsTurn, SendCalls, RoundCalls, CloseCalls;
      turns, how, err := [], Gone, ErrOk;
      RecsAt(mem, conn);
      GoingNothing(Abs(), conn);
      ghost var st0, s0 := Abs(), mem[conn].s;
      assert log + [] == log;
      var p := mem[conn].s.connPcb;
      var more := true;
      while more
        invariant Valid() && !headFreed && p in pcbs && conn in mem && p == mem[conn].s.connPcb && !pcbs[p].freed
        invariant more ==> !pcbs[p].onAccept
        invariant more ==>
                    conn in st0.recs && st0.recs[conn] == s0 && s0.connPcb == p && p in st0.pcbs && st0.mss == mss
        invariant more ==> Going(s0, mss, turns) && Abs() == SendMore(st0, conn, turns, Gone)
        invariant more ==> log == old(log) + SendCalls(s0, mss, turns, Gone)
        invariant !more ==> Rounds(s0, mss, turns) && Abs() == SendMore(st0, conn, turns, Gone)
        invariant !more ==> log + [Output(p)] == old(log) + SendCalls(s0, mss, turns, Gone)
        decreases more, if more then room[p] else 0
      {
        RecsAt(mem, conn);
        ghost var st, was := Abs(), log;
        var s := mem[conn].s;
        var now := 0;
        if TimeLimited(s.settings) { now := SysNow(); }
        ghost var t := Turn(now, 0, ErrOk);
        assert log == was + LimitCalls(s, t);
        if HasReached(s, now) {
          how := CloseSession(conn, DoneClient);
          ClosingRound(st0, conn, turns, t, how, st, old(log));
          turns := turns + [t];
          return;
        }
        more, t := SendRound(conn, now);
        RoundBack(st, conn, t, Abs());
        RecsHas(mem, conn);
        WritingRound(st0, conn, turns, t, st, old(log));
        turns := turns + [t];
      }
      TcpOutput(p);
    }

    // -------------------------------------------------------------- starting a client

    /** malloc and tcp_new for a new client; without a control block the memory is freed again. */
    method Reserve(why: Origin) returns (block: Addr, p: Pid)
      requires Valid()
      modifies this`pcbs, this`room, this`log
      ensures Valid() && block !in mem && p !in old(pcbs) && (block == NULL ==> p == NULL)
      ensures pcbs == if p == NULL then old(pcbs) else old(pcbs)[p := FreshTcb.(origin := why)]
      ensures log == old(log) + if block == NULL then [Alloc(NULL)] else [Alloc(block), NewPcb(p)]
    {
      hide Linked;
      block := Malloc();
      p := NULL;
      if block != NULL { p := TcpNew(why); }
    }

    /** The record and the block of a new client, wired to each other and connecting. */
    method OpenClient(block: Addr, p: Pid, settings: Settings, report: bool, master: Addr, ip: Ip, port: u16,
                      ghost why: Origin)
      returns (now: u32, err: Err, ghost env: StartEnv)
      requires Valid() && block !in mem && block != NULL && p != NULL && p in pcbs &&
               pcbs[p] == FreshTcb.(origin := why)
      modifies this`mem, this`pcbs, this`log
      ensures Valid() && block in mem && mem[block].s.connPcb == p && !pcbs[p].freed && !pcbs[p].onAccept
      ensures env == StartEnv(block, p, now, err, Gone) &&
              Opened(old(Abs()), settings, report, master, ip, port, why, env, Abs())
      ensures log == old(log) + [Clock(now), Connect(p, ip, port, err)]
    {
      hide Linked, Recs;
      now := SysNow();
      Fill(block, ZeroSession.(master := master, connPcb := p, timeStarted := now, reports := report,
                               settings := settings, haveSettings := true));
      var t := pcbs[p];
      t := t.(arg := block);
      t := t.(onSent := true);
      t := t.(onPoll := true);
      t := t.(onErr := true);
      SetPcb(p, t);
      err := TcpConnect(p, ip, port);
      env := StartEnv(block, p, now, err, Gone);
    }

    /** lwiperf_tx_start_impl. */
    method TxStartImpl(settings: Settings, report: bool, master: Addr, ip: Ip, port: u16, why: Origin)
      returns (err: Err, conn: Addr, ghost env: StartEnv)
      requires Valid() && !headFreed
      modifies this
      ensures Valid() && FreshStart(old(Abs()), env)
      ensures TxStart(old(Abs()), settings, report, master, ip, port, why, env) == Outcome(Abs(), err, conn)
      ensures err == ErrOk <==> Starts(env)
      ensures err != ErrOk ==> conn == NULL
      ensures log == old(log) + StartCalls(ip, port, env)
    {
      hide Linked, Recs, Close, ClientRecord, ClientTcb, StartCalls, CloseCalls, TxStart, Opened;
      ghost var st := Abs();
      conn := NULL;
      var block, p := Reserve(why);
      NotInRecs(mem, block);
      NotListed(mem, order, block);
      if p == NULL {
        env := StartEnv(block, NULL, 0, ErrOk, Gone);
        NoStart(old(log), ip, port, env);
        NoClient(st, settings, report, master, ip, port, why, env);
        return ErrMem, NULL, env;
      }
      var now;
      now, err, env := OpenClient(block, p, settings, report, master, ip, port, why);
      OpenedOver(st, FreshTcb.(origin := why), settings, report, master, ip, port, why, env, Abs());
      ghost var s := mem[block].s;
      if err != ErrOk {
        ghost var st1 := Abs();
        ghost var how := CloseSession(block, AbortedLocal);
        env := env.(how := how);
        OpenedHow(st, settings, report, master, ip, port, why, env, Gone, st1);
        StartUp(st, settings, report, master, ip, port, why, env, st1);
        StartLogged(old(log), ip, port, env, s);
        return err, NULL, env;
      }
      StartUp(st, settings, report, master, ip, port, why, env, Abs());
      ListAdd(block);
      StartLogged(old(log), ip, port, env, s);
      conn := block;
    }

    /** lwiperf_tx_start_passive. */
    method TxStartBack(conn: Addr) returns (err: Err, ghost env: StartEnv)
      requires Valid() && !headFreed && conn in mem && mem[conn].s.connPcb in pcbs
      modifies this
      ensures Valid() && FreshStart(old(Abs()), env)
      ensures conn in old(Abs()).recs && old(Abs()).recs[conn].connPcb in old(Abs()).pcbs
      ensures TxStartPassive(old(Abs()), conn, env).st == Abs() && TxStartPassive(old(Abs()), conn, env).err == err
      ensures err == ErrOk <==> Starts(env)
      ensures var s := old(mem)[conn].s;
              log == old(log) + StartCalls(old(pcbs)[s.connPcb].remoteIp, RemotePort(s.settings), env)
    {
      hide Linked, Recs, TxStart;
      RecsAt(mem, conn);
      var s, ip := mem[conn].s, pcbs[mem[conn].s.connPcb].remoteIp;
      var newConn;
      err, newConn, env := TxStartImpl(s.settings, s.reports, s.master, ip, RemotePort(s.settings),
                                        Reverse(s.connPcb, WithoutFlags(s.settings)));
      if err == ErrOk {
        StartedRecord(old(Abs()), s.settings, s.reports, s.master, ip, RemotePort(s.settings),
                      Reverse(s.connPcb, WithoutFlags(s.settings)), env);
        RecsHas(mem, newConn);
        Update(newConn, mem[newConn].s.(settings := WithoutFlags(mem[newConn].s.settings)));
      }
    }

    // -------------------------------------------------------------- callbacks of a sending connection

    /** What every callback may rely on: its argument is the record of its block. */
    ghost predicate CalledOn(p: Pid, arg: Addr)
      reads this
    {
      Valid() && Owned(Abs()) && p in pcbs && pcbs[p].Armed() && !pcbs[p].onAccept && arg == pcbs[p].arg
    }

    /** lwiperf_tcp_client_sent. */
    method ClientSent(arg: Addr, tpcb: Pid, len: u16) returns (err: Err, ghost ev: Event)
      requires CalledOn(tpcb, arg) && pcbs[tpcb].onSent
      modifies this
      ensures Valid() && err == ErrOk && ev.EvSent? && ev.p == tpcb
      ensures Enabled(old(Abs()), ev) && Abs() == Step(old(Abs()), ev)
      ensures log == old(log) + EventCalls(old(Abs()), ev)
    {
      hide Linked, Recs, SendMore, Rounds, SendCalls, Step, Enabled, EventCalls;
      CallbackArgument(Abs(), tpcb);
      RecsHas(mem, arg);
      assert mem[arg].s.connPcb == tpcb;
      Update(arg, mem[arg].s.(pollCount := 0));
      ghost var turns, how;
      err, turns, how := ClientSendMore(arg);
      SentEvent(old(Abs()), tpcb, turns, how);
      ev := EvSent(tpcb, turns, how);
    }

    /** lwiperf_tcp_client_connected; the stack has left the connecting state. */
    method ClientConnected(arg: Addr, tpcb: Pid, error: Err) returns (err: Err, ghost ev: Event)
      requires CalledOn(tpcb, arg) && pcbs[tpcb].onConnected
      modifies this
      ensures Valid() && err == ErrOk && ev.EvConnected? && ev.p == tpcb && ev.ok == (error == ErrOk)
      ensures Enabled(old(Abs()), ev) && Abs() == Step(old(Abs()), ev)
      ensures log == old(log) + EventCalls(old(Abs()), ev)
    {
      hide Linked, Recs, SendMore, Rounds, Close, SendCalls, CloseCalls, Step, Enabled, EventCalls;
      ghost var st := Abs();
      CallbackArgument(st, tpcb);
      RecsHas(mem, arg);
      SetPcb(tpcb, pcbs[tpcb].(onConnected := false));
      assert mem[arg].s.connPcb == tpcb;
      if error != ErrOk {
        ghost var how := CloseSession(arg, AbortedRemote);
        ConnectFailedEvent(st, tpcb, how);
        ev := EvConnected(tpcb, false, 0, [], how);
        return ErrOk, ev;
      }
      var now := SysNow();
      Update(arg, mem[arg].s.(pollCount := 0, timeStarted := now));
      ghost var turns, how;
      err, turns, how := ClientSendMore(arg);
      ConnectedEvent(st, tpcb, now, turns, how);
      assert log == old(log) + ([Clock(now)] +
             SendCalls(st.recs[arg].(pollCount := 0, timeStarted := now), mss, turns, how));
      ev := EvConnected(tpcb, true, now, turns, how);
    }

    /** lwiperf_tcp_poll. */
    method Poll(arg: Addr, tpcb: Pid) returns (err: Err, ghost ev: Event)
      requires CalledOn(tpcb, arg) && pcbs[tpcb].onPoll
      modifies this
      ensures Valid() && err == ErrOk && ev.EvPoll? && ev.p == tpcb
      ensures Enabled(old(Abs()), ev) && Abs() == Step(old(Abs()), ev)
      ensures log == old(log) + EventCalls(old(Abs()), ev)
    {
      hide Linked, Recs, SendMore, Rounds, Close, SendCalls, CloseCalls, Step, Enabled, EventCalls;
      ghost var st := Abs();
      CallbackArgument(st, tpcb);
      RecsHas(mem, arg);
      assert mem[arg].s.connPcb == tpcb;
      var server := mem[arg].s.server;
      Update(arg, mem[arg].s.(pollCount := Inc8(mem[arg].s.pollCount)));
      ghost var turns, how := [], Gone;
      err := ErrOk;
      if mem[arg].s.pollCount >= MAX_IDLE {
        how := CloseSession(arg, AbortedLocal);
      } else if !server {
        err, turns, how := ClientSendMore(arg);
      }
      PollEvent(st, tpcb, turns, how);
      ev := EvPoll(tpcb, turns, how);
    }

    /** lwiperf_tcp_err; the stack has already freed the block. */
    method TcpErr(arg: Addr, tpcb: Pid) returns (ghost ev: Event)
      requires CalledOn(tpcb, arg) && pcbs[tpcb].onErr
      modifies this
      ensures Valid() && ev == EvErr(tpcb)
      ensures Enabled(old(Abs()), ev) && Abs() == Step(old(Abs()), ev)
      ensures log == old(log) + EventCalls(old(Abs()), ev)
    {
      hide Linked, Recs, Close, CloseCalls, Step, Enabled, EventCalls;
      ghost var st := Abs();
      CallbackArgument(st, tpcb);
      RecsHas(mem, arg);
      SetPcb(tpcb, Freed(pcbs[tpcb]));
      ghost var st1 := Abs();
      Update(arg, mem[arg].s.(connPcb := NULL, serverPcb := NULL));
      ghost var how := CloseSession(arg, AbortedRemote);
      NoBlock(st1, arg, st.recs[arg].(connPcb := NULL, serverPcb := NULL), how);
      ErrEvent(st, tpcb);
      ev := EvErr(tpcb);
    }

    // -------------------------------------------------------------- receiving

    /** lwiperf_tcp_close, then pbuf_free. */
    method Reject(conn: Addr, kind: Kind, pkt: Pbuf) returns (ghost how: Closing)
      requires Valid() && !headFreed && conn in mem
      requires var p := mem[conn].s.connPcb; p != NULL && p in pcbs && !pcbs[p].freed && !pcbs[p].onAccept
      modifies this
      ensures Valid() && conn in old(Abs()).recs && Abs() == Rejected(old(Abs()), conn, kind, how, pkt)
      ensures log == old(log) + CloseCalls(old(mem)[conn].s, how)
    {
      hide Linked, Recs, Close, CloseCalls;
      RecsAt(mem, conn);
      how := CloseSession(conn, kind);
      freed := freed + [pkt.id];
    }

    /** tcp_recved, then pbuf_free. */
    method Consume(p: Pid, len: nat, pkt: Pbuf)
      requires Valid() && p in pcbs && len == TotLen(pkt)
      modifies this`pcbs, this`freed
      ensures Valid() && Abs() == Consumed(old(Abs()), p, pkt)
    {
      hide Linked, Recs, Flat;
      SetPcb(p, pcbs[p].(credit := pcbs[p].credit + len));
      freed := freed + [pkt.id];
    }

    /** The loop over the buffers of a chain: it counts totLen bytes, so the check after it never fires. */
    method CountChain(chain: seq<seq<u8>>) returns (packetIdx: nat)
      ensures packetIdx == |Flat(chain)|
    {
      packetIdx := 0;
      var q := 0;
      while q < |chain|
        invariant 0 <= q <= |chain| && packetIdx + |Flat(chain[q..])| == |Flat(chain)|
      {
        assert chain[q..][1..] == chain[q + 1..];
        packetIdx := packetIdx + |chain[q]|;
        q := q + 1;
      }
    }

    /** The counting half of lwiperf_tcp_recv after a header was accepted: the first header stands alone, a
        later one is stripped from the first buffer and the rest counted. */
    method HeaderAccepted(conn: Addr, p: Pid, pkt: Pbuf) returns (now: u32)
      requires Valid() && conn in mem && p in pcbs && IsPacket(pkt) && TotLen(pkt) >= HEADER
      modifies this`mem, this`pcbs, this`freed, this`log
      ensures Valid() && conn in old(Abs()).recs && Abs() == CountHeader(old(Abs()), conn, p, pkt, now)
      ensures log == old(log) + HeaderCalls(old(mem)[conn].s, now)
    {
      hide Linked, Recs, Flat, Add32;
      RecsAt(mem, conn);
      ghost var st := Abs();
      var totLen := |Flat(pkt.chain)|;
      var s := mem[conn].s;
      s := s.(bytes := Add32(s.bytes, HEADER));
      now := 0;
      if s.bytes <= HEADER {
        now := SysNow();
        s := s.(timeStarted := now);
      } else {
        var chain := [pkt.chain[0][HEADER..]] + pkt.chain[1..];
        StrippedChain(pkt.chain);
        var packetIdx := CountChain(chain);
        assert packetIdx == totLen - HEADER;
        s := s.(bytes := Add32(s.bytes, packetIdx));
      }
      Update(conn, s);
      Consume(p, totLen, pkt);
    }

    /** A start back on behalf of conn leaves its record and its block as they were. */
    ghost predicate OpenReceiver(conn: Addr, p: Pid)
      reads this
    {
      && Valid() && !headFreed && conn in mem && mem[conn].s.connPcb == p && p != NULL && p in pcbs
      && !pcbs[p].freed && !pcbs[p].onAccept
    }

    /** lwiperf_tx_start_passive, with what its caller needs to go on. */
    method StartBack(conn: Addr, p: Pid) returns (err: Err, ghost env: StartEnv)
      requires OpenReceiver(conn, p) && Owned(Abs()) && conn in order && ConnectionOk(Abs(), conn)
      modifies this
      ensures OpenReceiver(conn, p) && FreshStart(old(Abs()), env) && conn in old(Abs()).recs && p in old(pcbs)
      ensures old(Abs()).recs[conn].connPcb == p
      ensures var o := TxStartPassive(old(Abs()), conn, env); o.st == Abs() && o.err == err
      ensures mem[conn].s == old(mem)[conn].s && (err == ErrOk <==> Starts(env))
      ensures log == old(log) + StartCalls(old(pcbs)[p].remoteIp, RemotePort(old(mem)[conn].s.settings), env)
    {
      hide Linked, Recs, TxStartPassive, Owned, ConnectionOk;
      RecsAt(mem, conn);
      ghost var st := Abs();
      err, env := TxStartBack(conn);
      PassiveStays(st, conn, env);
      RecsHas(mem, conn);
    }

    /** The first header of lwiperf_tcp_recv. */
    method RecvHeader(conn: Addr, p: Pid, pkt: Pbuf) returns (now: u32, ghost how: Closing, ghost env: StartEnv)
      requires OpenReceiver(conn, p) && Owned(Abs()) && conn in order && ConnectionOk(Abs(), conn)
      requires IsPacket(pkt) && TotLen(pkt) >= HEADER
      modifies this
      ensures Valid() && conn in old(Abs()).recs && old(Abs()).recs[conn].connPcb in old(Abs()).pcbs
      ensures FreshStart(old(Abs()), env) && Abs() == RecvFirst(old(Abs()), conn, pkt, now, how, env)
      ensures log == old(log) + FirstCalls(old(mem)[conn].s, old(pcbs)[p].remoteIp, Flat(pkt.chain)[..HEADER], now,
                                           how, env)
    {
      hide Linked, Recs, TxStartPassive, Flat, Rejected, CountHeader, FirstCalls, StartCalls, HeaderCalls, CloseCalls;
      now, how, env := 0, Gone, StartEnv(NULL, NULL, 0, ErrOk, Gone);
      NotInRecs(mem, NULL);
      RecsAt(mem, conn);
      ghost var st := Abs();
      var header := Flat(pkt.chain)[..HEADER];   // pbuf_copy_partial
      assert |header| == HEADER;
      Update(conn, mem[conn].s.(settings := header, haveSettings := true));
      SetRecordOwned(st, conn, Abs().recs[conn]);
      var ip := pcbs[p].remoteIp;
      if AnswerTest(header) && AnswerNow(header) {
        var err;
        err, env := StartBack(conn, p);
        if err != ErrOk {
          how := Reject(conn, AbortedLocalTxError, pkt);
          FirstLogged(old(log), st.recs[conn], ip, header, now, how, env);
          return;
        }
      }
      now := HeaderAccepted(conn, p, pkt);
      FirstLogged(old(log), st.recs[conn], ip, header, now, how, env);
    }

    /** lwiperf_tcp_recv with a packet. */
    method RecvPacket(conn: Addr, p: Pid, pkt: Pbuf) returns (now: u32, ghost how: Closing, ghost env: StartEnv)
      requires OpenReceiver(conn, p) && Owned(Abs()) && conn in order && ConnectionOk(Abs(), conn) && IsPacket(pkt)
      modifies this
      ensures Valid() && conn in old(Abs()).recs && old(Abs()).recs[conn].connPcb in old(Abs()).pcbs
      ensures FreshStart(old(Abs()), env) && Abs() == RecvData(old(Abs()), conn, pkt, now, how, env)
      ensures log == old(log) + PacketCalls(old(mem)[conn].s.(pollCount := 0), old(pcbs)[p].remoteIp, pkt, now, how,
                                            env)
    {
      hide Linked, Recs, RecvFirst, Flat, Rejected, CountHeader, Consumed;
      now, how, env := 0, Gone, StartEnv(NULL, NULL, 0, ErrOk, Gone);
      NotInRecs(mem, NULL);
      RecsAt(mem, conn);
      ghost var st := Abs();
      var totLen := |Flat(pkt.chain)|;
      Update(conn, mem[conn].s.(pollCount := 0));
      var s := mem[conn].s;
      RecsAt(mem, conn);
      if !s.haveSettings || Sub32(s.bytes, HEADER) % BLOCK == 0 {
        if totLen < HEADER {
          how := Reject(conn, AbortedLocalDataError, pkt);
        } else if !s.haveSettings {
          SetRecordOwned(st, conn, s);
          assert ConnectionOk(Abs(), conn);
          now, how, env := RecvHeader(conn, p, pkt);
        } else if AnswerTest(s.settings) && Flat(pkt.chain)[..HEADER] != s.settings {
          how := Reject(conn, AbortedLocalDataError, pkt);
        } else {
          now := HeaderAccepted(conn, p, pkt);
        }
      } else {
        var packetIdx := CountChain(pkt.chain);
        Update(conn, s.(bytes := Add32(s.bytes, packetIdx)));
        Consume(p, totLen, pkt);
      }
    }

    /** lwiperf_tcp_recv: an error, the end of the stream, or a packet. */
    method Recv(arg: Addr, tpcb: Pid, p: seq<Pbuf>, error: Err) returns (err: Err, ghost ev: Event)
      requires CalledOn(tpcb, arg) && pcbs[tpcb].onRecv && |p| <= 1 && (p != [] ==> IsPacket(p[0]))
      modifies this
      ensures Valid() && err == ErrOk
      ensures if error != ErrOk then ev.EvRecvErr? && ev.p == tpcb
              else if p == [] then ev.EvRecvEnd? && ev.p == tpcb
              else ev.EvRecv? && ev.p == tpcb && ev.pkt == p[0]
      ensures Enabled(old(Abs()), ev) && Abs() == Step(old(Abs()), ev)
      ensures log == old(log) + EventCalls(old(Abs()), ev)
    {
      hide Linked, Recs, RecvData, TxStartPassive, Close, IsPacket, Step, Enabled, EventCalls, PacketCalls, CloseCalls,
           StartCalls;
      err := ErrOk;
      ghost var st := Abs();
      CallbackArgument(st, tpcb);
      RecsHas(mem, arg);
      assert mem[arg].s.connPcb == tpcb;
      ghost var how, env := Gone, StartEnv(NULL, NULL, 0, ErrOk, Gone);
      if error != ErrOk {
        how := CloseSession(arg, AbortedRemote);
        RecvErrEvent(st, tpcb, how);
        ev := EvRecvErr(tpcb, how);
      } else if p == [] {
        var s := mem[arg].s;
        if AnswerTest(s.settings) {
          if !AnswerNow(s.settings) {
            var err2;
            err2, env := StartBack(arg, tpcb);
          }
        }
        RecsAt(mem, arg);
        how := CloseSession(arg, DoneServer);
        EndEvent(st, tpcb, how, env);
        ev := EvRecvEnd(tpcb, how, env);
      } else {
        var now;
        now, how, env := RecvPacket(arg, tpcb, p[0]);
        PacketEvent(st, tpcb, p[0], now, how, env);
        ev := EvRecv(tpcb, p[0], now, how, env);
      }
    }

    // -------------------------------------------------------------- accepting

    /** The record of an accepted connection, wired to its block. */
    method OpenConnection(block: Addr, p: Pid, master: Addr, report: bool) returns (now: u32)
      requires Valid() && block !in mem && block != NULL && p in pcbs
      modifies this`mem, this`pcbs, this`log
      ensures Valid() && mem == old(mem)[block := Node(NULL, AcceptRecord(p, master, now, report))]
      ensures log == old(log) + [Clock(now)]
      ensures Recs(mem) == Recs(old(mem))[block := AcceptRecord(p, master, now, report)]
      ensures pcbs == old(pcbs)[p := old(pcbs)[p].(arg := block, onRecv := true, onPoll := true, onErr := true)]
    {
      hide Linked, Recs;
      now := SysNow();
      Fill(block, ZeroSession.(server := true, master := master, connPcb := p, timeStarted := now, reports := report));
      var t := pcbs[p];
      t := t.(arg := block);
      t := t.(onRecv := true);
      t := t.(onPoll := true);
      t := t.(onErr := true);
      SetPcb(p, t);
    }

    /** A secondary listener is closed, without a report, in dual mode or once its client is off the list. */
    method RetireListener(arg: Addr)
      requires Valid() && !headFreed && arg in mem && Closable(mem[arg].s) && mem[arg].s.specificRemote
      requires mem[arg].s.connPcb == NULL && mem[arg].s.serverPcb != NULL
      modifies this`mem, this`head, this`order, this`pcbs, this`reports, this`log
      ensures Valid() && arg in old(Abs()).recs
      ensures var st, s := old(Abs()), old(mem)[arg].s;
              if !s.tradeoff || s.master !in old(order) then
                && Abs() == Close(WithRec(st, arg, s.(reports := false)), arg, AbortedLocal, Gone)
                && log == old(log) + [ClosePcb(s.serverPcb, Gone)]
              else Abs() == st && log == old(log)
    {
      hide Linked, Recs, Close;
      RecsAt(mem, arg);
      ghost var st := Abs();
      LinkedProps(mem, head, order);
      var s, found := mem[arg].s, NULL;
      if s.tradeoff { found := ListFind(s.master); }
      if !s.tradeoff || found == NULL {
        Update(arg, s.(reports := false));
        ghost var how := CloseSession(arg, AbortedLocal);
        CloseListenerHow(Abs(), WithRec(st, arg, s.(reports := false)), arg, how);
      }
    }

    /** lwiperf_tcp_accept for a block the stack made for this connection. */
    method TcpAccept(arg: Addr, newpcb: Pid, ip: Ip, port: u16, l: Pid)
      returns (err: Err, ghost block: Addr, ghost now: u32)
      requires Valid() && Owned(Abs()) && arg in order && arg in Abs().recs && ListenerOk(Abs(), arg)
      requires newpcb in pcbs && newpcb != mem[arg].s.serverPcb
      requires pcbs[newpcb] == NewConnection(arg, ip, port, l)
      modifies this
      ensures Valid() && block !in old(Abs()).recs
      ensures var s := old(mem)[arg].s;
              && err == (if s.specificRemote &&
                 ip != s.remoteAddr then ErrVal else if block == NULL then ErrMem else ErrOk)
              && log == old(log) + AcceptCalls(s, old(order), true, newpcb, ip, block, now)
      ensures Abs() == if err == ErrOk then Admit(old(Abs()), l, arg, newpcb, ip, port, block, now) else old(Abs())
    {
      hide Linked, Recs, AcceptCalls, AdmitOpen, AdmitClose, Admit, Close, AcceptRecord, NewConnection;
      block, now := NULL, 0;
      ghost var st := Abs();
      NotInRecs(mem, NULL);
      RecsHas(mem, arg);
      var s := mem[arg].s;
      AcceptLogged(old(log), s, order, newpcb, ip, NULL, now);
      assert s.server && s.serverPcb != NULL && s.connPcb == NULL;
      if s.specificRemote {
        assert s.master != NULL;
        if ip != s.remoteAddr { return ErrVal, block, now; }
      } else {
        assert s.master == NULL;
      }
      var conn := Malloc();
      block := conn;
      NotInRecs(mem, conn);
      NotListed(mem, order, conn);
      if conn == NULL { return ErrMem, block, now; }
      now := OpenConnection(conn, newpcb, if s.specificRemote then s.master else arg, s.reports);
      AdmitOpened(st, l, arg, newpcb, ip, port, block, now, Abs());
      RecsHas(old(mem), arg);
      RecsHas(mem, arg);
      AdmitDone(st, l, arg, newpcb, ip, port, block, now, Abs());
      if s.specificRemote { RetireListener(arg); }
      AdmitListed(st, l, arg, newpcb, ip, port, block, now);
      AdmitCloseBlock(st, l, arg, newpcb, ip, port, block, now);
      RecsHas(mem, conn);
      ListAdd(conn);
      err := ErrOk;
      AcceptLogged(old(log), s, st.order, newpcb, ip, block, now);
    }

    /** The stack's side of an accept: it makes the block, calls the callback with the listener's argument,
        and aborts the block if the callback returns an error. */
    method DeliverAccept(l: Pid, ok: bool, q: Pid, ip: Ip, port: u16) returns (err: Err, ghost ev: Event)
      requires Valid() && Owned(Abs()) && l in pcbs && pcbs[l].onAccept && q !in pcbs
      modifies this
      ensures Valid() && ev.EvAccept? && ev.l == l && ev.ok == ok && ev.q == q && ev.ip == ip && ev.port == port
      ensures Enabled(old(Abs()), ev) && Abs() == Step(old(Abs()), ev)
      ensures log == old(log) + EventCalls(old(Abs()), ev)
      ensures old(pcbs)[l].arg in old(mem)
      ensures var s := old(mem)[old(pcbs)[l].arg].s;
              err == if !ok || q == NULL || (s.specificRemote && ip != s.remoteAddr) then ErrVal
                     else if ev.block == NULL then ErrMem else ErrOk
    {
      hide Linked, Recs, Admit, ListenerOk, ConnectionOk, CallbackOk, Step, Enabled, Refused, EventCalls, DroppedTcb;
      ghost var st := Abs();
      CallbackArgument(st, l);
      NotInRecs(mem, NULL);
      RecsHas(mem, pcbs[l].arg);
      var arg := pcbs[l].arg;
      ghost var block, now := NULL, 0;
      if q != NULL { StackBlock(q, NewConnection(arg, ip, port, l)); }
      if !ok || q == NULL || arg == NULL {
        err := ErrVal;
      } else {
        IdlePcbOwned(st, q, NewConnection(arg, ip, port, l));
        ListenerStillOk(st, arg, q, pcbs[q]);
        RecsHas(mem, arg);
        err, block, now := TcpAccept(arg, q, ip, port, l);
        AdmitOver(st, l, arg, q, ip, port, block, now, NewConnection(arg, ip, port, l));
      }
      AcceptStep(st, l, ok, q, ip, port, block, now);
      if err != ErrOk && q != NULL {
        SetPcb(q, DroppedTcb(ip, port));
      }
      RefusedIs(st, q, ip, port, NewConnection(arg, ip, port, l));
      ev := EvAccept(l, ok, q, ip, port, block, now);
    }

    /** The stack makes the block of an incoming connection. */
    method StackBlock(q: Pid, t: Tcb)
      requires Valid() && q != NULL && q !in pcbs
      modifies this`pcbs, this`room
      ensures Valid() && pcbs == old(pcbs)[q := t]
    {
      pcbs := pcbs[q := t];
      var free: nat := *;
      room := room[q := free];
    }

    // -------------------------------------------------------------- starting a server

    /** tcp_bind. */
    method TcpBind(p: Pid) returns (err: Err)
      modifies this`log
      ensures log == old(log) + [Bind(p, err)]
    {
      err := *;
      log := log + [Bind(p, err)];
    }

    /** tcp_listen_with_backlog: a listening block replaces the unused one, which is freed; or NULL. */
    method TcpListen(p: Pid) returns (l: Pid)
      requires Valid() && p in pcbs
      modifies this`pcbs, this`room, this`log
      ensures Valid() && l !in old(pcbs) && log == old(log) + [Listen(p, l)]
      ensures pcbs == if l == NULL then old(pcbs) else old(pcbs)[p := Freed(old(pcbs)[p])][l := FreshTcb]
    {
      hide Linked;
      l := *;
      if l in pcbs { l := NULL; }
      if l != NULL {
        pcbs := pcbs[p := Freed(pcbs[p])];
        pcbs := pcbs[l := FreshTcb];
        var free: nat := *;
        room := room[l := free];
      }
      log := log + [Listen(p, l)];
    }

    /** tcp_close of a block that was never used: it is freed. */
    method TcpCloseUnused(p: Pid)
      requires Valid() && p in pcbs
      modifies this`pcbs, this`log
      ensures Valid() && pcbs == old(pcbs)[p := Freed(old(pcbs)[p])] && log == old(log) + [ClosePcb(p, Gone)]
    {
      hide Linked;
      SetPcb(p, Freed(pcbs[p]));
      log := log + [ClosePcb(p, Gone)];
    }

    /** The record of a server and its listening block, wired to each other and listed. */
    method ListenOn(s: Addr, l: Pid)
      requires Valid() && !headFreed && s in mem && s !in order && l in pcbs
      modifies this`mem, this`head, this`order, this`pcbs
      ensures Valid() && !headFreed && s in old(mem) && l in old(pcbs)
      ensures Abs() == old(Abs()).(recs := old(Abs()).recs[s := old(mem)[s].s.(serverPcb := l)],
                                   pcbs := old(pcbs)[l := old(pcbs)[l].(arg := s, onAccept := true)],
                                   order := [s] + old(order))
    {
      hide Linked, Recs;
      Update(s, mem[s].s.(serverPcb := l));
      SetPcb(l, pcbs[l].(arg := s, onAccept := true));
      ListAdd(s);
    }

    /** lwiperf_start_tcp_server_impl, its two leaking returns included. */
    method StartServerImpl(noAddr: bool, report: bool, master: Addr)
      returns (err: Err, state: Addr, ghost env: ServerEnv)
      requires Valid() && !headFreed
      modifies this
      ensures Valid() && !headFreed && FreshServer(old(Abs()), env)
      ensures IperfState.StartServerImpl(old(Abs()), noAddr, report, master, env) == Outcome(Abs(), err, state)
      ensures log == old(log) + ServerCalls(noAddr, env)
    {
      hide Linked, Recs;
      ghost var st := Abs();
      NotInRecs(mem, NULL);
      state, env := NULL, ServerEnv(NULL, NULL, ErrOk, NULL);
      NoServer(st, report, master, env);
      if noAddr { return ErrArg, NULL, env; }
      var s := Malloc();
      NotInRecs(mem, s);
      NotListed(mem, order, s);
      env := ServerEnv(s, NULL, ErrOk, NULL);
      if s == NULL { return ErrMem, NULL, env; }
      Fill(s, ZeroSession.(server := true, master := master, reports := report));
      err, state, env := OpenServer(s, report, master, st);
    }

    /** The rest of it, once there is memory for the record. */
    method OpenServer(s: Addr, report: bool, master: Addr, ghost st: State)
      returns (err: Err, state: Addr, ghost env: ServerEnv)
      requires Valid() && !headFreed && s in mem && s !in order && s != NULL && FreshBlock(st, s)
      requires mem[s].s == ZeroSession.(server := true, master := master, reports := report)
      requires Abs() == WithRec(st, s, mem[s].s)
      modifies this
      ensures Valid() && !headFreed && FreshServer(st, env)
      ensures IperfState.StartServerImpl(st, false, report, master, env) == Outcome(Abs(), err, state)
      ensures env.block == s && log == old(log) + ListenCalls(env)
    {
      hide Linked, Recs, IperfState.StartServerImpl, ListenCalls;
      state := NULL;
      var pcb := TcpNew(Listening);
      env := ServerEnv(s, pcb, ErrOk, NULL);
      ServerLogged(old(log), env);
      if pcb == NULL {
        leaked := leaked + {s};
        ServerLeaks(st, report, master, env, Abs());
        return ErrMem, NULL, env;
      }
      err := TcpBind(pcb);
      env := ServerEnv(s, pcb, err, NULL);
      ServerLogged(old(log), env);
      if err != ErrOk {
        leaked := leaked + {s};
        ServerLeaks(st, report, master, env, Abs());
        return err, NULL, env;
      }
      var l := TcpListen(pcb);
      env := ServerEnv(s, pcb, err, l);
      ServerLogged(old(log), env);
      if l == NULL {
        TcpCloseUnused(pcb);
        Free(s);
        ServerFails(st, report, master, env, ListenRecord(report, master, env), Abs());
        return ErrMem, NULL, env;
      }
      ListenOn(s, l);
      ServerUp(st, report, master, env, Abs());
      return ErrOk, s, env;
    }

    /** lwiperf_start_tcp_server: the handle, or NULL. */
    method StartServer(noAddr: bool, report: bool) returns (state: Addr, ghost ev: Event)
      requires Valid() && !headFreed
      modifies this
      ensures Valid() && ev.EvStartServer? && ev.noAddr == noAddr && ev.reports == report
      ensures Enabled(old(Abs()), ev) && Abs() == Step(old(Abs()), ev)
      ensures log == old(log) + EventCalls(old(Abs()), ev)
      ensures var senv := ev.senv;
              state == if !noAddr && senv.block != NULL && senv.pcb != NULL && senv.bind == ErrOk && senv.listen != NULL
                       then senv.block else NULL
      ensures state != NULL ==> order == [state] + old(order)
    {
      hide Linked, Recs, ServerCalls, IperfState.StartServerImpl;
      var err;
      ghost var env;
      err, state, env := StartServerImpl(noAddr, report, NULL);
      ServerHandle(old(Abs()), noAddr, report, NULL, env);
      ev := EvStartServer(noAddr, report, env);
    }

    // -------------------------------------------------------------- starting a client

    /** lwiperf_start_tcp_client: the handle, or NULL; if the secondary listener cannot be opened, the client
        that was just put at the head of the list is aborted. */
    method StartClient(kind: ClientType, ip: Ip, port: u16, report: bool) returns (handle: Addr, ghost ev: Event)
      requires Valid() && Owned(Abs())
      modifies this
      ensures Valid() && ev.EvStartClient? && ev.kind == kind && ev.ip == ip && ev.port == port && ev.reports == report
      ensures Enabled(old(Abs()), ev) && Abs() == Step(old(Abs()), ev)
      ensures log == old(log) + EventCalls(old(Abs()), ev)
      ensures var up := kind != InvalidType && ev.env.block != NULL && ev.env.pcb != NULL && ev.env.connect == ErrOk;
              var listens := ev.senv.block != NULL && ev.senv.pcb != NULL && ev.senv.bind == ErrOk &&
                             ev.senv.listen != NULL;
              handle == if up && (kind == UnidirectionalTest || listens) then ev.env.block else NULL
      ensures handle != NULL ==>
                handle in order && handle in mem && !mem[handle].s.server && mem[handle].s.connPcb == ev.env.pcb
    {
      hide Linked, Recs, TxStart, ClientSettings, IperfState.OpenSecondary, StartCalls, ServerCalls, Step, Enabled,
           EventCalls, Owned;
      ghost var st := Abs();
      NotInRecs(mem, NULL);
      handle := NULL;
      ghost var env, senv := StartEnv(NULL, NULL, 0, ErrOk, Gone), ServerEnv(NULL, NULL, ErrOk, NULL);
      ev := EvStartClient(kind, ip, port, report, env, senv);
      NotFreed(st);
      ClientEvent(st, ev);
      assert log + [] == log;
      if kind == InvalidType { return; }
      var settings := ClientSettings(kind);
      var err, state;
      err, state, env := TxStartImpl(settings, report, NULL, ip, port, Started(settings));
      ev := EvStartClient(kind, ip, port, report, env, senv);
      ClientEvent(st, ev);
      if err != ErrOk { return; }
      StartedClient(st, settings, report, ip, port, env);
      assert StartCalls(ip, port, env) + [] == StartCalls(ip, port, env);
      RecsHas(mem, state);
      if kind == UnidirectionalTest { return state, ev; }
      handle, senv := OpenSecondary(kind, state, report);
      ev := EvStartClient(kind, ip, port, report, env, senv);
      ClientEvent(st, ev);
      if handle != NULL { RecsHas(mem, handle); }
    }

    /** The secondary listener of a dual or tradeoff client. */
    method OpenSecondary(kind: ClientType, state: Addr, report: bool) returns (handle: Addr, ghost senv: ServerEnv)
      requires Valid() && !headFreed && state in mem && mem[state].s.connPcb in pcbs
      modifies this
      ensures Valid() && FreshServer(old(Abs()), senv)
      ensures var ip := old(pcbs)[old(mem)[state].s.connPcb].remoteIp;
              var o := IperfState.OpenSecondary(Outcome(old(Abs()), ErrOk, state), kind, ip, report, senv);
              o.st == Abs() && o.conn == handle
      ensures handle == if senv.block != NULL && senv.pcb != NULL && senv.bind == ErrOk && senv.listen != NULL
                        then state else NULL
      ensures log == old(log) + ServerCalls(false, senv)
    {
      hide Linked, Recs, AbortSession, ServerCalls, IperfState.StartServerImpl;
      ghost var st := Abs();
      RecsAt(mem, state);
      var p := mem[state].s.connPcb;
      var ip := pcbs[p].remoteIp;
      var err, server;
      err, server, senv := StartServerImpl(false, report, state);
      ServerHandle(st, false, report, state, senv);
      if err != ErrOk {
        Abort(state);
        return NULL, senv;
      }
      RecsHas(mem, server);
      var s := mem[server].s;
      s := s.(specificRemote := true, remoteAddr := ip);
      s := s.(tradeoff := kind == Tradeoff);
      Update(server, s);
      handle := state;
    }

    // -------------------------------------------------------------- everything together

    /** One callback on block p, if the stack may make it. */
    method Callback(p: Pid) returns (ghost evs: seq<Event>)
      requires Valid() && Owned(Abs())
      modifies this
      ensures Valid() && Moved(old(Abs()), evs, Abs()) && Owned(Abs())
      ensures log == old(log) + RunCalls(old(Abs()), evs)
    {
      hide Linked, Recs, Step, Enabled, Owned, EventCalls, RunCalls;
      RunNone(Abs());
      assert log + [] == log;
      ghost var st := Abs();
      evs := [];
      if p !in pcbs || !pcbs[p].Armed() { return; }
      OneSide(st, p);
      var which: int := *;
      var ok: bool := *;
      ghost var ev;
      if which == 0 && pcbs[p].onAccept {
        ev := Incoming(p, ok);
      } else if which == 1 && pcbs[p].onConnected {
        var err;
        err, ev := ClientConnected(pcbs[p].arg, p, if ok then ErrOk else ErrOther);
      } else if which == 2 && pcbs[p].onSent {
        var err;
        err, ev := ClientSent(pcbs[p].arg, p, 0);
      } else if which == 3 && pcbs[p].onRecv {
        ev := Arriving(p, ok);
      } else if which == 4 && pcbs[p].onPoll {
        var err;
        err, ev := Poll(pcbs[p].arg, p);
      } else if which == 5 && pcbs[p].onErr {
        ev := TcpErr(pcbs[p].arg, p);
      } else if which == 6 && pcbs[p].onSent && !pcbs[p].onConnected {
        ev := Vanish(p);
        assert log + [] == log;
      } else {
        return;
      }
      NeverAborts(st, ev);
      StepOwned(st, ev);
      RunOne(st, ev);
      evs := [ev];
    }

    /** A connection arrives at a listening block. */
    method Incoming(l: Pid, ok: bool) returns (ghost ev: Event)
      requires Valid() && Owned(Abs()) && l in pcbs && pcbs[l].onAccept
      modifies this
      ensures Valid() && ev.EvAccept? && Enabled(old(Abs()), ev) && Abs() == Step(old(Abs()), ev)
      ensures log == old(log) + EventCalls(old(Abs()), ev)
    {
      var q: Pid, ip: Ip, port: u16 := *, *, *;
      if q in pcbs { q := NULL; }
      var err;
      err, ev := DeliverAccept(l, ok, q, ip, port);
    }

    /** A packet, the end of the stream or an error arrives at a receiving block. */
    method Arriving(p: Pid, ok: bool) returns (ghost ev: Event)
      requires p in pcbs && CalledOn(p, pcbs[p].arg) && pcbs[p].onRecv
      modifies this
      ensures Valid() && (ev.EvRecv? || ev.EvRecvEnd? || ev.EvRecvErr?)
      ensures Enabled(old(Abs()), ev) && Abs() == Step(old(Abs()), ev)
      ensures log == old(log) + EventCalls(old(Abs()), ev)
    {
      var pkts: seq<Pbuf> := *;
      if |pkts| > 1 || (pkts != [] && !IsPacket(pkts[0])) { pkts := []; }
      var err;
      err, ev := Recv(pcbs[p].arg, p, pkts, if ok then ErrOk else ErrOther);
    }

    /** One call of the user's; after an abort, or a start that may have ended in one, nobody calls any more. */
    method UserCall() returns (going: bool, ghost ev: Event)
      requires Valid() && Owned(Abs())
      modifies this
      ensures Valid() && Enabled(old(Abs()), ev) && Abs() == Step(old(Abs()), ev) && (going ==> Owned(Abs()))
      ensures log == old(log) + EventCalls(old(Abs()), ev)
    {
      hide Linked, Recs, Step, Enabled, Owned, IperfState.StartClient, EventCalls;
      ghost var st := Abs();
      NotFreed(st);
      var which: int, report: bool, noAddr: bool := *, *, *;
      going := true;
      if which == 0 {
        var state;
        state, ev := StartServer(noAddr, report);
        NeverAborts(st, ev);
        StepOwned(st, ev);
      } else if which == 1 {
        var kind: ClientType, ip: Ip, port: u16 := *, *, *;
        var handle;
        handle, ev := StartClient(kind, ip, port, report);
        going := handle != NULL;
        if handle != NULL { HandleMeansUp(st, ev); }
        StepOwned(st, ev);
      } else {
        var session: Addr := *;
        Abort(session);
        ev := EvAbort(session);
        AbortStep(st, session);
        assert log + [] == log;
        going := false;
      }
    }

    /** n moves of the stack, the peers and the user, in any order: whatever they do, the engine goes through a run of
        the specification. */
    method Drive(n: nat) returns (ghost es: seq<Event>)
      requires Valid() && Owned(Abs())
      modifies this
      ensures Valid() && Runs(old(Abs()), es) && Abs() == Run(old(Abs()), es)
      ensures log == old(log) + RunCalls(old(Abs()), es)
    {
      hide Linked, Recs, Step, Enabled, Owned, Runs, Run, RunCalls, Moved, EventCalls;
      ghost var st := Abs();
      es := [];
      RunNone(st);
      var going, i := true, 0;
      while i < n && going
        invariant Valid() && Runs(st, es) && Abs() == Run(st, es) && (going ==> Owned(Abs()))
        invariant log == old(log) + RunCalls(st, es)
      {
        var user: bool, p: Pid, acknowledged: nat := *, *, *;
        ghost var evs;
        if user {
          ghost var ev;
          going, ev := UserCall();
          RunOne(Run(st, es), ev);
          evs := [ev];
        } else {
          if p in pcbs { Acknowledge(p, acknowledged); }
          evs := Callback(p);
        }
        RunLonger(st, es, evs, Abs(), old(log));
        es := es + evs;
        i := i + 1;
      }
    }
  }

  /** From power-up, whatever happens: the engine is where the specification's run leads. */
  method Life(m: Mss, n: nat) returns (e: Engine, ghost es: seq<Event>)
    ensures fresh(e) && e.Valid() && Runs(InitState(m), es) && e.Abs() == Run(InitState(m), es)
    ensures e.log == RunCalls(InitState(m), es)
  {
    e := new Engine(m);
    es := e.Drive(n);
  }
}
