/** Two hosts running the engine against each other: how many test connections one start can cause. */
module Endpoints {
  import opened Words
  import opened WireSettings
  import opened IperfState
  import opened Ownership
  import opened Isolation
  import opened Creation
  import opened Effects
  import opened Sending
  import opened Answering

  // ---------------------------------------------------------------- two hosts and the wire between them

  datatype Side = Left | Right

  /** links(Left)[q] is the sending block on the right whose connection the left accepted as q. */
  datatype Net = Net(left: State, right: State, toLeft: map<Pid, Pid>, toRight: map<Pid, Pid>)

  datatype NetEvent = NetEvent(at: Side, e: Event, peer: Pid)

  function Host(net: Net, s: Side): State {
    if s == Left then net.left else net.right
  }

  function Far(net: Net, s: Side): State {
    if s == Left then net.right else net.left
  }

  function Links(net: Net, s: Side): map<Pid, Pid> {
    if s == Left then net.toLeft else net.toRight
  }

  /** TCP delivers in order and without loss: the packet is the next part of what the far end wrote. */
  predicate Delivers(h: State, o: State, links: map<Pid, Pid>, e: Event) {
    e.EvRecv? && e.p in links && links[e.p] in o.pcbs && e.p in h.pcbs ==>
      var w, n := o.pcbs[links[e.p]].written, h.pcbs[e.p].credit;
      n + TotLen(e.pkt) <= |w| && Flat(e.pkt.chain) == w[n..n + TotLen(e.pkt)]
  }

  /** A connection is accepted from a sending block of the other host that was not accepted before. */
  predicate Connects(o: State, links: map<Pid, Pid>, e: Event, peer: Pid) {
    e.EvAccept? && e.q != NULL ==>
      peer in o.pcbs && o.pcbs[peer].origin.Sender() && peer !in links.Values
  }

  ghost predicate NetEnabled(net: Net, n: NetEvent) {
    var h, o, links := Host(net, n.at), Far(net, n.at), Links(net, n.at);
    && Enabled(h, n.e) && !Aborts(h, n.e) && Delivers(h, o, links, n.e) && Connects(o, links, n.e, n.peer)
  }

  function Linked(links: map<Pid, Pid>, e: Event, peer: Pid): map<Pid, Pid> {
    if e.EvAccept? && e.q != NULL then links[e.q := peer] else links
  }

  function NetStep(net: Net, n: NetEvent): Net {
    if n.at == Left then net.(left := Step(net.left, n.e), toLeft := Linked(net.toLeft, n.e, n.peer))
    else net.(right := Step(net.right, n.e), toRight := Linked(net.toRight, n.e, n.peer))
  }

  ghost predicate NetRuns(net: Net, ns: seq<NetEvent>)
    decreases |ns|
  {
    ns == [] || (NetEnabled(net, ns[0]) && NetRuns(NetStep(net, ns[0]), ns[1..]))
  }

  function NetRun(net: Net, ns: seq<NetEvent>): Net
    decreases |ns|
  {
    if ns == [] then net else NetRun(NetStep(net, ns[0]), ns[1..])
  }

  // ---------------------------------------------------------------- one host's invariants

  /** Before its header arrives a received session has been given nothing and asks for nothing. */
  ghost predicate HeaderlessOk(st: State, p: Pid) {
    Live(st, p) && Arg(st, p) in st.recs && SessionOf(st, p).server && !SessionOf(st, p).haveSettings ==>
      st.pcbs[p].credit == 0 && !AnswerTest(SessionOf(st, p).settings)
  }

  ghost predicate HostOk(st: State) {
    && Owned(st) && Streams(st) && Roles(st) && AnsweredOnce(st)
    && forall p :: HeaderlessOk(st, p)
  }

  lemma SubjectHeaderless(st: State, e: Event)
    requires Owned(st) && Enabled(st, e) && Subject(e) != NULL && HeaderlessOk(st, Subject(e))
    ensures HeaderlessOk(Step(st, e), Subject(e))
  {
    hide Step, Enabled, Flat, AnswerTest;
    SubjectAfter(st, e);
    SubjectRole(st, e);
    if e.EvRecv? && !SessionOf(st, e.p).haveSettings && TotLen(e.pkt) >= HEADER {
      FirstHeader(SessionOf(st, e.p), st.mss, e);
    }
  }

  lemma StepHeaderless(st: State, e: Event, p: Pid)
    requires Owned(st) && Enabled(st, e) && !Aborts(st, e) && HeaderlessOk(st, p)
    ensures HeaderlessOk(Step(st, e), p)
  {
    hide Step, Enabled;
    if p in Step(st, e).pcbs && p !in st.pcbs { EventCreates(st, e, p); }
    else if p in st.pcbs {
      if p == Subject(e) { SubjectHeaderless(st, e); }
      else if Listener(st, p) { ListenerStays(st, e, p); CallbackArgument(st, p); }
      else { EventIsLocal(st, e, p); if Live(st, p) { CallbackArgument(st, p); } }
    }
  }

  lemma StepHostOk(st: State, e: Event)
    requires HostOk(st) && Enabled(st, e) && !Aborts(st, e)
    ensures HostOk(Step(st, e))
  {
    hide Step, Enabled;
    StepOwned(st, e);
    StepStreams(st, e);
    StepRoles(st, e);
    StepAnswers(st, e);
    forall p ensures HeaderlessOk(Step(st, e), p) { StepHeaderless(st, e, p); }
  }

  // ---------------------------------------------------------------- across the wire

  ghost predicate LinkOk(h: State, o: State, links: map<Pid, Pid>, q: Pid) {
    && q in h.pcbs && q in links && links[q] in o.pcbs && o.pcbs[links[q]].origin.Sender()
    // the far end of an answer never asks for one
    && (o.pcbs[links[q]].origin.Reverse? && Live(h, q) && Arg(h, q) in h.recs ==> !AnswerTest(SessionOf(h, q).settings))
  }

  /** h's accepted connections and their far ends on o; what h answered came from a user's start on o. */
  ghost predicate WireOk(h: State, o: State, links: map<Pid, Pid>) {
    && (forall q :: q in links ==> LinkOk(h, o, links, q))
    && (forall q, q' :: q in links && q' in links && links[q] == links[q'] ==> q == q')
    && (forall q :: q in h.pcbs && h.pcbs[q].origin.Accepted? ==> q in links)
    && (forall r, q :: Answers(h, r, q) ==> q in links && links[q] in o.pcbs && o.pcbs[links[q]].origin.Started?)
  }

  /** The far host moves: its blocks keep their origins. */
  lemma FarStep(h: State, o: State, links: map<Pid, Pid>, e: Event)
    requires WireOk(h, o, links) && HostOk(o) && Enabled(o, e) && !Aborts(o, e)
    ensures WireOk(h, Step(o, e), links)
  {
    hide Step, Enabled, Owned, AnswerTest;
    forall p | p in o.pcbs ensures p in Step(o, e).pcbs && Step(o, e).pcbs[p].origin == o.pcbs[p].origin {
      OriginFixed(o, e, p);
    }
  }

  /** The first header of a session is the beginning of what its far end wrote. */
  lemma HeaderFromWire(h: State, o: State, links: map<Pid, Pid>, e: Event)
    requires HostOk(h) && HostOk(o) && WireOk(h, o, links) && Enabled(h, e) && Delivers(h, o, links, e)
    requires e.EvRecv? && TotLen(e.pkt) >= HEADER
    requires Live(h, e.p) && Arg(h, e.p) in h.recs && SessionOf(h, e.p).server && !SessionOf(h, e.p).haveSettings
    requires e.p in links
    ensures links[e.p] in o.pcbs && o.pcbs[links[e.p]].origin.Sender()
    ensures Flat(e.pkt.chain)[..HEADER] == o.pcbs[links[e.p]].origin.header
  {
    hide Owned, Enabled, Roles, AnsweredOnce, Flat;
    assert HeaderlessOk(h, e.p) && LinkOk(h, o, links, e.p);
    var p := links[e.p];
    var t := o.pcbs[p];
    assert SenderOk(o, p);
    var head := First(t.written, TWO32);
    assert Continues(t.origin.header, 0, head);
    assert Flat(e.pkt.chain)[..HEADER] == t.written[..HEADER];
    forall i | 0 <= i < HEADER ensures t.written[i] == t.origin.header[i] {
      assert head[i] == StreamByte(t.origin.header, 0 + i);
    }
  }

  /** An answering host asks nothing of the far end: its header has the test flag clear. */
  lemma AnswersAskNothing(o: State, p: Pid)
    requires AnsweredOnce(o) && p in o.pcbs && o.pcbs[p].origin.Reverse?
    ensures !AnswerTest(o.pcbs[p].origin.header)
  {
    var q := o.pcbs[p].origin.of;
    assert Answers(o, p, q);
    assert AnswerOk(o, p, q);
  }

  lemma SubjectLink(h: State, o: State, links: map<Pid, Pid>, e: Event)
    requires HostOk(h) && HostOk(o) && WireOk(h, o, links) && Enabled(h, e) && !Aborts(h, e) && Delivers(h, o, links, e)
    requires Subject(e) != NULL && Subject(e) in links
    ensures LinkOk(Step(h, e), o, links, Subject(e))
  {
    hide Step, Enabled, Owned, Flat, HeaderDue, AnswerTest, Streams, Roles;
    var q := Subject(e);
    assert LinkOk(h, o, links, q);
    SubjectAfter(h, e);
    SubjectRole(h, e);
    var s := SessionOf(h, q);
    if Live(Step(h, e), q) && o.pcbs[links[q]].origin.Reverse? {
      if s.haveSettings { HeaderStays(s, h.mss, e); }
      else if e.EvRecv? {
        HeaderDueFirst(s);
        HeaderFromWire(h, o, links, e);
        AnswersAskNothing(o, links[q]);
        FirstHeader(s, h.mss, e);
      }
    }
  }

  lemma HeaderDueFirst(s: Session)
    requires !s.haveSettings
    ensures HeaderDue(s.(pollCount := 0))
  {
  }

  /** A connection just accepted asks for nothing. */
  lemma AcceptLink(h: State, o: State, links: map<Pid, Pid>, e: Event, peer: Pid)
    requires Owned(h) && Enabled(h, e) && e.EvAccept? && e.q != NULL && Connects(o, links, e, peer)
    ensures LinkOk(Step(h, e), o, Linked(links, e, peer), e.q)
  {
    hide Step, ListenerOk, ConnectionOk, CallbackOk;
    AcceptedBlock(h, e);
    AcceptNewborn(h, e, e.q);
  }

  lemma AcceptedBlock(h: State, e: Event)
    requires Owned(h) && Enabled(h, e) && e.EvAccept? && e.q != NULL
    ensures e.q in Step(h, e).pcbs
  {
    CallbackArgument(h, e.l);
  }

  lemma OldLink(h: State, o: State, links: map<Pid, Pid>, e: Event, q: Pid)
    requires HostOk(h) && HostOk(o) && WireOk(h, o, links) && Enabled(h, e) && !Aborts(h, e)
    requires Delivers(h, o, links, e) && q in links
    ensures LinkOk(Step(h, e), o, links, q)
  {
    hide Step, Enabled, AnswerTest, Streams, Roles, AnsweredOnce;
    assert LinkOk(h, o, links, q);
    if q == Subject(e) { SubjectLink(h, o, links, e); }
    else if Listener(h, q) { ListenerStays(h, e, q); CallbackArgument(h, q); }
    else { EventIsLocal(h, e, q); if Live(h, q) { CallbackArgument(h, q); } }
  }

  /** A new answer goes to a session whose far end a user started. */
  lemma NewAnswerWire(h: State, o: State, links: map<Pid, Pid>, e: Event, r: Pid, q: Pid)
    requires HostOk(h) && HostOk(o) && WireOk(h, o, links) && Enabled(h, e) && !Aborts(h, e)
    requires Delivers(h, o, links, e) && r !in h.pcbs && Answers(Step(h, e), r, q)
    ensures q in links && links[q] in o.pcbs && o.pcbs[links[q]].origin.Started?
  {
    hide Step, Enabled, AnswerTest, AnswerNow, Flat, Streams;
    EventCreates(h, e, r);
    assert Provenance(h, e, r, Step(h, e).pcbs[r].origin);
    SubjectNotNull(h, e);
    SubjectAfter(h, e);
    SubjectRole(h, e);
    assert RoleOk(h, q) && q in links && LinkOk(h, o, links, q);
    if o.pcbs[links[q]].origin.Reverse? {
      AnswersAskNothing(o, links[q]);
      if e.EvRecv? { HeaderFromWire(h, o, links, e); }
    }
  }

  lemma NearStep(h: State, o: State, links: map<Pid, Pid>, e: Event, peer: Pid)
    requires HostOk(h) && HostOk(o) && WireOk(h, o, links) && Enabled(h, e) && !Aborts(h, e)
    requires Delivers(h, o, links, e) && Connects(o, links, e, peer)
    ensures WireOk(Step(h, e), o, Linked(links, e, peer))
  {
    hide Step, LinkOk, HostOk, Delivers;
    var h', links' := Step(h, e), Linked(links, e, peer);
    LinkKeys(h, o, links, e);
    forall q | q in links' ensures LinkOk(h', o, links', q) {
      if q in links {
        OldLink(h, o, links, e, q);
        SameLink(h', o, links, links', q);
      } else {
        HostOwned(h);
        AcceptLink(h, o, links, e, peer);
      }
    }
    forall q | q in h'.pcbs && h'.pcbs[q].origin.Accepted? ensures q in links' {
      HostOwned(h);
      if q in h.pcbs { OriginFixed(h, e, q); } else { NewAccepted(h, e, q); }
    }
    forall r, q | Answers(h', r, q) ensures q in links' && links'[q] in o.pcbs && o.pcbs[links'[q]].origin.Started? {
      HostOwned(h);
      if r in h.pcbs { OriginFixed(h, e, r); assert Answers(h, r, q); } else { NewAnswerWire(h, o, links, e, r, q); }
    }
  }

  lemma HostOwned(h: State)
    requires HostOk(h)
    ensures Owned(h)
  {
  }

  lemma SameLink(h: State, o: State, links: map<Pid, Pid>, links': map<Pid, Pid>, q: Pid)
    requires LinkOk(h, o, links, q) && q in links' && links'[q] == links[q]
    ensures LinkOk(h, o, links', q)
  {
  }

  lemma LinkKeys(h: State, o: State, links: map<Pid, Pid>, e: Event)
    requires WireOk(h, o, links) && Enabled(h, e)
    ensures e.EvAccept? ==> e.q !in links
  {
    assert forall q :: q in links ==> LinkOk(h, o, links, q);
  }

  lemma NewAccepted(h: State, e: Event, q: Pid)
    requires Owned(h) && Enabled(h, e) && !Aborts(h, e)
    requires q !in h.pcbs && q in Step(h, e).pcbs && Step(h, e).pcbs[q].origin.Accepted?
    ensures e.EvAccept? && q == e.q && q != NULL
  {
    EventCreates(h, e, q);
    StepOwned(h, e);
  }

  // ---------------------------------------------------------------- whole runs

  ghost predicate NetOk(net: Net) {
    && HostOk(net.left) && HostOk(net.right)
    && WireOk(net.left, net.right, net.toLeft) && WireOk(net.right, net.left, net.toRight)
  }

  lemma NetStepOk(net: Net, n: NetEvent)
    requires NetOk(net) && NetEnabled(net, n)
    ensures NetOk(NetStep(net, n))
  {
    hide HostOk, WireOk, Step, Enabled, Aborts;
    var h, o := Host(net, n.at), Far(net, n.at);
    StepHostOk(h, n.e);
    NearStep(h, o, Links(net, n.at), n.e, n.peer);
    FarStep(o, h, if n.at == Left then net.toRight else net.toLeft, n.e);
  }

  lemma {:induction false} NetRunOk(net: Net, ns: seq<NetEvent>)
    requires NetOk(net) && NetRuns(net, ns)
    ensures NetOk(NetRun(net, ns))
    decreases |ns|
  {
    hide NetOk, NetEnabled, NetStep;
    if ns != [] {
      NetStepOk(net, ns[0]);
      NetRunOk(NetStep(net, ns[0]), ns[1..]);
    }
  }

  // ---------------------------------------------------------------- counting

  function StartedAt(st: State): set<Pid> {
    set p | p in st.pcbs && st.pcbs[p].origin.Started?
  }

  function AnswersAt(st: State): set<Pid> {
    set p | p in st.pcbs && st.pcbs[p].origin.Reverse?
  }

  lemma {:induction false} InjectionBound(S: set<Pid>, T: set<Pid>, f: map<Pid, Pid>)
    requires forall x :: x in S ==> x in f && f[x] in T
    requires forall x, y :: x in S && y in S && f[x] == f[y] ==> x == y
    ensures |S| <= |T|
    decreases S
  {
    if x :| x in S {
      InjectionBound(S - {x}, T - {f[x]}, f);
    }
  }

  /** Each answer of h belongs to a different user start of o. */
  lemma AnswersBoundedByStarts(h: State, o: State, links: map<Pid, Pid>)
    requires HostOk(h) && WireOk(h, o, links)
    ensures |AnswersAt(h)| <= |StartedAt(o)|
  {
    hide Owned, Streams, Roles, LinkOk;
    forall r | r in AnswersAt(h)
      ensures var q := h.pcbs[r].origin.of; Answers(h, r, q) && q in links && links[q] in StartedAt(o)
    {
      assert Answers(h, r, h.pcbs[r].origin.of);
    }
    var f := map r | r in AnswersAt(h) :: links[h.pcbs[r].origin.of];
    forall x, y | x in AnswersAt(h) && y in AnswersAt(h) && f[x] == f[y] ensures x == y {
      var q := h.pcbs[x].origin.of;
      assert Answers(h, x, q) && Answers(h, y, q);
    }
    InjectionBound(AnswersAt(h), StartedAt(o), f);
  }

  function UserStarts(ns: seq<NetEvent>): nat {
    if ns == [] then 0 else (if ns[0].e.EvStartClient? then 1 else 0) + UserStarts(ns[1..])
  }

  /** One event creates at most one user-started connection, and only a user's start does. */
  lemma StartsGrow(st: State, e: Event)
    requires Owned(st) && Enabled(st, e) && !Aborts(st, e)
    ensures |StartedAt(Step(st, e))| <= |StartedAt(st)| + (if e.EvStartClient? then 1 else 0)
  {
    hide Step, Enabled, Owned;
    var st' := Step(st, e);
    forall p | p in StartedAt(st') ensures p in StartedAt(st) || (e.EvStartClient? && p == e.env.pcb) {
      if p in st.pcbs { OriginFixed(st, e, p); } else { EventCreates(st, e, p); }
    }
    if e.EvStartClient? {
      SubsetSize(StartedAt(st'), StartedAt(st) + {e.env.pcb});
    } else {
      SubsetSize(StartedAt(st'), StartedAt(st));
    }
  }

  lemma {:induction false} StartsBounded(net: Net, ns: seq<NetEvent>)
    requires NetOk(net) && NetRuns(net, ns)
    ensures var net' := NetRun(net, ns);
            |StartedAt(net'.left)| + |StartedAt(net'.right)|
              <= |StartedAt(net.left)| + |StartedAt(net.right)| + UserStarts(ns)
    decreases |ns|
  {
    hide NetOk, Step, Enabled, Aborts, HostOk;
    if ns != [] {
      StartsGrowNet(net, ns[0]);
      NetStepOk(net, ns[0]);
      StartsBounded(NetStep(net, ns[0]), ns[1..]);
    }
  }

  lemma StartsGrowNet(net: Net, n: NetEvent)
    requires NetOk(net) && NetEnabled(net, n)
    ensures var net' := NetStep(net, n);
            |StartedAt(net'.left)| + |StartedAt(net'.right)|
              <= |StartedAt(net.left)| + |StartedAt(net.right)| + (if n.e.EvStartClient? then 1 else 0)
  {
    hide Step, Enabled, Owned, WireOk;
    StartsGrow(Host(net, n.at), n.e);
  }

  function IdleNet(mss: Mss, mss': Mss): Net {
    Net(InitState(mss), InitState(mss'), map[], map[])
  }

  /** Whatever two hosts do to each other, they open at most two test connections for every client start:
      the one the user asked for and at most one back, which is never answered in turn. */
  lemma {:induction false} AtMostTwoConnections(mss: Mss, mss': Mss, ns: seq<NetEvent>)
    requires NetRuns(IdleNet(mss, mss'), ns)
    ensures var net := NetRun(IdleNet(mss, mss'), ns);
            |StartedAt(net.left)| + |AnswersAt(net.left)| + |StartedAt(net.right)| + |AnswersAt(net.right)|
              <= 2 * UserStarts(ns)
  {
    var net0 := IdleNet(mss, mss');
    assert StartedAt(net0.left) == {} && StartedAt(net0.right) == {};
    assert NetOk(net0);
    hide HostOk, WireOk, NetRuns;
    NetRunOk(net0, ns);
    StartsBounded(net0, ns);
    var net := NetRun(net0, ns);
    AnswersBoundedByStarts(net.left, net.right, net.toLeft);
    AnswersBoundedByStarts(net.right, net.left, net.toRight);
  }
}
