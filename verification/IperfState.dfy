/** The abstract state of the iperf engine and one transition function per entry point.
    Memory is explicit: a record is an entry of `recs` at the address malloc returned, freeing
    removes the entry, and a later malloc may hand the same address out again. */
module IperfState {
  import opened Words
  import opened WireSettings

  type Addr = nat   // address of an lwiperf record; NULL is 0
  type Pid = nat    // name of a TCP control block, never reused; NULL is 0
  type Ip = nat
  const NULL: nat := 0

  /** TCP_MSS: header arithmetic needs more than 24, the 1600-byte buffer at most 1591. */
  type Mss = m: nat | HEADER < m <= 1591 witness 1460

  const MAX_IDLE: nat := 10          // LWIPERF_TCP_MAX_IDLE_SEC
  const BLOCK: nat := 131072         // 1024 * 128
  const TXBUF: nat := 1600
  const DEFAULT_PORT: nat := 5001    // LWIPERF_TCP_PORT_DEFAULT

  datatype Session = Session(
    server: bool, master: Addr, serverPcb: Pid, connPcb: Pid, timeStarted: u32,
    reports: bool, pollCount: u8, tradeoff: bool, bytes: u32, settings: Settings,
    haveSettings: bool, specificRemote: bool, remoteAddr: Ip)

  /** The record after memset(0). */
  const ZeroSession := Session(false, NULL, NULL, NULL, 0, false, 0, false, 0, ZeroSettings(), false, false, 0)

  /** Why a control block came into being; a sender's also says which header it is to send. */
  datatype Origin = Listening | Dropped | Accepted(listener: Pid) | Started(header: Settings)
                  | Reverse(of: Pid, header: Settings)
  {
    predicate Sender() { Started? || Reverse? }
  }

  /** A control block as the stack keeps it: the callback argument, the armed callbacks, and the
      history of what was written to it, how much receive window was given back, and its origin. */
  datatype Tcb = Tcb(
    arg: Addr, onAccept: bool, onConnected: bool, onSent: bool, onRecv: bool, onPoll: bool,
    onErr: bool, freed: bool, remoteIp: Ip, remotePort: u16, written: seq<u8>, credit: nat, origin: Origin)
  {
    predicate Armed() {
      onAccept || onConnected || onSent || onRecv || onPoll || onErr
    }
  }

  datatype Kind = DoneServer | DoneClient | AbortedLocal | AbortedLocalDataError
                | AbortedLocalTxError | AbortedRemote

  /** One call of the user's report function; pcb is NULL when the addresses are read through NULL. */
  datatype Report = Report(session: Addr, kind: Kind, pcb: Pid, bytes: u32)

  datatype Err = ErrOk | ErrMem | ErrVal | ErrArg | ErrOther

  datatype State = State(
    mss: Mss,
    recs: map<Addr, Session>,     // allocated records
    order: seq<Addr>,             // the active list, from its head
    headFreed: bool,              // the list head points at freed memory
    leaked: set<Addr>,            // allocated, on no list, never to be freed
    pcbs: map<Pid, Tcb>,          // every control block ever made
    reports: seq<Report>,
    freed: seq<nat>,              // packet buffers given back
    vanished: set<Pid>)           // control blocks the stack freed without a word

  function InitState(mss: Mss): State {
    State(mss, map[], [], false, {}, map[], [], [], {})
  }

  /** A record updated in place. */
  function WithRec(st: State, a: Addr, s: Session): State {
    st.(recs := st.recs[a := s])
  }

  // ---------------------------------------------------------------- active list

  function Without(s: seq<Addr>, a: Addr): seq<Addr> {
    if s == [] then [] else if s[0] == a then s[1..] else [s[0]] + Without(s[1..], a)
  }

  // ---------------------------------------------------------------- closing

  /** How the stack answered tcp_close: the block is gone, it lingers in a closing state, or the
      call failed and the engine aborts the block. */
  datatype Closing = Gone | Lingers | Fails

  function Freed(t: Tcb): Tcb {
    t.(onAccept := false, onConnected := false, onSent := false, onRecv := false, onPoll := false,
       onErr := false, freed := true)
  }

  /** The callbacks lwiperf_tcp_close disarms; the connected callback is not among them. */
  function Disarmed(t: Tcb): Tcb {
    t.(arg := NULL, onSent := false, onRecv := false, onPoll := false, onErr := false)
  }

  /** tcp_close on a connection that is still connecting frees it. */
  function TcpClosed(t: Tcb, how: Closing): Tcb {
    if how == Lingers && !t.onConnected then t else Freed(t)
  }

  function Reported(st: State, a: Addr, kind: Kind): seq<Report>
    requires a in st.recs
  {
    var s := st.recs[a];
    if s.reports then st.reports + [Report(a, kind, s.connPcb, s.bytes)] else st.reports
  }

  function PcbsAfterClose(st: State, s: Session, how: Closing): map<Pid, Tcb> {
    if s.connPcb != NULL then
      if s.connPcb in st.pcbs then
        st.pcbs[s.connPcb := TcpClosed(Disarmed(st.pcbs[s.connPcb]), how)]
      else st.pcbs
    else if s.serverPcb in st.pcbs then
      st.pcbs[s.serverPcb := Freed(st.pcbs[s.serverPcb])]
    else st.pcbs
  }

  /** lwiperf_tcp_close. */
  function Close(st: State, a: Addr, kind: Kind, how: Closing): State
    requires a in st.recs
  {
    st.(recs := st.recs - {a}, order := Without(st.order, a), reports := Reported(st, a, kind),
        pcbs := PcbsAfterClose(st, st.recs[a], how))
  }

  // ---------------------------------------------------------------- sending

  /** lwiperf_txbuf_const. */
  function TxBuf(): (b: seq<u8>)
    ensures |b| == TXBUF && forall i :: 0 <= i < TXBUF ==> b[i] == 48 + i % 10
  {
    seq(TXBUF, i requires 0 <= i < TXBUF => 48 + i % 10)
  }

  predicate LimitReached(s: Session, now: u32) {
    if TimeLimited(s.settings) then Sub32(now, s.timeStarted) >= TimeLimitMs(s.settings)
    else s.bytes >= Amount(s.settings)
  }

  /** What the next tcp_write is offered, at full length. */
  function Offer(s: Session, mss: Mss): (d: seq<u8>)
    ensures 0 < |d| <= mss
  {
    if s.bytes < HEADER then s.settings[s.bytes..]
    else if s.bytes < 2 * HEADER then s.settings[s.bytes - HEADER..]
    else
      var len := if s.bytes == 2 * HEADER then mss - HEADER else mss;
      TxBuf()[s.bytes % 10..s.bytes % 10 + len]
  }

  function Halve(n: nat, k: nat): (h: nat)
    ensures h <= n
  {
    if k == 0 then n else Halve(n, k - 1) / 2
  }

  /** One round of the send loop: the clock reading, how many writes were refused with ERR_MEM and
      retried at half length, and the answer that ended the retries. */
  datatype Turn = Turn(now: u32, halvings: nat, err: Err)

  predicate IsTurn(t: Turn, max: nat, mss: Mss) {
    && (forall j :: 1 <= j <= t.halvings ==> Halve(max, j) >= mss / 2)
    && (t.err == ErrMem ==> Halve(max, t.halvings + 1) < mss / 2)
  }

  function Taken(s: Session, mss: Mss, t: Turn): seq<u8> {
    if t.err == ErrOk then Offer(s, mss)[..Halve(|Offer(s, mss)|, t.halvings)] else []
  }

  /** tcp_write took `data`: it joins the stream, and the record counts it modulo 2^32. */
  function Wrote(st: State, a: Addr, data: seq<u8>): State
    requires a in st.recs && st.recs[a].connPcb in st.pcbs
  {
    var s := st.recs[a];
    var t := st.pcbs[s.connPcb];
    st.(recs := st.recs[a := s.(bytes := Add32(s.bytes, |data|))],
        pcbs := st.pcbs[s.connPcb := t.(written := t.written + data)])
  }

  /** lwiperf_tcp_client_send_more over the rounds the stack's answers produced. */
  function SendMore(st: State, a: Addr, turns: seq<Turn>, how: Closing): State
    requires a in st.recs && st.recs[a].connPcb in st.pcbs
    decreases |turns|
  {
    if turns == [] then st
    else
      var s := st.recs[a];
      if LimitReached(s, turns[0].now) then Close(st, a, DoneClient, how)
      else
        var st' := Wrote(st, a, Taken(s, st.mss, turns[0]));
        if turns[0].err == ErrOk && s.bytes >= HEADER then SendMore(st', a, turns[1..], how) else st'
  }

  /** The rounds are answers the stack can give, none is missing, and none follows the last. */
  predicate Rounds(s: Session, mss: Mss, turns: seq<Turn>)
    decreases |turns|
  {
    && turns != []
    && if LimitReached(s, turns[0].now) then |turns| == 1
       else
         && IsTurn(turns[0], |Offer(s, mss)|, mss)
         && if turns[0].err == ErrOk && s.bytes >= HEADER then
              Rounds(s.(bytes := Add32(s.bytes, |Taken(s, mss, turns[0])|)), mss, turns[1..])
            else |turns| == 1
  }

  // ---------------------------------------------------------------- starting a client

  /** Answers while a client starts: malloc, tcp_new, the clock, tcp_connect, and tcp_close if needed. */
  datatype StartEnv = StartEnv(block: Addr, pcb: Pid, now: u32, connect: Err, how: Closing)

  datatype Outcome = Outcome(st: State, err: Err, conn: Addr)

  function ClientRecord(settings: Settings, reports: bool, master: Addr, pcb: Pid, now: u32): Session {
    ZeroSession.(master := master, connPcb := pcb, timeStarted := now, reports := reports,
                 settings := settings, haveSettings := true)
  }

  function ClientTcb(block: Addr, ip: Ip, port: u16, why: Origin, connected: bool): Tcb {
    Tcb(block, false, connected, true, false, true, true, false, ip, port, [], 0, why)
  }

  /** lwiperf_tx_start_impl. */
  function TxStart(st: State, settings: Settings, reports: bool, master: Addr, ip: Ip, port: u16,
                   why: Origin, env: StartEnv): Outcome
  {
    if env.block == NULL || env.pcb == NULL then Outcome(st, ErrMem, NULL)
    else
      var st1 := st.(recs := st.recs[env.block := ClientRecord(settings, reports, master, env.pcb, env.now)],
                     pcbs := st.pcbs[env.pcb := ClientTcb(env.block, ip, port, why, env.connect == ErrOk)]);
      if env.connect != ErrOk then
        Outcome(Close(st1, env.block, AbortedLocal, env.how), env.connect, NULL)
      else
        Outcome(st1.(order := [env.block] + st.order), ErrOk, env.block)
  }

  /** lwiperf_tx_start_passive: connect back to the sender of the settings, with its flags cleared. */
  function TxStartPassive(st: State, a: Addr, env: StartEnv): Outcome
    requires a in st.recs && st.recs[a].connPcb in st.pcbs
  {
    var s := st.recs[a];
    var o := TxStart(st, s.settings, s.reports, s.master, st.pcbs[s.connPcb].remoteIp,
                     RemotePort(s.settings), Reverse(s.connPcb, WithoutFlags(s.settings)), env);
    if o.err == ErrOk && o.conn in o.st.recs then
      var c := o.st.recs[o.conn];
      o.(st := WithRec(o.st, o.conn, c.(settings := WithoutFlags(c.settings))))
    else o
  }

  // ---------------------------------------------------------------- receiving

  /** A packet: a chain of buffers. */
  datatype Pbuf = Pbuf(id: nat, chain: seq<seq<u8>>)

  function Flat(chain: seq<seq<u8>>): seq<u8> {
    if chain == [] then [] else chain[0] + Flat(chain[1..])
  }

  function TotLen(p: Pbuf): nat {
    |Flat(p.chain)|
  }

  /** What the stack delivers: tot_len fits its field, and a header that arrived lies in the first buffer. */
  predicate IsPacket(p: Pbuf) {
    && p.chain != [] && TotLen(p) < 0x1_0000
    && (TotLen(p) >= HEADER ==> |p.chain[0]| >= HEADER)
  }

  /** tcp_recved followed by pbuf_free. */
  function Consumed(st: State, p: Pid, pkt: Pbuf): State
    requires p in st.pcbs
  {
    st.(pcbs := st.pcbs[p := st.pcbs[p].(credit := st.pcbs[p].credit + TotLen(pkt))],
        freed := st.freed + [pkt.id])
  }

  /** lwiperf_tcp_close followed by pbuf_free. */
  function Rejected(st: State, a: Addr, kind: Kind, how: Closing, pkt: Pbuf): State
    requires a in st.recs
  {
    var st' := Close(st, a, kind, how);
    st'.(freed := st'.freed + [pkt.id])
  }

  predicate HeaderDue(s: Session) {
    !s.haveSettings || Sub32(s.bytes, HEADER) % BLOCK == 0
  }

  /** The header bytes at the front of a packet are copied over the session's settings. */
  function TookHeader(st: State, a: Addr, pkt: Pbuf): State
    requires a in st.recs && TotLen(pkt) >= HEADER
  {
    WithRec(st, a, st.recs[a].(settings := Flat(pkt.chain)[..HEADER], haveSettings := true))
  }

  /** Count the header; the very first one stops there, a later one has the rest of its packet counted too. */
  function HeaderCounted(s: Session, len: nat, now: u32): Session
    requires len >= HEADER
  {
    var s1 := s.(bytes := Add32(s.bytes, HEADER));
    if s1.bytes <= HEADER then s1.(timeStarted := now) else s1.(bytes := Add32(s1.bytes, len - HEADER))
  }

  function CountHeader(st: State, a: Addr, p: Pid, pkt: Pbuf, now: u32): State
    requires a in st.recs && p in st.pcbs && TotLen(pkt) >= HEADER
  {
    Consumed(WithRec(st, a, HeaderCounted(st.recs[a], TotLen(pkt), now)), p, pkt)
  }

  /** The first header of a session: it is stored, and may ask for a test back at once. */
  function RecvFirst(st: State, a: Addr, pkt: Pbuf, now: u32, how: Closing, env: StartEnv): State
    requires a in st.recs && st.recs[a].connPcb in st.pcbs && TotLen(pkt) >= HEADER
  {
    var p := st.recs[a].connPcb;
    var st1 := TookHeader(st, a, pkt);
    if AnswerTest(st1.recs[a].settings) && AnswerNow(st1.recs[a].settings) then
      var o := TxStartPassive(st1, a, env);
      if a !in o.st.recs || p !in o.st.pcbs then o.st
      else if o.err != ErrOk then Rejected(o.st, a, AbortedLocalTxError, how, pkt)
      else CountHeader(o.st, a, p, pkt, now)
    else CountHeader(st1, a, p, pkt, now)
  }

  /** lwiperf_tcp_recv with data. */
  function RecvData(st: State, a: Addr, pkt: Pbuf, now: u32, how: Closing, env: StartEnv): State
    requires a in st.recs && st.recs[a].connPcb in st.pcbs
  {
    var p := st.recs[a].connPcb;
    var s := st.recs[a].(pollCount := 0);
    var st0 := WithRec(st, a, s);
    if !HeaderDue(s) then Consumed(WithRec(st0, a, s.(bytes := Add32(s.bytes, TotLen(pkt)))), p, pkt)
    else if TotLen(pkt) < HEADER then Rejected(st0, a, AbortedLocalDataError, how, pkt)
    else if !s.haveSettings then RecvFirst(st0, a, pkt, now, how, env)
    else if AnswerTest(s.settings) && Flat(pkt.chain)[..HEADER] != s.settings then
      Rejected(st0, a, AbortedLocalDataError, how, pkt)
    else CountHeader(st0, a, p, pkt, now)
  }

  /** lwiperf_tcp_recv at the end of the stream. */
  function RecvEnd(st: State, a: Addr, how: Closing, env: StartEnv): State
    requires a in st.recs && st.recs[a].connPcb in st.pcbs
  {
    var s := st.recs[a];
    var st1 := if AnswerTest(s.settings) && !AnswerNow(s.settings) then TxStartPassive(st, a, env).st else st;
    if a in st1.recs then Close(st1, a, DoneServer, how) else st1
  }

  // ---------------------------------------------------------------- accepting

  function DroppedTcb(ip: Ip, port: u16): Tcb {
    Freed(Tcb(NULL, false, false, false, false, false, false, true, ip, port, [], 0, Dropped))
  }

  /** The stack aborts a new connection whose accept callback returned an error. */
  function Refused(st: State, q: Pid, ip: Ip, port: u16): State {
    if q == NULL then st
    else st.(pcbs := st.pcbs[q := DroppedTcb(ip, port)])
  }

  predicate ListenerDone(st: State, s: Session) {
    s.specificRemote && (!s.tradeoff || s.master !in st.order)
  }

  /** lwiperf_tcp_accept once the listener and the remote host are right and memory was found. */
  function Admit(st: State, l: Pid, a: Addr, q: Pid, ip: Ip, port: u16, block: Addr, now: u32): State
    requires a in st.recs
  {
    var s := st.recs[a];
    var conn := ZeroSession.(server := true, master := if s.specificRemote then s.master else a,
                             connPcb := q, timeStarted := now, reports := s.reports);
    var st1 := st.(recs := st.recs[block := conn],
                   pcbs := st.pcbs[q := Tcb(block, false, false, false, true, true, true, false, ip, port, [], 0,
                                             Accepted(l))]);
    var st2 := if ListenerDone(st, s) && a in st1.recs then
                 Close(WithRec(st1, a, st1.recs[a].(reports := false)), a, AbortedLocal, Gone)
               else st1;
    st2.(order := [block] + st2.order)
  }

  function AcceptErr(st: State, a: Addr, ok: bool, q: Pid, ip: Ip, block: Addr): Err {
    if !ok || q == NULL || a == NULL || a !in st.recs then ErrVal
    else if st.recs[a].specificRemote && ip != st.recs[a].remoteAddr then ErrVal
    else if block == NULL then ErrMem
    else ErrOk
  }

  // ---------------------------------------------------------------- starting a server

  /** Answers while a server starts: malloc, tcp_new, tcp_bind, tcp_listen. */
  datatype ServerEnv = ServerEnv(block: Addr, pcb: Pid, bind: Err, listen: Pid)

  function ListenRecord(reports: bool, master: Addr, env: ServerEnv): Session {
    ZeroSession.(server := true, master := master, reports := reports, serverPcb := env.listen)
  }

  const FreshTcb := Tcb(NULL, false, false, false, false, false, false, false, 0, 0, [], 0, Listening)

  /** lwiperf_start_tcp_server_impl; two of its error returns leave the record allocated. */
  function StartServerImpl(st: State, noAddr: bool, reports: bool, master: Addr, env: ServerEnv): Outcome {
    if noAddr then Outcome(st, ErrArg, NULL)
    else if env.block == NULL then Outcome(st, ErrMem, NULL)
    else
      var leak := st.(recs := st.recs[env.block := ListenRecord(reports, master, env).(serverPcb := NULL)],
                      leaked := st.leaked + {env.block});
      if env.pcb == NULL then Outcome(leak, ErrMem, NULL)
      else if env.bind != ErrOk then
        Outcome(leak.(pcbs := st.pcbs[env.pcb := FreshTcb]), env.bind, NULL)
      else
        var st1 := st.(pcbs := st.pcbs[env.pcb := Freed(FreshTcb)]);
        if env.listen == NULL then Outcome(st1, ErrMem, NULL)
        else
          Outcome(st1.(recs := st.recs[env.block := ListenRecord(reports, master, env)],
                       pcbs := st1.pcbs[env.listen := FreshTcb.(arg := env.block, onAccept := true)],
                       order := [env.block] + st.order),
                  ErrOk, env.block)
  }

  // ---------------------------------------------------------------- aborting

  predicate Targets(recs: map<Addr, Session>, a: Addr, session: Addr) {
    a == session || (a in recs && recs[a].master == session)
  }

  function Keep(recs: map<Addr, Session>, s: seq<Addr>, session: Addr): seq<Addr> {
    if s == [] then [] else (if Targets(recs, s[0], session) then [] else [s[0]]) + Keep(recs, s[1..], session)
  }

  /** lwiperf_abort: the records are freed, the head pointer is never updated, no control block is touched. */
  function AbortSession(st: State, session: Addr): State {
    var gone := set a | a in st.order && Targets(st.recs, a, session);
    st.(recs := st.recs - gone, order := Keep(st.recs, st.order, session),
        headFreed := st.headFreed || (st.order != [] && Targets(st.recs, st.order[0], session)))
  }

  // ---------------------------------------------------------------- starting a test

  datatype ClientType = UnidirectionalTest | Dual | Tradeoff | InvalidType

  function ClientSettings(kind: ClientType): Settings {
    var flags := match kind
      case Dual => FLAG_ANSWER_TEST + FLAG_ANSWER_NOW
      case Tradeoff => FLAG_ANSWER_TEST
      case _ => 0;
    MakeSettings(flags, 1, DEFAULT_PORT, TWO32 - 1000)
  }

  /** The second half of a dual or tradeoff start: a listener that belongs to the client o.conn, or, if it
      cannot be opened, the abort of that client. */
  function OpenSecondary(o: Outcome, kind: ClientType, ip: Ip, reports: bool, senv: ServerEnv): Outcome {
    var so := StartServerImpl(o.st, false, reports, o.conn, senv);
    if so.err != ErrOk || so.conn !in so.st.recs then
      Outcome(AbortSession(so.st, o.conn), if so.err == ErrOk then ErrOther else so.err, NULL)
    else
      var s := so.st.recs[so.conn].(specificRemote := true, remoteAddr := ip, tradeoff := kind == Tradeoff);
      Outcome(WithRec(so.st, so.conn, s), ErrOk, o.conn)
  }

  /** lwiperf_start_tcp_client. */
  function StartClient(st: State, kind: ClientType, ip: Ip, port: u16, reports: bool,
                       env: StartEnv, senv: ServerEnv): Outcome
  {
    if kind == InvalidType then Outcome(st, ErrArg, NULL)
    else
      var o := TxStart(st, ClientSettings(kind), reports, NULL, ip, port, Started(ClientSettings(kind)), env);
      if o.err != ErrOk || kind == UnidirectionalTest then o
      else OpenSecondary(o, kind, ip, reports, senv)
  }

  // ---------------------------------------------------------------- runs

  /** EvVanished: a sending block has no receive callback of its own, so when its peer closes the stack closes
      the block by itself and frees it later without calling anybody. */
  datatype Event =
    | EvAccept(l: Pid, ok: bool, q: Pid, ip: Ip, port: u16, block: Addr, now: u32)
    | EvConnected(p: Pid, ok: bool, now: u32, turns: seq<Turn>, how: Closing)
    | EvSent(p: Pid, turns: seq<Turn>, how: Closing)
    | EvRecv(p: Pid, pkt: Pbuf, now: u32, how: Closing, env: StartEnv)
    | EvRecvEnd(p: Pid, how: Closing, env: StartEnv)
    | EvRecvErr(p: Pid, how: Closing)
    | EvPoll(p: Pid, turns: seq<Turn>, how: Closing)
    | EvErr(p: Pid)
    | EvVanished(p: Pid)
    | EvStartServer(noAddr: bool, reports: bool, senv: ServerEnv)
    | EvStartClient(kind: ClientType, ip: Ip, port: u16, reports: bool, env: StartEnv, senv: ServerEnv)
    | EvAbort(session: Addr)

  predicate FreshBlock(st: State, a: Addr) {
    a !in st.recs
  }

  predicate FreshPcb(st: State, p: Pid) {
    p !in st.pcbs
  }

  predicate FreshStart(st: State, env: StartEnv) {
    FreshBlock(st, env.block) && FreshPcb(st, env.pcb)
  }

  predicate FreshServer(st: State, env: ServerEnv) {
    && FreshBlock(st, env.block) && FreshPcb(st, env.pcb) && FreshPcb(st, env.listen)
    && (env.pcb == NULL || env.pcb != env.listen)
  }

  /** The record a callback on `p` is given. */
  function Arg(st: State, p: Pid): Addr {
    if p in st.pcbs then st.pcbs[p].arg else NULL
  }

  /** A callback on `p` finds a record with a live connection behind its argument. */
  predicate Reaches(st: State, p: Pid) {
    && p in st.pcbs && Arg(st, p) in st.recs && st.recs[Arg(st, p)].connPcb == p
  }

  /** What the stack and the user may do next: callbacks only while armed, fresh memory, fresh names. */
  predicate Enabled(st: State, e: Event) {
    match e
    case EvAccept(l, ok, q, ip, port, block, now) =>
      l in st.pcbs && st.pcbs[l].onAccept && FreshPcb(st, q) && FreshBlock(st, block)
    case EvConnected(p, ok, now, turns, how) =>
      && p in st.pcbs && st.pcbs[p].onConnected
      && (ok && Reaches(st, p) ==>
            Rounds(st.recs[Arg(st, p)].(pollCount := 0, timeStarted := now), st.mss, turns))
    case EvSent(p, turns, how) =>
      && p in st.pcbs && st.pcbs[p].onSent
      && (Reaches(st, p) ==> Rounds(st.recs[Arg(st, p)].(pollCount := 0), st.mss, turns))
    case EvRecv(p, pkt, now, how, env) =>
      p in st.pcbs && st.pcbs[p].onRecv && IsPacket(pkt) && FreshStart(st, env)
    case EvRecvEnd(p, how, env) => p in st.pcbs && st.pcbs[p].onRecv && FreshStart(st, env)
    case EvRecvErr(p, how) => p in st.pcbs && st.pcbs[p].onRecv
    case EvPoll(p, turns, how) =>
      && p in st.pcbs && st.pcbs[p].onPoll
      && (Reaches(st, p) ==>
            var s := st.recs[Arg(st, p)];
            s.server || Inc8(s.pollCount) >= MAX_IDLE || Rounds(s.(pollCount := Inc8(s.pollCount)), st.mss, turns))
    case EvErr(p) => p in st.pcbs && st.pcbs[p].onErr
    case EvVanished(p) => p in st.pcbs && st.pcbs[p].onSent && !st.pcbs[p].onConnected
    case EvStartServer(noAddr, reports, senv) => FreshServer(st, senv)
    case EvStartClient(kind, ip, port, reports, env, senv) =>
      && FreshStart(st, env) && FreshServer(st, senv)
      && (senv.block == NULL || env.block != senv.block)
      && (env.pcb == NULL || (env.pcb != senv.pcb && env.pcb != senv.listen))
    case EvAbort(session) => true
  }

  function Step(st: State, e: Event): State {
    match e
    case EvAccept(l, ok, q, ip, port, block, now) =>
      if AcceptErr(st, Arg(st, l), ok, q, ip, block) == ErrOk then
        Admit(st, l, Arg(st, l), q, ip, port, block, now)
      else Refused(st, q, ip, port)
    case EvConnected(p, ok, now, turns, how) =>
      if !Reaches(st, p) then st
      else
        var a := Arg(st, p);
        var st1 := st.(pcbs := st.pcbs[p := st.pcbs[p].(onConnected := false)]);
        if !ok then Close(st1, a, AbortedRemote, how)
        else SendMore(WithRec(st1, a, st.recs[a].(pollCount := 0, timeStarted := now)), a, turns, how)
    case EvSent(p, turns, how) =>
      if !Reaches(st, p) then st
      else SendMore(WithRec(st, Arg(st, p), st.recs[Arg(st, p)].(pollCount := 0)), Arg(st, p), turns, how)
    case EvRecv(p, pkt, now, how, env) =>
      if !Reaches(st, p) then st else RecvData(st, Arg(st, p), pkt, now, how, env)
    case EvRecvEnd(p, how, env) =>
      if !Reaches(st, p) then st else RecvEnd(st, Arg(st, p), how, env)
    case EvRecvErr(p, how) =>
      if !Reaches(st, p) then st else Close(st, Arg(st, p), AbortedRemote, how)
    case EvPoll(p, turns, how) =>
      if !Reaches(st, p) then st else PollStep(st, Arg(st, p), turns, how)
    case EvErr(p) =>
      if !Reaches(st, p) then st
      else
        var a := Arg(st, p);
        var st1 := st.(pcbs := st.pcbs[p := Freed(st.pcbs[p])]);
        Close(WithRec(st1, a, st.recs[a].(connPcb := NULL, serverPcb := NULL)), a, AbortedRemote, Gone)
    case EvVanished(p) =>
      if p in st.pcbs then st.(pcbs := st.pcbs[p := Freed(st.pcbs[p])], vanished := st.vanished + {p}) else st
    case EvStartServer(noAddr, reports, senv) => StartServerImpl(st, noAddr, reports, NULL, senv).st
    case EvStartClient(kind, ip, port, reports, env, senv) =>
      StartClient(st, kind, ip, port, reports, env, senv).st
    case EvAbort(session) => AbortSession(st, session)
  }

  /** lwiperf_tcp_poll. */
  function PollStep(st: State, a: Addr, turns: seq<Turn>, how: Closing): State
    requires a in st.recs && st.recs[a].connPcb in st.pcbs
  {
    var n := Inc8(st.recs[a].pollCount);
    var st1 := WithRec(st, a, st.recs[a].(pollCount := n));
    if n >= MAX_IDLE then Close(st1, a, AbortedLocal, how)
    else if !st.recs[a].server then SendMore(st1, a, turns, how)
    else st1
  }

  predicate Runs(st: State, es: seq<Event>)
    decreases |es|
  {
    es == [] || (Enabled(st, es[0]) && Runs(Step(st, es[0]), es[1..]))
  }

  function Run(st: State, es: seq<Event>): State
    decreases |es|
  {
    if es == [] then st else Run(Step(st, es[0]), es[1..])
  }
}
