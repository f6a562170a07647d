/** The calls the engine makes into its environment, one by one, with the answers it gets: for every event the
    sequence it leads to. An answer an event carries counts only because the engine asked for it here. */
module Calls {
  import opened Words
  import opened WireSettings
  import opened IperfState

  datatype Call =
    | Clock(now: u32)                                                    // sys_now
    | Alloc(block: Addr)                                                 // malloc
    | NewPcb(pcb: Pid)                                                   // tcp_new
    | Connect(pcb: Pid, ip: Ip, port: u16, err: Err)                     // tcp_connect
    | Write(pcb: Pid, data: seq<u8>, copy: bool, more: bool, err: Err)   // tcp_write and its flags
    | Output(pcb: Pid)                                                   // tcp_output
    | ClosePcb(pcb: Pid, how: Closing)                                   // tcp_close
    | AbortPcb(pcb: Pid)                                                 // tcp_abort
    | Bind(pcb: Pid, err: Err)                                           // tcp_bind
    | Listen(pcb: Pid, listen: Pid)                                      // tcp_listen_with_backlog

  // ---------------------------------------------------------------- closing and sending

  /** A close the stack cannot carry out is followed by an abort; a listener's close cannot fail. */
  function CloseCalls(s: Session, how: Closing): seq<Call> {
    if s.connPcb != NULL then [ClosePcb(s.connPcb, how)] + (if how == Fails then [AbortPcb(s.connPcb)] else [])
    else if s.serverPcb != NULL then [ClosePcb(s.serverPcb, Gone)]
    else []
  }

  /** k refused writes, each offering half of what the one before it did. */
  function Refusals(p: Pid, d: seq<u8>, copy: bool, more: bool, k: nat): seq<Call> {
    if k == 0 then []
    else Refusals(p, d, copy, more, k - 1) + [Write(p, d[..Halve(|d|, k - 1)], copy, more, ErrMem)]
  }

  function WriteCalls(p: Pid, d: seq<u8>, copy: bool, more: bool, halvings: nat, err: Err): seq<Call> {
    Refusals(p, d, copy, more, halvings) + [Write(p, d[..Halve(|d|, halvings)], copy, more, err)]
  }

  /** The clock is read only for a time limit. */
  function LimitCalls(s: Session, t: Turn): seq<Call> {
    if TimeLimited(s.settings) then [Clock(t.now)] else []
  }

  /** The writes of a round: the settings are copied, since the record may go; the digits are constant. */
  function RoundCalls(s: Session, mss: Mss, t: Turn): seq<Call> {
    WriteCalls(s.connPcb, Offer(s, mss), s.bytes < 2 * HEADER, HEADER <= s.bytes < 2 * HEADER, t.halvings, t.err)
  }

  function SendCalls(s: Session, mss: Mss, turns: seq<Turn>, how: Closing): seq<Call>
    decreases |turns|
  {
    if turns == [] then []
    else if LimitReached(s, turns[0].now) then LimitCalls(s, turns[0]) + CloseCalls(s, how)
    else
      LimitCalls(s, turns[0]) + RoundCalls(s, mss, turns[0]) +
      if turns[0].err == ErrOk && s.bytes >= HEADER then
        SendCalls(s.(bytes := Add32(s.bytes, |Taken(s, mss, turns[0])|)), mss, turns[1..], how)
      else [Output(s.connPcb)]
  }

  // ---------------------------------------------------------------- starting

  function StartCalls(ip: Ip, port: u16, env: StartEnv): seq<Call> {
    if env.block == NULL then [Alloc(NULL)]
    else if env.pcb == NULL then [Alloc(env.block), NewPcb(NULL)]
    else
      [Alloc(env.block), NewPcb(env.pcb), Clock(env.now), Connect(env.pcb, ip, port, env.connect)] +
      if env.connect == ErrOk then []
      else [ClosePcb(env.pcb, env.how)] + if env.how == Fails then [AbortPcb(env.pcb)] else []
  }

  function ServerCalls(noAddr: bool, env: ServerEnv): seq<Call> {
    if noAddr then [] else [Alloc(env.block)] + if env.block == NULL then [] else ListenCalls(env)
  }

  function ListenCalls(env: ServerEnv): seq<Call> {
    if env.pcb == NULL then [NewPcb(NULL)]
    else
      [NewPcb(env.pcb), Bind(env.pcb, env.bind)] +
      if env.bind != ErrOk then []
      else [Listen(env.pcb, env.listen)] + if env.listen == NULL then [ClosePcb(env.pcb, Gone)] else []
  }

  function ClientCalls(kind: ClientType, ip: Ip, port: u16, env: StartEnv, senv: ServerEnv): seq<Call> {
    if kind == InvalidType then []
    else
      StartCalls(ip, port, env) +
      if kind in {Dual, Tradeoff} && env.block != NULL && env.pcb != NULL && env.connect == ErrOk
      then ServerCalls(false, senv) else []
  }

  // ---------------------------------------------------------------- receiving and accepting

  /** Only the header that begins a session reads the clock. */
  function HeaderCalls(s: Session, now: u32): seq<Call> {
    if Add32(s.bytes, HEADER) <= HEADER then [Clock(now)] else []
  }

  function FirstCalls(s: Session, ip: Ip, h: Settings, now: u32, how: Closing, env: StartEnv): seq<Call> {
    if AnswerTest(h) && AnswerNow(h) then
      StartCalls(ip, RemotePort(h), env) +
      if env.block != NULL && env.pcb != NULL && env.connect == ErrOk then HeaderCalls(s, now) else CloseCalls(s, how)
    else HeaderCalls(s, now)
  }

  function PacketCalls(s: Session, ip: Ip, pkt: Pbuf, now: u32, how: Closing, env: StartEnv): seq<Call> {
    if !HeaderDue(s) then []
    else if TotLen(pkt) < HEADER then CloseCalls(s, how)
    else if !s.haveSettings then FirstCalls(s, ip, Flat(pkt.chain)[..HEADER], now, how, env)
    else if AnswerTest(s.settings) && Flat(pkt.chain)[..HEADER] != s.settings then CloseCalls(s, how)
    else HeaderCalls(s, now)
  }

  function EndCalls(s: Session, ip: Ip, how: Closing, env: StartEnv): seq<Call> {
    (if AnswerTest(s.settings) && !AnswerNow(s.settings) then StartCalls(ip, RemotePort(s.settings), env) else []) +
    CloseCalls(s, how)
  }

  /** l is the listener's record; no memory is asked for if its remote host is another one. */
  function AcceptCalls(l: Session, order: seq<Addr>, ok: bool, q: Pid, ip: Ip, block: Addr, now: u32): seq<Call> {
    if !ok || q == NULL || (l.specificRemote && ip != l.remoteAddr) then []
    else if block == NULL then [Alloc(NULL)]
    else
      [Alloc(block), Clock(now)] +
      if l.specificRemote && (!l.tradeoff || l.master !in order) then [ClosePcb(l.serverPcb, Gone)] else []
  }

  function PollCalls(s: Session, mss: Mss, turns: seq<Turn>, how: Closing): seq<Call> {
    if s.pollCount >= MAX_IDLE then CloseCalls(s, how)
    else if s.server then []
    else SendCalls(s, mss, turns, how)
  }

  // ---------------------------------------------------------------- events and runs

  /** The calls of one callback, given its session's record. */
  function CallbackCalls(s: Session, ip: Ip, mss: Mss, e: Event): seq<Call> {
    match e
    case EvConnected(_, ok, now, turns, how) =>
      if ok then [Clock(now)] + SendCalls(s.(pollCount := 0, timeStarted := now), mss, turns, how)
      else CloseCalls(s, how)
    case EvSent(_, turns, how) => SendCalls(s.(pollCount := 0), mss, turns, how)
    case EvRecv(_, pkt, now, how, env) => PacketCalls(s.(pollCount := 0), ip, pkt, now, how, env)
    case EvRecvEnd(_, how, env) => EndCalls(s, ip, how, env)
    case EvRecvErr(_, how) => CloseCalls(s, how)
    case EvPoll(_, turns, how) => PollCalls(s.(pollCount := Inc8(s.pollCount)), mss, turns, how)
    case _ => []
  }

  /** The calls one event leads to. */
  function EventCalls(st: State, e: Event): seq<Call> {
    match e
    case EvAccept(l, ok, q, ip, port, block, now) =>
      if Arg(st, l) in st.recs then AcceptCalls(st.recs[Arg(st, l)], st.order, ok, q, ip, block, now) else []
    case EvStartServer(noAddr, _, senv) => ServerCalls(noAddr, senv)
    case EvStartClient(kind, ip, port, _, env, senv) => ClientCalls(kind, ip, port, env, senv)
    case EvAbort(_) => []
    case _ =>
      if Reaches(st, e.p) then CallbackCalls(st.recs[Arg(st, e.p)], st.pcbs[e.p].remoteIp, st.mss, e) else []
  }

  function RunCalls(st: State, es: seq<Event>): seq<Call>
    decreases |es|
  {
    if es == [] then [] else EventCalls(st, es[0]) + RunCalls(Step(st, es[0]), es[1..])
  }
}
