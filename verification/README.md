# Verification of the lwIP iperf2 session engine and of CMSIS cache, NVIC, bit and MPU routines

The main subject is `Middleware/LwIP/lwiperf.c`, the iperf2 server and client: an event-driven state machine over
heap records on a hand-linked list, driven by the accept, connected, sent, recv, poll and err callbacks of the TCP
stack and by three calls of the user (start a server, start a client, abort). The second subject is data-cache
maintenance in `Drivers/CMSIS/Include/cachel1_armv7.h`. Smaller pieces are the packed interrupt priorities of
`core_armv8mbl.h`, the bit-reversal and leading-zero loops of `cmsis_iccarm.h`, and the MPU table loader of
`mpu_armv7.h`.

`dafny verify dfyconfig.toml` checks the whole project.

## How the engine is modelled

There are two layers.

`IperfState` is the specification: a `State` (the allocated records, the active list as a sequence, every TCP control
block ever made with its armed callbacks and its history, the reports made, the packet buffers given back), an `Event`
for each entry point together with the answers the environment gave, `Enabled` for what the stack and the user may do
next, and `Step`. Every theorem about runs is about `Runs` and `Run`.

`Iperf.Engine` is the program: a class whose fields are the heap (`mem`, a map from addresses to nodes with a `next`
field), the list head, and the stack's control blocks, and whose methods follow the C functions statement by
statement, loops included. Each entry point is proved to take a step that `Enabled` allows and to end in exactly the
state `Step` gives. The ghost sequence `order` and the predicate `Linked` tie the `next` fields to the abstract list.
Each `LWIP_ASSERT` of the source about the engine's own data is an assertion of the model, or a precondition its
callers are proved to meet, so none of them can fire. `Iperf.Life` puts the entry points together: from power-up, any
number of moves of the stack, the peers and the user, in any order, is a run of the specification.

Records live in an explicit map rather than in one object each, because the properties are about addresses: the C
code frees records, the allocator hands the same address out again, and `lwiperf_list_find` compares a possibly stale
address with live ones. Reading a freed record is then an ill-formed map access, so a proof that the program is
well-formed is a proof that it never happens; and the effect of an address that comes back can be stated (see
`Listening.ReusedAddressKeepsListening`). Names of control blocks are never reused, which only gives each connection
a name for its whole history. `TCP_MSS` is a parameter with 24 < MSS <= 1591, since the 1600-byte buffer is read from
offsets up to 9. Counters, times and amounts are 32-bit words with their wrap-around written out; the settings struct
is its 24 bytes in memory, so byte order is explicit.

Answers of the environment are arguments of events: what malloc, tcp_new, tcp_bind, tcp_listen, tcp_connect, tcp_write
and tcp_close returned and what the clock showed. In `Iperf.Engine` the same answers come from methods with
nondeterministic bodies, and each of these methods appends its call, with arguments and answer, to the ghost field
`log`; nothing else does. `Calls.EventCalls` says which calls an event leads to, in order, and every entry point is
proved to append exactly these, carrying the answers of its event. So an answer counts only because the engine asked
for it: a time limit is decided by clock readings it took (`Asking.SendReads`), what a block was handed is what the
accepted writes on it carried (`Asking.RunWrites`), a record, a block, a start time or a closed block has its call
(`Causes.NothingUnasked`), and over every run no call on a block follows its close (`BlockUse.RunUses`). The
assumptions about the environment are those of `Enabled`: callbacks only while armed, fresh memory and fresh names, a
packet's total length is the sum of its buffers and fits 16 bits, and a header that arrived lies in the first buffer.
tcp_write takes all of the data or none and uses up send buffer, which is why the send loop terminates. Besides calling
the engine back, the stack may free a sending block on its own (`EvVanished`, see below). The user's report function is
taken not to call back into the engine.

Behaviour of the code that its documentation does not mention, kept as it is and stated exactly:

- `lwiperf_abort` frees records without closing or disarming their control blocks and never updates the list head.
  Ownership survives an abort if and only if all it frees are orphans (next item) behind the head
  (`Ownership.AbortOwned`); for the abort inside a client start the condition is that the secondary listener could not
  be opened (`Ownership.Aborts`). Theorems about runs therefore exclude exactly these calls (`Ownership.AbortFree`).
- The engine arms no receive callback on a sending block. When the peer closes such a connection, the stack's default
  handler closes the block (`Middleware/LwIP/core/tcp.c:1688-1701`), and it is freed later without the error callback
  (`Middleware/LwIP/core/tcp_in.c:604-615`). The record stays behind as an orphan. Over every run the orphans on the
  list are exactly the records whose block the stack freed like this (`Vanishing.OrphansExactly`), no other event makes
  one (`Vanishing.NoOtherOrphans`), and every session that ends otherwise has its record freed (`Effects.SubjectAfter`).
  `Orphans.OrphanStays` proves that no run frees an orphan unless the user aborts it, and `Orphans.OrphanKeepsListener`
  that a tradeoff listener that belongs to an orphan never closes.
- A server start leaks its record on two early returns; `Ownership.StartServerOwned` says exactly when.
- The report after an error callback reads addresses through a NULL `conn_pcb`; a `Report` names the block whose
  addresses were read, and `Reporting.NullOnlyAfterError` proves that it is NULL in that case and no other.
- A receive callback with an error frees no packet buffer; `EvRecvErr` delivers none.
- The tradeoff listener looks its client up by address, so it takes more than one connection while that address is on
  the list, be it the client, its orphan or a later record at the same address. `Listening.ListenerRun` counts the
  connections of every run, and `Listening.OneConnectionIff` says when it is exactly one and the listener then goes: if
  and only if none gets in while, in tradeoff mode, the address is listed. Dual mode always meets that
  (`Listening.DualLetsInNone`). `Listening.ReachReusedAddress` is a run in which the client left and its address came
  back, and `Listening.ReusedAddressKeepsListening` goes on from it.
- A requested time of 2^32 / 10 units of 10 ms or more wraps (`Limits.LongTestsWrap`, `WireSettings.NegativeAmount`).
- The sender's digit at offset n is n modulo 10, which is '8' right after the two headers.

## The other models

`Cache` is a data cache (lines with a set, a way, a value and a dirty bit) in front of a memory, with what clean,
invalidate and both do to a set of lines. The set/way functions reach every line exactly when the geometry fits the
register fields, 512 sets and 4 ways; `CacheSetWay.LargerGeometryEscapes` gives a cache of every larger geometry that
is not emptied. The two way bits are read as the header lays them out, bits 31:30 for every number of ways; the ARMv7-M
architecture puts the way of a two-way cache in bit 31 alone, so for fewer than four ways the result is about the
header's layout. The by-address functions name exactly the lines that meet the range, each once, for every positive
size and every address: when `dsize + (addr & 31)` does not fit int32, `op_size` starts out negative, but the loop
tests it only after an unsigned subtraction that brings it back. Line contents are opaque values; no other agent
touches the cache during a call.

`Nvic` and `Priority` write shifts and masks of the priority registers as arithmetic on words; `__NVIC_PRIO_BITS` is a
parameter from 1 to 8. `BitReverse` does the same for the software RBIT and CLZ. `Mpu` is the region file behind RBAR
and RASR with its alias window of `MPU_TYPE_RALIASES` register pairs, a parameter of at least 1.

## Model

| member | source | states |
|---|---|---|
| Iperf.Engine.ListAdd | Middleware/LwIP/lwiperf.c:186-192 | linking at the head puts the record in front of the abstract list |
| Iperf.Engine.ListRemove | Middleware/LwIP/lwiperf.c:194-214 | unlinking in place is deletion from the sequence: order and all other links kept, an unlisted record changes nothing, and the duplicate check never fires |
| Iperf.WithoutAt | Middleware/LwIP/lwiperf.c:194-214 | deletion takes out the k-th record and keeps the others in their order |
| Iperf.Engine.ListFind | Middleware/LwIP/lwiperf.c:216-226 | returns the record if and only if it is on the list |
| Iperf.Engine.Abort | Middleware/LwIP/lwiperf.c:825-845 | the in-place sweep frees and unlinks exactly the session and the records whose master it is, the head pointer untouched |
| Iperf.KeepSnoc | Middleware/LwIP/lwiperf.c:832-844 | an abort decides record by record and keeps the list's order |
| Iperf.Engine.ConnReport | Middleware/LwIP/lwiperf.c:228-246 | one report with the record's count, only if a report function is set |
| Reporting.StepReports | Middleware/LwIP/lwiperf.c:228-255 | what every event reports, in closed form: one report for the session it ends, with its reason and count, unless the block vanished, and one for a connection it tries in vain to start |
| Reporting.NullOnlyAfterError | Middleware/LwIP/lwiperf.c:563-575 | the addresses of a report are read through NULL if and only if it follows an error callback |
| Reporting.RunReportedOnce | Middleware/LwIP/lwiperf.c:248-255 | over every run no connection is reported twice, and none before it is over |
| Iperf.Engine.CloseSession | Middleware/LwIP/lwiperf.c:248-273 | unlink, report, disarm, close or abort the block, free the record once; on a record whose connect failed as well; the calls are one tcp_close and, if it fails, one tcp_abort |
| Iperf.Engine.NextData | Middleware/LwIP/lwiperf.c:312-333 | the next bytes of the stream at the record's count, read inside their buffer, with the copy and more flags of tcp_write |
| Iperf.Engine.WriteHalving | Middleware/LwIP/lwiperf.c:334-340 | halves on ERR_MEM, gives up below half a segment, never offers nothing, and reads inside the buffer at every length tried; every try is one logged tcp_write |
| Iperf.Engine.SendRound | Middleware/LwIP/lwiperf.c:288-347 | one pass of the outer loop is one round of the specification, and a pass that goes on costs send buffer |
| Iperf.Engine.ClientSendMore | Middleware/LwIP/lwiperf.c:275-351 | terminates, and ends in the state the rounds of answers determine; its calls are one clock reading for each round of a time-limited session, each write and retry of that round, and tcp_output or the close |
| Iperf.Engine.TxStartImpl | Middleware/LwIP/lwiperf.c:387-437 | the client start with all its error returns; malloc, tcp_new, the clock and tcp_connect are asked in this order and their answers are those of the start |
| Iperf.Engine.TxStartBack | Middleware/LwIP/lwiperf.c:439-453 | a connection back with the flags of its settings cleared |
| Iperf.Engine.ClientSent | Middleware/LwIP/lwiperf.c:353-366 | the sent callback takes exactly the specified step with exactly its calls |
| Iperf.Engine.ClientConnected | Middleware/LwIP/lwiperf.c:368-382 | the connected callback takes exactly the specified step with exactly its calls, the first of them the clock reading its session starts from |
| Iperf.Engine.Poll | Middleware/LwIP/lwiperf.c:577-594 | the poll callback takes exactly the specified step with exactly its calls |
| Iperf.Engine.TcpErr | Middleware/LwIP/lwiperf.c:563-575 | the error callback takes exactly the specified step |
| Iperf.Engine.CountChain | Middleware/LwIP/lwiperf.c:534-556 | the loop over the buffers of a packet counts the bytes of all of them, so the count check never fires |
| Iperf.Engine.RecvHeader | Middleware/LwIP/lwiperf.c:494-526 | the first header: stored, answered at once if it asks so, rejected if the answer cannot be started |
| Iperf.Engine.RecvPacket | Middleware/LwIP/lwiperf.c:483-561 | a packet with or without a header due, with exactly its calls; `Receipts.LaterPacket` and `FirstPacket` say when one is due and what follows |
| Iperf.Engine.Recv | Middleware/LwIP/lwiperf.c:455-561 | the receive callback takes exactly the specified step on error, end of stream and data, with exactly its calls |
| Iperf.Engine.TcpAccept | Middleware/LwIP/lwiperf.c:596-650 | an accepted connection, the refusals, and the closing of a secondary listener: ERR_VAL exactly if the listener is bound to another host, ERR_MEM exactly if it asked for memory and got none |
| Iperf.Engine.DeliverAccept | Middleware/LwIP/lwiperf.c:596-650 | accept as the stack delivers it, a refused connection aborted, takes exactly the specified step; the answer is ERR_OK if and only if the stack reported no error, memory was there and the listener is not bound to another host |
| Iperf.Engine.StartServerImpl | Middleware/LwIP/lwiperf.c:690-741 | a listener, or one of the error returns with the record freed or leaked as the code does, with exactly its calls |
| Iperf.Engine.StartServer | Middleware/LwIP/lwiperf.c:675-688 | exactly the specified step; returns the new record, at the head of the list, if and only if an address, memory and a block were there and bind and listen succeeded, and NULL otherwise |
| Iperf.Engine.OpenSecondary | Middleware/LwIP/lwiperf.c:797-815 | the secondary listener of a dual or tradeoff client, or the abort of that client; the handle is the client if and only if the listener came up |
| Iperf.Engine.StartClient | Middleware/LwIP/lwiperf.c:764-819 | starting a test of any kind takes exactly the specified step and returns the client's own listed record if and only if the kind is valid, the client was started and, where the kind has one, its listener came up; NULL otherwise |
| Iperf.Engine.Vanish | Middleware/LwIP/core/tcp_in.c:600-618 | the stack frees a sending block whose peer closed, with no call into the engine |
| Iperf.Engine.Drive | Middleware/LwIP/lwiperf.c:353-845 | any number of callbacks and user calls, in any order, take the engine through a run of the specification and make exactly the calls of that run |
| Iperf.Life | Middleware/LwIP/lwiperf.c:134-845 | the same from power-up: the log is the calls of the run |
| Asking.OfferLength | Middleware/LwIP/lwiperf.c:312-333 | a round offers the rest of the settings, the rest of the second copy, a segment less 24 bytes, then a segment |
| Asking.BufferIs | Middleware/LwIP/lwiperf.c:134-177 | the constant buffer is 1600 bytes of the ten digits over and over |
| Asking.RetriesExactly | Middleware/LwIP/lwiperf.c:334-340 | a refused write is followed by one of half its bytes if and only if these are at least half a segment; settings are copied by the stack, and what is not copied lies in the constant buffer |
| Asking.SendReads | Middleware/LwIP/lwiperf.c:286-300 | a time-limited call takes one clock reading for each round, and these are the readings its rounds are decided by; a byte-limited one takes none |
| Asking.SendWrites | Middleware/LwIP/lwiperf.c:334-343 | what a call hands over is what its accepted writes carry, all on its own block |
| Asking.SendsUntilRefused | Middleware/LwIP/lwiperf.c:285-350 | a call goes on until the limit is reached or the stack refuses a write for good, the first header going alone, and ends with tcp_output unless it closes |
| Asking.EventWrites | Middleware/LwIP/lwiperf.c:334-343 | any event: the output of every block grows by exactly what the accepted writes on it carry |
| Asking.RunWrites | Middleware/LwIP/lwiperf.c:334-343 | the same over every run |
| Asking.OutputIsStream | Middleware/LwIP/lwiperf.c:312-343 | from power-up the accepted writes on a sending block carry its stream, whatever was refused in between |
| Causes.NothingUnasked | Middleware/LwIP/lwiperf.c:248-845 | any event: a new record is memory that was allocated, a start time a clock reading that was taken, a new block one the stack was asked for, connecting or listening after the calls for it succeeded, and a block is freed or loses its callbacks because it was closed or a listening block replaced it; the stack only brings incoming connections and takes the blocks it says it lost |
| Causes.RunClockStarted | Middleware/LwIP/lwiperf.c:373-381 | over every run each session's time starts at a clock reading the engine took |
| BlockUse.CloseExactly | Middleware/LwIP/lwiperf.c:255-266 | a closed session's block calls nobody back and is freed unless it lingers, and a close that fails is followed by an abort |
| BlockUse.EventUses | Middleware/LwIP/lwiperf.c:248-845 | any event: calls only on new blocks and blocks with callbacks, at most one close each, nothing after it but the abort after a failed close, and no callback left |
| BlockUse.RunUses | Middleware/LwIP/lwiperf.c:248-845 | over every run no call on a block follows its close |
| Ownership.WithoutProps | Middleware/LwIP/lwiperf.c:194-214 | removal deletes exactly the element and is the identity on an unlisted one |
| Ownership.KeepProps | Middleware/LwIP/lwiperf.c:832-844 | what an abort keeps is the list minus exactly the aborted records, without duplicates |
| Ownership.CallbackArgument | Middleware/LwIP/lwiperf.c:353-650 | no callback runs on a freed record: its argument is allocated, listed, and the record of that very block |
| Ownership.CloseOwned | Middleware/LwIP/lwiperf.c:248-273 | closing a listed record keeps ownership and the record is gone |
| Ownership.ConnectFails | Middleware/LwIP/lwiperf.c:429-433 | the failed-connect path frees the unlisted record and leaves the list and all other records alone |
| Ownership.StartServerOwned | Middleware/LwIP/lwiperf.c:690-741 | the leaked set grows by the new record exactly on the two early error returns; ownership otherwise kept |
| Ownership.StartClientOwned | Middleware/LwIP/lwiperf.c:794-818 | a client start keeps ownership if and only if it does not have to abort |
| Ownership.VanishedOwned | Middleware/LwIP/core/tcp.c:1688-1701 | a sending block freed without a call keeps ownership and leaves its record an orphan |
| Ownership.AbortOwned | Middleware/LwIP/lwiperf.c:825-845 | an abort keeps ownership if and only if all it frees are orphans behind the head |
| Ownership.AbortExactly | Middleware/LwIP/lwiperf.c:825-845 | an abort frees exactly the listed records that are the session or have it as master, takes them off the list, and touches nothing else |
| Ownership.StepOwned | Middleware/LwIP/lwiperf.c:186-845 | every entry point keeps ownership if and only if it is not one of those aborts |
| Ownership.RunOwned | Middleware/LwIP/lwiperf.c:186-845 | over every run: each record listed once or leaked, a listener or connection and its live block pointing at each other or the orphan of a block the stack freed without a word, callbacks armed only with listed records that are no orphans |
| Isolation.EventIsLocal | Middleware/LwIP/lwiperf.c:353-650 | an event leaves the record and the block of every other connection alone |
| Isolation.ListenerStays | Middleware/LwIP/lwiperf.c:596-650 | a listening block is left alone or freed, by any event |
| Creation.EventCreates | Middleware/LwIP/lwiperf.c:387-453 | every new block starts with an empty history and a session holding the header its origin names; a connection back comes only from a header that asked for it |
| Connecting.StartsExactly | Middleware/LwIP/lwiperf.c:387-437 | a client start opens a connection to its host and port if and only if the kind is valid and memory and a block were there; it stays if and only if tcp_connect succeeds |
| Connecting.AnswersExactly | Middleware/LwIP/lwiperf.c:472-511 | a received session is answered if and only if its first header asks for it at once, or its end comes and the header asks for it then, and memory and a block were there; the connection goes to the session's host and the port its header names, flags cleared |
| Connecting.ServerHandle | Middleware/LwIP/lwiperf.c:690-741 | a server start gives its new record if and only if every call it makes succeeds; the record's full contents, its listening block and the error otherwise |
| Connecting.ConnectionHandle | Middleware/LwIP/lwiperf.c:387-437 | a connection start gives its new record if and only if memory and a block were there and tcp_connect succeeded; the record then holds the settings, clock reading, report function and master it was given |
| Connecting.AnswerHandle | Middleware/LwIP/lwiperf.c:439-453 | a connection back has the master and report function of the session it answers and its settings with the flags cleared |
| Connecting.ClientHandle | Middleware/LwIP/lwiperf.c:764-819 | a test start gives the client's record, never the listener's, if and only if the kind is valid, the client started and, for dual and tradeoff, its listener came up; both records' full contents |
| Receiving.RecvDataHandled | Middleware/LwIP/lwiperf.c:483-561 | a packet is freed once on every path; the session goes on if and only if no header is due or it is complete, repeats the settings where it must, and its answer could be started, and then it advances by the whole packet; once the settings are in, a header is due at counts 24, 131096, 262168 and so on |
| Effects.SubjectAfter | Middleware/LwIP/lwiperf.c:353-594 | exactly when a callback's session survives it, for every callback, and the record it then leaves; one that does not survive has its record freed, unless the stack freed the block without a word |
| Effects.StepFrees | Middleware/LwIP/lwiperf.c:468-560 | each delivered packet is given back once, by the event that delivered it and no other |
| Sending.TakenContinues | Middleware/LwIP/lwiperf.c:312-343 | what one round hands over is at most one segment of the stream from the record's count on |
| Sending.SendMoreIs | Middleware/LwIP/lwiperf.c:275-351 | whatever the refusals, one call writes one run of bytes and then stops or closes |
| Sending.SentContinues | Middleware/LwIP/lwiperf.c:312-347 | that run carries the stream on, up to the byte where the 32-bit count wraps |
| Sending.SentWithinBudget | Middleware/LwIP/lwiperf.c:301-310 | a byte-limited session stays under amount plus one segment and finishes only at the amount |
| Sending.TimeLimitExact | Middleware/LwIP/lwiperf.c:290-300 | the limit is found at the first clock reading at or after start plus the time, by no earlier one, across clock wrap |
| Sending.StepStreams | Middleware/LwIP/lwiperf.c:275-453 | every event keeps: all blocks' written bytes are a prefix of settings, settings, digits, and the record counts them modulo 2^32 |
| Sending.RunStreams | Middleware/LwIP/lwiperf.c:136-347 | over every run, stream content does not depend on back-pressure |
| EveryRun.Holds | Middleware/LwIP/lwiperf.c:186-845 | after every run from the empty list without such an abort: ownership, stream content, receive accounting, exact poll counts, at most one answer for each session, orphans exactly the records whose block the run let vanish, no connection reported twice or before it is over; and the calls made account for what was written and when sessions started, with no call on a block after its close |
| Receipts.LaterPacketCounts | Middleware/LwIP/lwiperf.c:521-557 | stripping a 24-byte header in the middle of the function still counts the whole packet |
| Receipts.LaterPacket | Middleware/LwIP/lwiperf.c:487-520 | with settings: a packet ends the session if and only if the count is 24 plus a multiple of 131072 and it is shorter than 24 bytes, or the settings ask for an answer and its first 24 bytes differ; otherwise all of it is counted |
| Receipts.HeaderEveryBlock | Middleware/LwIP/lwiperf.c:487 | so at every count 24 + 131072 k, k = 0 included |
| Receipts.FirstPacket | Middleware/LwIP/lwiperf.c:487-527 | without settings: the first packet must hold a header, and an answer it asks for at once must start; then the header is stored, the count is 24 and the time starts |
| Receipts.PacketEnds | Middleware/LwIP/lwiperf.c:483-527 | over every run, from the packets alone: the later packets checked are exactly those that come when the bytes after the first packet are a multiple of 131072, also after the count has wrapped |
| Receipts.StepReceipts | Middleware/LwIP/lwiperf.c:483-561 | every event keeps the accounting of every receiving session |
| Receipts.RunReceipts | Middleware/LwIP/lwiperf.c:483-561 | over every run: buffers freed are the packets delivered, once and in order; window credit is every byte delivered; the count is 24 plus everything after the first packet, modulo 2^32 |
| Idle.RunCounts | Middleware/LwIP/lwiperf.c:579-594 | in every reachable state poll_count is the number of polls since the last progress and below the limit |
| Idle.SilenceCloses | Middleware/LwIP/lwiperf.c:579-594 | a connection that only sees polls is open if and only if they number fewer than ten since its last progress and none of them sends its last data |
| Idle.SilentReceiver | Middleware/LwIP/lwiperf.c:579-594 | so a silent receiving session is closed by exactly ten polls |
| Idle.StaysOver | Middleware/LwIP/lwiperf.c:248-273 | a session that is over stays over and is polled no more |
| Answering.NewAnswer | Middleware/LwIP/lwiperf.c:439-453 | a connection back is made only for a session that has none, and from then on none will be made |
| Answering.RunAnswers | Middleware/LwIP/lwiperf.c:472-511 | over every run a received session is answered by at most one connection back, at its header or at its end, never both |
| Endpoints.HeaderFromWire | Middleware/LwIP/lwiperf.c:494-500 | the header a session stores is the one its far end was made to send |
| Endpoints.AnswersBoundedByStarts | Middleware/LwIP/lwiperf.c:439-453 | each answer of one host belongs to a different user start of the other |
| Endpoints.NetRunOk | Middleware/LwIP/lwiperf.c:439-511 | two hosts joined by TCP keep: only connections a user started are answered |
| Endpoints.AtMostTwoConnections | Middleware/LwIP/lwiperf.c:439-453 | over every run of two hosts there are at most two test connections for each client start |
| Listening.AcceptExactly | Middleware/LwIP/lwiperf.c:596-650 | a connection is let in if and only if it came without an error, memory was there, and the listener is bound to no host or to this one; the new record's contents and place, and when the listener goes; otherwise the connection is dropped and no record changes |
| Listening.SecondaryAccept | Middleware/LwIP/lwiperf.c:609-649 | a secondary listener takes only its remote host, makes the client the master, and goes exactly in dual mode or once the client is off the list |
| Listening.SecondaryRefuse | Middleware/LwIP/lwiperf.c:601-622 | a refused connection changes nothing but its own block |
| Listening.ListenerUntouched | Middleware/LwIP/lwiperf.c:609-649 | no event but an accept on it touches a secondary listener |
| Listening.ListenerStaysGone | Middleware/LwIP/lwiperf.c:638-647 | a freed listener accepts nothing more in any run |
| Listening.ListenerRun | Middleware/LwIP/lwiperf.c:638-647 | over every run: the listener is gone if and only if an accept found its work done, and it took the connections let in before and the one it went with, no other |
| Listening.OneConnectionIff | Middleware/LwIP/lwiperf.c:638-647 | it takes exactly one connection and is then gone, none while it stays, if and only if none gets in while, in tradeoff mode, the client's address is listed |
| Listening.DualLetsInNone | Middleware/LwIP/lwiperf.c:641-646 | a dual listener meets that condition in every run |
| Listening.GoneLetsInNone | Middleware/LwIP/lwiperf.c:641-646 | a tradeoff listener meets it once the client has left, while its address does not come back |
| Listening.StartOpensListener | Middleware/LwIP/lwiperf.c:797-815 | a dual or tradeoff start that comes up has opened a listener for its remote host and its client, tradeoff exactly in that mode, with no connection yet |
| Listening.RunSourced | Middleware/LwIP/lwiperf.c:596-650 | over every run accepted connections name listening blocks that exist |
| Listening.RunAnswerTo | Middleware/LwIP/lwiperf.c:609-649 | over every run each connection a secondary listener let in comes from its remote host and answers to its client for as long as it lasts |
| Listening.TestListenerLife | Middleware/LwIP/lwiperf.c:638-647 | from the user's call on, over any run, how many connections a test's listener takes and when it goes, one at most in a dual test; all from the host the test was started with, answering to the client |
| Orphans.StepKeepsOrphan | Middleware/LwIP/lwiperf.c:353-845 | no event but an abort that names it changes an orphan or is about its block |
| Orphans.OrphanStays | Middleware/LwIP/lwiperf.c:353-845 | an orphan stays listed, never freed, over every run that does not abort it |
| Orphans.OrphanKeepsListener | Middleware/LwIP/lwiperf.c:642 | a tradeoff listener that belongs to an orphan never closes |
| Effects.StepVanished | Middleware/LwIP/core/tcp_in.c:600-618 | no event but the stack's own adds to the blocks freed without a word |
| Vanishing.NoOtherOrphans | Middleware/LwIP/lwiperf.c:186-845 | an orphan after any event but the silent free of its own block was one before, with the same record |
| Vanishing.RunVanishings | Middleware/LwIP/core/tcp_in.c:600-618 | over every run the blocks freed without a word are those its history names, and they stay freed |
| Vanishing.OrphansExactly | Middleware/LwIP/lwiperf.c:186-845 | so a listed record is an orphan if and only if the history holds the silent free of its block |
| Listening.ReachReusedAddress | Middleware/LwIP/lwiperf.c:642 | a run in which a tradeoff client leaves and its address comes back as another client |
| Listening.ReusedAddressKeepsListening | Middleware/LwIP/lwiperf.c:642 | from there the listener lets in two connections and still listens |
| Limits.ClientAnnounces | Middleware/LwIP/lwiperf.c:771-792 | the flags, port 5001 and ten seconds each kind of client start announces, as the receiver reads them |
| Limits.AnnouncedBytes | Middleware/LwIP/lwiperf.c:771-792 | the same as the 24 bytes that are sent |
| Limits.ByteLimitedCall | Middleware/LwIP/lwiperf.c:301-310 | a byte-limited call closes exactly at the amount, never wraps, and reports a count between amount and amount plus one segment |
| Limits.TimeLimitedCall | Middleware/LwIP/lwiperf.c:290-300 | a time-limited call closes exactly if its last clock reading is at or after the limit, writing nothing then |
| Deadlines.TimedRun | Middleware/LwIP/lwiperf.c:290-300 | over a run a time-limited session is open if and only if no call read the clock at or after its limit, no ten polls came in a row and nothing else ended it, across clock wrap |
| Deadlines.ConnectedRun | Middleware/LwIP/lwiperf.c:373-381 | the same from the connected callback on, whose clock reading starts the time |
| Limits.LongTestsWrap | Middleware/LwIP/lwiperf.c:294-295 | 429,496,730 units of 10 ms end after 4 ms |
| WireSettings.StoredWord | Middleware/LwIP/lwiperf.c:290-303 | the byte views of the settings are what the C masks and lwip_htonl compute on the stored words |
| WireSettings.MadeSettings | Middleware/LwIP/lwiperf.c:771-792 | fields stored with htonl are read back by the receiver: both flag tests, the port modulo 2^16, the amount with its sign |
| WireSettings.SettingsLayout | Middleware/LwIP/lwiperf.c:88-98 | the header is six words, most significant byte first, two of them zero |
| WireSettings.NegativeAmount | Middleware/LwIP/lwiperf.c:294-295 | the wrapping negation and multiplication recover ten times the request exactly when that fits 32 bits |
| WireSettings.WithoutFlagsProps | Middleware/LwIP/lwiperf.c:450 | clearing the flags keeps the rest of the header and asks for nothing |
| CacheSetWay.EveryPairOnce | Drivers/CMSIS/Include/cachel1_armv7.h:303-314 | with at most 512 sets and 4 ways every pair is written exactly once, under a code of its own |
| CacheSetWay.CodeFields | Drivers/CMSIS/Include/cachel1_armv7.h:306-307 | the word written holds the set in bits 13:5, the way in bits 31:30 and zeros elsewhere |
| CacheSetWay.GeometryFields | Drivers/CMSIS/Include/cachel1_armv7.h:41-43 | the geometry fields read back what the register holds in bits 27:13 and 12:3 |
| CacheSetWay.WritesInOrder | Drivers/CMSIS/Include/cachel1_armv7.h:303-314 | the words written, one by one: sets downwards, and ways downwards within a set |
| CacheSetWay.WalkReaches | Drivers/CMSIS/Include/cachel1_armv7.h:303-314 | a full walk maintains exactly the cached lines whose set and way the register fields can name, the hardware reading the set in bits 13:5 and the way in bits 31:30 |
| CacheSetWay.LargerGeometryEscapes | Drivers/CMSIS/Include/cachel1_armv7.h:303-314 | for every larger geometry some cache is left non-empty |
| CacheSetWay.DCache.WalkRow | Drivers/CMSIS/Include/cachel1_armv7.h:306-313 | the way loop ends although its counter runs past zero, having written each way once |
| CacheSetWay.DCache.Walk | Drivers/CMSIS/Include/cachel1_armv7.h:303-314 | both loops end and write the codes of all pairs, in the order of `CacheSetWay.WritesInOrder` |
| CacheSetWay.DCache.EnableDCache | Drivers/CMSIS/Include/cachel1_armv7.h:141-174 | nothing if already on; otherwise an empty cache and an unchanged view |
| CacheSetWay.DCache.DisableDCache | Drivers/CMSIS/Include/cachel1_armv7.h:181-212 | an empty cache that is off and memory holding what was held; the view is unchanged exactly where the cache was on or held no value of its own |
| CacheSetWay.DCache.InvalidateDCache | Drivers/CMSIS/Include/cachel1_armv7.h:219-247 | an empty cache, memory untouched, and exactly which reads change, cache on or off |
| CacheSetWay.DCache.CleanDCache | Drivers/CMSIS/Include/cachel1_armv7.h:254-282 | nothing dirty left, the same lines cached, memory holding what was held, and exactly which reads change, cache on or off |
| CacheSetWay.DCache.CleanInvalidateDCache | Drivers/CMSIS/Include/cachel1_armv7.h:289-317 | an empty cache, memory holding what was held, and exactly which reads change, cache on or off |
| CacheByAddr.WalkCovers | Drivers/CMSIS/Include/cachel1_armv7.h:361-371 | the walk lists exactly the lines that meet the byte range, each once, also across the end of the address space |
| CacheByAddr.SizeStep | Drivers/CMSIS/Include/cachel1_armv7.h:362-371 | the first subtraction repairs an op_size that overflowed int32 |
| CacheByAddr.Maintenance.ByAddr | Drivers/CMSIS/Include/cachel1_armv7.h:358-377 | for every int32 size and every address, exactly the lines that meet the range are maintained, each named once |
| CacheByAddr.Maintenance.CleanDCacheByAddr | Drivers/CMSIS/Include/cachel1_armv7.h:358-377 | memory holds what was held for every byte of the range, lines outside are as they were, and exactly which reads change: none with the cache on |
| CacheByAddr.Maintenance.CleanInvalidateDCacheByAddr | Drivers/CMSIS/Include/cachel1_armv7.h:388-407 | the same, and exactly the lines of the range have left the cache |
| CacheByAddr.Maintenance.InvalidateDCacheByAddr | Drivers/CMSIS/Include/cachel1_armv7.h:328-347 | memory untouched, and exactly which reads change: none with the cache off |
| Nvic.WordExists | Drivers/CMSIS/Include/core_armv8mbl.h:1436-1438 | the index macros stay inside IPR and SHPR for exactly the interrupts -8 to 495 |
| Nvic.RegisterByte | Drivers/CMSIS/Include/core_armv8mbl.h:1436-1438 | interrupt n has byte n mod 4 of IPR word n / 4, exception n - 8 that of SHPR |
| Nvic.ScaledIs | Drivers/CMSIS/Include/core_armv8mbl.h:1650-1656 | what is written is the implemented bits of the priority at the top of the byte |
| Nvic.SetField | Drivers/CMSIS/Include/core_armv8mbl.h:1646-1658 | setting a priority writes its byte and no other byte of any register |
| Nvic.ScaleBack | Drivers/CMSIS/Include/core_armv8mbl.h:1650-1679 | shifting up on set and down on get cuts a priority to the implemented bits |
| Nvic.LastCallWins | Drivers/CMSIS/Include/core_armv8mbl.h:1646-1681 | after any sequence of calls an interrupt reads as its last priority, cut to the implemented bits |
| Nvic.NeverSet | Drivers/CMSIS/Include/core_armv8mbl.h:1646-1681 | the byte of an interrupt no call names is what it was |
| Nvic.PartsSurvive | Drivers/CMSIS/Include/core_armv8mbl.h:1646-1733 | encode, set, get and decode give back the parts, cut to their widths |
| Nvic.Controller.SetPriority | Drivers/CMSIS/Include/core_armv8mbl.h:1646-1658 | the read-modify-write of the register word, positive and negative interrupt numbers |
| Nvic.Controller.GetPriority | Drivers/CMSIS/Include/core_armv8mbl.h:1670-1681 | the priority read back from the register word |
| Priority.Widths | Drivers/CMSIS/Include/core_armv8mbl.h:1701-1702 | the field widths add up to the implemented bits, despite the wrapping subtraction; the subpriority has the group's bits less those not implemented |
| Priority.DecodeEncode | Drivers/CMSIS/Include/core_armv8mbl.h:1695-1733 | decoding an encoded priority gives both parts cut to their widths; an encoded priority fits |
| Priority.EncodeDecode | Drivers/CMSIS/Include/core_armv8mbl.h:1695-1733 | encoding a decoded priority cuts it to the implemented bits |
| Priority.EncodeDecodeSame | Drivers/CMSIS/Include/core_armv8mbl.h:1695-1733 | so it gives the priority back if and only if that fits them |
| Priority.EncodeOrders | Drivers/CMSIS/Include/core_armv8mbl.h:1695-1708 | encoding orders in-range parts lexicographically |
| BitReverse.Rbit | Drivers/CMSIS/Include/cmsis_iccarm.h:573-584 | the early-exit loop computes the 32-bit reversal and its shift count never passes zero; the loop in cmsis_gcc.h is the same |
| BitReverse.ReverseBit | Drivers/CMSIS/Include/cmsis_iccarm.h:573-584 | bit i of the reversal is bit n - 1 - i |
| BitReverse.ReverseInvolutive | Drivers/CMSIS/Include/cmsis_gcc.h:373-394 | reversing twice gives the number back |
| BitReverse.Clz | Drivers/CMSIS/Include/cmsis_iccarm.h:558-571 | the number of zeros above the highest one bit, 32 for zero |
| BitReverse.LeadingOfReverse | Drivers/CMSIS/Include/cmsis_iccarm.h:558-584 | leading zeros of the reversal are trailing zeros of the number, and conversely |
| Mpu.FeedSets | Drivers/CMSIS/Include/mpu_armv7.h:228-258 | words written to RBAR and RASR in turn set the rows of the table one by one |
| Mpu.LastRowWins | Drivers/CMSIS/Include/mpu_armv7.h:264-273 | a region ends up as the last row that names it says, one without a row as it was |
| Mpu.Mpu.SetRegion | Drivers/CMSIS/Include/mpu_armv7.h:228-232 | one row set |
| Mpu.Mpu.OrderedMemcpy | Drivers/CMSIS/Include/mpu_armv7.h:251-258 | the words of a chunk are written in order, each inside the alias window |
| Mpu.Mpu.Load | Drivers/CMSIS/Include/mpu_armv7.h:264-273 | whatever the number of aliases, chunked loading equals setting the rows one at a time, every word written once and in order, count 0 and a full last chunk included |

## Left out

- The TCP/IP stack, buffers and allocator themselves: their answers are nondeterministic.
- Interface addresses, the local address and port a server binds: no engine state depends on them.
- Iperf.Engine.ConnReport: duration, bandwidth and the user's report argument are not modelled; they are computed from one record and the clock and passed on. The clock reading taken for them is the one call the log does not hold.
- LWIPERF_CHECK_RX_DATA and next_num: off by default, and the expected digits restart at 4 where the sender does not.
- base.tcp: constant 1, since only TCP sessions exist.
- Ownership.RunOwned: runs in which the engine aborts a session in use are excluded, since ownership is lost exactly there; so in Idle.RunCounts, Receipts.RunReceipts, Answering.RunAnswers, Listening.ListenerRun and Endpoints.AtMostTwoConnections.
- Sending.RunStreams: the same runs are excluded; and content is stated for the first 2^32 bytes of a connection; the engine picks its offset from a 32-bit count, and later bytes continue from the wrapped count, where the header appears again.
- Instruction-cache functions, memory barriers and register selection: no visible algorithm.
- Line contents and bytes: Cache keeps one value for each line; a byte agrees when its line does.
- Priority of exceptions below -8: their index is outside SHPR, and NVIC_SetPriority documents that not every exception has one.
- The start-up copy and zero tables, the other Enable/Disable/Pending functions, SSAT/USAT/ROR, SysTick and the drivers for the PHY and the LEDs: single loops or single-branch register writes.
- The non-secure and other-core copies of the modelled functions: the same bodies.
