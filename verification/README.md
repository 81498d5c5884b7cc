# A verified model of the cppnetwork client library

The library keeps TCP connections for an application: one event-loop thread waits on
epoll, reads and writes sockets, cuts the incoming bytes into length-prefixed PDUs and calls
the application back; application threads connect, send and close by integer handle. A small
ICMP ping lives beside it. This project models that logic in Dafny and proves properties of it.

`dafny verify dfyconfig.toml` checks everything.

## How it is built

| file | component | form |
|---|---|---|
| `Codec.dfy` | big-endian integers (`tools.cpp`, `databuffer.h`) | functions, array-filling methods |
| `Sizing.dfy`, `DataBuffer.dfy`, `TypedQueue.dfy` | the growable byte queue (`databuffer.h`) | a class over an array with offsets, ghost counters for traffic and relocations; its sizing arithmetic as functions |
| `Framing.dfy`, `TcpConnection.dfy` | the stream engine (`tcpconnection.cpp`) | a recursive parse of a stream, and the class whose loops are proved to compute it |
| `Registry.dfy`, `NetWork.dfy`, `Handles.dfy` | the handle registry, reference counts, timeouts, handles (`network.cpp`, `tools.cpp`) | classes whose methods are proved equal to functions on a table |
| `Protocol.dfy`, `Protocol*.dfy` | all threads together | an interleaving transition system over the same table functions, its invariants, theorems over all runs (`ProtocolRuns.dfy`, `ProtocolProgress.dfy`), what a run did told from its steps alone (`ProtocolHistory.dfy`, `ProtocolMessages.dfy`, `ProtocolOrder.dfy`, `ProtocolWork.dfy`), and two runs step by step (`ProtocolScenes.dfy`, `ProtocolLateReturn.dfy`, `ProtocolEarlyClose.dfy`) |
| `Checksum.dfy` | `get_check_sum`, `pack_icmp` (`ping.cpp`) | methods over an array, against one's complement addition |

The transition system has one atomic step for each locked section, epoll call, read or
write of `_state`, socket close and callback. A step sees a `View`: the registry, the connect
under way, the loop, one connection and one thread. An invariant is proved step by step on
views, then put back into the whole state with what the other threads may rely on.
The invariants build on each other: `Named`, `Alive`, `Ordered`, then `Counted`, `Talking`
and `Flowing`. The last four modules state what the steps do without the functions that define
them: which write of a field stands, which messages were taken, and which step of a thread may
follow which, given what the earlier one found.

Assumptions of the transition system, all explicit in `Protocol.dfy`:

- the epoll variant: MOD and DEL on an unregistered or closed descriptor have no effect, and
  one batch names each connection at most once (`LegalBatch`);
- calls of `connect` are serialised (one `Dial`), and fewer than 2^31 - 2 connections are made.

The theorems are about careful runs (`Runs.IsCarefulRun`): runs of this system in which no `close`
finds a connection between its `addconn` and its `add_event`. "Every run" below means every
careful run. The transition system itself does not forbid such a `close`, and
`EarlyClose.EarlyClose` shows what it does: a run in which the connection is registered although it
has been taken out of `_conns`, and the loop takes up an event of a connection that is deleted.
Only the read of the handle on the last line of `connect` needs more than care; see below.

Where the code does not do what its comments or its callers expect, the code is modelled:

- The last line of `connect` reads the handle of a connection that it gave to the loop two lines
  before (src/network.cpp:188-191). `LateReturn.LateReturn` is a run from the initial state in which
  the connect fails at once and the loop closes, reports, recycles and deletes the connection
  before that read. `LateReturn.ReturnIsSafeExactly` says when the read is safe: the connection is
  still in one of the two lists or somebody holds it; `LateReturn.ReturnIsLateExactly` says it of the
  schedule. It always is if no `close` finds a connection before its `connect` has returned
  (`Runs.Patient`). Nothing else in the protocol reads a deleted connection (`Runs.NoUseAfterFree`).
- `read_data` reports a parse error when its first read leaves fewer than four bytes pending
  (`Framing.ShortFirstReadIsRefused`). `Framing.ParseErrorExactly` says that on a stream of frames
  with a body this is the only case.
- A bare header (the frame 0, 0, 0, 4) is delivered and the connection then dropped, if fewer than
  four bytes follow it in what has been read (`Framing.BareHeaderIsDeliveredThenRefused`).
  `Framing.StreamRefusedExactly` is the exact condition for streams with such frames, and
  `Framing.CallRefusedExactly` the one for every stream of bytes.
- `write_data` looks like a loop of up to ten writes; its inner `ret` hides the outer one, so it
  writes at most once a call (`Connection.TcpConnection.WriteData`).
- `make_handle` wraps only inside its loop; a call can return 2^31 - 1, and the next one then
  overflows a signed `int` (`Handles.RunsOut`), exactly under the condition `Handles.Overflows`.
- `expand` computes sizes in `int`; they overflow exactly when `Sizing.ExpandFitsGuard` says so,
  for instance on the inputs of `Sizing.ExpandOverflows`, and never for the input buffer
  (`Sizing.ReadReservation`).
- `readString` takes a length above 2^31 - 1 for a negative one and moves the reader back, so that
  bytes already read are pending again (`Buffers.DataBuffer.ReadString`).
- `close` writes CLOSED, but the loop may have seen the connection connecting before and still
  write CONNECTED over it (src/tcpconnection.cpp:172-178, 305). `History.CloseIsFinal` says that this
  is the only way for the state to change again.
- `read_data` refreshes the time of the last activity whether or not it reads anything, although its
  comment says otherwise (`Connection.TcpConnection.ReadData`).
- `addconn`, when it finds the handle taken, deletes the new connection and then reads its handle
  for the log (src/network.cpp:60-61). No run gets there (`Runs.NewHandleIsFresh`).

## Model

| member | source | states |
|---|---|---|
| `Runs.ReferenceCounts` | src/network.cpp:15-128 | in every state of every run, a live connection's count is the number of its owners ([in `_conns`] + [in `_recycles`] + the event in hand + the connect under way + threads inside a call), the two lists are disjoint, and it has been deleted once exactly if it has no owner |
| `Runs.GoneForEver` | src/tools.cpp:37-52 | once the last owner has let go, no later step of any thread ever owns the connection again |
| `Runs.NoUseAfterFree` | src/network.cpp:182-261 | every connection that any step of any thread dereferences is not deleted at that moment; for the last line of `connect`, in runs where no `close` finds the connection before `connect` has returned |
| `LateReturn.LateReturn` | src/network.cpp:188-191 | a run from the initial state after which the last line of `connect` reads a deleted connection |
| `LateReturn.ReturnIsSafeExactly` | src/network.cpp:188-191 | in every run, that read is safe if and only if the connection is in `_conns` or `_recycles` or held by the loop or by a thread inside a call |
| `LateReturn.ReturnIsLateExactly` | src/network.cpp:119-191 | in terms of the schedule: that read meets a deleted connection if and only if since its `addconn` a `clear` has taken the connection off the recycle list and no thread inside a call, nor the loop, still holds it |
| `EarlyClose.EarlyClose` | src/network.cpp:188-231 | a run with a `close` between `addconn` and `add_event`, and so not a careful one, at the end of which the loop takes up an event of a deleted connection |
| `Runs.BatchIsAlive` | src/network.cpp:290-342 | no connection of a fetched epoll batch, handled already or not, is deleted before the `clear` that follows the batch, although the loop takes its references one by one |
| `Runs.RestIsAlive` | src/network.cpp:290-315 | no connection in the rest of a batch is deleted before the loop has come to it |
| `Runs.ClosesOnce` | src/network.cpp:215-231 | over any race of closers `TcpConnection::close` runs at most once, and only one thread ever wins the right to run it |
| `Runs.CloseMeetsItsTarget` | src/network.cpp:66-78 | a `close(handle)` in progress holds the only connection that ever had that handle; on behalf of the loop it is the connection that failed or timed out |
| `Runs.NewHandleIsFresh` | src/network.cpp:345-361 | before the counter wraps, `make_handle` returns the next number without a turn of its loop, and `addconn` never finds the handle taken |
| `Runs.CallbackLanguage` | src/tcpconnection.cpp:82-200 | every connection's callbacks form a word of (onConnect onRead*)? onClose?, in every run, with application threads racing `close` |
| `Runs.OutputIsConserved` | src/tcpconnection.cpp:202-258 | in every run, bytes sent followed by bytes still to be sent are the accepted messages in order, and with the mutex free the latter are what the buffer holds; reading and storing the buffer are separate steps, so this rests on the mutex |
| `Runs.NoLostWakeUp` | src/tcpconnection.cpp:169-258 | with the mutex free, a registered connection that has output or is connecting has its write event on |
| `History.StateIsLastWritten` | src/tcpconnection.cpp:58-305 | in every run, the state of a connection is what the last of these steps on it wrote: CONNECTING by `connect`, CONNECTED by the end of a connect, CLOSED by `close`; nothing else writes it |
| `History.FlagIsLastSet` | src/tcpconnection.cpp:169-279 | in every run, the socket is open, the connection registered, or its write event on, if and only if a step has made it so and no later one has undone it, for each of the three |
| `History.TrafficIsRecorded` | src/tcpconnection.cpp:202-308 | in every run, the bytes sent are those the socket took in the writes for this connection, the callbacks those made for it, and the runs of `close` the number of its `close` steps |
| `History.CloseIsFinal` | src/tcpconnection.cpp:274-305 | from the step in which `close` writes CLOSED, the state is CLOSED if and only if the loop has not written CONNECTED over it since |
| `Messages.AcceptedIsWhatWasSent` | src/tcpconnection.cpp:246-258 | in every run, the bytes a connection accepted are the messages passed to those calls of `send` that found it CONNECTED, whole and in order, less the one that a thread inside `deliver_data` has yet to store; with the mutex free they are the bytes sent followed by those in the buffer |
| `Messages.AlwaysCarries` | src/network.cpp:202-213 | the message and the connection that a thread inside `send` works with are those of the handle and the data its caller passed |
| `Messages.ClosedTakesNothing` | src/tcpconnection.cpp:251-278 | after a `close` that is not overwritten, no `send` is taken any more |
| `Order.ProgramOrder` | src/network.cpp:182-342 | the next step of `connect`, of a thread inside `send`, `getStatus` or `close`, and of the loop is the one that its last step leads to, given the state, the event and the registry that step found, and it is about the same connection |
| `Order.ProgramBegins` | src/network.cpp:182-342 | the first step of each is a new connection, a call from the application, or a poll |
| `Order.ProgramEnds` | src/network.cpp:182-342 | a call, a connect or the loop is at rest if and only if its last step was a last one: nobody gives up in between |
| `Work.EventsInOrder` | src/network.cpp:290-315 | every event of a batch is taken up once and in order, and the batch is left only when all of them have been |
| `Work.SweepInOrder` | src/network.cpp:328-334 | so is every connection of a timeout list |
| `Work.AfterOnClose` | src/tcpconnection.cpp:89-92 | after `onClose` the loop goes on behind the place the `close` came from: the write half of the event, its end, or the next timed-out connection |
| `Progress.NobodyIsStuck` | src/tcpconnection.cpp:202-258 | in every state of every run a busy thread can take a step, or waits for a mutex whose owner can: no deadlock, and wait chains of length one |
| `Runs.Shutdown` | src/network.cpp:15-36 | after any run that has gone quiet, `~OnlineUser` leaves every connection ever created deleted exactly once |
| `Runs.RegistryOwns` | src/network.cpp:51-78 | at every moment of every run no connection is twice in the registry, and each one in it is alive |
| `Names.NamedStep` | src/network.cpp:345-361 | every step keeps handles and connections in one-to-one correspondence, in the registry, in every thread and in the loop's work |
| `Lifetimes.AliveStep` | src/network.cpp:182-231 | every step keeps: registered with epoll implies in `_conns` and open; in `_conns` implies never closed; past `removeconn` implies out of `_conns`; one winner |
| `LoopOrder.OrderedStep` | src/network.cpp:290-342 | every step keeps: the loop's remaining events and timeouts name distinct connections that are in `_conns` or `_recycles`; when `close` has returned to the loop the connection is out of `_conns` |
| `References.CountedStep` | src/tools.cpp:16-52 | every step changes the count of every connection exactly as it changes the number of its owners |
| `Callbacks.TalkStep` | src/tcpconnection.cpp:82-200 | every step keeps what state, registration and the loop's position say about how far a connection's callbacks have come |
| `Callbacks.PhaseIsSession` | src/tcpconnection.cpp:284-308 | the automaton used in the proof accepts exactly the traces (onConnect onRead*)? onClose? |
| `Output.FlowStep` | src/tcpconnection.cpp:202-258 | every step keeps the output conserved and owned: if there is output and no write event, the holder of the mutex is about to ask for it |
| `Registry.ReleaseAllCounts` | src/network.cpp:119-128 | releasing a list without duplicates takes one reference from each member and deletes exactly those that had one left |
| `Registry.OnlineUser.Getconn` | src/network.cpp:38-49 | the connection under the handle with one more reference, or nothing and no change |
| `Registry.OnlineUser.Addconn` | src/network.cpp:51-64 | a new handle is entered; a taken one deletes the newcomer and says so |
| `Registry.OnlineUser.Removeconn` | src/network.cpp:66-78 | the connection moves to the end of the recycle list; true exactly if it was there |
| `Registry.OnlineUser.CheckTimeout` | src/network.cpp:81-117 | exactly the connections idle for more than 5 s (connecting) or 600 s (connected), each with the reason that goes with its state; all counts as before |
| `Registry.OnlineUser.ClearRecycles` | src/network.cpp:119-128 | the popping loop is one release of every recycled connection |
| `Registry.OnlineUser.Destroy` | src/network.cpp:15-36 | one reference less for every connection in the registry, and for no other; those at one are deleted |
| `Registry.OnlineUser.AddReference` | src/tools.cpp:16-23 | one more reference for this connection only |
| `Registry.OnlineUser.ReleaseReference` | src/tools.cpp:37-52 | one reference less; deleted exactly if it was the last |
| `Sweeping.NetWork.Connect` | src/network.cpp:182-199 | a handle nobody uses, entered in state CONNECTING; if the socket refuses, -1 and the connection deleted; the overflow of `make_handle` told apart |
| `Sweeping.NetWork.Close` | src/network.cpp:215-231 | the connection is recycled and closed, all counts end as they were, every other connection is untouched |
| `Sweeping.NetWork.TimeProcess` | src/network.cpp:317-342 | nothing within a second; otherwise exactly the timed-out connections are closed and reported once, ascending, with their reason, and every recycled one loses one reference; no other connection changes, and of those closed only the state |
| `Handles.HandleSource.MakeHandle` | src/network.cpp:344-361 | of the free handles the one reached first around the cycle; terminates if any is free; overflows exactly under `Overflows` |
| `Handles.RunsOut` | src/network.cpp:350-353 | a call can return 2^31 - 1, and the call after it overflows, whatever is online |
| `Framing.ParseIncremental` | src/tcpconnection.cpp:110-118 | parsing more bytes behind a remainder continues the parse of the whole |
| `Framing.FeedIsParse` | src/tcpconnection.cpp:97-118 | parsing chunk by chunk delivers and keeps exactly what one parse of the concatenation does |
| `Framing.ChunkingIrrelevant` | src/tcpconnection.cpp:97-118 | two chunkings of the same bytes deliver the same PDUs and keep the same remainder |
| `Framing.ParseSound` | src/tcpconnection.cpp:25-35 | the PDUs are frames whose length field is their length, PDUs and remainder make up the stream, and the remainder holds no complete PDU |
| `Framing.ParseOfFrames` | src/tcpconnection.cpp:25-35 | concatenated frames parse back to exactly those frames |
| `Framing.ParseUnique` | src/tcpconnection.cpp:25-35 | no other cut of the stream into frames and an incomplete rest exists |
| `Framing.HeaderIsBigEndian` | src/tcpconnection.cpp:19-23 | the length field is the big-endian value of the first four bytes |
| `Framing.PendingAfterPass` | src/tcpconnection.cpp:121-126 | after a pass that is not refused less than 8 MiB is pending, and less than the last length seen |
| `Framing.CallRefusedExactly` | src/tcpconnection.cpp:110-126 | for every stream and every chunking: a call reports a parse error exactly if a bad length is pending, or fewer than four bytes are and either the first read completed nothing or the PDU completed last is a bare header or longer than 8 MiB |
| `Framing.StreamRefusedExactly` | src/tcpconnection.cpp:110-126 | on a stream of frames of 4 bytes to 8 MiB: exactly if fewer than four bytes are left and either the first read completed no frame or the frame completed last is a bare header |
| `Framing.ParseErrorExactly` | src/tcpconnection.cpp:110-126 | on a stream of frames of 5 bytes to 8 MiB: exactly if this is the first read of the call and fewer than four bytes are pending after it |
| `Framing.ShortFirstReadIsRefused` | src/tcpconnection.cpp:111-121 | the input on which a well-formed stream is refused |
| `Framing.BareHeaderIsDeliveredThenRefused` | src/tcpconnection.cpp:114-126 | a bare header with fewer than four bytes behind it, read at once into an empty buffer, is delivered, those bytes are kept, and the same call is then refused |
| `Connection.TcpConnection.DeliverAvailable` | src/tcpconnection.cpp:114-118 | the inner loop delivers exactly the PDUs of the pending bytes and leaves their remainder |
| `Connection.TcpConnection.ReadOn` | src/tcpconnection.cpp:135-142 | the guarded reservation always happens, so every read has 8 KiB of room, a return of 0 is the end of the stream, and the buffer stays within 16 MiB |
| `Connection.TcpConnection.ReadLoop` | src/tcpconnection.cpp:104-145 | reads again exactly while the last read filled its room and left a part of a PDU, eleven times at most; broken exactly if the specification refuses what was read |
| `Connection.TcpConnection.ReadData` | src/tcpconnection.cpp:97-167 | for every behaviour of the socket: delivered PDUs and pending bytes are the parse of all bytes received; true if and only if there was no parse error and the last read returned bytes, or failed with EAGAIN; otherwise the reason for each case; the buffer shrunk; no `int` overflows |
| `Connection.TcpConnection.OnReadEvent` | src/tcpconnection.cpp:82-95 | reads if and only if connected, and then closes, with the reason, if and only if the verdict of `read_data` is bad |
| `Connection.SameBytesSameEffect` | src/tcpconnection.cpp:97-167 | two connections that received the same bytes in different chunks delivered the same PDUs and hold the same rest |
| `Connection.TcpConnection.WriteData` | src/tcpconnection.cpp:202-244 | with something to send exactly one write, which offers all of it; what the socket took goes off the front; the write event off exactly if nothing is left; the buffer shrunk |
| `Connection.TcpConnection.DeliverData` | src/tcpconnection.cpp:246-258 | queued behind what is there, with the write event on, exactly if connected |
| `Connection.TcpConnection.OnWriteEvent` | src/tcpconnection.cpp:169-200 | when connecting, CONNECTED if the SO_ERROR fetched is 0 and closed with its reason if not; one write of everything exactly if connected with something queued, none otherwise |
| `Sizing.ExpandAmortised` | src/databuffer.h:544-580 | `expand` yields the room asked for, keeps a power-of-two capacity, and what it relocates is paid for by the potential and the request |
| `Sizing.ShrinkAmortised` | src/databuffer.h:122-148 | `shrink` relocates and re-endows for at most 6144 |
| `Sizing.CapacityCeiling` | src/databuffer.h:544-580 | a power-of-two ceiling above data and request is never crossed |
| `Sizing.ReadReservation` | src/tcpconnection.cpp:135-137 | with less than 8 MiB pending, room for one more read keeps the buffer within 16 MiB and inside `int` |
| `Sizing.ExpandFitsGuard` | src/databuffer.h:544-580 | `expand` stays inside `int` if and only if there is room already, or `flen * 4` fits where it is computed and what must be allocated is at most 1 GiB; for every buffer and request |
| `Sizing.ExpandOverflows` | src/databuffer.h:544-580 | inputs on which the doubling and on which `flen * 4` leave `int` |
| `Buffers.DataBuffer.Expand` | src/databuffer.h:544-580 | contents unchanged, room for the request, at most the relocations of the sizing function, for doubling and for the overlapping move |
| `Buffers.RelocationIsLinear` | src/databuffer.h:96-580 | whatever operations led here, at most 4·(sum of requests) + 4·(bytes added) + 4·(bytes consumed) + 6144·(shrinks) bytes have been copied; the bytes are counted where they are copied, and every method keeps this account |
| `Buffers.DataBuffer.Shrink` | src/databuffer.h:122-148 | contents unchanged, capacity back to 2048 exactly when large and nearly empty |
| `Buffers.DataBuffer.DrainData` | src/databuffer.h:96-103 | removes min(n, length) bytes from the front; rewinds when empty |
| `Buffers.DataBuffer.PourData` | src/databuffer.h:105-109 | the next n bytes of the free part become contents |
| `Buffers.DataBuffer.StripData` | src/databuffer.h:111-115 | removes n bytes from the end |
| `Buffers.DataBuffer.WriteBytes` | src/databuffer.h:205-210 | appends exactly these bytes |
| `Buffers.DataBuffer.WriteInt32` | src/databuffer.h:170-183 | converts any number to `uint32_t` and appends its bytes, which are the two's complement bytes of the number |
| `Buffers.DataBuffer.WriteString` | src/databuffer.h:300-311 | appends length and NUL-terminated text |
| `Buffers.DataBuffer.WriteVector` | src/databuffer.h:321-355 | appends the count and every element, signed or unsigned, of 4 or 8 bytes; the new layout of the block |
| `Buffers.DataBuffer.ReadInt` | src/databuffer.h:360-440 | the next 1, 2, 4 or 8 bytes as a number, or refused exactly if they are not there |
| `Buffers.DataBuffer.ReadBytes` | src/databuffer.h:442-451 | the next bytes, or refused exactly if they are not there |
| `Buffers.DataBuffer.ReadString` | src/databuffer.h:456-479 | the text clipped to what is there, its last byte replaced by NUL; for a negative length no text, and that many bytes of the block pending again |
| `Buffers.DataBuffer.ReadVector` | src/databuffer.h:484-518 | every element of the count in front, as a number of the signed or unsigned type asked for |
| `Buffers.DataBuffer.FindBytes` | src/databuffer.h:531-540 | the first offset at which the pattern occurs, or -1 exactly if nowhere |
| `Buffers.VectorRoundTrip` | src/databuffer.h:321-355 | what the vector writer wrote, the vector reader's decoding gives back, whatever follows, over the whole range of each of the four element types |
| `TypedQueue.TakeReturnsItem` | src/databuffer.h:153-518 | each typed reader returns what its writer wrote, negative numbers included, and stops right behind it |
| `TypedQueue.RunAgrees` | src/databuffer.h:153-518 | any interleaving of writers and matching readers behaves on bytes as on a queue of values |
| `TypedQueue.QueueIsFifo` | src/databuffer.h:153-518 | everything put, in order, is everything got, then everything still queued |
| `TypedQueue.Replay` | src/databuffer.h:96-580 | the same on the real buffer, with growth, compaction and shrinking anywhere in between, for every run in which no `expand` leaves `int` |
| `TypedQueue.RoomyRunFits` | src/databuffer.h:544-580 | a guard on the values alone: if what is pending and what is asked for next never exceed 192 MiB together, no `expand` of the run leaves `int`, however long it is |
| `Codec.UnsignedRoundTrip` | src/tools.cpp:54-144 | every unsigned number of k bytes decodes from its big-endian bytes |
| `Codec.SignedRoundTrip` | src/tools.cpp:54-144 | so does every two's complement number |
| `Codec.BigEndianMod` | src/databuffer.h:170-183 | a number has the bytes of its conversion to an unsigned type of that width |
| `Codec.SignedOfUnsigned` | src/databuffer.h:484-509 | conversion to the unsigned type and back is the identity on the signed range |
| `Codec.BigEndianOfValue` | src/tools.cpp:106-144 | and every byte string is the encoding of its value |
| `Codec.ToolsRoundTrip` | src/tools.cpp:54-144 | each `Read*` undoes its `Write*` on the whole range, signed and unsigned, 16, 32 and 64 bits |
| `Codec.Write32` | src/tools.cpp:66-81 | the four bytes written are the two's complement big-endian bytes, over the whole `int32_t` and `uint32_t` ranges: those that `DataBuffer.WriteInt32` appends |
| `Codec.ReadUint32` | src/tools.cpp:124-128 | the value of the first four bytes |
| `Checksum.SumIsOnesSum` | src/ping.cpp:218-231 | adding words in an `int` and folding afterwards is the one's complement sum of RFC 1071 section 1 |
| `Checksum.TwoFoldsSuffice` | src/ping.cpp:230-232 | two folds reduce every sum that fits an `int` |
| `Checksum.GetCheckSum` | src/ping.cpp:211-235 | for up to 65536 bytes no partial sum leaves `int`, and the result is the complement of the one's complement sum, odd lengths included |
| `Checksum.SecondCheckIsZero` | src/ping.cpp:211-258 | with a number put into the zeroed aligned field, the check gives 0 exactly if the number is the checksum (or the other zero) |
| `Checksum.ByteOrderSwaps` | src/ping.cpp:218-234 | hosts of opposite byte order compute byte-swapped sums, for every length (RFC 1071 section 2(B)) |
| `Checksum.ByteOrderIndependent` | src/ping.cpp:218-234 | the two checksum bytes on the wire do not depend on the host |
| `Checksum.PackIcmp` | src/ping.cpp:238-258 | type, code, id, number and time in their places, the rest untouched, and the 64 bytes pass the receiver's check |

## Left out

- ReadString: a negative length that moves the reader out of the block is a precondition (the code has no check); the form that fills a caller's buffer is not modelled.
- ReadVector: the element readers only assert that the bytes are there, so that is a precondition; malformed counts are not modelled.
- WriteVector: the caller keeps every `expand` inside `int`.
- WriteString: text without an inner NUL; a null pointer is not modelled.
- Replay: the caller keeps every `expand` of the run inside `int` (`RunFits`, one `ExpandFits` for each `expand`); the lemmas on values (RunAgrees, QueueIsFifo) have no bound at all.
- DeliverData: the caller keeps the output buffer's `expand` inside `int`; the source does not check.
- Connect: some handle is free, or `make_handle` would not end; what follows its overflow is undefined in C++ and left open here.
- Addconn: the log line behind `delete`, which reads the deleted connection's handle, is not a step of the model.
- GetCheckSum: at most 65536 bytes; with more the `int` that holds the sum can overflow.
- NoUseAfterFree: the last line of `connect` is covered only in patient runs, because elsewhere it fails (LateReturn, ReturnIsSafeExactly).
- Memory addresses: connections are named by creation number, so reuse of addresses and descriptors is not visible; nor are data races below the steps (`_state`, `_fd`, `_last_active_time` are unsynchronised in the code).
- The kqueue variant: its `set_event` re-registers and it reports reads and writes as separate events.
- `read_data` after a failed read fetches SO_ERROR, which is not errno: its value is arbitrary here; what the code concludes from it is in `ReadData`.
- The value that `getStatus` returns: one read of `_state`, which the model does not record.
- `deliver_data_inter` and the commented-out encryption handshake: nothing in the live code calls them, `CRYPTREGING` is kept as a state that is tested but never entered.
- `seekPos`, the `fill_*` pokes and the other raw positional accesses of `DataBuffer`: they have no contract to keep.
- Timestamps in the transition system: a sweep may list any connections that are connecting or connected; which ones are due is the subject of `Registry` and `Sweeping`.
- Liveness: beyond the absence of deadlock nothing is proved about fairness of threads or of epoll.
- `Socket`, epoll, pthread wrappers, DNS, logging: they appear only as the nondeterministic environment.
- The rest of ping (`tv_sub`, JSON, sending and receiving), `NetCheck`, the JNI, Java and Objective-C wrappers, demo and tests: linear I/O and glue.
