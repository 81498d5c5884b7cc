/**
 * The stream engine of one connection (src/tcpconnection.cpp): `read_data` cuts the
 * incoming byte stream into PDUs, `deliver_data` and `write_data` feed the outgoing one.
 *
 * The socket is the environment: it hands out and accepts bytes in any legal portions.
 * One thread at a time runs the methods here; src/network.cpp's races are the subject
 * of the Protocol module.
 */
module Connection {
  import opened Codec
  import opened Sizing
  import opened Buffers
  import opened Framing
  import opened Interface

  const EAGAIN := 11

  /** One call of read(2): the room it was given and what it returned. */
  datatype ReadCall = ReadCall(room: nat, ret: int)

  /** One call of write(2): the bytes it was offered and what it returned. */
  datatype WriteCall = WriteCall(offer: seq<byte>, ret: int)

  /** A non-blocking stream socket: every outcome that read(2) and write(2) allow, and a record of them. */
  class Socket {
    ghost var chunks: seq<seq<byte>>  // what each successful read returned
    ghost var accepted: seq<byte>     // every byte that write took
    ghost var ended: bool             // a read saw the end of the stream
    ghost var readCalls: seq<ReadCall>
    ghost var writeCalls: seq<WriteCall>
    ghost var errors: seq<int>        // the values of SO_ERROR that were fetched

    constructor ()
      ensures chunks == [] && accepted == [] && !ended && readCalls == [] && writeCalls == [] && errors == []
    {
      chunks, accepted, ended, readCalls, writeCalls, errors := [], [], false, [], [], [];
    }

    method Read(buf: array<byte>, at: nat, len: nat) returns (ret: int)
      requires at + len <= buf.Length
      modifies `chunks, `ended, `readCalls, buf
      ensures -1 <= ret <= len && readCalls == old(readCalls) + [ReadCall(len, ret)]
      ensures forall i :: 0 <= i < buf.Length && !(at <= i < at + ret) ==> buf[i] == old(buf[i])
      ensures ret > 0 ==> chunks == old(chunks) + [buf[at..at + ret]]
      ensures ret <= 0 ==> chunks == old(chunks)
      ensures ended == (old(ended) || (ret == 0 && len > 0))
    {
      ret := *;
      if ret < -1 || ret > len {
        ret := -1;
      }
      var i := 0;
      while i < ret
        invariant 0 <= i && (i <= ret || ret <= 0)
        invariant forall j :: 0 <= j < buf.Length && !(at <= j < at + ret) ==> buf[j] == old(buf[j])
        invariant chunks == old(chunks) && ended == old(ended) && readCalls == old(readCalls)
      {
        buf[at + i] := *;
        i := i + 1;
      }
      readCalls := readCalls + [ReadCall(len, ret)];
      if ret > 0 {
        chunks := chunks + [buf[at..at + ret]];
      } else if ret == 0 && len > 0 {
        ended := true;
      }
    }

    method Write(data: seq<byte>) returns (ret: int)
      modifies `accepted, `writeCalls
      ensures -1 <= ret <= |data| && writeCalls == old(writeCalls) + [WriteCall(data, ret)]
      ensures accepted == old(accepted) + if ret > 0 then data[..ret] else []
    {
      ret := *;
      if ret < -1 || ret > |data| {
        ret := -1;
      }
      writeCalls := writeCalls + [WriteCall(data, ret)];
      if ret > 0 {
        accepted := accepted + data[..ret];
      }
    }

    method SoError() returns (error: int)
      modifies `errors
      ensures errors == old(errors) + [error]
    {
      error := *;
      errors := errors + [error];
    }
  }

  /** The socket and the last error when a call begins. */
  datatype Before = Before(chunks: seq<seq<byte>>, readCalls: seq<ReadCall>, lastError: int, ended: bool)

  /** What a call has read: the chunks it has parsed, its reads, and the chunk that is still to be parsed. */
  datatype Journal = Journal(chunks: seq<seq<byte>>, rs: seq<ReadCall>, c: seq<byte>)

  // When `read_data` reads again, and what its last read says.

  /** Read `k` of the call filled its room and left a part of a PDU behind. */
  predicate ReadsOn(pending: seq<byte>, chunks: seq<seq<byte>>, rs: seq<ReadCall>, k: nat)
    requires k < |rs| && k < |chunks|
  {
    rs[k].ret == rs[k].room && AfterPasses(pending, chunks[..k + 1]).pending != []
  }

  /** The reads of one call: it reads again exactly while `ReadsOn`, eleven times at most. */
  ghost predicate ReadsDone(pending: seq<byte>, chunks: seq<seq<byte>>, rs: seq<ReadCall>) {
    && 1 <= |rs| <= 11 && (forall k :: 0 <= k < |rs| ==> rs[k].room >= 8192)
    && |chunks| == (if rs[|rs| - 1].ret > 0 then |rs| else |rs| - 1)
    && (forall k :: 0 <= k < |rs| - 1 ==> ReadsOn(pending, chunks, rs, k))
    && (rs[|rs| - 1].ret > 0 && !ParseError(pending, chunks) ==>
          |rs| == 11 || !ReadsOn(pending, chunks, rs, |rs| - 1))
  }

  /** The call found nothing wrong: bytes came last, or an error that only means "later". */
  predicate WentWell(pending: seq<byte>, chunks: seq<seq<byte>>, last: int, errors: seq<int>) {
    && !ParseError(pending, chunks)
    && (last > 0 || (last < 0 && errors == [EAGAIN]))
  }

  /** Why a call failed. */
  function Failure(pending: seq<byte>, chunks: seq<seq<byte>>, last: int): int {
    if ParseError(pending, chunks) then SOCKET_ERROR_PARSE_PDU
    else if last == 0 then SOCKET_ERROR_REMOTE_CLOSE
    else SOCKET_ERROR_CLOSE
  }

  class TcpConnection {
    const sock: Socket
    const input: DataBuffer
    const output: DataBuffer
    var state: ConnState
    var lastError: int
    var lastActive: int             // `_last_active_time`
    var registered: bool            // known to epoll
    var wantWrite: bool             // EPOLLOUT is on for it
    ghost var delivered: seq<Pdu>   // arguments of onRead, in order
    ghost var queued: seq<byte>     // every message deliver_data took, concatenated

    ghost function Repr(): set<object>
      reads this, input, output
    {
      {this, sock} + input.Repr() + output.Repr()
    }

    /** The two buffers and the socket are separate objects. */
    ghost predicate Separate()
      reads this, input, output
    {
      && input != output
      && input.Repr() !! output.Repr()
    }

    /** The input side between two calls. */
    ghost predicate Incoming()
      reads this, sock, input, input.Repr()
    {
      && input.Valid() && input.Capacity() <= SIXTEEN_MIB
      && Parse(Flatten(sock.chunks)) == Parsed(delivered, input.contents)
    }

    /** The output side: nothing lost, nothing reordered, and nobody waits for a write event that is off. */
    ghost predicate Outgoing()
      reads this, sock, output, output.Repr()
    {
      && output.Valid() && sock.accepted + output.contents == queued
      && (registered && output.contents != [] ==> wantWrite)
      && (registered && state == Connecting ==> wantWrite)
    }

    ghost predicate Valid()
      reads this, sock, input, output, input.Repr(), output.Repr()
    {
      && Separate() && Incoming() && Outgoing()
      && (state != Closed ==> |input.contents| < EIGHT_MIB)
    }

    /** `NetWork::connect` up to `add_event`: connecting, registered for reading and writing. */
    constructor (now: int)
      ensures Valid() && state == Connecting && delivered == [] && queued == []
      ensures fresh(Repr()) && lastActive == now
    {
      sock := new Socket();
      input := new DataBuffer();
      output := new DataBuffer();
      state, lastError, lastActive, registered, wantWrite := Connecting, 0, now, true, true;
      delivered, queued := [], [];
    }

    /** The inner loop of `read_data`: hands every complete PDU to `onRead` and drains it. */
    method DeliverAvailable(pduLen: nat) returns (last: nat)
      requires input.Valid()
      modifies this`delivered, input
      ensures input.Valid() && input.store == old(input.store)
      ensures input.contents == Parse(old(input.contents)).rest && !Available(input.contents)
      ensures delivered == old(delivered) + Parse(old(input.contents)).pdus
      ensures last == LastLen(pduLen, old(input.contents))
      ensures Slack(old(input.contents), old(input.FreeLen()))
    {
      ghost var s, before, room := input.contents, delivered, input.FreeLen();
      var available;
      available, last := Probe(pduLen);
      while available
        invariant input.store == old(input.store) && ParsedUpTo(s, before, pduLen, available, last)
        invariant Slack(s, room)
        decreases |input.contents|
      {
        available, last := DeliverOne(last, s, before, pduLen, room);
      }
      assert delivered + [] == delivered;
    }

    method DeliverOne(n: nat, ghost s: seq<byte>, ghost before: seq<Pdu>, ghost pduLen: nat, ghost room: nat)
      returns (available: bool, last: nat)
      requires ParsedUpTo(s, before, pduLen, true, n) && Slack(s, room)
      modifies this`delivered, input
      ensures ParsedUpTo(s, before, pduLen, available, last) && Slack(s, room)
      ensures input.store == old(input.store) && |input.contents| < |old(input.contents)|
    {
      StepDelivered(delivered, input.contents);
      LastLenStep(n, input.contents);
      OnRead(n);
      available, last := Probe(n);
    }

    /** After draining, the block has room if it had some for `s`, or if everything has been drained. */
    ghost predicate Slack(s: seq<byte>, room: nat)
      requires input.Valid()
      reads this, input, input.Repr()
    {
      && (input.contents != [] ==> s != [])
      && (input.FreeLen() > 0 <==> room > 0 || (s != [] && input.contents == []))
    }

    /** What the inner loop keeps: the rest of the work is to parse what is still pending. */
    ghost predicate ParsedUpTo(s: seq<byte>, before: seq<Pdu>, pduLen: nat, available: bool, last: nat)
      reads this, input, input.Repr()
    {
      && input.Valid()
      && available == Available(input.contents) && (|input.contents| >= 4 ==> last == Header(input.contents))
      && delivered + Parse(input.contents).pdus == before + Parse(s).pdus
      && Parse(input.contents).rest == Parse(s).rest
      && LastLen(last, input.contents) == LastLen(pduLen, s)
    }

    method Probe(pduLen: nat) returns (available: bool, last: nat)
      requires input.Valid()
      ensures available == Available(input.contents)
      ensures last == if |input.contents| < 4 then pduLen else Header(input.contents)
    {
      var s := input.GetData();
      var r := IsPduAvailable(s, pduLen);
      available, last := r.0, r.1;
    }

    /** `on_read` for the PDU in front, then `drainData`. */
    method OnRead(n: nat)
      requires input.Valid() && Available(input.contents) && n == Header(input.contents)
      modifies this`delivered, input
      ensures input.Valid() && input.store == old(input.store)
      ensures delivered == old(delivered) + [old(input.contents)[..n]] && input.contents == old(input.contents)[n..]
      ensures input.Shape() == Drained(old(input.Shape()), n)
    {
      delivered := delivered + [input.contents[..n]];
      input.DrainData(n);
    }

    static lemma LastLenStep(n: nat, s: seq<byte>)
      requires Available(s)
      ensures LastLen(n, s) == LastLen(Header(s), s[Header(s)..])
    {
    }

    static lemma StepDelivered(done: seq<Pdu>, s: seq<byte>)
      requires Available(s)
      ensures done + Parse(s).pdus == done + [s[..Header(s)]] + Parse(s[Header(s)..]).pdus
      ensures Parse(s).rest == Parse(s[Header(s)..]).rest
    {
    }

    /**
     * One `_sock.read` into the free part of `_input`, and the `pourData` of what it
     * returned. At least 8 KiB are free, so a return of 0 means the end of the stream.
     */
    method Receive() returns (ret: int, ghost chunk: seq<byte>)
      requires input.Valid() && input.store != null && input.FreeLen() >= READ_WRITE_SIZE
      modifies sock`chunks, sock`ended, sock`readCalls, input.Repr()
      ensures input.Valid() && input.store == old(input.store)
      ensures sock.readCalls == old(sock.readCalls) + [ReadCall(old(input.FreeLen()), ret)]
      ensures sock.ended == (old(sock.ended) || ret == 0)
      ensures sock.chunks == old(sock.chunks) + if ret > 0 then [chunk] else []
      ensures input.contents == old(input.contents) + chunk && |chunk| == if ret > 0 then ret else 0
      ensures |chunk| <= old(input.FreeLen()) && input.FreeLen() == old(input.FreeLen()) - |chunk|
    {
      ret := sock.Read(input.store, input.free, input.FreeLen());
      chunk := [];
      if ret > 0 {
        chunk := input.store[input.free..input.free + ret];
        input.PourData(ret);
      }
    }

    /** `ensureFree(READ_WRITE_SIZE)` on less than 8 MiB of pending data. */
    method EnsureFree()
      requires input.Valid() && input.Capacity() <= SIXTEEN_MIB && |input.contents| < EIGHT_MIB
      modifies input.Repr()
      ensures input.Valid() && fresh(input.Repr() - old(input.Repr())) && input.Capacity() <= SIXTEEN_MIB
      ensures input.store != null && input.FreeLen() >= READ_WRITE_SIZE && input.contents == old(input.contents)
    {
      ReadReservation(input.Shape());
      input.Expand(READ_WRITE_SIZE);
    }

    /** This call, which found `pending`, has read `chunks` on top of `base` and parsed them all. */
    ghost predicate Settled(base: seq<seq<byte>>, pending: seq<byte>, chunks: seq<seq<byte>>, pduLen: nat)
      reads this, sock, input
    {
      && sock.chunks == base + chunks
      && Parse(Flatten(sock.chunks)) == Parsed(delivered, input.contents)
      && AfterPasses(pending, chunks) == Progress(pduLen, input.contents)
      && NoEarlierError(pending, chunks)
    }

    /** As `Settled`, but one more chunk has been read and waits to be parsed. */
    ghost predicate Arrived(base: seq<seq<byte>>, pending: seq<byte>, chunks: seq<seq<byte>>, c: seq<byte>, pduLen: nat)
      reads this, sock, input
    {
      var p := AfterPasses(pending, chunks);
      && sock.chunks == base + chunks + [c]
      && Parse(Flatten(base + chunks)) == Parsed(delivered, p.pending)
      && input.contents == p.pending + c && p.pduLen == pduLen
      && NoEarlierError(pending, chunks) && !ParseError(pending, chunks)
    }

    /** One run of the inner loop settles the chunk that has arrived. */
    method ParsePass(ghost base: seq<seq<byte>>, ghost pending: seq<byte>, ghost chunks: seq<seq<byte>>,
                     ghost c: seq<byte>, pduLen: nat) returns (last: nat)
      requires input.Valid() && Arrived(base, pending, chunks, c, pduLen)
      modifies this`delivered, input
      ensures input.Valid() && input.store == old(input.store)
      ensures Settled(base, pending, chunks + [c], last)
      ensures !Refused(last) ==> |input.contents| < EIGHT_MIB && |input.contents| < last
      ensures Slack(old(input.contents), old(input.FreeLen()))
    {
      ghost var s := input.contents;
      last := DeliverAvailable(pduLen);
      PassStep(base, pending, chunks, c);
      if !Refused(last) {
        PendingAfterPass(pduLen, s);
      }
    }

    static lemma PassStep(base: seq<seq<byte>>, pending: seq<byte>, chunks: seq<seq<byte>>, c: seq<byte>)
      requires NoEarlierError(pending, chunks) && !ParseError(pending, chunks)
      ensures var rest := Parse(Flatten(base + chunks)).rest;
              Parse(Flatten(base + chunks + [c]))
              == Parsed(Parse(Flatten(base + chunks)).pdus + Parse(rest + c).pdus, Parse(rest + c).rest)
      ensures AfterPasses(pending, chunks + [c]) == Pass(AfterPasses(pending, chunks), c)
      ensures NoEarlierError(pending, chunks + [c]) && base + chunks + [c] == base + (chunks + [c])
    {
      FlattenSnoc(base + chunks, c);
      ParseIncremental(Flatten(base + chunks), c);
      assert (chunks + [c])[..|chunks|] == chunks;
      assert base + chunks + [c] == base + (chunks + [c]);
      forall i | 1 <= i < |chunks + [c]|
        ensures !ParseError(pending, (chunks + [c])[..i])
      {
        assert (chunks + [c])[..i] == chunks[..i];
        if i == |chunks| {
          assert chunks[..i] == chunks;
        }
      }
    }

    /** A read of what is free between two passes: the connection stays settled, or one more chunk arrives. */
    method ReadMore(ghost base: seq<seq<byte>>, ghost pending: seq<byte>, ghost chunks: seq<seq<byte>>,
                    ghost pduLen: nat)
      returns (ret: int, ghost c: seq<byte>, ghost room: nat)
      requires input.Valid() && input.store != null && input.FreeLen() >= READ_WRITE_SIZE
      requires Settled(base, pending, chunks, pduLen) && !ParseError(pending, chunks)
      modifies sock`chunks, sock`ended, sock`readCalls, input.Repr()
      ensures input.Valid() && input.store == old(input.store)
      ensures sock.readCalls == old(sock.readCalls) + [ReadCall(room, ret)] && room >= READ_WRITE_SIZE
      ensures sock.ended == (old(sock.ended) || ret == 0)
      ensures ret > 0 ==> Arrived(base, pending, chunks, c, pduLen) && Offered(room, ret)
      ensures ret <= 0 ==> Settled(base, pending, chunks, pduLen) && input.contents == old(input.contents)
    {
      room := input.FreeLen();
      ret, c := Receive();
    }

    /** What is pending holds what a read of `ret` bytes into `room` returned, and what is left of the room is free. */
    ghost predicate Offered(room: nat, ret: int)
      requires input.Valid()
      reads this, input, input.Repr()
    {
      0 < ret <= room && input.contents != [] && input.FreeLen() == room - ret
    }

    /** The outer loop of `read_data`: up to eleven reads, as long as each one fills the buffer. */
    method ReadLoop() returns (ret: int, broken: bool, ghost chunks: seq<seq<byte>>, ghost rs: seq<ReadCall>)
      requires Incoming() && |input.contents| < EIGHT_MIB
      modifies this`delivered, this`lastError, sock`chunks, sock`ended, sock`readCalls, input.Repr()
      ensures fresh(input.Repr() - old(input.Repr()))
      ensures var was := Before(old(sock.chunks), old(sock.readCalls), old(lastError), old(sock.ended));
              HasRead(was, old(input.contents), chunks, rs, ret, broken)
    {
      ghost var j: Journal;
      ghost var was, pending := Before(sock.chunks, sock.readCalls, lastError, sock.ended), input.contents;
      broken := false;
      var readCnt := 0;
      var pduLen: nat := 0;
      ret, j := FirstRead();
      var more := ret > 0;
      while more
        invariant fresh(input.Repr() - old(input.Repr())) && Midway(was, pending, j, pduLen, readCnt, more, ret, broken)
        decreases 10 - readCnt, more
      {
        pduLen, broken, more, ret, readCnt, j := Turn(was, pending, j, pduLen, ret, readCnt);
      }
      chunks, rs := j.chunks, j.rs;
      LoopEnds(was, pending, j, pduLen, readCnt, ret, broken);
    }

    /** After the loop: these chunks came from these reads, and all of it has been parsed. */
    ghost predicate HasRead(was: Before, pending: seq<byte>, chunks: seq<seq<byte>>, rs: seq<ReadCall>,
                            ret: int, broken: bool)
      reads this, sock, input, input.Repr()
    {
      && Incoming() && sock.chunks == was.chunks + chunks && sock.readCalls == was.readCalls + rs
      && NoEarlierError(pending, chunks) && broken == ParseError(pending, chunks)
      && ReadsDone(pending, chunks, rs) && ret == rs[|rs| - 1].ret
      && (if broken then lastError == SOCKET_ERROR_PARSE_PDU && ret > 0
          else lastError == was.lastError && |input.contents| < EIGHT_MIB)
      && sock.ended == (was.ended || ret == 0)
    }

    lemma LoopEnds(was: Before, pending: seq<byte>, j: Journal, pduLen: nat, readCnt: nat, ret: int, broken: bool)
      requires Midway(was, pending, j, pduLen, readCnt, false, ret, broken)
      ensures HasRead(was, pending, j.chunks, j.rs, ret, broken)
    {
    }

    /** One turn of that loop. */
    method Turn(ghost was: Before, ghost pending: seq<byte>, ghost j: Journal, pduLen: nat, got: int, readCnt: nat)
      returns (last: nat, broken: bool, more: bool, ret: int, cnt: nat, ghost next: Journal)
      requires Midway(was, pending, j, pduLen, readCnt, true, got, false)
      modifies this`delivered, this`lastError, sock`chunks, sock`ended, sock`readCalls, input.Repr()
      ensures fresh(input.Repr() - old(input.Repr())) && Midway(was, pending, next, last, cnt, more, ret, broken)
      ensures readCnt <= cnt <= 10 && (more ==> cnt == readCnt + 1)
    {
      ghost var room, c, again := j.rs[readCnt].room, [], false;
      last, broken, more, again, ret, c, room :=
        Round(was.chunks, pending, j.chunks, j.c, pduLen, got, room, readCnt >= 10);
      next := Journal(j.chunks + [j.c], if again then j.rs + [ReadCall(room, ret)] else j.rs, c);
      JournalGrows(pending, j, readCnt, got, next, again, ret, broken);
      cnt := if more || ret <= 0 then readCnt + 1 else readCnt;
    }

    /** Where the loop stands: every read but the last has been parsed and made it read on. */
    ghost predicate Midway(was: Before, pending: seq<byte>, j: Journal, pduLen: nat, readCnt: nat,
                           more: bool, ret: int, broken: bool)
      reads this, sock, input, input.Repr()
    {
      && input.Valid() && input.Capacity() <= SIXTEEN_MIB
      && sock.readCalls == was.readCalls + j.rs && Tallied(pending, j, readCnt, more, ret, broken)
      && sock.ended == (was.ended || ret == 0)
      && (if broken then !more && ret > 0 && lastError == SOCKET_ERROR_PARSE_PDU else lastError == was.lastError)
      && if more then Arrived(was.chunks, pending, j.chunks, j.c, pduLen) && Offered(j.rs[readCnt].room, ret)
         else
           && Settled(was.chunks, pending, j.chunks, pduLen) && broken == ParseError(pending, j.chunks)
           && (!broken ==> |input.contents| < EIGHT_MIB)
    }

    /** The last read so far, how many of the reads have been parsed, and why each one was followed by another. */
    static ghost predicate Tallied(pending: seq<byte>, j: Journal, readCnt: nat, more: bool, ret: int, broken: bool) {
      && |j.rs| == readCnt + 1 <= 11 && j.rs[readCnt].ret == ret && (more ==> ret > 0)
      && (forall k :: 0 <= k < |j.rs| ==> j.rs[k].room >= 8192)
      && |j.chunks| == (if more || ret <= 0 then readCnt else readCnt + 1)
      && (forall k :: 0 <= k < readCnt ==> ReadsOn(pending, j.chunks, j.rs, k))
      && (!more && !broken && ret > 0 ==> |j.rs| == 11 || !ReadsOn(pending, j.chunks, j.rs, readCnt))
    }

    static lemma JournalGrows(pending: seq<byte>, j: Journal, readCnt: nat, got: int, next: Journal,
                              again: bool, ret: int, broken: bool)
      requires Tallied(pending, j, readCnt, true, got, false) && next.chunks == j.chunks + [j.c]
      requires again == (!broken && readCnt < 10 && got == j.rs[readCnt].room
                         && AfterPasses(pending, next.chunks).pending != [])
      requires if again then j.rs < next.rs && |next.rs| == |j.rs| + 1 && next.rs[|j.rs|].ret == ret
                             && next.rs[|j.rs|].room >= READ_WRITE_SIZE
               else next.rs == j.rs && ret == got
      ensures var more := again && ret > 0;
              Tallied(pending, next, if more || ret <= 0 then readCnt + 1 else readCnt, more, ret, broken)
    {
      var all := next.chunks;
      forall k | 0 <= k < readCnt
        ensures ReadsOn(pending, all, next.rs, k)
      {
        assert ReadsOn(pending, j.chunks, j.rs, k) && all[..k + 1] == j.chunks[..k + 1];
      }
      assert all[..readCnt + 1] == all;
    }

    /** The body of the loop: parse, check, and read on if the buffer was filled and reads are left. */
    method Round(ghost base: seq<seq<byte>>, ghost pending: seq<byte>, ghost chunks: seq<seq<byte>>,
                 ghost c: seq<byte>, pduLen: nat, got: int, ghost room: nat, lastRound: bool)
      returns (last: nat, broken: bool, more: bool, ghost again: bool, ret: int, ghost next: seq<byte>,
               ghost nextRoom: nat)
      requires input.Valid() && input.Capacity() <= SIXTEEN_MIB && Arrived(base, pending, chunks, c, pduLen)
      requires Offered(room, got)
      modifies this`delivered, this`lastError, sock`chunks, sock`ended, sock`readCalls, input.Repr()
      ensures input.Valid() && input.Capacity() <= SIXTEEN_MIB && fresh(input.Repr() - old(input.Repr()))
      ensures again == (!broken && !lastRound && got == room && AfterPasses(pending, chunks + [c]).pending != [])
      ensures sock.readCalls == old(sock.readCalls) + if again then [ReadCall(nextRoom, ret)] else []
      ensures more == (again && ret > 0) && (if again then nextRoom >= READ_WRITE_SIZE else ret == got)
      ensures more ==> Arrived(base, pending, chunks + [c], next, last) && Offered(nextRoom, ret)
      ensures !more ==> Settled(base, pending, chunks + [c], last) && broken == ParseError(pending, chunks + [c])
      ensures !more && !broken ==> |input.contents| < EIGHT_MIB
      ensures if broken then lastError == SOCKET_ERROR_PARSE_PDU else lastError == old(lastError)
      ensures sock.ended == (old(sock.ended) || ret == 0)
    {
      last, broken := CheckedPass(base, pending, chunks, c, pduLen);
      ghost var all := chunks + [c];
      more, again, ret, next, nextRoom := GoOn(base, pending, all, last, broken, got, room, lastRound);
    }

    /** Behind the check: stop, or read on with more room. */
    method GoOn(ghost base: seq<seq<byte>>, ghost pending: seq<byte>, ghost chunks: seq<seq<byte>>, last: nat,
                broken: bool, got: int, ghost room: nat, lastRound: bool)
      returns (more: bool, ghost again: bool, ret: int, ghost next: seq<byte>, ghost nextRoom: nat)
      requires input.Valid() && input.Capacity() <= SIXTEEN_MIB && 0 < got <= room
      requires input.FreeLen() > 0 <==> got < room || input.contents == []
      requires !broken ==> |input.contents| < EIGHT_MIB && |input.contents| < last
      requires Settled(base, pending, chunks, last) && broken == ParseError(pending, chunks)
      modifies sock`chunks, sock`ended, sock`readCalls, input.Repr()
      ensures input.Valid() && input.Capacity() <= SIXTEEN_MIB && fresh(input.Repr() - old(input.Repr()))
      ensures again == (!broken && !lastRound && got == room && old(input.contents) != [])
      ensures sock.readCalls == old(sock.readCalls) + if again then [ReadCall(nextRoom, ret)] else []
      ensures sock.ended == (old(sock.ended) || ret == 0)
      ensures more == (again && ret > 0) && (if again then nextRoom >= READ_WRITE_SIZE else ret == got)
      ensures more ==> Arrived(base, pending, chunks, next, last) && Offered(nextRoom, ret)
      ensures !more ==> Settled(base, pending, chunks, last) && (!broken ==> |input.contents| < EIGHT_MIB)
    {
      if broken || input.FreeLen() > 0 || lastRound {
        more, again, ret, next, nextRoom := false, false, got, [], room;
      } else {
        again := true;
        ret, next, nextRoom := ReadOn(base, pending, chunks, last);
        more := ret > 0;
      }
    }

    method FirstRead() returns (ret: int, ghost j: Journal)
      requires Incoming() && |input.contents| < EIGHT_MIB
      modifies sock`chunks, sock`ended, sock`readCalls, input.Repr()
      ensures fresh(input.Repr() - old(input.Repr()))
      ensures var was := Before(old(sock.chunks), old(sock.readCalls), lastError, old(sock.ended));
              Midway(was, old(input.contents), j, 0, 0, ret > 0, ret, false)
    {
      EnsureFree();
      assert sock.chunks + [] == sock.chunks;
      ghost var c, room;
      ret, c, room := ReadMore(sock.chunks, input.contents, [], 0);
      j := Journal([], [ReadCall(room, ret)], c);
    }

    /** A pass of the inner loop and the length check behind it. */
    method CheckedPass(ghost base: seq<seq<byte>>, ghost pending: seq<byte>, ghost chunks: seq<seq<byte>>,
                       ghost c: seq<byte>, pduLen: nat) returns (last: nat, broken: bool)
      requires input.Valid() && Arrived(base, pending, chunks, c, pduLen)
      modifies this`delivered, this`lastError, input
      ensures input.Valid() && input.store == old(input.store)
      ensures Settled(base, pending, chunks + [c], last) && broken == ParseError(pending, chunks + [c])
      ensures broken ==> lastError == SOCKET_ERROR_PARSE_PDU
      ensures !broken ==> lastError == old(lastError) && |input.contents| < EIGHT_MIB && |input.contents| < last
      ensures Slack(old(input.contents), old(input.FreeLen()))
    {
      last := ParsePass(base, pending, chunks, c, pduLen);
      broken := last > 8 * 1024 * 1024 || last <= MIN_PDU_LEN;
      if broken {
        lastError := SOCKET_ERROR_PARSE_PDU;
      }
    }

    /**
     * The next read of the loop. The reservation in front of it is conditional, but the
     * condition always holds here: the last length seen exceeds what is pending.
     */
    method ReadOn(ghost base: seq<seq<byte>>, ghost pending: seq<byte>, ghost chunks: seq<seq<byte>>, pduLen: nat)
      returns (ret: int, ghost c: seq<byte>, ghost room: nat)
      requires input.Valid() && input.Capacity() <= SIXTEEN_MIB
      requires |input.contents| < EIGHT_MIB && |input.contents| < pduLen
      requires Settled(base, pending, chunks, pduLen) && !ParseError(pending, chunks)
      modifies sock`chunks, sock`ended, sock`readCalls, input.Repr()
      ensures input.Valid() && input.Capacity() <= SIXTEEN_MIB && fresh(input.Repr() - old(input.Repr()))
      ensures sock.readCalls == old(sock.readCalls) + [ReadCall(room, ret)] && room >= READ_WRITE_SIZE
      ensures sock.ended == (old(sock.ended) || ret == 0)
      ensures ret > 0 ==> Arrived(base, pending, chunks, c, pduLen) && Offered(room, ret)
      ensures ret <= 0 ==> Settled(base, pending, chunks, pduLen) && |input.contents| < EIGHT_MIB
    {
      if pduLen > input.DataLen() {
        EnsureFree();
      }
      ret, c, room := ReadMore(base, pending, chunks, pduLen);
    }

    /**
     * `read_data`: false means that the connection is broken, for the reason in `lastError`.
     * Any call counts as a sign of life, whatever it reads.
     */
    method ReadData(now: int) returns (ok: bool, ghost chunks: seq<seq<byte>>, ghost rs: seq<ReadCall>)
      requires Incoming() && |input.contents| < EIGHT_MIB
      modifies this`delivered, this`lastError, this`lastActive
      modifies sock`chunks, sock`ended, sock`readCalls, sock`errors, input.Repr()
      ensures Incoming() && fresh(input.Repr() - old(input.Repr()))
      ensures ReadOutcome(old(input.contents), now, ok, chunks, rs)
      ensures ok ==> |input.contents| < EIGHT_MIB
      ensures |input.contents| <= 2048 ==> input.Capacity() <= 2048
    {
      lastActive := now;
      var ret, broken;
      ret, broken, chunks, rs := ReadAll();
      if !broken {
        broken := Outcome(ret);
      }
      ok := !broken;
    }

    /** The loop, and `_input.shrink()`: the read buffer goes back to its initial size. */
    method ReadAll() returns (ret: int, broken: bool, ghost chunks: seq<seq<byte>>, ghost rs: seq<ReadCall>)
      requires Incoming() && |input.contents| < EIGHT_MIB
      modifies this`delivered, this`lastError, sock`chunks, sock`ended, sock`readCalls, input.Repr()
      ensures fresh(input.Repr() - old(input.Repr())) && (|input.contents| <= 2048 ==> input.Capacity() <= 2048)
      ensures var was := Before(old(sock.chunks), old(sock.readCalls), old(lastError), old(sock.ended));
              HasRead(was, old(input.contents), chunks, rs, ret, broken)
    {
      ret, broken, chunks, rs := ReadLoop();
      Recycle();
    }

    /** What a call that found `pending` did: its reads, their chunks, the verdict and the reason. */
    twostate predicate ReadOutcome(pending: seq<byte>, now: int, ok: bool,
                                   new chunks: seq<seq<byte>>, new rs: seq<ReadCall>)
      reads `lastError, `lastActive, sock
    {
      && sock.chunks == old(sock.chunks) + chunks && sock.readCalls == old(sock.readCalls) + rs
      && NoEarlierError(pending, chunks) && ReadsDone(pending, chunks, rs) && Judged(pending, chunks, rs, ok)
      && sock.ended == (old(sock.ended) || rs[|rs| - 1].ret == 0)
      && lastError == (if ok then old(lastError) else Failure(pending, chunks, rs[|rs| - 1].ret))
      && lastActive == now
    }

    /**
     * The verdict on a call is right: SO_ERROR is fetched exactly if the last read failed, and
     * nothing is wrong exactly if `WentWell`.
     */
    twostate predicate Judged(pending: seq<byte>, chunks: seq<seq<byte>>, new rs: seq<ReadCall>, ok: bool)
      requires rs != []
      reads sock
    {
      var last := rs[|rs| - 1].ret;
      && |sock.errors| == |old(sock.errors)| + (if last < 0 then 1 else 0) && old(sock.errors) <= sock.errors
      && ok == WentWell(pending, chunks, last, sock.errors[|old(sock.errors)|..])
    }

    method Recycle()
      requires Incoming()
      modifies input.Repr()
      ensures Incoming() && fresh(input.Repr() - old(input.Repr())) && input.contents == old(input.contents)
      ensures |input.contents| <= 2048 ==> input.Capacity() <= 2048
    {
      input.Shrink();
    }

    /** What the last `_sock.read` of an otherwise good call says about the connection. */
    method Outcome(ret: int) returns (broken: bool)
      modifies this`lastError, sock`errors
      ensures if ret < 0 then |sock.errors| == |old(sock.errors)| + 1 && old(sock.errors) <= sock.errors
              else sock.errors == old(sock.errors)
      ensures broken == (ret == 0 || (ret < 0 && sock.errors[|old(sock.errors)|] != EAGAIN))
      ensures lastError == if !broken then old(lastError)
                           else if ret == 0 then SOCKET_ERROR_REMOTE_CLOSE else SOCKET_ERROR_CLOSE
    {
      broken := false;
      if ret == 0 {
        lastError := SOCKET_ERROR_REMOTE_CLOSE;
        broken := true;
      } else if ret < 0 {
        var error := sock.SoError();
        if error != EAGAIN {
          broken := true;
          lastError := SOCKET_ERROR_CLOSE;
        }
        broken := error != EAGAIN;
      }
    }

    /** `on_read_event`; `NetWork::close` of this connection when reading failed. */
    method OnReadEvent(now: int) returns (closed: bool, ghost chunks: seq<seq<byte>>, ghost rs: seq<ReadCall>)
      requires Valid()
      modifies this`state, this`registered, this`delivered, this`lastError, this`lastActive
      modifies sock`chunks, sock`ended, sock`readCalls, sock`errors, input.Repr()
      ensures Valid() && fresh(input.Repr() - old(input.Repr()))
      ensures if SomeConnected(old(state)) then ReadOutcome(old(input.contents), now, !closed, chunks, rs)
              else !closed && ReadNothing()
      ensures if closed then state == Closed && !registered else state == old(state) && registered == old(registered)
    {
      closed, chunks, rs := false, [], [];
      if state != Connected && state != CryptRegIng {
        return;
      }
      closed, chunks, rs := ReadOrClose(now);
    }

    /** The rest of `on_read_event`. */
    method ReadOrClose(now: int) returns (closed: bool, ghost chunks: seq<seq<byte>>, ghost rs: seq<ReadCall>)
      requires Valid() && state != Closed
      modifies this`state, this`registered, this`delivered, this`lastError, this`lastActive
      modifies sock`chunks, sock`ended, sock`readCalls, sock`errors, input.Repr()
      ensures Valid() && fresh(input.Repr() - old(input.Repr()))
      ensures ReadOutcome(old(input.contents), now, !closed, chunks, rs)
      ensures if closed then state == Closed && !registered else state == old(state) && registered == old(registered)
    {
      closed := false;
      var ok;
      ok, chunks, rs := ReadData(now);
      if !ok {
        Close();
        closed := true;
      }
    }

    twostate predicate ReadNothing()
      reads this, sock
    {
      && sock.readCalls == old(sock.readCalls) && sock.chunks == old(sock.chunks) && sock.errors == old(sock.errors)
      && delivered == old(delivered) && lastError == old(lastError) && lastActive == old(lastActive)
    }

    static predicate SomeConnected(state: ConnState) {
      state == Connected || state == CryptRegIng
    }

    /** What `NetWork::close` does to a connection it finds: out of epoll, then `TcpConnection::close`. */
    method Close()
      modifies this`state, this`registered
      ensures state == Closed && !registered
    {
      registered := false;
      state := Closed;
    }

    /** `set_event`: EPOLL_CTL_MOD, without effect on a connection that is not registered. */
    method SetEvent(write: bool)
      modifies this`wantWrite
      ensures wantWrite == if registered then write else old(wantWrite)
    {
      if registered {
        wantWrite := write;
      }
    }

    /** `write_data`: at most one write, then the write event goes off if nothing is left. */
    method WriteData(now: int)
      requires output.Valid() && Outgoing() && sock !in output.Repr() && state != Connecting
      modifies this`wantWrite, this`lastActive, sock`accepted, sock`writeCalls, output.Repr()
      ensures Outgoing() && fresh(output.Repr() - old(output.Repr()))
      ensures if old(output.contents) == [] then WroteNothing() else WroteOnce(now)
      ensures wantWrite == (old(wantWrite) && (!registered || output.contents != []))
      ensures |output.contents| <= 2048 ==> output.Capacity() <= 2048
    {
      var writeCnt, ret, again := 0, 0, true;
      while again
        invariant ret == 0 && wantWrite == old(wantWrite)
        invariant output.Valid() && output.Repr() == old(output.Repr())
        invariant sock.accepted + output.contents == old(sock.accepted + output.contents)
        invariant if again then WroteNothing() else old(output.contents) != [] && WroteOnce(now)
        decreases again
      {
        if output.DataLen() == 0 {
          break;
        }
        WriteSome(now);  // the source keeps its result in an inner `ret`, which hides the outer one
        writeCnt := writeCnt + 1;
        var drained := output.DataLen() == 0;
        again := ret > 0 && drained && writeCnt < 10;
      }
      output.Shrink();
      if output.DataLen() <= 0 {
        SetEvent(false);
      }
    }

    twostate predicate WroteNothing()
      reads this, sock, output
    {
      && sock.writeCalls == old(sock.writeCalls) && sock.accepted == old(sock.accepted)
      && output.contents == old(output.contents) && lastActive == old(lastActive)
    }

    /** One write has offered everything that was pending; what the socket took is gone from the front. */
    twostate predicate WroteOnce(now: int)
      reads this, sock, output
    {
      var offer := old(output.contents);
      && |sock.writeCalls| == |old(sock.writeCalls)| + 1 && old(sock.writeCalls) <= sock.writeCalls
      && sock.writeCalls[|old(sock.writeCalls)|].offer == offer
      && var ret := sock.writeCalls[|old(sock.writeCalls)|].ret;
      var n := if ret > 0 then ret else 0;
      && n <= |offer| && sock.accepted == old(sock.accepted) + offer[..n] && output.contents == offer[n..]
      && lastActive == if n > 0 then now else old(lastActive)
    }

    /** One `_sock.write` of everything pending, and the `drainData` of what it took. */
    method WriteSome(now: int)
      requires output.Valid() && sock !in output.Repr()
      modifies this`lastActive, sock`accepted, sock`writeCalls, output
      ensures output.Valid() && output.store == old(output.store) && WroteOnce(now)
      ensures sock.accepted + output.contents == old(sock.accepted + output.contents)
    {
      var data := output.GetData();
      var sent := sock.Write(data);
      if sent > 0 {
        lastActive := now;
        output.DrainData(sent);
        assert sent == |data| ==> data[sent..] == [];
        assert data == data[..sent] + data[sent..];
      }
    }

    /** `deliver_data`: the message is queued, and the write event goes on, only while connected. */
    method DeliverData(data: seq<byte>) returns (taken: bool)
      requires Valid() && ExpandFits(output.Shape(), |data|)
      modifies this`queued, this`wantWrite, output.Repr()
      ensures Valid() && fresh(output.Repr() - old(output.Repr()))
      ensures taken == (state == Connected)
      ensures queued == old(queued) + if taken then data else []
      ensures taken ==> output.contents == old(output.contents) + data && wantWrite == (old(wantWrite) || registered)
      ensures !taken ==> output.contents == old(output.contents) && wantWrite == old(wantWrite)
    {
      taken := false;
      if state != Connected {
        return;
      }
      Queue(data);
      taken := true;
    }

    /** `_output.writeBytes`, and the write event on. */
    method Queue(data: seq<byte>)
      requires Outgoing() && ExpandFits(output.Shape(), |data|)
      modifies this`queued, this`wantWrite, output.Repr()
      ensures Outgoing() && fresh(output.Repr() - old(output.Repr()))
      ensures queued == old(queued) + data && output.contents == old(output.contents) + data
      ensures wantWrite == (old(wantWrite) || registered)
    {
      output.WriteBytes(data);
      queued := queued + data;
      SetEvent(true);
    }

    /** `on_write_event`; a failed connect ends in `NetWork::close` of this connection. */
    method OnWriteEvent(now: int) returns (closed: bool)
      requires Valid()
      modifies this`state, this`registered, this`wantWrite, this`lastError, this`lastActive
      modifies sock`accepted, sock`writeCalls, sock`errors, output.Repr()
      ensures Valid() && fresh(output.Repr() - old(output.Repr()))
      ensures old(state) == Connecting ==> WroteNothing() && ConnectJudged(closed)
      ensures old(state) != Connecting ==> !closed && state == old(state) && sock.errors == old(sock.errors)
      ensures SomeConnected(old(state)) && old(output.contents) != [] ==> WroteOnce(now)
      ensures !SomeConnected(old(state)) || old(output.contents) == [] ==> WroteNothing()
      ensures closed ==> state == Closed && !registered && lastError == SOCKET_ERROR_CONN_FAIL
      ensures !closed ==> registered == old(registered) && lastError == old(lastError)
      ensures wantWrite == if SomeConnected(old(state)) && registered && output.contents == [] then false
                           else old(wantWrite)
    {
      closed := false;
      if state == Connecting {
        closed := EndConnect();
      } else if state == Connected || state == CryptRegIng {
        WriteData(now);
      }
    }

    /** The connecting branch of `on_write_event`. */
    method EndConnect() returns (closed: bool)
      requires Outgoing() && state == Connecting
      modifies this`state, this`registered, this`lastError, sock`errors
      ensures Outgoing() && ConnectJudged(closed)
      ensures if closed then state == Closed && !registered && lastError == SOCKET_ERROR_CONN_FAIL
              else state == Connected && registered == old(registered) && lastError == old(lastError)
    {
      var error := sock.SoError();
      closed := error != 0;
      if error == 0 {
        state := Connected;
      } else {
        lastError := SOCKET_ERROR_CONN_FAIL;
        Close();
      }
    }

    /** The result of the connect is fetched once, as SO_ERROR: connected exactly if it is 0. */
    twostate predicate ConnectJudged(closed: bool)
      reads this, sock
    {
      && |sock.errors| == |old(sock.errors)| + 1 && old(sock.errors) <= sock.errors
      && closed == (sock.errors[|old(sock.errors)|] != 0)
      && state == if closed then Closed else Connected
    }
  }

  /** Two runs over the same bytes, chunked differently, have delivered the same and keep the same. */
  lemma SameBytesSameEffect(a: TcpConnection, b: TcpConnection)
    requires a.Incoming() && b.Incoming() && Flatten(a.sock.chunks) == Flatten(b.sock.chunks)
    ensures a.delivered == b.delivered && a.input.contents == b.input.contents
  {
  }
}
