/**
 * Length-prefixed PDUs: what `IsPduAvailable` and the inner loop of `read_data`
 * (src/tcpconnection.cpp) do to a byte stream, as one recursive parse of it.
 */
module Framing {
  import opened Codec
  import opened Sizing

  const MIN_PDU_LEN := 4

  type Pdu = seq<byte>

  /** The file's own `ReadUint32`, applied to the front of `s`. */
  function Header(s: seq<byte>): nat
    requires |s| >= 4
  {
    s[0] * TWO_24 + s[1] * TWO_16 + s[2] * TWO_8 + s[3]
  }

  lemma HeaderIsBigEndian(s: seq<byte>)
    requires |s| >= 4
    ensures Header(s) == Value(s[..4]) && Header(s) == ReadUint32(s) && Header(s) < TWO_32
  {
    Widths();
    Value4(s[..4]);
  }

  /** A complete PDU is at the front of `s`. */
  predicate Available(s: seq<byte>) {
    |s| >= 4 && MIN_PDU_LEN <= Header(s) <= |s|
  }

  /** `IsPduAvailable`, with its out-parameter: it is written as soon as four bytes are there. */
  function IsPduAvailable(s: seq<byte>, pduLen: nat): (r: (bool, nat))
    ensures r.0 <==> Available(s)
    ensures r.1 == if |s| < 4 then pduLen else Header(s)
  {
    if |s| < 4 then (false, pduLen) else
    var n := Header(s);
    (!(n > |s| || n < MIN_PDU_LEN), n)
  }

  datatype Parsed = Parsed(pdus: seq<Pdu>, rest: seq<byte>)

  /** The greedy parse: every complete PDU off the front, and what is left. */
  function Parse(s: seq<byte>): Parsed {
    if !Available(s) then Parsed([], s) else
    var p := Parse(s[Header(s)..]);
    Parsed([s[..Header(s)]] + p.pdus, p.rest)
  }

  /** `pdu_len` after the inner loop has run on `s`, having entered it with `pduLen`. */
  function LastLen(pduLen: nat, s: seq<byte>): nat
    decreases |s|
  {
    if |s| < 4 then pduLen
    else if Available(s) then LastLen(Header(s), s[Header(s)..])
    else Header(s)
  }

  function Flatten(chunks: seq<seq<byte>>): seq<byte> {
    if chunks == [] then [] else chunks[0] + Flatten(chunks[1..])
  }

  /** A frame whose header states its own length. */
  predicate Frame(f: seq<byte>) {
    |f| >= 4 && Header(f) == |f|
  }

  predicate Frames(fs: seq<Pdu>) {
    forall i :: 0 <= i < |fs| ==> Frame(fs[i])
  }

  lemma HeaderOfPrefix(s: seq<byte>, t: seq<byte>)
    requires |s| >= 4 && s <= t
    ensures Header(s) == Header(t)
  {
  }

  lemma FrontOfConcat(a: seq<byte>, b: seq<byte>, n: nat)
    requires n <= |a|
    ensures (a + b)[..n] == a[..n] && (a + b)[n..] == a[n..] + b
  {
  }

  /**
   * Parsing is incremental: parse what is there, keep the rest, parse on when more
   * arrives; the result is the parse of the whole.
   */
  lemma {:induction false} ParseIncremental(a: seq<byte>, b: seq<byte>)
    ensures Parse(a + b).pdus == Parse(a).pdus + Parse(Parse(a).rest + b).pdus
    ensures Parse(a + b).rest == Parse(Parse(a).rest + b).rest
    decreases |a|
  {
    if !Available(a) {
      assert [] + Parse(a + b).pdus == Parse(a + b).pdus;
    } else {
      var n := Header(a);
      HeaderOfPrefix(a, a + b);
      FrontOfConcat(a, b, n);
      ParseIncremental(a[n..], b);
      PrependAssoc(a[..n], Parse(a[n..]).pdus, Parse(Parse(a).rest + b).pdus);
    }
  }

  lemma PrependAssoc(x: Pdu, b: seq<Pdu>, c: seq<Pdu>)
    ensures [x] + b + c == [x] + (b + c)
  {
  }

  /** The parse loses nothing, yields frames only, and stops only where no PDU is complete. */
  lemma {:induction false} ParseSound(s: seq<byte>)
    ensures Flatten(Parse(s).pdus) + Parse(s).rest == s
    ensures Frames(Parse(s).pdus) && !Available(Parse(s).rest)
    decreases |s|
  {
    if !Available(s) {
      assert [] + s == s;
    } else {
      var n := Header(s);
      ParseSound(s[n..]);
      FrontFrame(s);
      FramesCons(s[..n], Parse(s[n..]).pdus, Parse(s[n..]).rest);
    }
  }

  lemma FrontFrame(s: seq<byte>)
    requires Available(s)
    ensures Frame(s[..Header(s)]) && s[..Header(s)] + s[Header(s)..] == s
  {
    HeaderOfPrefix(s[..Header(s)], s);
  }

  lemma FramesCons(f: Pdu, fs: seq<Pdu>, tail: seq<byte>)
    requires Frame(f) && Frames(fs)
    ensures Frames([f] + fs) && Flatten([f] + fs) + tail == f + (Flatten(fs) + tail)
  {
    assert ([f] + fs)[1..] == fs;
    assert f + Flatten(fs) + tail == f + (Flatten(fs) + tail);
  }

  /** Concatenating frames and parsing gives back exactly those frames. */
  lemma {:induction false} ParseOfFrames(fs: seq<Pdu>, tail: seq<byte>)
    requires Frames(fs) && !Available(tail)
    ensures Parse(Flatten(fs) + tail) == Parsed(fs, tail)
    decreases |fs|
  {
    if fs == [] {
      assert [] + tail == tail;
    } else {
      var f, more := fs[0], Flatten(fs[1..]) + tail;
      Associate(f, Flatten(fs[1..]), tail);
      FrameInFront(f, more);
      ParseOfFrames(fs[1..], tail);
    }
  }

  lemma FrameInFront(f: Pdu, more: seq<byte>)
    requires Frame(f)
    ensures Available(f + more) && Header(f + more) == |f|
    ensures (f + more)[..|f|] == f && (f + more)[|f|..] == more
  {
    HeaderOfPrefix(f, f + more);
  }

  /** There is only one way to cut a stream into frames and an incomplete rest: the parse. */
  lemma ParseUnique(fs: seq<Pdu>, tail: seq<byte>, s: seq<byte>)
    requires Frames(fs) && !Available(tail) && Flatten(fs) + tail == s
    ensures Parse(s) == Parsed(fs, tail)
  {
    ParseOfFrames(fs, tail);
  }

  lemma {:induction false} FlattenSnoc(chunks: seq<seq<byte>>, c: seq<byte>)
    ensures Flatten(chunks + [c]) == Flatten(chunks) + c
    decreases |chunks|
  {
    if chunks == [] {
      assert Flatten([c]) == c + Flatten([]);
    } else {
      assert (chunks + [c])[1..] == chunks[1..] + [c];
      FlattenSnoc(chunks[1..], c);
      assert chunks[0] + (Flatten(chunks[1..]) + c) == chunks[0] + Flatten(chunks[1..]) + c;
    }
  }

  // One call of `read_data`: a pass per successful read.

  datatype Progress = Progress(pduLen: nat, pending: seq<byte>)

  function Pass(p: Progress, chunk: seq<byte>): Progress {
    Progress(LastLen(p.pduLen, p.pending + chunk), Parse(p.pending + chunk).rest)
  }

  /** Where a call that started with `pending` stands after the chunks it read. */
  function AfterPasses(pending: seq<byte>, chunks: seq<seq<byte>>): Progress {
    if chunks == [] then Progress(0, pending)
    else Pass(AfterPasses(pending, chunks[..|chunks| - 1]), chunks[|chunks| - 1])
  }

  /** The check behind the inner loop: such a length is a protocol error. */
  predicate Refused(pduLen: nat) {
    pduLen > EIGHT_MIB || pduLen <= MIN_PDU_LEN
  }

  /** The first pass of the call that trips the check is its last one. */
  predicate ParseError(pending: seq<byte>, chunks: seq<seq<byte>>) {
    chunks != [] && Refused(AfterPasses(pending, chunks).pduLen)
  }

  predicate NoEarlierError(pending: seq<byte>, chunks: seq<seq<byte>>) {
    forall i :: 1 <= i < |chunks| ==> !ParseError(pending, chunks[..i])
  }

  /** After a pass that is not refused less than 8 MiB is pending, and no PDU is complete. */
  lemma {:induction false} PendingAfterPass(pduLen: nat, s: seq<byte>)
    requires !Refused(LastLen(pduLen, s))
    ensures |Parse(s).rest| < EIGHT_MIB && |Parse(s).rest| < LastLen(pduLen, s)
    decreases |s|
  {
    if Available(s) {
      PendingAfterPass(Header(s), s[Header(s)..]);
    }
  }

  // When a call reports a parse error.

  /** The last PDU that a parse delivered. */
  function LastPdu(p: Parsed): Pdu
    requires p.pdus != []
  {
    p.pdus[|p.pdus| - 1]
  }

  /** Four pending bytes announce a length that the check refuses. */
  predicate BadHeader(rest: seq<byte>) {
    |rest| >= 4 && (Header(rest) < MIN_PDU_LEN || Header(rest) > EIGHT_MIB)
  }

  /**
   * When a pass is refused, whatever the bytes: a bad length is pending; or, with no length
   * pending, the length seen last is bad, be it that of the PDU just delivered.
   */
  lemma {:induction false} PassRefusedExactly(pduLen: nat, s: seq<byte>)
    ensures var p := Parse(s);
            Refused(LastLen(pduLen, s)) <==>
              if |p.rest| >= 4 then BadHeader(p.rest)
              else if p.pdus == [] then Refused(pduLen)
              else Refused(|LastPdu(p)|)
    decreases |s|
  {
    if Available(s) {
      PassRefusedExactly(Header(s), s[Header(s)..]);
      LastOfTail(s);
    }
  }

  lemma LastOfTail(s: seq<byte>)
    requires Available(s)
    ensures Parse(s).rest == Parse(s[Header(s)..]).rest && Parse(s).pdus != []
    ensures var tail := Parse(s[Header(s)..]);
            LastPdu(Parse(s)) == if tail.pdus == [] then s[..Header(s)] else LastPdu(tail)
  {
  }

  /** The bytes that the last pass of a call parses. */
  function LastInput(pending: seq<byte>, chunks: seq<seq<byte>>): seq<byte>
    requires chunks != []
  {
    AfterPasses(pending, chunks[..|chunks| - 1]).pending + chunks[|chunks| - 1]
  }

  /**
   * When a call reports a parse error, for every stream and every chunking: a bad length is
   * pending; or fewer than four bytes are, and this is the first pass and delivered nothing,
   * or the PDU it delivered last is a bare header or longer than 8 MiB.
   */
  lemma {:induction false} CallRefusedExactly(pending: seq<byte>, chunks: seq<seq<byte>>)
    requires chunks != [] && NoEarlierError(pending, chunks)
    ensures var p := Parse(LastInput(pending, chunks));
            ParseError(pending, chunks) <==>
              if |p.rest| >= 4 then BadHeader(p.rest)
              else if p.pdus == [] then |chunks| == 1
              else Refused(|LastPdu(p)|)
  {
    var front := chunks[..|chunks| - 1];
    PassRefusedExactly(AfterPasses(pending, front).pduLen, LastInput(pending, chunks));
    assert |chunks| > 1 ==> !ParseError(pending, chunks[..|chunks| - 1]);
  }

  // Streams of well-formed frames.

  /** Frames of 4 bytes to 8 MiB. */
  predicate Sendable(fs: seq<Pdu>) {
    forall i :: 0 <= i < |fs| ==> Frame(fs[i]) && |fs[i]| <= EIGHT_MIB
  }

  /** Frames with a body, of 5 bytes to 8 MiB. */
  predicate Acceptable(fs: seq<Pdu>) {
    Sendable(fs) && forall i :: 0 <= i < |fs| ==> |fs[i]| > MIN_PDU_LEN
  }

  /** Cut off anywhere, such a stream leaves a rest that starts at a frame boundary. */
  lemma {:induction false} RestOfStream(s: seq<byte>, fs: seq<Pdu>) returns (k: nat)
    requires Sendable(fs) && s <= Flatten(fs)
    ensures k <= |fs| && Parse(s).rest <= Flatten(fs[k..])
    ensures Parse(s).pdus == fs[..k] && s == Flatten(fs[..k]) + Parse(s).rest
    decreases |fs|
  {
    if fs == [] || |s| < |fs[0]| {
      k := 0;
      NothingComplete(s, fs);
      assert fs[0..] == fs;
    } else {
      var f := fs[0];
      FirstFrame(s, fs);
      var j := RestOfStream(s[|f|..], fs[1..]);
      k := j + 1;
      ConsSlices(fs, j);
      FramesCons(f, fs[1..][..j], Parse(s).rest);
      assert s == f + s[|f|..];
    }
  }

  lemma NothingComplete(s: seq<byte>, fs: seq<Pdu>)
    requires Sendable(fs) && s <= Flatten(fs) && (fs == [] || |s| < |fs[0]|)
    ensures Parse(s).pdus == [] && Parse(s).rest == s && s == Flatten(fs[..0]) + s
  {
    if |s| >= 4 {
      FirstFrame(s, fs);
    }
    assert [] + s == s;
  }

  lemma ConsSlices(fs: seq<Pdu>, j: nat)
    requires j + 1 <= |fs|
    ensures fs[1..][j..] == fs[j + 1..] && fs[..j + 1] == [fs[0]] + fs[1..][..j]
  {
  }

  lemma FirstFrame(s: seq<byte>, fs: seq<Pdu>)
    requires Sendable(fs) && s <= Flatten(fs) && |s| >= 4
    ensures fs != [] && Header(s) == |fs[0]| && (Available(s) <==> |s| >= |fs[0]|)
    ensures |s| >= |fs[0]| ==> s[..|fs[0]|] == fs[0] && s[|fs[0]|..] <= Flatten(fs[1..])
  {
    var f := fs[0];
    assert Flatten(fs) == f + Flatten(fs[1..]);
    assert s[..4] == f[..4];
    HeaderOfPrefix(s[..4], s);
    HeaderOfPrefix(f[..4], f);
  }

  lemma {:induction false} FlattenSplit(fs: seq<Pdu>, k: nat)
    requires k <= |fs|
    ensures Flatten(fs) == Flatten(fs[..k]) + Flatten(fs[k..])
    decreases |fs|
  {
    if k == 0 {
      assert fs[0..] == fs && [] + Flatten(fs) == Flatten(fs);
    } else {
      FlattenSplit(fs[1..], k - 1);
      assert fs[..k][1..] == fs[1..][..k - 1] && fs[1..][k - 1..] == fs[k..];
      Associate(fs[0], Flatten(fs[1..][..k - 1]), Flatten(fs[k..]));
    }
  }

  lemma Associate(a: seq<byte>, b: seq<byte>, c: seq<byte>)
    ensures a + (b + c) == a + b + c
  {
  }

  /** More bytes of the stream, put behind the rest of its parse, still start at a frame boundary. */
  lemma ContinueStream(done: seq<byte>, c: seq<byte>, fs: seq<Pdu>) returns (k: nat)
    requires Sendable(fs) && done + c <= Flatten(fs)
    ensures k <= |fs| && Parse(done).rest + c <= Flatten(fs[k..])
  {
    assert done == (done + c)[..|done|];
    assert done <= Flatten(fs);
    k := RestOfStream(done, fs);
    FlattenSplit(fs, k);
    var head, rest := Flatten(fs[..k]), Parse(done).rest;
    Associate(head, rest, c);
    CancelPrefix(head, rest + c, Flatten(fs[k..]));
  }

  lemma CancelPrefix(a: seq<byte>, b: seq<byte>, c: seq<byte>)
    requires a + b <= a + c
    ensures b <= c
  {
    assert b == (a + b)[|a|..] == (a + c)[..|a| + |b|][|a|..] == c[..|b|];
  }

  /** After any passes the pending bytes are the rest of the parse of everything received. */
  lemma {:induction false} PendingAfterPasses(before: seq<byte>, chunks: seq<seq<byte>>)
    ensures AfterPasses(Parse(before).rest, chunks).pending == Parse(before + Flatten(chunks)).rest
    decreases |chunks|
  {
    if chunks == [] {
      assert before + [] == before;
    } else {
      var front, c := chunks[..|chunks| - 1], chunks[|chunks| - 1];
      PendingAfterPasses(before, front);
      FlattenSnoc(front, c);
      assert chunks == front + [c];
      Associate(before, Flatten(front), c);
      ParseIncremental(before + Flatten(front), c);
    }
  }

  /** What a pass on a prefix of a sendable stream leaves: never a bad length. */
  lemma RestIsGood(s: seq<byte>, fs: seq<Pdu>)
    requires Sendable(fs) && s <= Flatten(fs)
    ensures !BadHeader(Parse(s).rest)
    ensures Parse(s).pdus != [] ==> LastPdu(Parse(s)) in fs
  {
    var k := RestOfStream(s, fs);
    if |Parse(s).rest| >= 4 {
      FirstFrame(Parse(s).rest, fs[k..]);
    }
  }

  /** The last pass of a call works on a part of the stream that starts at a frame boundary. */
  lemma LastInputOfStream(before: seq<byte>, chunks: seq<seq<byte>>, fs: seq<Pdu>) returns (k: nat)
    requires Sendable(fs) && before + Flatten(chunks) <= Flatten(fs) && chunks != []
    ensures k <= |fs| && LastInput(Parse(before).rest, chunks) <= Flatten(fs[k..])
  {
    var front, c := chunks[..|chunks| - 1], chunks[|chunks| - 1];
    FlattenSnoc(front, c);
    assert chunks == front + [c];
    Associate(before, Flatten(front), c);
    PendingAfterPasses(before, front);
    k := ContinueStream(before + Flatten(front), c, fs);
  }

  /**
   * On a stream of frames of 4 bytes to 8 MiB, however it is chunked, a call reports a parse
   * error exactly when fewer than four bytes are left and either its first read completed no
   * frame or the frame completed last is a bare header.
   */
  lemma {:induction false} StreamRefusedExactly(before: seq<byte>, chunks: seq<seq<byte>>, fs: seq<Pdu>)
    requires Sendable(fs) && before + Flatten(chunks) <= Flatten(fs) && chunks != []
    requires NoEarlierError(Parse(before).rest, chunks)
    ensures var pending := Parse(before).rest;
            var p := Parse(LastInput(pending, chunks));
            ParseError(pending, chunks) <==>
              |p.rest| < 4 && if p.pdus == [] then |chunks| == 1 else |LastPdu(p)| == 4
  {
    var k := LastInputOfStream(before, chunks, fs);
    var s := LastInput(Parse(before).rest, chunks);
    RestIsGood(s, fs[k..]);
    CallRefusedExactly(Parse(before).rest, chunks);
  }

  /** Without bare headers in the stream: exactly when the first read leaves fewer than four bytes and no frame. */
  lemma {:induction false} ParseErrorExactly(before: seq<byte>, chunks: seq<seq<byte>>, fs: seq<Pdu>)
    requires Acceptable(fs) && before + Flatten(chunks) <= Flatten(fs) && chunks != []
    requires NoEarlierError(Parse(before).rest, chunks)
    ensures ParseError(Parse(before).rest, chunks) <==> |chunks| == 1 && |Parse(before).rest| + |chunks[0]| < 4
  {
    var k := LastInputOfStream(before, chunks, fs);
    var s := LastInput(Parse(before).rest, chunks);
    RestIsGood(s, fs[k..]);
    StreamRefusedExactly(before, chunks, fs);
    if Parse(s).pdus != [] {
      FramesAreLong(s);
    }
  }

  lemma FramesAreLong(s: seq<byte>)
    requires Parse(s).pdus != []
    ensures |s| >= 4
  {
  }

  /** The promise "a well-formed stream is never refused" fails: three bytes of a five-byte frame. */
  lemma ShortFirstReadIsRefused()
    ensures var frame: Pdu := [0, 0, 0, 5, 7];
            Acceptable([frame]) && [0, 0, 0] <= Flatten([frame]) && ParseError([], [[0, 0, 0]])
  {
    var frame: Pdu := [0, 0, 0, 5, 7];
    assert Flatten([frame]) == frame + Flatten([]) == frame;
    var three: seq<byte> := [0, 0, 0];
    assert [three][..0] == [] && [] + three == three;
    assert AfterPasses([], [three][..0]) == Progress(0, []);
  }

  /** A bare header with fewer than four bytes behind it is delivered, and the call is then refused. */
  lemma BareHeaderIsDeliveredThenRefused(f: Pdu, rest: seq<byte>)
    requires Frame(f) && |f| == 4 && |rest| < 4
    ensures Parse(f + rest) == Parsed([f], rest) && ParseError([], [f + rest])
  {
    var s: seq<byte> := f + rest;
    assert s[..4] == f && s[4..] == rest && f[..4] == f;
    assert [s][..0] == [] && [] + s == s;
    assert AfterPasses([], [s][..0]) == Progress(0, []);
    assert LastLen(0, s) == LastLen(4, rest);
  }

  // Chunking.

  /** What a receiver that parses after every chunk has delivered, and what it keeps. */
  function Feed(chunks: seq<seq<byte>>): Parsed {
    if chunks == [] then Parsed([], []) else
    var f := Feed(chunks[..|chunks| - 1]);
    var p := Parse(f.rest + chunks[|chunks| - 1]);
    Parsed(f.pdus + p.pdus, p.rest)
  }

  /** The incremental form computes the one-shot parse. */
  lemma {:induction false} FeedIsParse(chunks: seq<seq<byte>>)
    ensures Feed(chunks) == Parse(Flatten(chunks))
    decreases |chunks|
  {
    if chunks != [] {
      var front, c := chunks[..|chunks| - 1], chunks[|chunks| - 1];
      FeedIsParse(front);
      FlattenSnoc(front, c);
      assert chunks == front + [c];
      ParseIncremental(Flatten(front), c);
    }
  }

  /** Two chunkings of the same bytes deliver the same PDUs and keep the same remainder. */
  lemma ChunkingIrrelevant(a: seq<seq<byte>>, b: seq<seq<byte>>)
    requires Flatten(a) == Flatten(b)
    ensures Feed(a) == Feed(b)
  {
    FeedIsParse(a);
    FeedIsParse(b);
  }
}
