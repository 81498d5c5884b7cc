/**
 * The typed writers and readers of one `DataBuffer`, seen as a queue of values.
 *
 * `Encoding` and `Take` are the byte-level effect of each writer and reader; the main
 * lemma runs any interleaving of them against a plain queue of values, and `Replay`
 * does the same on the real buffer with growth, compaction and shrinking in between.
 */
module TypedQueue {
  import opened Codec
  import opened Sizing
  import opened Buffers
  import opened Interface

  datatype Item =
    | Number(k: nat, signed: bool, n: int)       // 1, 2, 4 or 8 bytes
    | Raw(bytes: seq<byte>)
    | Text(text: seq<byte>)                      // without its NUL
    | Vector(k: nat, signed: bool, v: seq<int>)  // elements of 4 or 8 bytes

  /** Which reader is called, and the integer type that its caller wants. */
  datatype Kind =
    | NumberOf(k: nat, signed: bool)
    | RawOf(len: nat)
    | AnyText
    | VectorOf(k: nat, signed: bool)

  datatype Op = Put(item: Item) | Get(kind: Kind) | Reserve(n: nat) | Release

  predicate WellFormed(x: Item) {
    match x
    case Number(k, signed, n) => k in {1, 2, 4, 8} && InRange(n, k, signed)
    case Raw(_) => true
    case Text(text) => 0 !in text && |text| < INT_MAX - 4
    case Vector(k, signed, v) => k in {4, 8} && |v| < TWO_32 && forall i :: 0 <= i < |v| ==> InRange(v[i], k, signed)
  }

  function KindOf(x: Item): Kind {
    match x
    case Number(k, signed, _) => NumberOf(k, signed)
    case Raw(bytes) => RawOf(|bytes|)
    case Text(_) => AnyText
    case Vector(k, signed, _) => VectorOf(k, signed)
  }

  function Encoding(x: Item): seq<byte> {
    match x
    case Number(k, _, n) => BigEndian(n, k)
    case Raw(bytes) => bytes
    case Text(text) => StringBytes(text)
    case Vector(k, _, v) => VectorBytes(v, k)
  }

  function EncodingOf(q: seq<Item>): seq<byte> {
    if q == [] then [] else Encoding(q[0]) + EncodingOf(q[1..])
  }

  /** What the reader for `kind` makes of the pending bytes, and what it leaves. */
  function Take(kind: Kind, s: seq<byte>): Option<(Item, seq<byte>)> {
    match kind
    case NumberOf(k, signed) =>
      if |s| < k then None else Some((Number(k, signed, Interpreted(Value(s[..k]), k, signed)), s[k..]))
    case RawOf(len) => if |s| < len then None else Some((Raw(s[..len]), s[len..]))
    case AnyText =>
      if |s| < 4 then None else
      var slen := if |s| - 4 < Value(s[..4]) then |s| - 4 else Value(s[..4]);
      Some((Text(if slen > 0 then s[4..3 + slen] else []), s[4 + slen..]))
    case VectorOf(k, signed) =>
      if |s| < 4 || |s| < 4 + Times(k, Value(s[..4])) then None else
      var len := Value(s[..4]);
      Some((Vector(k, signed, DecodedUpTo(s[4..], len, k, signed)), s[4 + Times(k, len)..]))
  }

  /** Each reader returns what its writer wrote and stops exactly behind it. */
  lemma TakeReturnsItem(x: Item, tail: seq<byte>)
    requires WellFormed(x)
    ensures Take(KindOf(x), Encoding(x) + tail) == Some((x, tail))
  {
    SplitConcat(Encoding(x), tail);
    match x
    case Number(k, signed, n) => NumberRoundTrip(n, k, signed);
    case Raw(_) =>
    case Text(text) => TakeReturnsText(text, tail);
    case Vector(k, signed, v) => TakeReturnsVector(v, k, signed, tail);
  }

  lemma TakeReturnsText(text: seq<byte>, tail: seq<byte>)
    requires WellFormed(Text(text))
    ensures Take(AnyText, StringBytes(text) + tail) == Some((Text(text), tail))
  {
    var body := CString(text);
    var s := BigEndian(|body|, 4) + body + tail;
    assert s[..4] == BigEndian(|body|, 4) && s[4 + |body|..] == tail && s[4..4 + |body|] == body;
    LengthRoundTrip(|body|, s);
    if text != [] {
      assert s[4..4 + |text|] == s[4..4 + |body|][..|text|] == text;
    }
  }

  lemma TakeReturnsVector(v: seq<int>, k: nat, signed: bool, tail: seq<byte>)
    requires WellFormed(Vector(k, signed, v))
    ensures Take(VectorOf(k, signed), VectorBytes(v, k) + tail) == Some((Vector(k, signed, v), tail))
  {
    var s := VectorBytes(v, k) + tail;
    SplitConcat(VectorBytes(v, k), tail);
    VectorRoundTrip(v, |v|, k, signed, s);
    assert v[..|v|] == v;
  }

  // A run of operations on the bytes and on a plain queue of values.

  function BytesAfter(s: seq<byte>, op: Op): seq<byte> {
    match op
    case Put(x) => s + Encoding(x)
    case Get(kind) => (match Take(kind, s) case Some(r) => r.1 case None => s)
    case _ => s
  }

  function BytesGot(s: seq<byte>, op: Op): seq<Item> {
    match op
    case Get(kind) => (match Take(kind, s) case Some(r) => [r.0] case None => [])
    case _ => []
  }

  function ByteRun(s: seq<byte>, ops: seq<Op>): (seq<Item>, seq<byte>)
    decreases |ops|
  {
    if ops == [] then ([], s) else
    var (got, last) := ByteRun(BytesAfter(s, ops[0]), ops[1..]);
    (BytesGot(s, ops[0]) + got, last)
  }

  /** Every item put is one the writers accept, and every reader matches the oldest value. */
  predicate Legal(q: seq<Item>, op: Op) {
    match op
    case Put(x) => WellFormed(x)
    case Get(kind) => q != [] && KindOf(q[0]) == kind
    case _ => true
  }

  function QueueAfter(q: seq<Item>, op: Op): seq<Item>
    requires Legal(q, op)
  {
    match op
    case Put(x) => q + [x]
    case Get(_) => q[1..]
    case _ => q
  }

  function QueueGot(q: seq<Item>, op: Op): seq<Item>
    requires Legal(q, op)
  {
    if op.Get? then [q[0]] else []
  }

  predicate AllLegal(q: seq<Item>, ops: seq<Op>)
    decreases |ops|
  {
    ops == [] || (Legal(q, ops[0]) && AllLegal(QueueAfter(q, ops[0]), ops[1..]))
  }

  function QueueRun(q: seq<Item>, ops: seq<Op>): (seq<Item>, seq<Item>)
    requires AllLegal(q, ops)
    decreases |ops|
  {
    if ops == [] then ([], q) else
    var (got, last) := QueueRun(QueueAfter(q, ops[0]), ops[1..]);
    (QueueGot(q, ops[0]) + got, last)
  }

  lemma {:induction false} EncodingOfSnoc(q: seq<Item>, x: Item)
    ensures EncodingOf(q + [x]) == EncodingOf(q) + Encoding(x)
  {
    if q == [] {
      assert EncodingOf([x]) == Encoding(x) + EncodingOf([]);
    } else {
      assert (q + [x])[1..] == q[1..] + [x];
      EncodingOfSnoc(q[1..], x);
      Regroup(Encoding(q[0]), EncodingOf(q[1..]), Encoding(x));
    }
  }

  /** One operation acts on the bytes as it acts on the queue of values. */
  lemma StepAgrees(q: seq<Item>, op: Op)
    requires Legal(q, op) && forall i :: 0 <= i < |q| ==> WellFormed(q[i])
    ensures BytesAfter(EncodingOf(q), op) == EncodingOf(QueueAfter(q, op))
    ensures BytesGot(EncodingOf(q), op) == QueueGot(q, op)
    ensures forall i :: 0 <= i < |QueueAfter(q, op)| ==> WellFormed(QueueAfter(q, op)[i])
  {
    match op
    case Put(x) => EncodingOfSnoc(q, x);
    case Get(_) => TakeReturnsItem(q[0], EncodingOf(q[1..]));
    case _ =>
  }

  /** Any interleaving of typed writes and matching reads hands the values back in FIFO order. */
  lemma {:induction false} RunAgrees(q: seq<Item>, ops: seq<Op>)
    requires AllLegal(q, ops) && forall i :: 0 <= i < |q| ==> WellFormed(q[i])
    ensures ByteRun(EncodingOf(q), ops).0 == QueueRun(q, ops).0
    ensures ByteRun(EncodingOf(q), ops).1 == EncodingOf(QueueRun(q, ops).1)
    decreases |ops|
  {
    if ops != [] {
      StepAgrees(q, ops[0]);
      RunAgrees(QueueAfter(q, ops[0]), ops[1..]);
    }
  }

  /** The plain queue is first in, first out: what was got, then what is left, is what was put. */
  lemma {:induction false} QueueIsFifo(q: seq<Item>, ops: seq<Op>)
    requires AllLegal(q, ops)
    ensures QueueRun(q, ops).0 + QueueRun(q, ops).1 == q + PutBy(ops)
    decreases |ops|
  {
    if ops == [] {
      assert q + [] == q;
    } else {
      var after, rest := QueueAfter(q, ops[0]), ops[1..];
      QueueIsFifo(after, rest);
      var (got, last) := QueueRun(after, rest);
      assert QueueGot(q, ops[0]) + got + last == QueueGot(q, ops[0]) + (got + last);
      FifoStep(q, ops[0], PutBy(rest));
    }
  }

  lemma Regroup3(a: seq<Item>, b: seq<Item>, c: seq<Item>)
    ensures a + b + c == a + (b + c)
  {
  }

  lemma FifoStep(q: seq<Item>, op: Op, later: seq<Item>)
    requires Legal(q, op)
    ensures QueueGot(q, op) + (QueueAfter(q, op) + later) == q + ((if op.Put? then [op.item] else []) + later)
  {
    if op.Get? {
      assert [q[0]] + (q[1..] + later) == q + later;
    }
  }

  function PutBy(ops: seq<Op>): seq<Item> {
    if ops == [] then [] else (if ops[0].Put? then [ops[0].item] else []) + PutBy(ops[1..])
  }

  // The same run on a real buffer.

  /** No `expand` of this writer leaves `int`. */
  ghost predicate ItemFits(l: Layout, x: Item)
    requires l.Ok()
  {
    match x
    case Vector(k, _, v) => ExpandFits(l, 4) && WritesFit(Written(l, 4), k, |v|)
    case _ => ExpandFits(l, |Encoding(x)|)
  }

  ghost function ItemLayout(l: Layout, x: Item): (r: Layout)
    requires l.Ok()
    ensures r.Ok() && r.Len() == l.Len() + |Encoding(x)|
  {
    match x
    case Vector(k, _, v) => WrittenAll(Written(l, 4), k, |v|)
    case _ => Written(l, |Encoding(x)|)
  }

  ghost predicate OpFits(l: Layout, op: Op)
    requires l.Ok()
  {
    match op
    case Put(x) => ItemFits(l, x)
    case Reserve(n) => ExpandFits(l, n)
    case _ => true
  }

  /** `l` is the layout of a buffer that holds the queue. */
  ghost predicate Carries(l: Layout, q: seq<Item>) {
    l.Ok() && l.Len() == |EncodingOf(q)|
  }

  ghost function OpLayout(l: Layout, q: seq<Item>, op: Op): (r: Layout)
    requires Carries(l, q) && Legal(q, op)
    ensures Carries(r, QueueAfter(q, op))
  {
    match op
    case Put(x) =>
      EncodingOfSnoc(q, x);
      ItemLayout(l, x)
    case Get(_) => Advanced(l, |Encoding(q[0])|)
    case Reserve(n) =>
      ExpandAmortised(l, n);
      Expanded(l, n)
    case Release =>
      ShrinkAmortised(l);
      Shrunk(l)
  }

  /** Exactly what the code asks of its caller: no `expand` of the whole run leaves `int`. */
  ghost predicate RunFits(l: Layout, q: seq<Item>, ops: seq<Op>)
    requires Carries(l, q) && AllLegal(q, ops)
    decreases |ops|
  {
    ops == [] || (OpFits(l, ops[0]) && RunFits(OpLayout(l, q, ops[0]), QueueAfter(q, ops[0]), ops[1..]))
  }

  function Demand(op: Op): nat {
    match op
    case Put(x) => |Encoding(x)|
    case Reserve(n) => n
    case _ => 0
  }

  /** At every moment, what is pending and what is asked for next stay within 192 MiB together. */
  predicate Roomy(q: seq<Item>, ops: seq<Op>)
    requires AllLegal(q, ops)
    decreases |ops|
  {
    ops == [] || (|EncodingOf(q)| + Demand(ops[0]) <= ROOMY_LENGTH && Roomy(QueueAfter(q, ops[0]), ops[1..]))
  }

  /** A guard on the values alone: a roomy run fits, whatever its length and its total traffic. */
  lemma {:induction false} RoomyRunFits(l: Layout, q: seq<Item>, ops: seq<Op>)
    requires Carries(l, q) && l.Capacity() <= ROOMY_CAPACITY && AllLegal(q, ops) && Roomy(q, ops)
    ensures RunFits(l, q, ops)
    decreases |ops|
  {
    if ops != [] {
      RoomyOp(l, q, ops[0]);
      RoomyRunFits(OpLayout(l, q, ops[0]), QueueAfter(q, ops[0]), ops[1..]);
    }
  }

  lemma RoomyOp(l: Layout, q: seq<Item>, op: Op)
    requires Carries(l, q) && l.Capacity() <= ROOMY_CAPACITY && Legal(q, op)
    requires l.Len() + Demand(op) <= ROOMY_LENGTH
    ensures OpFits(l, op) && OpLayout(l, q, op).Capacity() <= ROOMY_CAPACITY
  {
    match op
    case Put(x) => RoomyItem(l, x);
    case Reserve(n) => RoomyExpand(l, n);
    case _ =>
  }

  lemma RoomyItem(l: Layout, x: Item)
    requires l.Ok() && l.Capacity() <= ROOMY_CAPACITY && l.Len() + |Encoding(x)| <= ROOMY_LENGTH
    ensures ItemFits(l, x) && ItemLayout(l, x).Capacity() <= ROOMY_CAPACITY
  {
    match x
    case Vector(k, _, v) =>
      RoomyExpand(l, 4);
      ExpandAmortised(l, 4);
      RoomyWrites(Written(l, 4), k, |v|);
    case _ =>
      RoomyExpand(l, |Encoding(x)|);
      ExpandAmortised(l, |Encoding(x)|);
  }

  method PutItem(b: DataBuffer, x: Item)
    requires b.Valid() && WellFormed(x) && ItemFits(b.Shape(), x)
    modifies b.Repr()
    ensures b.Valid() && fresh(b.Repr() - old(b.Repr()))
    ensures b.contents == old(b.contents) + Encoding(x) && b.Shape() == ItemLayout(old(b.Shape()), x)
  {
    match x {
      case Number(k, _, n) => PutNumber(b, k, n);
      case Raw(bytes) => b.WriteBytes(bytes);
      case Text(text) => b.WriteString(text);
      case Vector(k, _, v) => b.WriteVector(v, k);
    }
  }

  method PutNumber(b: DataBuffer, k: nat, n: int)
    requires k in {1, 2, 4, 8} && b.Valid() && ExpandFits(b.Shape(), k)
    modifies b.Repr()
    ensures b.Valid() && fresh(b.Repr() - old(b.Repr()))
    ensures b.contents == old(b.contents) + BigEndian(n, k) && b.Shape() == Written(old(b.Shape()), k)
  {
    match k {
      case 1 => b.WriteInt8(n);
      case 2 => b.WriteInt16(n);
      case 4 => b.WriteInt32(n);
      case _ => b.WriteInt64(n);
    }
  }

  method GetItem(b: DataBuffer, kind: Kind) returns (r: Option<Item>)
    requires b.Valid()
    requires match kind
             case NumberOf(k, _) => k in {1, 2, 4, 8}
             case RawOf(_) => true
             case AnyText => |b.contents| >= 4 ==> Value(b.contents[..4]) <= INT_MAX
             case VectorOf(k, _) => k in {4, 8} && Take(kind, b.contents).Some?
    modifies b
    ensures HasTaken(b, kind, r)
  {
    match kind {
      case NumberOf(k, signed) =>
        var ok, n := b.ReadInt(k);
        r := if ok then Some(Number(k, signed, Interpreted(n, k, signed))) else None;
      case RawOf(len) =>
        var ok, bytes := b.ReadBytes(len);
        r := if ok then Some(Raw(bytes)) else None;
      case AnyText => r := GetText(b);
      case VectorOf(k, signed) =>
        var v := b.ReadVector(k, signed);
        r := Some(Vector(k, signed, v));
    }
  }

  method GetText(b: DataBuffer) returns (r: Option<Item>)
    requires b.Valid() && (|b.contents| >= 4 ==> Value(b.contents[..4]) <= INT_MAX)
    modifies b
    ensures HasTaken(b, AnyText, r)
  {
    var ok, str := b.ReadString();
    r := if !ok then None else Some(Text(if str == [] then [] else str[..|str| - 1]));
  }

  /** The reader for `kind` has returned `r` and left the rest, in the same block. */
  twostate predicate HasTaken(b: DataBuffer, kind: Kind, new r: Option<Item>)
    reads b, b.Repr()
  {
    && b.Valid() && b.store == old(b.store)
    && b.Shape() == Advanced(old(b.Shape()), |old(b.contents)| - |b.contents|)
    && match Take(kind, old(b.contents))
       case Some(t) => r == Some(t.0) && b.contents == t.1
       case None => r == None && b.contents == old(b.contents)
  }

  /** Puts, gets, reservations and shrinks on one buffer: what comes out is what the queue gives. */
  method Replay(ops: seq<Op>) returns (b: DataBuffer, got: seq<Item>)
    requires AllLegal([], ops) && RunFits(Unallocated, [], ops)
    ensures fresh(b.Repr()) && b.Valid()
    ensures got == QueueRun([], ops).0 && b.contents == EncodingOf(QueueRun([], ops).1)
  {
    b := new DataBuffer();
    got := [];
    ghost var q: seq<Item> := [];
    var i := 0;
    assert ops[0..] == ops && [] + QueueRun(q, ops).0 == QueueRun(q, ops).0;
    while i < |ops|
      invariant i <= |ops|
      invariant fresh(b.Repr()) && Loaded(b, q) && AllLegal(q, ops[i..]) && RunFits(b.Shape(), q, ops[i..])
      invariant QueueRun([], ops) == (got + QueueRun(q, ops[i..]).0, QueueRun(q, ops[i..]).1)
    {
      assert ops[i..][0] == ops[i] && ops[i..][1..] == ops[i + 1..];
      ghost var next := QueueAfter(q, ops[i]);
      Regroup3(got, QueueGot(q, ops[i]), QueueRun(next, ops[i + 1..]).0);
      var out := Perform(b, q, ops[i]);
      got, q := got + out, next;
      i := i + 1;
    }
    assert ops[i..] == [] && got + [] == got;
  }

  /** The buffer holds the encodings of the queue, and every value in it is one a writer accepts. */
  ghost predicate Loaded(b: DataBuffer, q: seq<Item>)
    reads b.Repr()
  {
    b.Valid() && b.contents == EncodingOf(q) && forall j :: 0 <= j < |q| ==> WellFormed(q[j])
  }

  method Perform(b: DataBuffer, ghost q: seq<Item>, op: Op) returns (out: seq<Item>)
    requires Loaded(b, q) && Legal(q, op) && OpFits(b.Shape(), op)
    modifies b.Repr()
    ensures fresh(b.Repr() - old(b.Repr())) && Loaded(b, QueueAfter(q, op))
    ensures out == QueueGot(q, op) && b.Shape() == OpLayout(old(b.Shape()), q, op)
  {
    StepAgrees(q, op);
    out := [];
    match op {
      case Put(x) => PutItem(b, x);
      case Get(kind) =>
        GettableFront(q[0], EncodingOf(q[1..]));
        var r := GetItem(b, kind);
        out := [r.value];
      case Reserve(n) => b.Expand(n);
      case Release => b.Shrink();
    }
  }

  lemma GettableFront(x: Item, tail: seq<byte>)
    requires WellFormed(x)
    ensures Take(KindOf(x), Encoding(x) + tail) == Some((x, tail))
    ensures x.Text? ==> Value((Encoding(x) + tail)[..4]) <= INT_MAX
  {
    TakeReturnsItem(x, tail);
    if x.Text? {
      var body := CString(x.text);
      assert (Encoding(x) + tail)[..4] == BigEndian(|body|, 4);
      LengthRoundTrip(|body|, Encoding(x) + tail);
    }
  }
}
