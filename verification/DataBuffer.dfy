/**
 * The growable byte queue of src/databuffer.h.
 *
 * `store` is the block from `_pstart` to `_pend`; `data` and `free` are the offsets of
 * `_pdata` and `_pfree` in it. `contents` is the byte queue the object stands for. The
 * ghost counters record requests, traffic and relocated bytes; `Valid()` keeps relocation
 * within the amortised budget over every sequence of calls.
 */
module Buffers {
  import opened Codec
  import opened Sizing

  /** A vector on the wire, up to element `i`: its length in four bytes, then `k` bytes each. */
  function VectorUpTo(v: seq<int>, i: nat, k: nat): (bs: seq<byte>)
    requires i <= |v|
    ensures |bs| == 4 + Times(k, i)
    decreases i
  {
    if i == 0 then BigEndian(|v|, 4) else VectorUpTo(v, i - 1, k) + BigEndian(v[i - 1], k)
  }

  function VectorBytes(v: seq<int>, k: nat): seq<byte> { VectorUpTo(v, |v|, k) }

  /** The first `i` elements of `k` bytes at the front of `s`. */
  function DecodedUpTo(s: seq<byte>, i: nat, k: nat, signed: bool): (v: seq<int>)
    requires Times(k, i) <= |s|
    ensures |v| == i
    decreases i
  {
    if i == 0 then [] else
    DecodedUpTo(s, i - 1, k, signed) + [Interpreted(Value(s[Times(k, i - 1)..Times(k, i)]), k, signed)]
  }

  /** The length decodes to the length, the elements to the elements, whatever follows. */
  lemma {:induction false} VectorRoundTrip(v: seq<int>, i: nat, k: nat, signed: bool, s: seq<byte>)
    requires i <= |v| < TWO_32 && forall j :: 0 <= j < i ==> InRange(v[j], k, signed)
    requires 4 + Times(k, i) <= |s| && s[..4 + Times(k, i)] == VectorUpTo(v, i, k)
    ensures Value(s[..4]) == |v| && DecodedUpTo(s[4..], i, k, signed) == v[..i]
    decreases i
  {
    if i == 0 {
      LengthRoundTrip(|v|, s);
    } else {
      VectorSlices(v, i, k, s);
      VectorRoundTrip(v, i - 1, k, signed, s);
      DecodedStep(v, i, k, signed, s[4..]);
    }
  }

  /** The bytes of `d` are those of its conversion to `uint16_t`, `uint32_t` or `uint64_t`. */
  lemma Converted(d: int, k: nat)
    ensures k == 2 ==> BigEndian(d, k) == BigEndian(d % TWO_16, k)
    ensures k == 4 ==> BigEndian(d, k) == BigEndian(d % TWO_32, k)
    ensures k == 8 ==> BigEndian(d, k) == BigEndian(d % TWO_64, k)
  {
    Widths();
    BigEndianMod(d, k);
  }

  lemma LengthRoundTrip(n: nat, s: seq<byte>)
    requires n < TWO_32 && |s| >= 4 && s[..4] == BigEndian(n, 4)
    ensures Value(s[..4]) == n
  {
    Widths();
    UnsignedRoundTrip(n, 4);
  }

  lemma DecodedStep(v: seq<int>, i: nat, k: nat, signed: bool, s: seq<byte>)
    requires 0 < i <= |v| && Times(k, i) <= |s| && InRange(v[i - 1], k, signed)
    requires s[Times(k, i - 1)..Times(k, i)] == BigEndian(v[i - 1], k)
    requires DecodedUpTo(s, i - 1, k, signed) == v[..i - 1]
    ensures DecodedUpTo(s, i, k, signed) == v[..i]
  {
    NumberRoundTrip(v[i - 1], k, signed);
    assert v[..i] == v[..i - 1] + [v[i - 1]];
  }

  lemma VectorSlices(v: seq<int>, i: nat, k: nat, s: seq<byte>)
    requires 0 < i <= |v| && 4 + Times(k, i) <= |s| && s[..4 + Times(k, i)] == VectorUpTo(v, i, k)
    ensures s[..4 + Times(k, i - 1)] == VectorUpTo(v, i - 1, k)
    ensures s[4..][Times(k, i - 1)..Times(k, i)] == BigEndian(v[i - 1], k)
  {
    PrefixSlices(VectorUpTo(v, i - 1, k), BigEndian(v[i - 1], k), s);
    DropSlice(s, 4, Times(k, i - 1), Times(k, i));
  }

  lemma PrefixSlices(a: seq<byte>, b: seq<byte>, s: seq<byte>)
    requires |a| + |b| <= |s| && s[..|a| + |b|] == a + b
    ensures s[..|a|] == a && s[|a|..|a| + |b|] == b
  {
    assert s[..|a|] == s[..|a| + |b|][..|a|];
    assert s[|a|..|a| + |b|] == s[..|a| + |b|][|a|..];
  }

  lemma DropSlice(s: seq<byte>, n: nat, i: nat, j: nat)
    requires i <= j && n + j <= |s|
    ensures s[n..][i..j] == s[n + i..n + j]
  {
  }

  lemma ElementSlice(c: seq<byte>, at: nat, k: nat)
    requires at + k <= |c|
    ensures c[at..][..k] == c[at..at + k] && c[at..][k..] == c[at + k..]
  {
  }

  lemma DecodedNext(s: seq<byte>, rest: seq<byte>, i: nat, k: nat, signed: bool)
    requires Times(k, i + 1) <= |s| && rest == s[Times(k, i)..]
    ensures DecodedUpTo(s, i + 1, k, signed) ==
            DecodedUpTo(s, i, k, signed) + [Interpreted(Value(rest[..k]), k, signed)]
    ensures rest[k..] == s[Times(k, i + 1)..]
  {
    ElementSlice(s, Times(k, i), k);
  }

  lemma Regroup(a: seq<byte>, b: seq<byte>, c: seq<byte>)
    ensures a + b + c == a + (b + c)
  {
  }

  lemma SplitConcat(a: seq<byte>, b: seq<byte>)
    ensures (a + b)[..|a|] == a && (a + b)[|a|..] == b
  {
  }

  /** A C string on the wire: length including the NUL, then text and NUL; empty text is a bare 0. */
  function StringBytes(text: seq<byte>): seq<byte> {
    BigEndian(|CString(text)|, 4) + CString(text)
  }

  function CString(text: seq<byte>): seq<byte> {
    if text == [] then [] else text + [0]
  }

  predicate OccursAt(s: seq<byte>, pattern: seq<byte>, i: nat) {
    i + |pattern| <= |s| && s[i..i + |pattern|] == pattern
  }

  lemma FirstByte(s: seq<byte>, pattern: seq<byte>, i: nat)
    requires |pattern| >= 1
    ensures OccursAt(s, pattern, i) ==> s[i] == pattern[0]
  {
    if OccursAt(s, pattern, i) {
      assert s[i] == s[i..i + |pattern|][0];
    }
  }

  class DataBuffer {
    var store: array?<byte>
    var data: nat
    var free: nat
    ghost var contents: seq<byte>  // the pending bytes, oldest first
    // What the calls so far asked for, carried and relocated.
    ghost var moved: int     // bytes relocated by expand and shrink
    ghost var reserved: int  // sum of the arguments of expand
    ghost var added: int     // bytes appended, or pending again
    ghost var consumed: int  // bytes removed
    ghost var shrinks: int   // blocks given back by shrink

    function Capacity(): nat
      reads this
    {
      if store == null then 0 else store.Length
    }

    function Shape(): Layout
      reads this
    {
      if store == null then Unallocated else Block(store.Length, data, free)
    }

    /** The block holds `contents` between `data` and `free`. */
    ghost predicate Holding()
      reads Repr()
    {
      && data + |contents| == free
      && (store == null ==> data == free == 0)
      && (store != null ==> free <= store.Length && forall i :: data <= i < free ==> store[i] == contents[i - data])
    }

    /** Every relocation so far is paid for, and the traffic adds up to what is pending. */
    ghost predicate Accounted()
      reads this
    {
      && moved + Potential(Shape()) <= 4 * reserved + 4 * added + 4 * consumed + 6144 * shrinks
      && added == consumed + free - data
    }

    ghost predicate Valid()
      reads Repr()
    {
      Holding() && Shape().Ok() && Accounted()
    }

    /** By how much the five counters advanced. */
    twostate predicate Charged(dmoved: int, dreserved: int, dadded: int, dconsumed: int, dshrinks: int)
      reads this
    {
      && moved == old(moved) + dmoved && reserved == old(reserved) + dreserved
      && added == old(added) + dadded && consumed == old(consumed) + dconsumed
      && shrinks == old(shrinks) + dshrinks
    }

    ghost function Repr(): set<object>
      reads this
    {
      if store == null then {this} else {this, store}
    }

    function DataLen(): (n: nat)
      requires Valid()
      reads Repr()
      ensures n == |contents|
    {
      free - data
    }

    function FreeLen(): nat
      requires Valid()
      reads Repr()
    {
      Capacity() - free
    }

    constructor ()
      ensures Valid() && fresh(Repr())
      ensures contents == [] && Shape() == Unallocated
      ensures moved == reserved == added == consumed == shrinks == 0
    {
      store := null;
      data, free, contents := 0, 0, [];
      moved, reserved, added, consumed, shrinks := 0, 0, 0, 0, 0;
    }

    /** `getData()` and `getDataLen()` together: the pending bytes as a value. */
    method GetData() returns (s: seq<byte>)
      requires Valid()
      ensures s == contents
    {
      s := if store == null then [] else store[data..free];
    }

    /** Makes room for `need` more bytes by doubling into a new block or by compacting in place. */
    method Expand(need: nat)
      requires Valid() && ExpandFits(Shape(), need)
      modifies Repr()
      ensures Valid() && fresh(Repr() - old(Repr()))
      ensures store != null && contents == old(contents) && FreeLen() >= need
      ensures Shape() == Expanded(old(Shape()), need) && Regrown(need)
      ensures Charged(ExpandMoves(old(Shape()), need), need, 0, 0, 0)
    {
      if store == null {
        var len := DoubleUntil(FIRST_CAPACITY, need);
        MoveTo(len);
      } else if store.Length - free < need {
        MakeRoom(need);
      }
      reserved := reserved + need;
      ExpandAmortised(old(Shape()), need);
    }

    /**
     * When there is a new block and how large it is. The old one is kept if it has the room
     * behind the data, or if all its free bytes suffice and are at least a quarter of the
     * data; a new one is the smallest of the sizes that doubling yields.
     */
    twostate predicate Regrown(need: nat)
      requires old(Valid()) && Valid()
      reads this, Repr()
    {
      var cap, len := old(Capacity()), |old(contents)|;
      var spare := cap - len;
      if cap == 0 then
        256 <= Capacity() && need <= Capacity() && (Capacity() == 256 || Capacity() < 2 * need)
      else if cap - old(free) >= need then store == old(store) && data == old(data)
      else if spare >= need && 4 * spare >= len then store == old(store) && data == 0
      else
        && store != old(store) && 2 * cap <= Capacity() && len + need <= Capacity()
        && (Capacity() == 2 * cap || Capacity() < 2 * (len + need))
    }

    /** The room behind the data does not suffice: a bigger block, or the front gap. */
    method MakeRoom(need: nat)
      requires Holding() && Shape().Ok() && store != null && store.Length - free < need
      modifies Repr()
      ensures Holding() && store != null && fresh(Repr() - old(Repr()))
      ensures contents == old(contents) && Shape() == Expanded(old(Shape()), need)
      ensures store == old(store) <==> !MustGrow(old(Shape()), need)
      ensures Charged(|contents|, 0, 0, 0, 0)
    {
      var flen := (store.Length - free) + data;
      var dlen := free - data;
      if flen < need || flen * 4 < dlen {
        var bufsize := DoubleUntil(store.Length * 2, dlen + need);
        MoveTo(bufsize);
      } else {
        Compact();
      }
    }

    /** The doubling loop that `expand` runs from its two starting sizes. */
    static method DoubleUntil(start: nat, target: int) returns (size: nat)
      requires start >= 1
      ensures size == Doubled(start, target)
    {
      size := start;
      while size < target
        invariant size >= 1 && Doubled(size, target) == Doubled(start, target)
        decreases target - size
      {
        size := size * 2;
      }
    }

    /** Slides the pending bytes to the front of the block; the two ranges may overlap. */
    method Compact()
      requires Holding() && store != null
      modifies Repr()
      ensures Holding() && store == old(store) && contents == old(contents)
      ensures data == 0 && free == |contents| && Charged(|contents|, 0, 0, 0, 0)
    {
      forall i | 0 <= i < free - data {
        store[i] := store[data + i];
      }
      moved := moved + (free - data);
      data, free := 0, free - data;
    }

    /** Copies the pending bytes to the front of a new block of `size` bytes. */
    method MoveTo(size: nat)
      requires Holding() && |contents| <= size && size > 0
      modifies this
      ensures Holding() && store != null && fresh(store) && contents == old(contents)
      ensures Shape() == Block(size, 0, |contents|) && Charged(|contents|, 0, 0, 0, 0)
    {
      var newbuf := new byte[size];
      if store != null {
        forall i | 0 <= i < free - data {
          newbuf[i] := store[data + i];
        }
        moved := moved + (free - data);
      }
      store := newbuf;
      data, free := 0, free - data;
    }

    /** Drops a large block that holds at most 2048 pending bytes in favour of a 2048-byte one. */
    method Shrink()
      requires Valid()
      modifies Repr()
      ensures Valid() && fresh(Repr() - old(Repr()))
      ensures contents == old(contents)
      ensures Shape() == Shrunk(old(Shape()))
      ensures if old(Capacity()) > 2048 && |contents| <= 2048 then Capacity() == 2048 && data == 0
              else store == old(store) && data == old(data)
      ensures if Shrinks(old(Shape())) then Charged(old(free - data), 0, 0, 0, 1) else Charged(0, 0, 0, 0, 0)
    {
      ShrinkAmortised(Shape());
      if store == null || store.Length <= MAX_BUFFER_SIZE || free - data > MAX_BUFFER_SIZE {
        return;
      }
      shrinks := shrinks + 1;
      MoveTo(MAX_BUFFER_SIZE);
    }

    method Clear()
      requires Valid()
      modifies `data, `free, `contents, `consumed
      ensures Valid() && store == old(store) && contents == []
      ensures Shape() == Emptied(old(Shape()))
      ensures Charged(0, 0, 0, old(free - data), 0)
    {
      consumed := consumed + free - data;
      data, free, contents := 0, 0, [];
    }

    /** Removes the first `len` bytes, or everything when there are no more than that. */
    method DrainData(len: nat)
      requires Valid()
      modifies `data, `free, `contents, `consumed
      ensures Valid() && store == old(store)
      ensures contents == if len < |old(contents)| then old(contents)[len..] else []
      ensures Shape() == Drained(old(Shape()), len)
      ensures Charged(0, 0, 0, if len < |old(contents)| then len else |old(contents)|, 0)
    {
      DrainAmortised(Shape(), len);
      consumed := consumed + if len < free - data then len else free - data;
      contents := if len < |contents| then contents[len..] else [];
      data := data + len;
      if data >= free {
        data, free := 0, 0;
      }
    }

    /** Takes over `len` bytes that were written behind the data. */
    method PourData(len: nat)
      requires Valid() && len <= FreeLen()
      modifies `free, `contents, `added
      ensures Valid() && store == old(store)
      ensures contents == if store == null then [] else old(contents) + store[old(free)..old(free) + len]
      ensures Shape() == Poured(old(Shape()), len)
      ensures Charged(0, 0, len, 0, 0)
    {
      if store != null {
        contents := contents + store[free..free + len];
      }
      free := free + len;
      added := added + len;
    }

    method StripData(len: nat)
      requires Valid() && len <= DataLen()
      modifies `free, `contents, `consumed
      ensures Valid() && store == old(store)
      ensures contents == old(contents)[..|old(contents)| - len]
      ensures Shape() == Poured(old(Shape()), 0 - len)
      ensures Charged(0, 0, 0, len, 0)
    {
      contents := contents[..|contents| - len];
      free := free - len;
      consumed := consumed + len;
    }

    /** Appends `src` in room that is already there: the common tail of every writer. */
    method Append(src: seq<byte>)
      requires Valid() && store != null && |src| <= FreeLen()
      modifies Repr()
      ensures Valid() && store == old(store) && contents == old(contents) + src
      ensures Shape() == Poured(old(Shape()), |src|)
      ensures Charged(0, 0, |src|, 0, 0)
    {
      forall i | 0 <= i < |src| {
        store[free + i] := src[i];
      }
      contents := contents + src;
      free := free + |src|;
      added := added + |src|;
    }

    /** The whole effect of a writer that reserves and appends exactly `bs`. */
    twostate predicate Appended(bs: seq<byte>)
      requires old(Valid())
      reads this, Repr()
    {
      && Valid() && fresh(Repr() - old(Repr()))
      && contents == old(contents) + bs
      && Shape() == Written(old(Shape()), |bs|)
      && Charged(ExpandMoves(old(Shape()), |bs|), |bs|, |bs|, 0, 0)
    }

    /** The whole effect of a reader that takes `n` bytes off the front. */
    twostate predicate Taken(n: nat)
      requires old(Valid())
      reads this, Repr()
    {
      && Valid() && store == old(store)
      && n <= |old(contents)| && contents == old(contents)[n..]
      && Shape() == Advanced(old(Shape()), n) && Charged(0, 0, 0, n, 0)
    }

    method WriteBytes(src: seq<byte>)
      requires Valid() && ExpandFits(Shape(), |src|)
      modifies Repr()
      ensures Appended(src)
    {
      ExpandAmortised(Shape(), |src|);
      Expand(|src|);
      Append(src);
    }

    // The parameters of the writers are unsigned: the argument is converted first.

    method WriteInt8(d: int)
      requires Valid() && ExpandFits(Shape(), 1)
      modifies Repr()
      ensures Appended(BigEndian(d, 1))
    {
      var n := d % TWO_8;
      assert BigEndian(d, 1) == BigEndian(d / 256, 0) + [n];
      WriteBytes([n]);
    }

    method WriteInt16(d: int)
      requires Valid() && ExpandFits(Shape(), 2)
      modifies Repr()
      ensures Appended(BigEndian(d, 2))
    {
      var n := d % TWO_16;
      Converted(d, 2);
      Bytes2(n);
      WriteBytes([n / TWO_8 % 256, n % 256]);
    }

    method WriteInt32(d: int)
      requires Valid() && ExpandFits(Shape(), 4)
      modifies Repr()
      ensures Appended(BigEndian(d, 4))
    {
      var n := d % TWO_32;
      Converted(d, 4);
      Bytes4(n);
      WriteBytes([n / TWO_24 % 256, n / TWO_16 % 256, n / TWO_8 % 256, n % 256]);
    }

    method WriteInt64(d: int)
      requires Valid() && ExpandFits(Shape(), 8)
      modifies Repr()
      ensures Appended(BigEndian(d, 8))
    {
      var n := d % TWO_64;
      Converted(d, 8);
      Bytes8(n);
      WriteBytes([n / 0x100_0000_0000_0000 % 256, n / 0x1_0000_0000_0000 % 256,
                  n / 0x100_0000_0000 % 256, n / TWO_32 % 256,
                  n / TWO_24 % 256, n / TWO_16 % 256, n / TWO_8 % 256, n % 256]);
    }

    /** `writeString` of the NUL-terminated `text`; the whole size is reserved before the length is written. */
    method WriteString(text: seq<byte>)
      requires 0 !in text && |text| < INT_MAX - 4
      requires Valid() && ExpandFits(Shape(), |StringBytes(text)|)
      modifies Repr()
      ensures Valid() && fresh(Repr() - old(Repr()))
      ensures contents == old(contents) + StringBytes(text)
      ensures Shape() == Written(old(Shape()), |StringBytes(text)|)
    {
      var str := CString(text);
      Expand(|str| + 4);
      WriteReserved(|str|, str);
    }

    /** A length and a body, in room that is already there. */
    method WriteReserved(n: nat, body: seq<byte>)
      requires n < TWO_32 && Valid() && store != null && FreeLen() >= 4 + |body|
      modifies Repr()
      ensures Valid() && fresh(Repr() - old(Repr())) && contents == old(contents) + (BigEndian(n, 4) + body)
      ensures Shape() == Poured(old(Shape()), 4 + |body|)
    {
      Regroup(contents, BigEndian(n, 4), body);
      WriteInt32(n);
      Append(body);
    }

    /** One vector element: `writeInt32` or `writeInt64`. */
    method WriteElement(n: int, k: nat)
      requires k == 4 || k == 8
      requires Valid() && ExpandFits(Shape(), k)
      modifies Repr()
      ensures Valid() && fresh(Repr() - old(Repr()))
      ensures contents == old(contents) + BigEndian(n, k)
      ensures Shape() == Written(old(Shape()), k)
    {
      if k == 4 {
        WriteInt32(n);
      } else {
        WriteInt64(n);
      }
    }

    /** `writeVector`, for 4-byte and 8-byte elements; signed ones are converted on the way. */
    method WriteVector(v: seq<int>, k: nat)
      requires (k == 4 || k == 8) && |v| < TWO_32
      requires Valid() && ExpandFits(Shape(), 4) && WritesFit(Written(Shape(), 4), k, |v|)
      modifies Repr()
      ensures Valid() && fresh(Repr() - old(Repr()))
      ensures contents == old(contents) + VectorBytes(v, k)
      ensures Shape() == WrittenAll(Written(old(Shape()), 4), k, |v|)
    {
      ghost var before, first := contents, Written(Shape(), 4);
      WriteLength(v, k);
      WriteElements(v, k, before, first);
    }

    /** The length in front of a vector. */
    method WriteLength(v: seq<int>, k: nat)
      requires |v| < TWO_32 && Valid() && ExpandFits(Shape(), 4)
      modifies Repr()
      ensures fresh(Repr() - old(Repr())) && HasWritten(v, 0, k, old(contents), Written(old(Shape()), 4))
    {
      WriteInt32(|v|);
    }

    method WriteNext(v: seq<int>, k: nat, i: nat, ghost before: seq<byte>, ghost first: Layout)
      requires (k == 4 || k == 8) && i < |v|
      requires first.Ok() && WritesFit(first, k, |v|) && HasWritten(v, i, k, before, first)
      modifies Repr()
      ensures fresh(Repr() - old(Repr())) && HasWritten(v, i + 1, k, before, first)
    {
      Regroup(before, VectorUpTo(v, i, k), BigEndian(v[i], k));
      WriteElement(v[i], k);
    }

    /** The loop of `writeVector`, behind the length. */
    method WriteElements(v: seq<int>, k: nat, ghost before: seq<byte>, ghost first: Layout)
      requires k == 4 || k == 8
      requires first.Ok() && WritesFit(first, k, |v|) && HasWritten(v, 0, k, before, first)
      modifies Repr()
      ensures fresh(Repr() - old(Repr())) && HasWritten(v, |v|, k, before, first)
    {
      for i := 0 to |v|
        invariant fresh(Repr() - old(Repr())) && HasWritten(v, i, k, before, first)
      {
        WriteNext(v, k, i, before, first);
      }
    }

    ghost predicate HasWritten(v: seq<int>, i: nat, k: nat, before: seq<byte>, first: Layout)
      requires i <= |v| && first.Ok()
      reads Repr()
    {
      Valid() && contents == before + VectorUpTo(v, i, k) && Shape() == WrittenAll(first, k, i)
    }

    /** `_pdata += n` over bytes that are there; unlike `DrainData` it never rewinds. */
    method Advance(n: nat)
      requires Valid() && n <= DataLen()
      modifies `data, `contents, `consumed
      ensures Taken(n)
    {
      AdvanceAmortised(Shape(), n);
      contents := contents[n..];
      data, consumed := data + n, consumed + n;
    }

    // The unchecked readers assert that the bytes are there; the checked ones refuse instead.

    method NextInt8() returns (n: nat)
      requires Valid() && DataLen() >= 1
      modifies `data, `contents, `consumed
      ensures Taken(1) && n == Value(old(contents)[..1])
    {
      n := store[data];
      assert contents[..1][..0] == [];
      Advance(1);
    }

    method NextInt16() returns (n: nat)
      requires Valid() && DataLen() >= 2
      modifies `data, `contents, `consumed
      ensures Taken(2) && n == Value(old(contents)[..2])
    {
      assert store[data..data + 2][..2] == contents[..2];
      n := ReadUint16(store[data..data + 2]);
      Advance(2);
    }

    method NextInt32() returns (n: nat)
      requires Valid() && DataLen() >= 4
      modifies `data, `contents, `consumed
      ensures Taken(4) && n == Value(old(contents)[..4])
    {
      assert store[data..data + 4][..4] == contents[..4];
      n := ReadUint32(store[data..data + 4]);
      Advance(4);
    }

    method NextInt64() returns (n: nat)
      requires Valid() && DataLen() >= 8
      modifies `data, `contents, `consumed
      ensures Taken(8) && n == Value(old(contents)[..8])
    {
      assert store[data..data + 8][..8] == contents[..8];
      n := ReadUint64(store[data..data + 8]);
      Advance(8);
    }

    /** `readInt8/16/32/64(n&)`: the checked readers, by width. */
    method ReadInt(k: nat) returns (ok: bool, n: nat)
      requires k in {1, 2, 4, 8}
      requires Valid()
      modifies `data, `contents, `consumed
      ensures ok <==> |old(contents)| >= k
      ensures ok ==> Taken(k) && n == Value(old(contents)[..k])
      ensures !ok ==> Taken(0)
    {
      ok, n := false, 0;
      if data + k <= free {
        ok := true;
        match k {
          case 1 => n := NextInt8();
          case 2 => n := NextInt16();
          case 4 => n := NextInt32();
          case _ => n := NextInt64();
        }
      }
    }

    method ReadBytes(len: nat) returns (ok: bool, dst: seq<byte>)
      requires Valid()
      modifies `data, `contents, `consumed
      ensures ok <==> |old(contents)| >= len
      ensures ok ==> Taken(len) && dst == old(contents)[..len]
      ensures !ok ==> Taken(0)
    {
      ok, dst := false, [];
      if data + len <= free {
        ok := true;
        if store != null {
          dst := store[data..data + len];
        }
        Advance(len);
      }
    }

    /**
     * `readString` into a fresh block: the last byte received is replaced by the NUL. A length
     * above 2^31 - 1 is negative as an `int`, and moves the reader back over bytes it has passed.
     */
    method ReadString() returns (ok: bool, str: seq<byte>)
      requires Valid() && (DataLen() >= 4 ==> StaysInBlock())
      modifies `data, `contents, `consumed, `added
      ensures ok <==> |old(contents)| >= 4
      ensures !ok ==> Taken(0)
      ensures ok ==> var n := Value(old(contents)[..4]);
                     if n > INT_MAX then str == [] && WentBack(TWO_32 - n, 4) else HasReadText(n, str)
    {
      ok, str := false, [];
      if data + 4 <= free {
        ok := true;
        var n := NextInt32();
        str := ReadText(if n > INT_MAX then n - TWO_32 else n);
      }
    }

    /** `readString` behind the length. */
    method ReadText(len: int) returns (str: seq<byte>)
      requires Valid() && store != null && data + len >= 0
      modifies `data, `contents, `consumed, `added
      ensures len < 0 ==> str == [] && WentBack(0 - len, 0)
      ensures len >= 0 ==>
                var slen := if |old(contents)| < len then |old(contents)| else len;
                Taken(slen) && str == if slen > 0 then old(contents)[..slen - 1] + [0] else []
    {
      var slen := if free - data < len then free - data else len;
      str := [];
      if slen > 0 {
        str := CopyText(slen);
      }
      MoveData(slen);
    }

    /** The length at the front does not move the reader out of the block. */
    ghost predicate StaysInBlock()
      requires Valid() && DataLen() >= 4
      reads Repr()
    {
      Value(contents[..4]) <= INT_MAX || data + 4 >= TWO_32 - Value(contents[..4])
    }

    /** The text behind a length `n`, as far as it is there, with its last byte made the NUL. */
    twostate predicate HasReadText(n: nat, str: seq<byte>)
      requires old(Valid()) && |old(contents)| >= 4
      reads this, Repr()
    {
      var c := old(contents);
      var slen := if |c| - 4 < n then |c| - 4 else n;
      Taken(4 + slen) && str == if slen > 0 then c[4..3 + slen] + [0] else []
    }

    /** After reading `read` bytes the reader went back by `n`: that much of the block is pending again. */
    twostate predicate WentBack(n: nat, read: nat)
      reads this, Repr()
    {
      && Valid() && store == old(store) && store != null
      && free == old(free) && data == old(data) + read - n && contents == store[data..free]
      && Charged(0, 0, n, read, 0)
    }

    method CopyText(slen: nat) returns (str: seq<byte>)
      requires Valid() && 0 < slen <= DataLen()
      ensures str == contents[..slen - 1] + [0]
    {
      assert store[data..data + slen - 1] == contents[..slen - 1];
      str := store[data..data + slen - 1] + [0];
    }

    /** `_pdata += n`, forwards or backwards within the block. */
    method MoveData(n: int)
      requires Valid() && store != null && 0 <= data + n <= free
      modifies `data, `contents, `consumed, `added
      ensures if n >= 0 then Taken(n) else WentBack(0 - n, 0)
    {
      if n >= 0 {
        Advance(n);
      } else {
        data, added := data + n, added - n;
        contents := store[data..free];
      }
    }

    /** One vector element, converted to the element type. */
    method NextElement(k: nat, signed: bool) returns (d: int)
      requires (k == 4 || k == 8) && Valid() && DataLen() >= k
      modifies `data, `contents, `consumed
      ensures Taken(k) && d == Interpreted(Value(old(contents)[..k]), k, signed)
    {
      var n;
      if k == 4 {
        n := NextInt32();
      } else {
        n := NextInt64();
      }
      d := Interpreted(n, k, signed);
    }

    /** `readVector`: the asserts in the element readers demand that all of it is there. */
    method ReadVector(k: nat, signed: bool) returns (v: seq<int>)
      requires k == 4 || k == 8
      requires Valid() && DataLen() >= 4 && DataLen() >= 4 + Times(k, Value(contents[..4]))
      modifies `data, `contents, `consumed
      ensures |v| == Value(old(contents)[..4]) && Taken(4 + Times(k, |v|))
      ensures v == DecodedUpTo(old(contents)[4..], |v|, k, signed)
    {
      var len := NextInt32();
      v := NextElements(k, signed, len, contents, Shape(), consumed);
    }

    /** The loop of `readVector`, behind the length. */
    method NextElements(k: nat, signed: bool, len: nat,
                        ghost before: seq<byte>, ghost first: Layout, ghost start: int) returns (v: seq<int>)
      requires (k == 4 || k == 8) && Times(k, len) <= |before|
      requires HasRead([], 0, k, signed, before, first, start)
      modifies `data, `contents, `consumed
      ensures HasRead(v, len, k, signed, before, first, start)
    {
      v := [];
      for i := 0 to len
        invariant HasRead(v, i, k, signed, before, first, start)
      {
        v := NextInto(v, i, len, k, signed, before, first, start);
      }
    }

    /** One turn of that loop. */
    method NextInto(v: seq<int>, ghost i: nat, ghost len: nat, k: nat, signed: bool,
                    ghost before: seq<byte>, ghost first: Layout, ghost start: int) returns (w: seq<int>)
      requires (k == 4 || k == 8) && i < len && Times(k, len) <= |before|
      requires HasRead(v, i, k, signed, before, first, start)
      modifies `data, `contents, `consumed
      ensures HasRead(w, i + 1, k, signed, before, first, start)
    {
      TimesMonotone(k, i + 1, len);
      DecodedNext(before, contents, i, k, signed);
      var d := NextElement(k, signed);
      w := v + [d];
    }

    /** After `i` elements; `before`, `first` and `start` are from in front of the first one. */
    ghost predicate HasRead(v: seq<int>, i: nat, k: nat, signed: bool,
                            before: seq<byte>, first: Layout, start: int)
      reads Repr()
    {
      && Valid() && Times(k, i) <= |before| && contents == before[Times(k, i)..]
      && Shape() == Advanced(first, Times(k, i)) && consumed == start + Times(k, i)
      && v == DecodedUpTo(before, i, k, signed)
    }

    /** `findBytes`: the first offset at which `pattern` occurs in the pending bytes, or -1. */
    method FindBytes(pattern: seq<byte>) returns (at: int)
      requires Valid() && |pattern| >= 1
      ensures at == -1 || (at >= 0 && OccursAt(contents, pattern, at))
      ensures forall i :: 0 <= i && (at == -1 || i < at) ==> !OccursAt(contents, pattern, i)
    {
      var s := GetData();
      var dlen := |s| - |pattern| + 1;
      var i := 0;
      while i < dlen
        invariant 0 <= i
        invariant forall j :: 0 <= j < i ==> !OccursAt(s, pattern, j)
      {
        FirstByte(s, pattern, i);
        if s[i] == pattern[0] && s[i..i + |pattern|] == pattern {
          return i;
        }
        i := i + 1;
      }
      return -1;
    }
  }
  /**
   * Whatever operations led here, `expand` and `shrink` have relocated a number of bytes
   * linear in the requests, the traffic and the number of shrinks.
   */
  lemma RelocationIsLinear(b: DataBuffer)
    requires b.Valid()
    ensures b.moved <= 4 * b.reserved + 4 * b.added + 4 * b.consumed + 6144 * b.shrinks
    ensures b.added == b.consumed + b.DataLen()
  {
  }
}
