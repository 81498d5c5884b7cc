/**
 * Big-endian integers on the wire: the `Write*`/`Read*` pairs of src/tools.cpp.
 *
 * `BigEndian` and `Value` are the reference encoding and decoding; the routines that
 * fill a buffer in place are proved to produce the former, and the expressions that
 * read one are proved to compute the latter.
 */
module Codec {

  type byte = b: int | 0 <= b < 256

  const TWO_8: int := 0x100
  const TWO_16: int := 0x1_0000
  const TWO_24: int := 0x100_0000
  const TWO_31: int := 0x8000_0000
  const TWO_32: int := 0x1_0000_0000
  const TWO_63: int := 0x8000_0000_0000_0000
  const TWO_64: int := 0x1_0000_0000_0000_0000

  function Pow256(k: nat): (p: nat)
    ensures p >= 1
  {
    if k == 0 then 1 else 256 * Pow256(k - 1)
  }

  /** The low `k` bytes of `n`, most significant first; `n` may be negative (two's complement). */
  function BigEndian(n: int, k: nat): (bs: seq<byte>)
    ensures |bs| == k
    decreases k
  {
    if k == 0 then [] else BigEndian(n / 256, k - 1) + [n % 256]
  }

  /** The unsigned number that a byte string denotes. */
  function Value(bs: seq<byte>): (n: nat)
    ensures n < Pow256(|bs|)
  {
    if bs == [] then 0 else Value(bs[..|bs| - 1]) * 256 + bs[|bs| - 1]
  }

  /** The two's complement reading of an unsigned `k`-byte number. */
  function Signed(n: int, k: nat): int {
    if 2 * n >= Pow256(k) then n - Pow256(k) else n
  }

  lemma {:induction false} DivModSplit(n: int, p: nat)
    requires p >= 1
    ensures n % (256 * p) == (n / 256) % p * 256 + n % 256
  {
    var q, r := n / 256, n % 256;
    var a, b := q / p, q % p;
    assert n == 256 * (p * a + b) + r;
    assert n == (256 * p) * a + (256 * b + r);
    assert 256 * b + r <= 256 * (p - 1) + 255;
    ModUnique(n, 256 * p, a, 256 * b + r);
  }

  lemma ModUnique(n: int, m: nat, q: int, r: int)
    requires m >= 1 && n == m * q + r && 0 <= r < m
    ensures n % m == r && n / m == q
  {
    var q', r' := n / m, n % m;
    assert n == m * q' + r';
    var d := q - q';
    assert m * d == r' - r by {
      assert m * (q - q') == m * q - m * q';
    }
    MultipleBound(m, d);
  }

  lemma MultipleBound(m: nat, d: int)
    ensures d >= 1 ==> m * d >= m
    ensures d <= -1 ==> m * d + m <= 0
  {
    if d >= 1 {
      assert m * d == m + m * (d - 1);
    } else if d <= -1 {
      assert m * d + m == m * (d + 1);
      assert m * (d + 1) <= 0;
    }
  }

  /** Decoding what was encoded gives back the number, modulo the field width. */
  lemma {:induction false} ValueOfBigEndian(n: int, k: nat)
    ensures Value(BigEndian(n, k)) == n % Pow256(k)
    decreases k
  {
    if k > 0 {
      var bs := BigEndian(n, k);
      assert bs[..k - 1] == BigEndian(n / 256, k - 1);
      ValueOfBigEndian(n / 256, k - 1);
      DivModSplit(n, Pow256(k - 1));
    }
  }

  /** Encoding what was decoded gives back the bytes. */
  lemma {:induction false} BigEndianOfValue(bs: seq<byte>)
    ensures BigEndian(Value(bs), |bs|) == bs
  {
    if bs != [] {
      var front, last := bs[..|bs| - 1], bs[|bs| - 1];
      ModUnique(Value(bs), 256, Value(front), last);
      BigEndianOfValue(front);
    }
  }

  lemma {:induction false} UnsignedRoundTrip(n: nat, k: nat)
    requires n < Pow256(k)
    ensures Value(BigEndian(n, k)) == n
  {
    ValueOfBigEndian(n, k);
    ModUnique(n, Pow256(k), 0, n);
  }

  /** The signed pairs round-trip too, over the whole two's complement range. */
  lemma {:induction false} SignedRoundTrip(d: int, k: nat)
    requires 0 - Pow256(k) <= 2 * d < Pow256(k)
    ensures Signed(Value(BigEndian(d, k)), k) == d
  {
    ValueOfBigEndian(d, k);
    if d >= 0 {
      ModUnique(d, Pow256(k), 0, d);
    } else {
      ModUnique(d, Pow256(k), -1, d + Pow256(k));
    }
  }

  /** Converting a number to the unsigned type of `k` bytes first does not change its bytes. */
  lemma BigEndianMod(d: int, k: nat)
    ensures BigEndian(d, k) == BigEndian(d % Pow256(k), k)
  {
    ValueOfBigEndian(d, k);
    BigEndianOfValue(BigEndian(d, k));
  }

  /** Converting to the unsigned type and back is the identity on the signed range. */
  lemma SignedOfUnsigned(d: int, k: nat)
    requires InRange(d, k, true)
    ensures Signed(d % Pow256(k), k) == d
  {
    ValueOfBigEndian(d, k);
    SignedRoundTrip(d, k);
  }

  /** The numbers of the signed or unsigned type of `k` bytes. */
  predicate InRange(d: int, k: nat, signed: bool) {
    if signed then 0 - Pow256(k) <= 2 * d < Pow256(k) else 0 <= d < Pow256(k)
  }

  /** An unsigned number of `k` bytes, converted to the signed type if that is what is wanted. */
  function Interpreted(n: nat, k: nat, signed: bool): int {
    if signed then Signed(n, k) else n
  }

  lemma NumberRoundTrip(d: int, k: nat, signed: bool)
    requires InRange(d, k, signed)
    ensures Interpreted(Value(BigEndian(d, k)), k, signed) == d
  {
    if signed {
      SignedRoundTrip(d, k);
    } else {
      UnsignedRoundTrip(d, k);
    }
  }

  lemma Widths()
    ensures Pow256(1) == TWO_8 && Pow256(2) == TWO_16 && Pow256(4) == TWO_32 && Pow256(8) == TWO_64
  {
    assert Pow256(2) == 256 * Pow256(1) == TWO_16;
    assert Pow256(3) == TWO_24;
    assert Pow256(4) == TWO_32;
    assert Pow256(5) == 256 * TWO_32;
    assert Pow256(6) == 256 * 256 * TWO_32;
    assert Pow256(7) == 256 * 256 * 256 * TWO_32;
  }

  // The shift-and-mask expressions, byte by byte.

  lemma Bytes2(n: int)
    ensures BigEndian(n, 2) == [n / 0x100 % 256, n % 256]
  {
    assert BigEndian(n / 0x100, 1) == BigEndian(n / 0x100 / 256, 0) + [n / 0x100 % 256];
  }

  lemma Bytes4(n: int)
    ensures BigEndian(n, 4) == [n / TWO_24 % 256, n / TWO_16 % 256, n / TWO_8 % 256, n % 256]
  {
    var hi := n / TWO_16;
    assert n / 256 / 256 == hi && hi / 256 == n / TWO_24;
    Bytes2(hi);
    assert BigEndian(n / 256, 3) == BigEndian(hi, 2) + [n / 256 % 256];
  }

  lemma Bytes8(n: int)
    ensures BigEndian(n, 8) == [n / 0x100_0000_0000_0000 % 256, n / 0x1_0000_0000_0000 % 256,
                                n / 0x100_0000_0000 % 256, n / TWO_32 % 256,
                                n / TWO_24 % 256, n / TWO_16 % 256, n / TWO_8 % 256, n % 256]
  {
    var hi := n / TWO_32;
    Bytes4(hi);
    assert hi / TWO_24 == n / 0x100_0000_0000_0000 && hi / TWO_16 == n / 0x1_0000_0000_0000;
    assert hi / TWO_8 == n / 0x100_0000_0000;
    assert n / 256 / 256 == n / TWO_16 && n / TWO_16 / 256 == n / TWO_24 && n / TWO_24 / 256 == hi;
    assert BigEndian(n / TWO_24, 5) == BigEndian(hi, 4) + [n / TWO_24 % 256];
    assert BigEndian(n / TWO_16, 6) == BigEndian(n / TWO_24, 5) + [n / TWO_16 % 256];
    assert BigEndian(n / TWO_8, 7) == BigEndian(n / TWO_16, 6) + [n / TWO_8 % 256];
  }

  lemma Value2(bs: seq<byte>)
    requires |bs| == 2
    ensures Value(bs) == bs[0] * TWO_8 + bs[1]
  {
    assert bs[..1][..0] == [];
    assert Value(bs[..1]) == bs[0];
  }

  lemma Value4(bs: seq<byte>)
    requires |bs| == 4
    ensures Value(bs) == bs[0] * TWO_24 + bs[1] * TWO_16 + bs[2] * TWO_8 + bs[3]
  {
    assert bs[..3][..2] == bs[..2];
    Value2(bs[..2]);
    assert Value(bs[..3]) == Value(bs[..2]) * 256 + bs[2];
  }

  lemma Value8(bs: seq<byte>)
    requires |bs| == 8
    ensures Value(bs) == Value(bs[..4]) * TWO_32 + Value(bs[4..])
  {
    assert bs[..7][..6] == bs[..6] && bs[..6][..5] == bs[..5] && bs[..5][..4] == bs[..4];
    assert Value(bs[..5]) == Value(bs[..4]) * 256 + bs[4];
    assert Value(bs[..6]) == Value(bs[..5]) * 256 + bs[5];
    assert Value(bs[..7]) == Value(bs[..6]) * 256 + bs[6];
    Value4(bs[4..]);
  }

  // src/tools.cpp, writers: the signed and the unsigned forms store the same bytes.

  method Write16(buf: array<byte>, n: int)
    requires buf.Length >= 2 && -0x8000 <= n < TWO_16
    modifies buf
    ensures buf[..2] == BigEndian(n, 2) && buf[2..] == old(buf[2..])
  {
    buf[0] := n / TWO_8 % 256;
    buf[1] := n % 256;
    Bytes2(n);
  }

  method Write32(buf: array<byte>, n: int)
    requires buf.Length >= 4 && -TWO_31 <= n < TWO_32
    modifies buf
    ensures buf[..4] == BigEndian(n, 4) && buf[4..] == old(buf[4..])
  {
    buf[0] := n / TWO_24 % 256;
    buf[1] := n / TWO_16 % 256;
    buf[2] := n / TWO_8 % 256;
    buf[3] := n % 256;
    Bytes4(n);
  }

  method Write64(buf: array<byte>, n: int)
    requires buf.Length >= 8 && -TWO_63 <= n < TWO_64
    modifies buf
    ensures buf[..8] == BigEndian(n, 8) && buf[8..] == old(buf[8..])
  {
    buf[0] := n / 0x100_0000_0000_0000 % 256;
    buf[1] := n / 0x1_0000_0000_0000 % 256;
    buf[2] := n / 0x100_0000_0000 % 256;
    buf[3] := n / TWO_32 % 256;
    buf[4] := n / TWO_24 % 256;
    buf[5] := n / TWO_16 % 256;
    buf[6] := n / TWO_8 % 256;
    buf[7] := n % 256;
    Bytes8(n);
  }

  // src/tools.cpp, readers: pure expressions over the first bytes of a buffer.

  function ReadUint16(bs: seq<byte>): (n: nat)
    requires |bs| >= 2
    ensures n == Value(bs[..2])
  {
    Value2(bs[..2]);
    bs[0] * TWO_8 + bs[1]
  }

  function ReadUint32(bs: seq<byte>): (n: nat)
    requires |bs| >= 4
    ensures n == Value(bs[..4])
  {
    Value4(bs[..4]);
    bs[0] * TWO_24 + bs[1] * TWO_16 + bs[2] * TWO_8 + bs[3]
  }

  function ReadUint64(bs: seq<byte>): (n: nat)
    requires |bs| >= 8
    ensures n == Value(bs[..8])
  {
    Value8(bs[..8]);
    assert bs[..8][..4] == bs[..4] && bs[..8][4..] == bs[4..8];
    assert bs[4..][..4] == bs[4..8];
    ReadUint32(bs) * TWO_32 + ReadUint32(bs[4..])
  }

  function ReadInt16(bs: seq<byte>): int
    requires |bs| >= 2
  {
    var n := ReadUint16(bs);
    if n >= 0x8000 then n - TWO_16 else n
  }

  function ReadInt32(bs: seq<byte>): int
    requires |bs| >= 4
  {
    var n := ReadUint32(bs);
    if n >= TWO_31 then n - TWO_32 else n
  }

  function ReadInt64(bs: seq<byte>): int
    requires |bs| >= 8
  {
    var n := ReadUint64(bs);
    if n >= TWO_63 then n - TWO_64 else n
  }

  /** Every `Write*`/`Read*` pair is the identity on its whole range, whatever follows in the buffer. */
  lemma ToolsRoundTrip(d: int, rest: seq<byte>)
    ensures -0x8000 <= d < 0x8000 ==> ReadInt16(BigEndian(d, 2) + rest) == d
    ensures 0 <= d < TWO_16 ==> ReadUint16(BigEndian(d, 2) + rest) == d
    ensures -TWO_31 <= d < TWO_31 ==> ReadInt32(BigEndian(d, 4) + rest) == d
    ensures 0 <= d < TWO_32 ==> ReadUint32(BigEndian(d, 4) + rest) == d
    ensures -TWO_63 <= d < TWO_63 ==> ReadInt64(BigEndian(d, 8) + rest) == d
    ensures 0 <= d < TWO_64 ==> ReadUint64(BigEndian(d, 8) + rest) == d
  {
    RoundTrip16(d, rest);
    RoundTrip32(d, rest);
    RoundTrip64(d, rest);
  }

  lemma RoundTrip16(d: int, rest: seq<byte>)
    ensures -0x8000 <= d < 0x8000 ==> ReadInt16(BigEndian(d, 2) + rest) == d
    ensures 0 <= d < TWO_16 ==> ReadUint16(BigEndian(d, 2) + rest) == d
  {
    Widths();
    RoundTripAt(d, rest, 2);
  }

  lemma RoundTrip32(d: int, rest: seq<byte>)
    ensures -TWO_31 <= d < TWO_31 ==> ReadInt32(BigEndian(d, 4) + rest) == d
    ensures 0 <= d < TWO_32 ==> ReadUint32(BigEndian(d, 4) + rest) == d
  {
    Widths();
    RoundTripAt(d, rest, 4);
  }

  lemma RoundTrip64(d: int, rest: seq<byte>)
    ensures -TWO_63 <= d < TWO_63 ==> ReadInt64(BigEndian(d, 8) + rest) == d
    ensures 0 <= d < TWO_64 ==> ReadUint64(BigEndian(d, 8) + rest) == d
  {
    Widths();
    RoundTripAt(d, rest, 8);
  }

  lemma RoundTripAt(d: int, rest: seq<byte>, k: nat)
    ensures (BigEndian(d, k) + rest)[..k] == BigEndian(d, k)
    ensures 0 <= d < Pow256(k) ==> Value(BigEndian(d, k)) == d
    ensures 0 - Pow256(k) <= 2 * d < Pow256(k) ==> Signed(Value(BigEndian(d, k)), k) == d
  {
    if 0 <= d < Pow256(k) {
      UnsignedRoundTrip(d, k);
    }
    if 0 - Pow256(k) <= 2 * d < Pow256(k) {
      SignedRoundTrip(d, k);
    }
  }
}
