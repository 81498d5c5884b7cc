/**
 * The ICMP checksum of src/ping.cpp (`get_check_sum`) and its use in `pack_icmp`: one's
 * complement arithmetic as RFC 792 (Echo or Echo Reply Message) and RFC 1071 (sections 1
 * and 2) demand it. The host's byte order is a parameter.
 */
module Checksum {
  import opened Codec

  datatype Order = Little | Big

  const MOD: nat := 65535
  const MAX_PACKET: nat := 65536
  const ICMP_ECHO: byte := 8
  const SEND_LEN: nat := 64
  const CKSUM_AT: nat := 2
  const ID_AT: nat := 4
  const SEQ_AT: nat := 6
  const DATA_AT: nat := 8

  type word = n: nat | n < 65536

  /** The 16-bit word that two bytes of memory make. */
  function Word(order: Order, b0: byte, b1: byte): word {
    if order.Little? then b0 + 256 * b1 else 256 * b0 + b1
  }

  /** The two bytes of memory that hold a 16-bit word. */
  function Encode(order: Order, n: word): (bs: seq<byte>)
    ensures |bs| == 2 && Word(order, bs[0], bs[1]) == n
  {
    if order.Little? then [n % 256, n / 256] else [n / 256, n % 256]
  }

  // One's complement arithmetic.

  /** One's complement addition: the carry comes back in at the low end. */
  function OnesPlus(a: word, b: word): word {
    if a + b < 65536 then a + b else a + b - 65535
  }

  /** RFC 1071, section 1: the one's complement sum of the 16-bit words, an odd last byte padded with zero. */
  function OnesSum(order: Order, s: seq<byte>): word
    decreases |s|
  {
    if |s| == 0 then 0
    else if |s| == 1 then Word(order, s[0], 0)
    else OnesPlus(Word(order, s[0], s[1]), OnesSum(order, s[2..]))
  }

  /** The ordinary sum of the same words. */
  function WordSum(order: Order, s: seq<byte>): (n: nat)
    ensures 2 * n <= 65535 * (|s| + 1)
    decreases |s|
  {
    if |s| == 0 then 0
    else if |s| == 1 then Word(order, s[0], 0)
    else Word(order, s[0], s[1]) + WordSum(order, s[2..])
  }

  /** The one word between 1 and 65535 that is congruent to `n`, or 0 for 0. */
  function Canonical(n: nat): (r: word)
    ensures r == 0 <==> n == 0
    ensures r % MOD == n % MOD
  {
    if n == 0 then 0 else (n - 1) % MOD + 1
  }

  lemma CanonicalUnique(n: nat, r: word)
    requires r % MOD == n % MOD && (r == 0 <==> n == 0)
    ensures Canonical(n) == r
  {
  }

  lemma CongruentSum(w: nat, n: nat, r: nat)
    requires n % MOD == r % MOD
    ensures (w + n) % MOD == (w + r) % MOD
  {
  }

  lemma OnesPlusIsCanonical(w: word, n: nat)
    ensures Canonical(w + n) == OnesPlus(w, Canonical(n))
  {
    CongruentSum(w, n, Canonical(n));
    assert OnesPlus(w, Canonical(n)) % MOD == (w + Canonical(n)) % MOD;
    CanonicalUnique(w + n, OnesPlus(w, Canonical(n)));
  }

  /** Adding first and folding later is one's complement addition. */
  lemma {:induction false} SumIsOnesSum(order: Order, s: seq<byte>)
    ensures Canonical(WordSum(order, s)) == OnesSum(order, s)
    decreases |s|
  {
    if |s| >= 2 {
      SumIsOnesSum(order, s[2..]);
      OnesPlusIsCanonical(Word(order, s[0], s[1]), WordSum(order, s[2..]));
    } else if |s| == 1 {
      CanonicalUnique(WordSum(order, s), Word(order, s[0], 0));
    }
  }

  /** What the source does with the sum: high half plus low half, and the carry of that once more. */
  function Folded(sum: nat): nat {
    var once := sum / 65536 + sum % 65536;
    once + once / 65536
  }

  lemma FoldIsCongruent(sum: nat)
    ensures (sum / 65536 + sum % 65536) % MOD == sum % MOD
  {
    assert sum == 65535 * (sum / 65536) + (sum / 65536 + sum % 65536);
  }

  /** As long as the sum is an `int`, two folds suffice. */
  lemma TwoFoldsSuffice(sum: nat)
    requires sum < TWO_31
    ensures Folded(sum) % 65536 == Canonical(sum)
  {
    var once := sum / 65536 + sum % 65536;
    FoldIsCongruent(sum);
    assert once < 2 * 65535;
    CanonicalUnique(sum, Folded(sum) % 65536);
  }

  /** The checksum: the complement of the one's complement sum. */
  function CheckSum(order: Order, s: seq<byte>): word {
    65535 - OnesSum(order, s)
  }

  /** `get_check_sum` of the first `len` bytes. No partial sum leaves `int`. */
  method GetCheckSum(order: Order, addr: array<byte>, len: nat) returns (answer: word)
    requires len <= addr.Length && len <= MAX_PACKET
    ensures answer == CheckSum(order, addr[..len])
  {
    ghost var s := addr[..len];
    SumIsInt(order, s);
    var left, sum, w := len, 0, 0;
    while left > 1
      invariant w + left == len && sum + WordSum(order, s[w..]) == WordSum(order, s)
    {
      NextWord(order, s, w);
      sum := sum + Word(order, addr[w], addr[w + 1]);
      w := w + 2;
      left := left - 2;
    }
    if left == 1 {
      sum := sum + Word(order, addr[w], 0);
    }
    SumIsOnesSum(order, s);
    answer := Complement(sum);
  }

  /** The last three lines: fold twice, then complement the low 16 bits. */
  method Complement(total: nat) returns (answer: word)
    requires total < TWO_31
    ensures answer == 65535 - Canonical(total)
  {
    var sum := total;
    TwoFoldsSuffice(sum);
    sum := sum / 65536 + sum % 65536;
    sum := sum + sum / 65536;
    answer := 65535 - sum % 65536;
  }

  lemma NextWord(order: Order, s: seq<byte>, w: nat)
    requires w + 1 < |s|
    ensures WordSum(order, s[w..]) == Word(order, s[w], s[w + 1]) + WordSum(order, s[w + 2..])
  {
    assert s[w..][2..] == s[w + 2..];
  }

  /** No partial sum of the words leaves `int`. */
  lemma SumIsInt(order: Order, s: seq<byte>)
    requires |s| <= MAX_PACKET
    ensures WordSum(order, s) < TWO_31
  {
    if |s| % 2 == 1 {
      assert |s| + 1 <= 65536;
    }
  }

  // The receiver's check.

  function Inserted(s: seq<byte>, at: nat, bs: seq<byte>): (r: seq<byte>)
    requires |bs| == 2 && at + 1 < |s|
    ensures |r| == |s|
  {
    s[at := bs[0]][at + 1 := bs[1]]
  }

  lemma {:induction false} InsertedSum(order: Order, s: seq<byte>, at: nat, n: word)
    requires at % 2 == 0 && at + 1 < |s| && s[at] == s[at + 1] == 0
    ensures WordSum(order, Inserted(s, at, Encode(order, n))) == WordSum(order, s) + n
    decreases at
  {
    var r := Inserted(s, at, Encode(order, n));
    if at == 0 {
      assert r[2..] == s[2..];
    } else {
      InsertedSum(order, s[2..], at - 2, n);
      assert r[2..] == Inserted(s[2..], at - 2, Encode(order, n));
    }
  }

  /**
   * Whatever number is put into the zeroed, aligned field: the second check gives 0 exactly
   * if that number is the checksum, or the other representation of zero.
   */
  lemma {:induction false} SecondCheckIsZero(order: Order, s: seq<byte>, at: nat, n: word)
    requires at % 2 == 0 && at + 1 < |s| && s[at] == s[at + 1] == 0
    ensures CheckSum(order, Inserted(s, at, Encode(order, n))) == 0 <==>
              n == CheckSum(order, s) || (n == 65535 && CheckSum(order, s) == 0)
  {
    InsertedSum(order, s, at, n);
    SumIsOnesSum(order, s);
    SumIsOnesSum(order, Inserted(s, at, Encode(order, n)));
    OnesPlusIsCanonical(n, WordSum(order, s));
  }

  // Byte order.

  function Swapped(n: word): word {
    n % 256 * 256 + n / 256
  }

  lemma BytesOf(n: word, hi: nat, lo: nat)
    requires n == 256 * hi + lo && lo < 256
    ensures n / 256 == hi && n % 256 == lo && Swapped(n) == 256 * lo + hi
  {
  }

  lemma SwapOfWord(b0: byte, b1: byte)
    ensures Word(Big, b0, b1) == Swapped(Word(Little, b0, b1))
  {
    BytesOf(Word(Little, b0, b1), b1, b0);
  }

  /** End-around carry does not care which byte comes first. */
  lemma SwapOfPlus(a1: byte, a0: byte, b1: byte, b0: byte)
    ensures Swapped(OnesPlus(256 * a1 + a0, 256 * b1 + b0)) == OnesPlus(256 * a0 + a1, 256 * b0 + b1)
  {
    var hi, lo := a1 + b1, a0 + b0;
    var p := OnesPlus(256 * a1 + a0, 256 * b1 + b0);
    var carry := if 256 * hi + lo < 65536 then 0 else 1;
    var low := lo + carry;
    if low < 256 {
      BytesOf(p, hi - 256 * carry, low);
    } else {
      BytesOf(p, hi + 1 - 256 * carry, low - 256);
    }
  }

  /** RFC 1071, section 2(B), for every length: the two hosts compute byte-swapped numbers ... */
  lemma {:induction false} ByteOrderSwaps(s: seq<byte>)
    ensures OnesSum(Big, s) == Swapped(OnesSum(Little, s))
    decreases |s|
  {
    if |s| >= 2 {
      ByteOrderSwaps(s[2..]);
      SwapOfWord(s[0], s[1]);
      SwapOfSum(Word(Little, s[0], s[1]), OnesSum(Little, s[2..]));
    } else if |s| == 1 {
      SwapOfWord(s[0], 0);
    }
  }

  lemma SwapOfSum(a: word, b: word)
    ensures Swapped(OnesPlus(a, b)) == OnesPlus(Swapped(a), Swapped(b))
  {
    SwapOfPlus(a / 256, a % 256, b / 256, b % 256);
  }

  /** ... so the two bytes they write are the same. */
  lemma {:induction false} ByteOrderIndependent(s: seq<byte>)
    ensures Encode(Big, CheckSum(Big, s)) == Encode(Little, CheckSum(Little, s))
  {
    ByteOrderSwaps(s);
    var n := OnesSum(Little, s);
    assert (65535 - n) / 256 == 255 - n / 256 && (65535 - n) % 256 == 255 - n % 256;
  }

  // pack_icmp

  /** Stores a 16-bit field. */
  method Store(order: Order, buf: array<byte>, at: nat, n: word)
    requires at + 1 < buf.Length
    modifies buf
    ensures buf[..] == Inserted(old(buf[..]), at, Encode(order, n))
  {
    var bs := Encode(order, n);
    buf[at] := bs[0];
    buf[at + 1] := bs[1];
  }

  /** The packet before its checksum: header fields, then `gettimeofday`'s value in the data. */
  function Unsummed(order: Order, was: seq<byte>, packNo: int, pid: int, time: seq<byte>): seq<byte>
    requires |was| >= DATA_AT + |time|
  {
    [ICMP_ECHO, 0, 0, 0] + Encode(order, pid % 65536) + Encode(order, packNo % 65536) + time + was[DATA_AT + |time|..]
  }

  /**
   * `pack_icmp` in place: an echo request with the process id and the packet number
   * (both truncated to 16 bits), whose first 64 bytes pass the receiver's check.
   */
  method PackIcmp(order: Order, packNo: int, pid: int, time: seq<byte>, icmp: array<byte>) returns (packsize: nat)
    requires icmp.Length >= SEND_LEN && DATA_AT + |time| <= SEND_LEN
    modifies icmp
    ensures packsize == SEND_LEN
    ensures var plain := Unsummed(order, old(icmp[..]), packNo, pid, time);
            icmp[..] == Inserted(plain, CKSUM_AT, Encode(order, CheckSum(order, plain[..SEND_LEN])))
    ensures CheckSum(order, icmp[..SEND_LEN]) == 0
  {
    FillIn(order, packNo, pid, time, icmp);
    packsize := SEND_LEN;
    ghost var plain := icmp[..];
    var sum := GetCheckSum(order, icmp, packsize);
    Store(order, icmp, CKSUM_AT, sum);
    InsertedPrefix(plain, CKSUM_AT, Encode(order, sum), SEND_LEN);
    SecondCheckIsZero(order, plain[..SEND_LEN], CKSUM_AT, sum);
  }

  /** Everything but the checksum. */
  method FillIn(order: Order, packNo: int, pid: int, time: seq<byte>, icmp: array<byte>)
    requires icmp.Length >= SEND_LEN && DATA_AT + |time| <= SEND_LEN
    modifies icmp
    ensures icmp[..] == Unsummed(order, old(icmp[..]), packNo, pid, time)
  {
    icmp[0] := ICMP_ECHO;
    icmp[1] := 0;
    Store(order, icmp, CKSUM_AT, 0);
    Store(order, icmp, SEQ_AT, packNo % 65536);
    Store(order, icmp, ID_AT, pid % 65536);
    forall i | 0 <= i < |time| {
      icmp[DATA_AT + i] := time[i];
    }
  }

  lemma InsertedPrefix(s: seq<byte>, at: nat, bs: seq<byte>, len: nat)
    requires |bs| == 2 && at + 1 < len <= |s|
    ensures Inserted(s, at, bs)[..len] == Inserted(s[..len], at, bs)
  {
  }
}
