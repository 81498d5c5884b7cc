/**
 * The arithmetic of `DataBuffer::expand` and `DataBuffer::shrink` (src/databuffer.h):
 * which capacity they choose, where the pending bytes end up and how many bytes they
 * relocate. The class in DataBuffer.dfy is proved to follow these functions.
 */
module Sizing {

  const FIRST_CAPACITY := 256
  const MAX_BUFFER_SIZE := 2048
  const READ_WRITE_SIZE := 8 * 1024
  const EIGHT_MIB := 8 * 1024 * 1024
  const SIXTEEN_MIB := 16 * 1024 * 1024
  const INT_MAX := 0x7fff_ffff

  function Pow2(k: nat): (p: nat)
    ensures p >= 1
  {
    if k == 0 then 1 else 2 * Pow2(k - 1)
  }

  ghost predicate PowerOfTwo(n: nat) {
    exists k: nat :: Pow2(k) == n
  }

  /** Repeated doubling of `c` until it reaches `target`. */
  function Doubled(c: nat, target: int): (r: nat)
    requires c >= 1
    ensures r >= c && r >= target
    ensures r == c || r < 2 * target
    decreases target - c
  {
    if c >= target then c else Doubled(2 * c, target)
  }

  lemma Twice(n: nat)
    requires PowerOfTwo(n)
    ensures n >= 1 && PowerOfTwo(2 * n)
  {
    var k: nat :| Pow2(k) == n;
    assert Pow2(k + 1) == 2 * n;
  }

  lemma {:induction false} DoubledPower(c: nat, target: int)
    requires PowerOfTwo(c)
    ensures c >= 1 && PowerOfTwo(Doubled(c, target))
    decreases target - c
  {
    Twice(c);
    if c < target {
      DoubledPower(2 * c, target);
    }
  }

  lemma {:induction false} Pow2Monotone(i: nat, j: nat)
    requires i <= j
    ensures Pow2(i) <= Pow2(j)
    decreases j
  {
    if i < j {
      Pow2Monotone(i, j - 1);
    }
  }

  /** Two different powers of two are at least a factor two apart. */
  lemma PowerGap(a: nat, b: nat)
    requires PowerOfTwo(a) && PowerOfTwo(b) && a < b
    ensures 2 * a <= b
  {
    var i: nat, j: nat :| Pow2(i) == a && Pow2(j) == b;
    if j <= i {
      Pow2Monotone(j, i);
    }
    Pow2Monotone(i + 1, j);
  }

  lemma Times16(n: nat)
    requires PowerOfTwo(n)
    ensures PowerOfTwo(2 * n) && PowerOfTwo(4 * n) && PowerOfTwo(8 * n) && PowerOfTwo(16 * n)
  {
    Twice(n);
    Twice(2 * n);
    Twice(4 * n);
    Twice(8 * n);
  }

  lemma SmallPowers()
    ensures PowerOfTwo(FIRST_CAPACITY) && PowerOfTwo(MAX_BUFFER_SIZE)
  {
    assert Pow2(0) == 1;
    Times16(1);
    Times16(16);
    Times16(256);
  }

  lemma MebibytePowers()
    ensures PowerOfTwo(EIGHT_MIB) && PowerOfTwo(SIXTEEN_MIB)
  {
    SmallPowers();
    Times16(256);
    Times16(0x1000);
    Times16(0x1_0000);
    Times16(0x10_0000);
  }

  lemma GibibytePowers()
    ensures PowerOfTwo(0x1000_0000) && PowerOfTwo(0x4000_0000) && PowerOfTwo(0x8000_0000)
  {
    MebibytePowers();
    Times16(SIXTEEN_MIB);
    Times16(0x1000_0000);
  }

  /** Offsets of `_pend`, `_pdata` and `_pfree` from `_pstart`, once there is a block. */
  datatype Layout = Unallocated | Block(cap: int, data: int, free: int) {
    ghost predicate Ok() {
      Block? ==> 0 <= data <= free <= cap && cap >= FIRST_CAPACITY && PowerOfTwo(cap)
    }
    function Capacity(): int { if Block? then cap else 0 }
    function Len(): int { if Block? then free - data else 0 }
    function Room(): int { if Block? then cap - free else 0 }
    function Gap(): int { if Block? then data else 0 }
  }

  /** Neither the room behind the data nor all free bytes together are worth compacting for. */
  predicate MustGrow(l: Layout, need: nat) {
    l.Room() + l.Gap() < need || (l.Room() + l.Gap()) * 4 < l.Len()
  }

  ghost function Expanded(l: Layout, need: nat): Layout
    requires l.Ok()
  {
    if l.Unallocated? then Block(Doubled(FIRST_CAPACITY, need), 0, 0)
    else if l.Room() >= need then l
    else if MustGrow(l, need) then Block(Doubled(2 * l.cap, l.Len() + need), 0, l.Len())
    else Block(l.cap, 0, l.Len())
  }

  function ExpandMoves(l: Layout, need: nat): int {
    if l.Unallocated? || l.Room() >= need then 0 else l.Len()
  }

  predicate Shrinks(l: Layout) {
    l.Capacity() > MAX_BUFFER_SIZE && l.Len() <= MAX_BUFFER_SIZE
  }

  ghost function Shrunk(l: Layout): Layout
    requires l.Ok()
  {
    if Shrinks(l) then Block(MAX_BUFFER_SIZE, 0, l.Len()) else l
  }

  function Emptied(l: Layout): Layout {
    if l.Block? then Block(l.cap, 0, 0) else l
  }

  function Drained(l: Layout, n: nat): Layout {
    if l.Block? && n < l.Len() then Block(l.cap, l.data + n, l.free) else Emptied(l)
  }

  /** What a reader does: the data begins `n` bytes later, and nothing is rewound. */
  function Advanced(l: Layout, n: int): Layout {
    if l.Block? then Block(l.cap, l.data + n, l.free) else l
  }

  function Poured(l: Layout, n: int): Layout {
    if l.Block? then Block(l.cap, l.data, l.free + n) else l
  }

  /** No `int` computed inside `expand` exceeds its 32 bits. */
  ghost predicate ExpandFits(l: Layout, need: nat)
    requires l.Ok()
  {
    if l.Unallocated? then Doubled(FIRST_CAPACITY, need) <= INT_MAX
    else if l.Room() >= need then true
    else
      && (l.Room() + l.Gap() >= need ==> (l.Room() + l.Gap()) * 4 <= INT_MAX)
      && (MustGrow(l, need) ==> Doubled(2 * l.cap, l.Len() + need) <= INT_MAX)
  }

  /** `k * count`, counted up. */
  function Times(k: nat, count: nat): nat
    decreases count
  {
    if count == 0 then 0 else Times(k, count - 1) + k
  }

  lemma {:induction false} TimesMonotone(k: nat, i: nat, j: nat)
    requires i <= j
    ensures Times(k, i) <= Times(k, j)
    decreases j
  {
    if i < j {
      TimesMonotone(k, i, j - 1);
    }
  }

  /** `count` writes of `k` bytes each, every one preceded by its own `expand`. */
  ghost predicate WritesFit(l: Layout, k: nat, count: nat)
    requires l.Ok()
  {
    forall j: nat :: j < count ==> ExpandFits(WrittenAll(l, k, j), k)
  }

  ghost function Written(l: Layout, k: nat): (r: Layout)
    requires l.Ok()
    ensures r.Ok() && r.Len() == l.Len() + k
  {
    ExpandAmortised(l, k);
    Poured(Expanded(l, k), k)
  }

  ghost function WrittenAll(l: Layout, k: nat, count: nat): (r: Layout)
    requires l.Ok()
    ensures r.Ok() && r.Len() == l.Len() + Times(k, count)
    decreases count
  {
    if count == 0 then l else Written(WrittenAll(l, k, count - 1), k)
  }

  lemma DoubledFits(c: nat, target: int)
    requires c >= 1 && PowerOfTwo(c)
    ensures Doubled(c, target) <= INT_MAX <==> c <= 0x4000_0000 && target <= 0x4000_0000
  {
    GibibytePowers();
    DoubledPower(c, target);
    var r := Doubled(c, target);
    if r < 0x8000_0000 && r > 0x4000_0000 {
      PowerGap(0x4000_0000, r);
    }
  }

  /**
   * The guard a caller can check before calling: `expand` stays inside `int` if and only if
   * there is room already; or `flen * 4` fits wherever it is computed, and what must be
   * allocated is at most 1 GiB.
   */
  lemma ExpandFitsGuard(l: Layout, need: nat)
    requires l.Ok()
    ensures ExpandFits(l, need) <==>
            if l.Unallocated? then need <= 0x4000_0000
            else
              || l.Room() >= need
              || (&& (l.Room() + l.Gap() >= need ==> (l.Room() + l.Gap()) * 4 <= INT_MAX)
                  && (MustGrow(l, need) ==> l.cap <= 0x2000_0000 && l.Len() + need <= 0x4000_0000))
  {
    if l.Unallocated? {
      SmallPowers();
      DoubledFits(FIRST_CAPACITY, need);
    } else {
      Twice(l.cap);
      DoubledFits(2 * l.cap, l.Len() + need);
    }
  }

  /** Two inputs on which `expand` leaves `int`: a first request beyond 1 GiB, and a gap of 1 GiB. */
  lemma ExpandOverflows()
    ensures !ExpandFits(Unallocated, 0x4000_0001)
    ensures var l := Block(0x4000_0000, 0x4000_0000, 0x4000_0000); l.Ok() && !ExpandFits(l, 1)
  {
    SmallPowers();
    GibibytePowers();
    ExpandFitsGuard(Unallocated, 0x4000_0001);
    ExpandFitsGuard(Block(0x4000_0000, 0x4000_0000, 0x4000_0000), 1);
  }

  /** What relocations are still paid for: fullness beyond one half, and the gap in front. */
  function Potential(l: Layout): int {
    (if 2 * l.Len() > l.Capacity() then 2 * (2 * l.Len() - l.Capacity()) else 0) + 4 * l.Gap()
  }

  /** `expand` yields the room it was asked for and pays for every byte it relocates. */
  lemma ExpandAmortised(l: Layout, need: nat)
    requires l.Ok()
    ensures var e := Expanded(l, need);
            && e.Ok() && e.Len() == l.Len() && e.Room() >= need && e.Capacity() >= l.Capacity()
            && ExpandMoves(l, need) + Potential(e) <= Potential(l) + 4 * need
  {
    if l.Unallocated? {
      SmallPowers();
      DoubledPower(FIRST_CAPACITY, need);
    } else if l.Room() < need && MustGrow(l, need) {
      Twice(l.cap);
      DoubledPower(2 * l.cap, l.Len() + need);
    }
  }

  /** A shrink relocates at most 2048 bytes and leaves a buffer at most twice as potent. */
  lemma ShrinkAmortised(l: Layout)
    requires l.Ok()
    ensures var e := Shrunk(l);
            && e.Ok() && e.Len() == l.Len()
            && (Shrinks(l) ==> l.Len() + Potential(e) <= Potential(l) + 6144)
  {
    if Shrinks(l) {
      SmallPowers();
    }
  }

  /** What is drained pays four for each byte, which covers the gap it leaves in front. */
  lemma DrainAmortised(l: Layout, n: nat)
    requires l.Ok()
    ensures var e, taken := Drained(l, n), if n < l.Len() then n else l.Len();
            e.Ok() && e.Len() == l.Len() - taken && Potential(e) <= Potential(l) + 4 * taken
  {
  }

  lemma AdvanceAmortised(l: Layout, n: nat)
    requires l.Ok() && n <= l.Len()
    ensures var e := Advanced(l, n); e.Ok() && e.Len() == l.Len() - n && Potential(e) <= Potential(l) + 4 * n
  {
  }

  /** A power-of-two ceiling that the data and the request fit under is never crossed. */
  lemma CapacityCeiling(l: Layout, need: nat, top: nat)
    requires l.Ok() && l.Capacity() <= top && PowerOfTwo(top) && top >= FIRST_CAPACITY
    requires l.Len() + need <= top && 5 * l.Len() <= 4 * top
    ensures Expanded(l, need).Capacity() <= top
  {
    if l.Unallocated? {
      CeilingOfFirst(need, top);
    } else if l.cap == top {
      assert l.Room() >= need || !MustGrow(l, need);
    } else {
      CeilingOfTwice(l.cap, l.Len() + need, top);
    }
  }

  lemma CeilingOfFirst(need: nat, top: nat)
    requires PowerOfTwo(top) && top >= FIRST_CAPACITY && need <= top
    ensures Doubled(FIRST_CAPACITY, need) <= top
  {
    SmallPowers();
    CeilingOfDoubling(FIRST_CAPACITY, need, top);
  }

  lemma CeilingOfTwice(c: nat, target: int, top: nat)
    requires c >= 1 && PowerOfTwo(c) && PowerOfTwo(top) && c < top && target <= top
    ensures Doubled(2 * c, target) <= top
  {
    PowerGap(c, top);
    Twice(c);
    CeilingOfDoubling(2 * c, target, top);
  }

  lemma CeilingOfDoubling(c: nat, target: int, top: nat)
    requires c >= 1 && PowerOfTwo(c) && PowerOfTwo(top) && c <= top && target <= top
    ensures Doubled(c, target) <= top
  {
    DoubledPower(c, target);
    if Doubled(c, target) > top {
      PowerGap(top, Doubled(c, target));
    }
  }

  /**
   * With less than 8 MiB pending in at most 16 MiB, making room for one more 8 KiB read
   * stays within 16 MiB, and far inside `int`.
   */
  lemma ReadReservation(l: Layout)
    requires l.Ok() && l.Capacity() <= SIXTEEN_MIB && l.Len() < EIGHT_MIB
    ensures Expanded(l, READ_WRITE_SIZE).Capacity() <= SIXTEEN_MIB && ExpandFits(l, READ_WRITE_SIZE)
  {
    MebibytePowers();
    CapacityCeiling(l, READ_WRITE_SIZE, SIXTEEN_MIB);
  }

  const ROOMY_CAPACITY := 0x1000_0000
  const ROOMY_LENGTH := 0xC00_0000

  /** A buffer of at most 256 MiB whose data stays within 192 MiB never needs a larger one. */
  lemma RoomyExpand(l: Layout, need: nat)
    requires l.Ok() && l.Capacity() <= ROOMY_CAPACITY && l.Len() + need <= ROOMY_LENGTH
    ensures ExpandFits(l, need) && Expanded(l, need).Capacity() <= ROOMY_CAPACITY
  {
    GibibytePowers();
    CapacityCeiling(l, need, ROOMY_CAPACITY);
    ExpandFitsGuard(l, need);
  }

  lemma {:induction false} RoomyWrites(l: Layout, k: nat, count: nat)
    requires l.Ok() && l.Capacity() <= ROOMY_CAPACITY && l.Len() + Times(k, count) <= ROOMY_LENGTH
    ensures WritesFit(l, k, count) && WrittenAll(l, k, count).Capacity() <= ROOMY_CAPACITY
    decreases count
  {
    if count > 0 {
      RoomyWrites(l, k, count - 1);
      RoomyExpand(WrittenAll(l, k, count - 1), k);
    }
  }
}
