/**
 * `NetWork::make_handle` (src/network.cpp): a counter that skips handles in use and wraps
 * from 2^31 - 1 to 0, but only inside the skipping loop.
 */
module Handles {

  const MAX_INT := 0x7fff_ffff

  /** How far the counter has to travel from `h` to `f`, around the cycle. */
  function Distance(h: int, f: int): int {
    if f >= h then f - h else f + MAX_INT - h
  }

  predicate Free(f: int, online: set<int>) {
    0 <= f < MAX_INT && f !in online
  }

  /** Of the free handles, `r` is the one the counter reaches first from `start`. */
  ghost predicate FirstFree(start: int, r: int, online: set<int>) {
    Free(r, online) && forall x :: 0 <= x < MAX_INT && Distance(start, x) < Distance(start, r) ==> x in online
  }

  /** Incrementing the counter would leave `int`: there is no wrap-around outside the loop. */
  predicate Overflows(h: int, online: set<int>) {
    h == MAX_INT || (h == MAX_INT - 1 && MAX_INT in online)
  }

  class HandleSource {
    var h: int

    constructor ()
      ensures h == 0
    {
      h := 0;
    }

    /**
     * The next handle, with the handles online held still. It needs some free handle to
     * stop at; `f` is one. `overflow` reports the signed increment that C++ leaves undefined.
     */
    method MakeHandle(online: set<int>, ghost f: int) returns (handle: int, overflow: bool)
      requires 0 <= h <= MAX_INT && Free(f, online)
      modifies this
      ensures overflow <==> Overflows(old(h), online)
      ensures !overflow ==> handle == h && 0 <= h <= MAX_INT && h !in online
      ensures !overflow && old(h) + 1 < MAX_INT ==> FirstFree(old(h) + 1, h, online)
      ensures !overflow && old(h) + 1 == MAX_INT ==> h == MAX_INT
      ensures !overflow && (forall x :: x in online ==> x <= old(h)) ==> handle == old(h) + 1
    {
      overflow, handle := false, 0;
      if h == MAX_INT {
        return 0, true;
      }
      h := h + 1;
      if h == MAX_INT && h in online {
        return 0, true;
      }
      ghost var start := h;
      while h in online
        invariant 0 <= h <= MAX_INT && (h == MAX_INT ==> h !in online)
        invariant start == MAX_INT ==> h == MAX_INT
        invariant start < MAX_INT ==> h < MAX_INT && Distance(start, h) <= Distance(start, f)
        invariant start < MAX_INT ==>
                    forall x :: 0 <= x < MAX_INT && Distance(start, x) < Distance(start, h) ==> x in online
        invariant h == start || start in online
        decreases Distance(h, f)
      {
        h := h + 1;
        if h >= MAX_INT {
          h := 0;
        }
      }
      handle := h;
    }
  }

  /** Before the counter has gone round, every handle in use was handed out earlier, so the next one is new. */
  lemma NextIsNew(h: int, online: set<int>)
    requires 0 <= h < MAX_INT - 1 && forall x :: x in online ==> 1 <= x <= h
    ensures Free(h + 1, online) && !Overflows(h, online)
  {
  }

  /**
   * "Always yields a usable handle" fails: the counter does not wrap on the way out, so a
   * call can return 2^31 - 1, and the call after it overflows, whatever is online then.
   */
  method RunsOut(source: HandleSource, online: set<int>, later: set<int>, ghost f: int, ghost g: int)
    returns (handle: int, overflow: bool)
    requires source.h == MAX_INT - 1 && MAX_INT !in online && Free(f, online) && Free(g, later)
    modifies source
    ensures handle == MAX_INT && overflow
  {
    var first, next;
    handle, first := source.MakeHandle(online, f);
    next, overflow := source.MakeHandle(later, g);
  }
}
