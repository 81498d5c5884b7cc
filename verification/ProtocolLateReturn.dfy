/**
 * Where "no use after free" fails: the last line of `connect` reads the handle of a
 * connection that `connect` handed over two lines before. A run of a single connection,
 * whose connect fails at once, deletes it first.
 */
module LateReturn {
  import opened Interface
  import opened Registry
  import opened Protocol
  import opened Names
  import opened Lifetimes
  import opened LoopOrder
  import opened References
  import opened Runs
  import opened Scenes

  ghost predicate Listed(t: Table, refs: int) {
    t.conns == map[1 := 0] && t.recycles == [] && Counts(t, refs, 0)
  }

  ghost predicate Recycled(t: Table, refs: int) {
    t.conns == map[] && t.recycles == [0] && Counts(t, refs, 0)
  }

  /** `connect` has only its last line to run, and the loop has taken up the write event that says how it went. */
  ghost predicate Fetched(x: Scene, cur: Cur) {
    && x.v.dial == DialEvented(0) && x.v.loop == Handling(ReadPart, cur) && x.v.call == Idle && x.app == Idle
    && cur == Cur(Event(0, false, true), [])
    && x.v.conn.handle == 1 && x.v.conn.state == Connecting && x.v.conn.open && Listed(x.v.table, 2)
  }

  lemma Fetch() returns (q: Run, y: Scene, cur: Cur)
    ensures Reached(q, y) && IsCarefulRun(q) && Fetched(y, cur)
  {
    var r0, x0 := Dialled();
    var r1, x1 := Extend(r0, x0, ByDial(DialRegister));
    var r2, x2 := Extend(r1, x1, ByBatch(Poll([Event(0, false, true)])));
    q, y := Extend(r2, x2, ByBatch(NextEvent));
    cur := y.v.loop.cur;
  }

  /** The loop stands inside `close` of the connection, on behalf of that event. */
  ghost predicate InClose(x: Scene, cur: Cur, call: Call) {
    && x.v.dial == DialEvented(0) && x.v.loop == Closing(Target(1, 0), ThenDone(cur))
    && x.v.call == call && x.app == Idle && cur.ev.conn == 0 && cur.rest == []
  }

  lemma Fail(r: Run, x: Scene, cur: Cur) returns (q: Run, y: Scene)
    requires Reached(r, x) && IsCarefulRun(r) && Fetched(x, cur)
    ensures Reached(q, y) && IsCarefulRun(q)
    ensures InClose(y, cur, CloseStart(1)) && y.v.conn.open && Listed(y.v.table, 2)
  {
    var r1, x1 := Extend(r, x, ByRead(ReadEvent));
    q, y := Extend(r1, x1, ByConnect(WriteEvent(false)));
  }

  lemma Remove(r: Run, x: Scene, cur: Cur) returns (q: Run, y: Scene)
    requires Reached(r, x) && IsCarefulRun(r)
    requires InClose(x, cur, CloseStart(1)) && x.v.conn.open && Listed(x.v.table, 2)
    ensures Reached(q, y) && IsCarefulRun(q) && InClose(y, cur, CloseWon(1, 0)) && Recycled(y.v.table, 3)
  {
    var r1, x1 := Extend(r, x, ByClose(LOOP, CloseGet));
    var r2, x2 := Extend(r1, x1, ByClose(LOOP, CloseUnregister));
    assert x2.v.table.conns - {1} == map[];
    q, y := Extend(r2, x2, ByClose(LOOP, CloseRemove));
  }

  lemma Close(r: Run, x: Scene, cur: Cur) returns (q: Run, y: Scene)
    requires Reached(r, x) && IsCarefulRun(r) && InClose(x, cur, CloseWon(1, 0)) && Recycled(x.v.table, 3)
    ensures Reached(q, y) && IsCarefulRun(q) && InClose(y, cur, Idle) && Recycled(y.v.table, 2)
  {
    var r1, x1 := Extend(r, x, ByClose(LOOP, CloseMark));
    var r2, x2 := Extend(r1, x1, ByClose(LOOP, CloseSocket));
    q, y := Extend(r2, x2, ByClose(LOOP, CloseRelease));
  }

  /** The application has been told. */
  ghost predicate Reported(x: Scene, cur: Cur) {
    && x.v.dial == DialEvented(0) && x.v.loop == Handling(EventDone, cur) && x.v.call == Idle && x.app == Idle
    && cur.ev.conn == 0 && cur.rest == [] && Recycled(x.v.table, 2)
  }

  lemma Report(r: Run, x: Scene, cur: Cur) returns (q: Run, y: Scene)
    requires Reached(r, x) && IsCarefulRun(r) && InClose(x, cur, Idle) && Recycled(x.v.table, 2)
    ensures Reached(q, y) && IsCarefulRun(q) && Reported(y, cur)
  {
    var r1, x1 := Extend(r, x, ByReap(CloseReturned));
    q, y := Extend(r1, x1, ByReap(CloseCallback));
  }

  /** The batch is done; only the recycle list holds the connection. */
  ghost predicate Finished(x: Scene) {
    x.v.dial == DialEvented(0) && x.v.loop == Ticking && x.v.call == Idle && x.app == Idle && Recycled(x.v.table, 1)
  }

  lemma Finish(r: Run, x: Scene, cur: Cur) returns (q: Run, y: Scene)
    requires Reached(r, x) && IsCarefulRun(r) && Reported(x, cur)
    ensures Reached(q, y) && IsCarefulRun(q) && Finished(y)
  {
    var r1, x1 := Extend(r, x, ByBatch(EventRelease));
    q, y := Extend(r1, x1, ByBatch(BatchDone));
  }

  lemma Reclaim(r: Run, x: Scene) returns (q: Run, y: Scene)
    requires Reached(r, x) && IsCarefulRun(r) && Finished(x)
    ensures Reached(q, y) && IsCarefulRun(q) && y.v.dial == DialEvented(0) && Counts(y.v.table, 0, 1)
  {
    var r1, x1 := Extend(r, x, ByReap(Sweep([])));
    ReleaseAllCounts(x1.v.table.(recycles := []), x1.v.table.recycles, 0);
    q, y := Extend(r1, x1, ByReap(SweepDone));
  }

  /** The run: after it `connect` may take its last step, and reads a connection that is deleted. */
  lemma LateReturn() returns (r: Run)
    ensures IsCarefulRun(r) && WellTyped(Last(r)) && Can(Last(r), ByDial(DialReturn))
    ensures Touches(Last(r), ByDial(DialReturn), 0)
    ensures |Last(r).table.frees| == 1 && Last(r).table.frees[0] == 1
  {
    var r2, x2, cur := Fetch();
    var r3, x3 := Fail(r2, x2, cur);
    var r4, x4 := Remove(r3, x3, cur);
    var r5, x5 := Close(r4, x4, cur);
    var r6, x6 := Report(r5, x5, cur);
    var r7, x7 := Finish(r6, x6, cur);
    var x8;
    r, x8 := Reclaim(r7, x7);
    Always(r, |r.steps|);
  }

  // When the read is safe.

  /**
   * In terms of the state: the connection is still in `_conns` or `_recycles`, or the loop
   * or a thread inside a call holds it.
   */
  lemma {:induction false} ReturnIsSafeExactly(r: Run, i: nat, c: ConnId)
    requires IsCarefulRun(r) && i < |r.states| && r.states[i].dial == DialEvented(c)
    ensures var s := r.states[i];
            && c < |s.table.frees|
            && (s.table.frees[c] == 0 <==> Kept(s.table, c) || IsHeld(s, c))
  {
    Always(r, i);
    assert Balanced(r.states[i].table, c, Owners(r.states[i], c));
  }

  predicate IsHeld(s: State, c: ConnId) {
    LoopHeld(s.loop) == Some(c) || Holders(s.calls, c) != {}
  }

  /** A connection that has left both lists, and is not being dialled, never comes back to them. */
  lemma LostInView(v: View, c: ConnId, step: Step, d: ConnId)
    requires ViewAlive(v, c) && Focused(v, c, step) && Enabled(v, step) && d < |v.table.refs|
    requires !Kept(v.table, d) && DialOwns(v.dial) != Some(d)
    ensures !Kept(Effect(v, step).table, d) && DialOwns(Effect(v, step).dial) != Some(d)
  {
  }

  lemma LostInStep(s: State, step: Step, d: ConnId)
    requires Alive(s) && Can(s, step) && d < |s.cs| && !Kept(s.table, d) && DialOwns(s.dial) != Some(d)
    ensures !Kept(Do(s, step).table, d) && DialOwns(Do(s, step).dial) != Some(d)
  {
    if !step.Create? {
      AliveSeen(s, step);
      LostInView(Look(s, FocusOf(s, step), Actor(step)), FocusOf(s, step), step, d);
    }
  }

  ghost predicate IsLost(s: State, c: ConnId) {
    c < |s.cs| && !Kept(s.table, c) && DialOwns(s.dial) != Some(c)
  }

  lemma {:induction false} LostNext(r: Run, i: nat, c: ConnId)
    requires IsCarefulRun(r) && i < |r.steps| && IsLost(r.states[i], c)
    ensures IsLost(r.states[i + 1], c)
  {
    Always(r, i);
    assert Takes(r, i);
    LostInStep(r.states[i], r.steps[i], c);
    ConnsGrow(r.states[i], r.steps[i]);
  }

  lemma {:induction false} StaysLost(r: Run, m: nat, i: nat, c: ConnId)
    requires IsCarefulRun(r) && m <= i < |r.states| && IsLost(r.states[m], c)
    ensures IsLost(r.states[i], c)
    decreases i
  {
    if m < i {
      StaysLost(r, m, i - 1, c);
      LostNext(r, i - 1, c);
    }
  }

  /** Step `m` is a `clear` that takes the connection off the recycle list. */
  ghost predicate ClearedAt(r: Run, m: nat, c: ConnId) {
    && m < |r.steps| && m < |r.states|
    && r.steps[m] == ByReap(SweepDone) && c in r.states[m].table.recycles
  }

  lemma {:induction false} ClearLoses(r: Run, m: nat, c: ConnId)
    requires IsCarefulRun(r) && ClearedAt(r, m, c)
    ensures IsLost(r.states[m + 1], c)
  {
    Always(r, m);
    assert Takes(r, m);
  }

  lemma {:induction false} OnlyClearLoses(r: Run, m: nat, c: ConnId)
    requires IsCarefulRun(r) && m < |r.steps|
    requires Kept(r.states[m].table, c) && !Kept(r.states[m + 1].table, c)
    ensures ClearedAt(r, m, c)
  {
    Always(r, m);
    assert Takes(r, m);
    if r.steps[m] != ByReap(SweepDone) {
      KeptInStep(r.states[m], r.steps[m], c);
    }
  }

  /** A connection that was in the registry and no longer is has been cleared in between. */
  lemma {:induction false} LostByClear(r: Run, j: nat, i: nat, c: ConnId) returns (m: nat)
    requires IsCarefulRun(r) && j <= i < |r.states|
    requires Kept(r.states[j].table, c) && !Kept(r.states[i].table, c)
    ensures j <= m < i && ClearedAt(r, m, c)
    decreases i
  {
    if Kept(r.states[i - 1].table, c) {
      m := i - 1;
      OnlyClearLoses(r, m, c);
    } else {
      m := LostByClear(r, j, i - 1, c);
    }
  }

  /**
   * In terms of the schedule: with the connection added at step `j` and its `connect` still to
   * return at state `i`, the read meets a deleted connection if and only if a `clear` in
   * between took it off the recycle list and nobody holds it any more.
   */
  lemma {:induction false} ReturnIsLateExactly(r: Run, j: nat, i: nat, c: ConnId)
    requires IsCarefulRun(r) && j < i < |r.states|
    requires r.steps[j] == ByDial(DialAdd) && r.states[j].dial == DialReady(c) && r.states[i].dial == DialEvented(c)
    ensures c < |r.states[i].table.frees|
    ensures r.states[i].table.frees[c] == 1 <==>
              (exists m :: j < m < i && ClearedAt(r, m, c)) && !IsHeld(r.states[i], c)
  {
    ReturnIsSafeExactly(r, i, c);
    FreedAtMostOnce(r, i, c);
    AddedIsKept(r, j, c);
    if !Kept(r.states[i].table, c) {
      var m := LostByClear(r, j + 1, i, c);
    }
    if m :| j < m < i && ClearedAt(r, m, c) {
      ClearLoses(r, m, c);
      StaysLost(r, m + 1, i, c);
    }
  }

  lemma {:induction false} FreedAtMostOnce(r: Run, i: nat, c: ConnId)
    requires IsCarefulRun(r) && i < |r.states| && c < |r.states[i].table.frees|
    ensures r.states[i].table.frees[c] <= 1
  {
    Always(r, i);
    ReferenceCounts(r, i, c);
  }

  lemma {:induction false} AddedIsKept(r: Run, j: nat, c: ConnId)
    requires IsCarefulRun(r) && j < |r.steps| && r.steps[j] == ByDial(DialAdd) && r.states[j].dial == DialReady(c)
    ensures Kept(r.states[j + 1].table, c)
  {
    Always(r, j);
    assert Takes(r, j);
    assert LifeOk(r.states[j].cs[c], IsOnline(r.states[j].table.conns, c), c, r.states[j].dial);
  }
}
