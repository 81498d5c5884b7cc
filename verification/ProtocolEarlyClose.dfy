/**
 * What the assumption on callers is for: a `close` that finds its connection between
 * `addconn` and `add_event` leaves it registered with epoll and out of `_conns`, and the
 * loop then takes up an event of a connection that is deleted.
 */
module EarlyClose {
  import opened Registry
  import opened Protocol
  import opened Runs
  import opened Scenes

  /** The registry and the references are as they were when `connect` had added the connection. */
  ghost predicate StillAdded(x: Scene, call: Call, refs: int) {
    && x.v.dial == DialAdded(0) && x.v.loop == Polling && x.v.call == Idle && x.app == call
    && x.v.conn.handle == 1 && x.v.conn.open
    && x.v.table.conns == map[1 := 0] && x.v.table.recycles == [] && Counts(x.v.table, refs, 0)
  }

  lemma Find() returns (q: Run, y: Scene)
    ensures Reached(q, y) && StillAdded(y, CloseGot(1, 0), 2)
  {
    var r0, x0 := Dialled();
    var r1, x1 := Extend(r0, x0, ByClose(APP, CloseCall(1)));
    q, y := Extend(r1, x1, ByClose(APP, CloseGet));
  }

  /** The thread asks epoll to forget the connection, which epoll has not heard of yet. */
  lemma Unregister() returns (q: Run, y: Scene)
    ensures Reached(q, y) && StillAdded(y, CloseUnreg(1, 0), 2)
  {
    var r0, x0 := Find();
    q, y := Extend(r0, x0, ByClose(APP, CloseUnregister));
  }

  /** `connect` registers it all the same. */
  lemma Register() returns (q: Run, y: Scene)
    ensures Reached(q, y) && y.v.dial == DialEvented(0) && y.v.loop == Polling && y.v.call == Idle
    ensures y.app == CloseUnreg(1, 0) && y.v.conn.registered && y.v.conn.handle == 1
    ensures y.v.table.conns == map[1 := 0] && y.v.table.recycles == [] && Counts(y.v.table, 2, 0)
  {
    var r0, x0 := Unregister();
    q, y := Extend(r0, x0, ByDial(DialRegister));
  }

  /** Registered with epoll and out of `_conns`: the thread that took it out has yet to close it. */
  ghost predicate Overtaken(x: Scene, loop: Loop, call: Call) {
    && x.v.dial == DialEvented(0) && x.v.loop == loop && x.v.call == Idle
    && x.app == call && x.v.conn.registered && x.v.table.conns == map[]
  }

  /** The thread takes it out of `_conns`. */
  lemma Overtake() returns (q: Run, y: Scene)
    ensures Reached(q, y) && Overtaken(y, Polling, CloseWon(1, 0))
    ensures y.v.table.recycles == [0] && Counts(y.v.table, 2, 0)
  {
    var r0, x0 := Register();
    assert x0.v.table.conns - {1} == map[];
    q, y := Extend(r0, x0, ByClose(APP, CloseRemove));
  }

  /** The loop finds no event, */
  lemma NoEvent() returns (q: Run, y: Scene)
    ensures Reached(q, y) && Overtaken(y, Batch([]), CloseWon(1, 0))
    ensures y.v.table.recycles == [0] && Counts(y.v.table, 2, 0)
  {
    var r0, x0 := Overtake();
    q, y := Extend(r0, x0, ByBatch(Poll([])));
  }

  lemma EmptyBatch() returns (q: Run, y: Scene)
    ensures Reached(q, y) && Overtaken(y, Ticking, CloseWon(1, 0))
    ensures y.v.table.recycles == [0] && Counts(y.v.table, 2, 0)
  {
    var r0, x0 := NoEvent();
    q, y := Extend(r0, x0, ByBatch(BatchDone));
  }

  /** and nothing that has timed out. */
  lemma EmptySweep() returns (q: Run, y: Scene)
    ensures Reached(q, y) && Overtaken(y, Sweeping([]), CloseWon(1, 0))
    ensures y.v.table.recycles == [0] && Counts(y.v.table, 2, 0)
  {
    var r0, x0 := EmptyBatch();
    q, y := Extend(r0, x0, ByReap(Sweep([])));
  }

  /** The loop clears the recycle list; only the closing thread still holds the connection. */
  lemma ClearList() returns (q: Run, y: Scene)
    ensures Reached(q, y) && Overtaken(y, Polling, CloseWon(1, 0))
    ensures y.v.table.recycles == [] && Counts(y.v.table, 1, 0)
  {
    var r0, x0 := EmptySweep();
    ReleaseAllCounts(x0.v.table.(recycles := []), x0.v.table.recycles, 0);
    q, y := Extend(r0, x0, ByReap(SweepDone));
  }

  const BATCH: Loop := Batch([Event(0, true, false)])

  /** The loop fetches an event of the connection. */
  lemma FetchEvent() returns (q: Run, y: Scene)
    ensures Reached(q, y) && Overtaken(y, BATCH, CloseWon(1, 0))
    ensures y.v.table.recycles == [] && Counts(y.v.table, 1, 0)
  {
    var r0, x0 := ClearList();
    q, y := Extend(r0, x0, ByBatch(Poll([Event(0, true, false)])));
  }

  /** The thread closes the connection that it took out of `_conns`. */
  lemma CloseIt() returns (q: Run, y: Scene)
    ensures Reached(q, y) && Overtaken(y, BATCH, CloseMarked(1, 0))
    ensures y.v.table.recycles == [] && Counts(y.v.table, 1, 0)
  {
    var r0, x0 := FetchEvent();
    q, y := Extend(r0, x0, ByClose(APP, CloseMark));
  }

  /** Closed and out of both lists, with the event still to be handled. */
  ghost predicate Shut(x: Scene, call: Call, refs: int, frees: nat) {
    && x.v.dial == DialEvented(0) && x.v.loop == BATCH && x.v.call == Idle && x.app == call
    && x.v.table.conns == map[] && x.v.table.recycles == [] && Counts(x.v.table, refs, frees)
  }

  lemma CloseDown() returns (q: Run, y: Scene)
    ensures Reached(q, y) && Shut(y, CloseDone(1, 0), 1, 0)
  {
    var r0, x0 := CloseIt();
    q, y := Extend(r0, x0, ByClose(APP, CloseSocket));
  }

  /** And lets go of it. */
  lemma Abandon() returns (q: Run, y: Scene)
    ensures Reached(q, y) && Shut(y, Idle, 0, 1)
  {
    var r0, x0 := CloseDown();
    q, y := Extend(r0, x0, ByClose(APP, CloseRelease));
  }

  /** The run: then the loop takes up the event of the deleted connection. */
  lemma EarlyClose() returns (r: Run)
    ensures IsRun(r) && WellTyped(Last(r)) && Can(Last(r), ByBatch(NextEvent))
    ensures Touches(Last(r), ByBatch(NextEvent), 0)
    ensures |Last(r).table.frees| == 1 && Last(r).table.frees[0] == 1
    ensures !IsCarefulRun(r)
  {
    var x;
    r, x := Abandon();
    SceneCan(x, ByBatch(NextEvent));
    LastTouchIsAlive(r, ByBatch(NextEvent), 0);
  }

  /** In a careful run no step of the loop is about to take up an event of a deleted connection. */
  lemma {:induction false} LastTouchIsAlive(r: Run, step: Step, d: ConnId)
    requires r.states != [] && WellTyped(Last(r)) && Can(Last(r), step)
    requires Touches(Last(r), step, d) && !ReadsHandle(step)
    ensures IsCarefulRun(r) ==> d < |Last(r).table.frees| && Last(r).table.frees[d] == 0
  {
    if IsCarefulRun(r) {
      Always(r, |r.states| - 1);
      TouchedIsAlive(Last(r), step, d);
    }
  }
}
