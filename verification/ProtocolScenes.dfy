/**
 * A system with a single connection, the event loop and one application thread, for runs
 * that are spelled out step by step.
 */
module Scenes {
  import opened Interface
  import opened Registry
  import opened Protocol
  import opened Runs

  const APP: Thread := 1

  /** What the loop sees, and where the application thread stands. */
  datatype Scene = Scene(v: View, app: Call)

  function Stage(x: Scene): State {
    State(x.v.table, [x.v.conn], 1, x.v.dial, map[LOOP := x.v.call, APP := x.app], x.v.loop)
  }

  function ViewOf(x: Scene, t: Thread): View {
    if t == LOOP then x.v else x.v.(call := x.app)
  }

  function Last(r: Run): State
    requires r.states != []
  {
    r.states[|r.states| - 1]
  }

  /** The run has come to this scene. */
  ghost predicate Reached(r: Run, x: Scene) {
    IsRun(r) && Last(r) == Stage(x) && |x.v.table.refs| == 1 && |x.v.table.frees| == 1
  }

  /** A step that can be taken there. */
  ghost predicate Ready(x: Scene, step: Step) {
    var v := ViewOf(x, Actor(step));
    && (Actor(step) == LOOP || Actor(step) == APP) && !step.Create?
    && Typed(x.v) && CallTyped(x.app, 1) && Enabled(v, step) && |x.v.table.refs| == 1
    && Focus(v.table, v.dial, v.loop, v.call, step) == 0
    && (step.ByBatch? && step.batch.Poll? ==> LegalBatch([v.conn], step.batch.evs))
    && (step.ByReap? && step.reap.Sweep? ==> LegalSweep(v.table.conns, [v.conn], step.reap.list))
  }

  ghost function Act(x: Scene, step: Step): Scene
    requires Ready(x, step)
  {
    var w := Effect(ViewOf(x, Actor(step)), step);
    if Actor(step) == LOOP then Scene(w, x.app) else Scene(w.(call := x.v.call), w.call)
  }

  lemma SceneCan(x: Scene, step: Step)
    requires Ready(x, step)
    ensures WellTyped(Stage(x)) && FocusOf(Stage(x), step) == 0
    ensures Look(Stage(x), 0, Actor(step)) == ViewOf(x, Actor(step))
    ensures Can(Stage(x), step)
  {
  }

  lemma SceneStep(x: Scene, step: Step)
    requires Ready(x, step)
    ensures Follows(Stage(x), step, Stage(Act(x, step)))
  {
    SceneCan(x, step);
    var w := Effect(ViewOf(x, Actor(step)), step);
    assert [x.v.conn][0 := w.conn] == [w.conn];
    assert Stage(x).calls[Actor(step) := w.call] == Stage(Act(x, step)).calls;
  }

  lemma Extend(r: Run, x: Scene, step: Step) returns (q: Run, y: Scene)
    requires Reached(r, x) && Ready(x, step) && |Act(x, step).v.table.refs| == |Act(x, step).v.table.frees| == 1
    ensures y == Act(x, step) && Reached(q, y)
    ensures IsCarefulRun(r) && CarefulView(ViewOf(x, Actor(step)), step) ==> IsCarefulRun(q)
  {
    SceneStep(x, step);
    y := Act(x, step);
    q := Run(r.states + [Stage(y)], r.steps + [step]);
    forall i | 0 <= i < |q.steps|
      ensures Takes(q, i)
    {
      if i < |r.steps| {
        assert Takes(r, i);
      }
    }
    if IsCarefulRun(r) && CarefulView(ViewOf(x, Actor(step)), step) {
      forall i | 0 <= i < |q.steps|
        ensures TakesCare(q, i)
      {
        if i < |r.steps| {
          assert TakesCare(r, i);
        }
      }
    }
  }

  /** One connection, with this count; its handle is 1. */
  ghost predicate Counts(t: Table, refs: int, frees: nat) {
    |t.refs| == |t.frees| == 1 && t.refs[0] == refs && t.frees[0] == frees
  }

  /** Created and not yet dialled. */
  lemma FirstConnection() returns (r: Run, x: Scene)
    ensures Reached(r, x) && IsCarefulRun(r)
    ensures x.v.dial == DialNew(0) && x.v.loop == Polling && x.v.call == Idle && x.app == Idle
    ensures x.v.conn == NOBODY.(handle := 1)
    ensures x.v.table.conns == map[] && x.v.table.recycles == [] && Counts(x.v.table, 1, 0)
  {
    var s := State(Table(map[], [], [], []), [], 0, NoDial, map[LOOP := Idle, APP := Idle], Polling);
    x := Scene(View(Created(s.table), DialNew(0), Polling, NOBODY.(handle := 1), Idle), Idle);
    assert Born(s) == Stage(x);
    r := Run([s, Stage(x)], [Create]);
    assert Follows(s, Create, Stage(x));
  }

  /** In `_conns`, connecting, and not yet registered. */
  ghost predicate Added(x: Scene) {
    && x.v.dial == DialAdded(0) && x.v.loop == Polling && x.v.call == Idle && x.app == Idle
    && x.v.conn.handle == 1 && x.v.conn.state == Connecting && x.v.conn.open && !x.v.conn.registered
    && x.v.table.conns == map[1 := 0] && x.v.table.recycles == [] && Counts(x.v.table, 1, 0)
  }

  lemma Dialled() returns (r: Run, x: Scene)
    ensures Reached(r, x) && IsCarefulRun(r) && Added(x)
  {
    var r0, x0 := FirstConnection();
    var r1, x1 := Extend(r0, x0, ByDial(DialStart));
    r, x := Extend(r1, x1, ByDial(DialAdd));
  }
}
