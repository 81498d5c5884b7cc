/**
 * The event loop and its list of work: every connection it still has to look at is in
 * `_conns` or `_recycles`, none comes up twice, and when `close` has returned to the loop,
 * the connection is out of `_conns`.
 */
module LoopOrder {
  import opened Registry
  import opened Protocol
  import opened Names
  import opened Lifetimes

  predicate Kept(table: Table, c: ConnId) {
    IsOnline(table.conns, c) || c in table.recycles
  }

  ghost predicate EventsKept(evs: seq<Event>, table: Table) {
    && (forall i :: 0 <= i < |evs| ==> Kept(table, evs[i].conn))
    && (forall i, j :: 0 <= i < j < |evs| ==> evs[i].conn != evs[j].conn)
  }

  ghost predicate TargetsKept(list: seq<Target>, table: Table) {
    && (forall i :: 0 <= i < |list| ==> Kept(table, list[i].c))
    && (forall i, j :: 0 <= i < j < |list| ==> list[i].c != list[j].c)
  }

  predicate AwaitsEvent(evs: seq<Event>, c: ConnId) {
    exists i :: 0 <= i < |evs| && evs[i].conn == c
  }

  predicate AwaitsClose(list: seq<Target>, c: ConnId) {
    exists i :: 0 <= i < |list| && list[i].c == c
  }

  ghost predicate LoopPlaced(loop: Loop, table: Table) {
    && EventsKept(Rest(loop), table) && TargetsKept(Targets(loop), table)
    && (LoopHeld(loop).Some? ==> Kept(table, LoopHeld(loop).value) && !AwaitsEvent(Rest(loop), LoopHeld(loop).value))
    && (TargetOf(loop).Some? ==>
          Kept(table, TargetOf(loop).value.c) && !AwaitsClose(Targets(loop), TargetOf(loop).value.c))
    && (TargetOf(loop).Some? && LoopHeld(loop).Some? ==> TargetOf(loop).value.c == LoopHeld(loop).value)
    && (loop.Notifying? ==> !IsOnline(table.conns, loop.target.c))
  }

  /** What the loop's own call of `close` is doing. */
  predicate LoopCalls(loop: Loop, call: Call, conns: map<int, ConnId>) {
    if loop.Closing? then
      || (call.Idle? && !IsOnline(conns, loop.target.c))
      || call == CloseStart(loop.target.h)
      || (IsClose(call) && call.c == loop.target.c)
    else call.Idle?
  }

  ghost predicate Ordered(s: State) {
    Alive(s) && LoopPlaced(s.loop, s.table) && LoopCalls(s.loop, s.calls[LOOP], s.table.conns)
  }

  ghost predicate ViewOrdered(v: View, t: Thread) {
    LoopPlaced(v.loop, v.table) && (t == LOOP ==> LoopCalls(v.loop, v.call, v.table.conns))
  }

  /** What the loop may be told to do next. */
  ghost predicate LegalWork(step: Step, table: Table) {
    && (step.ByBatch? && step.batch.Poll? ==> EventsKept(step.batch.evs, table))
    && (step.ByReap? && step.reap.Sweep? ==> TargetsKept(step.reap.list, table))
  }

  lemma NextTarget(list: seq<Target>, table: Table)
    requires TargetsKept(list, table) && |list| > 0
    ensures TargetsKept(list[1..], table) && Kept(table, list[0].c) && !AwaitsClose(list[1..], list[0].c)
  {
    forall i | 0 <= i < |list[1..]|
      ensures Kept(table, list[1..][i].c) && list[1..][i].c != list[0].c
    {
      assert list[1..][i] == list[i + 1];
    }
  }

  lemma NextEventKept(evs: seq<Event>, table: Table)
    requires EventsKept(evs, table) && |evs| > 0
    ensures EventsKept(evs[1..], table) && Kept(table, evs[0].conn) && !AwaitsEvent(evs[1..], evs[0].conn)
  {
    forall i | 0 <= i < |evs[1..]|
      ensures Kept(table, evs[1..][i].conn) && evs[1..][i].conn != evs[0].conn
    {
      assert evs[1..][i] == evs[i + 1];
    }
  }

  /** `removeconn` moves a connection from one place where the loop may find it to the other. */
  lemma KeptAfterRemove(table: Table, h: int, loop: Loop)
    requires table.Shaped() && TableNamed(table.conns) && LoopPlaced(loop, table)
    ensures LoopPlaced(loop, RemoveConn(table, h))
  {
    assert forall c: ConnId :: Kept(table, c) ==> Kept(RemoveConn(table, h), c);
  }

  // One lemma for each kind of step, then all of them together.

  lemma OrderedDial(v: View, c: ConnId, step: DialStep)
    requires ViewAlive(v, c) && Focused(v, c, ByDial(step)) && CanDial(v, step) && ViewOrdered(v, Actor(ByDial(step)))
    ensures ViewOrdered(DoDial(v, step), Actor(ByDial(step)))
  {
  }

  lemma OrderedSend(v: View, c: ConnId, t: Thread, step: SendStep)
    requires ViewAlive(v, c) && Focused(v, c, BySend(t, step)) && CanSend(v, t, step)
    requires ViewOrdered(v, Actor(BySend(t, step)))
    ensures ViewOrdered(DoSend(v, t, step), Actor(BySend(t, step)))
  {
  }

  lemma OrderedClose(v: View, c: ConnId, t: Thread, step: CloseStep)
    requires ViewAlive(v, c) && Focused(v, c, ByClose(t, step)) && CanClose(v, t, step)
    requires ViewOrdered(v, Actor(ByClose(t, step)))
    ensures ViewOrdered(DoClose(v, t, step), Actor(ByClose(t, step)))
  {
    if step.CloseRemove? {
      KeptAfterRemove(v.table, v.call.h, v.loop);
    }
  }

  lemma OrderedBatch(v: View, step: BatchStep)
    requires Typed(v) && CanBatch(v, step) && ViewOrdered(v, LOOP) && LegalWork(ByBatch(step), v.table)
    ensures ViewOrdered(DoBatch(v, step), LOOP)
  {
    match step
    case Poll(_) =>
    case NextEvent => NextEventKept(v.loop.evs, v.table);
    case EventRelease =>
    case BatchDone =>
    case Stop =>
  }

  lemma OrderedRead(v: View, step: ReadStep)
    requires Typed(v) && CanRead(v, step) && ViewOrdered(v, LOOP) && LegalWork(ByRead(step), v.table)
    ensures ViewOrdered(DoRead(v, step), LOOP)
  {
  }

  lemma OrderedConnect(v: View, step: ConnectStep)
    requires Typed(v) && CanConnect(v, step) && ViewOrdered(v, LOOP) && LegalWork(ByConnect(step), v.table)
    ensures ViewOrdered(DoConnect(v, step), LOOP)
  {
  }

  lemma OrderedWrite(v: View, step: WriteStep)
    requires Typed(v) && CanWrite(v, step) && ViewOrdered(v, LOOP) && LegalWork(ByWrite(step), v.table)
    ensures ViewOrdered(DoWrite(v, step), LOOP)
  {
  }

  lemma OrderedReap(v: View, step: ReapStep)
    requires Typed(v) && CanReap(v, step) && ViewOrdered(v, LOOP) && LegalWork(ByReap(step), v.table)
    ensures ViewOrdered(DoReap(v, step), LOOP)
  {
    match step
    case CloseReturned =>
    case CloseCallback =>
    case SkipTick =>
    case Sweep(_) =>
    case SweepNext => NextTarget(v.loop.list, v.table);
    case SweepDone =>
  }

  lemma OrderedEffect(v: View, c: ConnId, step: Step)
    requires ViewAlive(v, c) && Focused(v, c, step) && Enabled(v, step) && Legal(step, |v.table.refs|)
    requires ViewOrdered(v, Actor(step)) && LegalWork(step, v.table)
    ensures ViewOrdered(Effect(v, step), Actor(step))
  {
    match step
    case Create =>
    case ByDial(x) => OrderedDial(v, c, x);
    case BySend(t, x) => OrderedSend(v, c, t, x);
    case ByClose(t, x) => OrderedClose(v, c, t, x);
    case ByBatch(x) => OrderedBatch(v, x);
    case ByRead(x) => OrderedRead(v, x);
    case ByConnect(x) => OrderedConnect(v, x);
    case ByWrite(x) => OrderedWrite(v, x);
    case ByReap(x) => OrderedReap(v, x);
  }

  /** A batch and a timeout list name connections that are in `_conns`. */
  lemma LegalWorkSeen(s: State, step: Step)
    requires Alive(s) && Can(s, step)
    ensures LegalWork(step, s.table)
  {
  }

  lemma OrderedAct(s: State, step: Step)
    requires Ordered(s) && Can(s, step) && !step.Create?
    ensures ViewOrdered(Effect(Look(s, FocusOf(s, step), Actor(step)), step), Actor(step))
  {
    AliveSeen(s, step);
    LegalWorkSeen(s, step);
    OrderedEffect(Look(s, FocusOf(s, step), Actor(step)), FocusOf(s, step), step);
  }

  /** Application threads inside a call never add to `_conns`. */
  lemma OffLoop(v: View, step: Step)
    requires Typed(v) && Enabled(v, step) && (step.BySend? || step.ByClose?)
    ensures Effect(v, step).loop == v.loop
    ensures forall h :: h in Effect(v, step).table.conns ==> h in v.table.conns
  {
  }

  /** A step of another thread leaves the loop's call where it is. */
  lemma LoopCallsKept(s: State, step: Step)
    requires Ordered(s) && Can(s, step) && !step.Create? && Actor(step) != LOOP
    ensures Do(s, step).loop == s.loop
    ensures LoopCalls(s.loop, s.calls[LOOP], Do(s, step).table.conns)
  {
    AliveSeen(s, step);
    OffLoop(Look(s, FocusOf(s, step), Actor(step)), step);
  }

  lemma OrderedStep(s: State, step: Step)
    requires Ordered(s) && Can(s, step) && Careful(s, step)
    ensures Ordered(Do(s, step))
  {
    AliveStep(s, step);
    if !step.Create? {
      OrderedAct(s, step);
      if Actor(step) != LOOP {
        LoopCallsKept(s, step);
      }
    }
  }

  lemma OrderedInit(s: State)
    requires Init(s)
    ensures Ordered(s)
  {
    AliveInit(s);
  }
}
