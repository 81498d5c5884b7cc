/**
 * Before the handle counter wraps, a handle names one connection for ever: the creation
 * number and the handle determine each other, in the registry, in every thread that is
 * inside `close`, and in everything the event loop still has to close.
 */
module Names {
  import opened Registry
  import opened Protocol

  predicate TargetNamed(t: Target, n: nat) {
    t.c < n && t.h == t.c + 1
  }

  predicate TargetsNamed(list: seq<Target>, n: nat) {
    forall i :: 0 <= i < |list| ==> TargetNamed(list[i], n)
  }

  predicate LoopNamed(loop: Loop, n: nat) {
    (TargetOf(loop).Some? ==> TargetNamed(TargetOf(loop).value, n)) && TargetsNamed(Targets(loop), n)
  }

  predicate CallNamed(call: Call) {
    IsClose(call) ==> call.h == call.c + 1
  }

  predicate TableNamed(conns: map<int, ConnId>) {
    forall h :: h in conns ==> h == conns[h] + 1
  }

  ghost predicate Named(s: State) {
    && WellTyped(s) && s.counter == |s.cs| && TableNamed(s.table.conns) && LoopNamed(s.loop, |s.cs|)
    && (forall c: ConnId :: c < |s.cs| ==> s.cs[c].handle == c + 1)
    && (forall t :: t in s.calls ==> CallNamed(s.calls[t]))
  }

  /** `Named`, as far as a step can see it. */
  predicate ViewNamed(v: View, c: ConnId) {
    && Typed(v) && TableNamed(v.table.conns) && LoopNamed(v.loop, |v.table.refs|)
    && (c < |v.table.refs| ==> v.conn.handle == c + 1)
    && CallNamed(v.call)
  }

  predicate Focused(v: View, c: ConnId, step: Step) {
    c == Focus(v.table, v.dial, v.loop, v.call, step)
  }

  predicate Legal(step: Step, n: nat) {
    && (step.ByBatch? && step.batch.Poll? ==> EventsTyped(step.batch.evs, n))
    && (step.ByReap? && step.reap.Sweep? ==> TargetsNamed(step.reap.list, n))
  }

  // One lemma for each kind of step, then all of them together.

  lemma NamedDial(v: View, c: ConnId, step: DialStep)
    requires ViewNamed(v, c) && Focused(v, c, ByDial(step)) && CanDial(v, step) && Legal(ByDial(step), |v.table.refs|)
    ensures ViewNamed(DoDial(v, step), c) && |DoDial(v, step).table.refs| == |v.table.refs|
  {
  }

  lemma NamedSend(v: View, c: ConnId, t: Thread, step: SendStep)
    requires ViewNamed(v, c) && Focused(v, c, BySend(t, step)) && CanSend(v, t, step)
    requires Legal(BySend(t, step), |v.table.refs|)
    ensures ViewNamed(DoSend(v, t, step), c) && |DoSend(v, t, step).table.refs| == |v.table.refs|
  {
  }

  lemma NamedClose(v: View, c: ConnId, t: Thread, step: CloseStep)
    requires ViewNamed(v, c) && Focused(v, c, ByClose(t, step)) && CanClose(v, t, step)
    requires Legal(ByClose(t, step), |v.table.refs|)
    ensures ViewNamed(DoClose(v, t, step), c) && |DoClose(v, t, step).table.refs| == |v.table.refs|
  {
  }

  lemma NamedBatch(v: View, c: ConnId, step: BatchStep)
    requires ViewNamed(v, c) && Focused(v, c, ByBatch(step)) && CanBatch(v, step)
    requires Legal(ByBatch(step), |v.table.refs|)
    ensures ViewNamed(DoBatch(v, step), c) && |DoBatch(v, step).table.refs| == |v.table.refs|
  {
  }

  lemma NamedRead(v: View, c: ConnId, step: ReadStep)
    requires ViewNamed(v, c) && Focused(v, c, ByRead(step)) && CanRead(v, step) && Legal(ByRead(step), |v.table.refs|)
    ensures ViewNamed(DoRead(v, step), c) && |DoRead(v, step).table.refs| == |v.table.refs|
  {
  }

  lemma NamedConnect(v: View, c: ConnId, step: ConnectStep)
    requires ViewNamed(v, c) && Focused(v, c, ByConnect(step)) && CanConnect(v, step)
    requires Legal(ByConnect(step), |v.table.refs|)
    ensures ViewNamed(DoConnect(v, step), c) && |DoConnect(v, step).table.refs| == |v.table.refs|
  {
  }

  lemma NamedWrite(v: View, c: ConnId, step: WriteStep)
    requires ViewNamed(v, c) && Focused(v, c, ByWrite(step)) && CanWrite(v, step)
    requires Legal(ByWrite(step), |v.table.refs|)
    ensures ViewNamed(DoWrite(v, step), c) && |DoWrite(v, step).table.refs| == |v.table.refs|
  {
  }

  lemma NamedReap(v: View, c: ConnId, step: ReapStep)
    requires ViewNamed(v, c) && Focused(v, c, ByReap(step)) && CanReap(v, step) && Legal(ByReap(step), |v.table.refs|)
    ensures ViewNamed(DoReap(v, step), c) && |DoReap(v, step).table.refs| == |v.table.refs|
  {
  }

  lemma NamedEffect(v: View, c: ConnId, step: Step)
    requires ViewNamed(v, c) && Focused(v, c, step) && Enabled(v, step) && Legal(step, |v.table.refs|)
    ensures ViewNamed(Effect(v, step), c) && |Effect(v, step).table.refs| == |v.table.refs|
  {
    match step
    case Create =>
    case ByDial(x) => NamedDial(v, c, x);
    case BySend(t, x) => NamedSend(v, c, t, x);
    case ByClose(t, x) => NamedClose(v, c, t, x);
    case ByBatch(x) => NamedBatch(v, c, x);
    case ByRead(x) => NamedRead(v, c, x);
    case ByConnect(x) => NamedConnect(v, c, x);
    case ByWrite(x) => NamedWrite(v, c, x);
    case ByReap(x) => NamedReap(v, c, x);
  }

  lemma NamedPut(s: State, c: ConnId, t: Thread, v: View)
    requires Named(s) && t in s.calls && ViewNamed(v, c) && |v.table.refs| == |s.cs|
    ensures Named(Put(s, c, t, v))
  {
  }

  lemma NamedStep(s: State, step: Step)
    requires Named(s) && Can(s, step)
    ensures Named(Do(s, step))
  {
    if !step.Create? {
      var c, t := FocusOf(s, step), Actor(step);
      NamedEffect(Look(s, c, t), c, step);
      NamedPut(s, c, t, Effect(Look(s, c, t), step));
    }
  }
}
