/**
 * The order of the steps: what each thread does next, told from what its last step found.
 * `connect`, `send`, `getStatus` and `close` run to their end on the connection they found;
 * the loop serves every event it fetched, once and in order, and closes every connection
 * whose time is up.
 */
module Order {
  import opened Interface
  import opened Registry
  import opened Protocol
  import opened Names
  import opened Lifetimes
  import opened LoopOrder
  import opened Runs
  import opened History

  /** `connect` is one program, the event loop with its own `close` another, each caller's thread one more. */
  datatype Program = Dialer | EventLoop | Caller(t: Thread)

  function ProgramOf(step: Step): Program {
    match step
    case Create => Dialer
    case ByDial(_) => Dialer
    case BySend(t, _) => if t == LOOP then EventLoop else Caller(t)
    case ByClose(t, _) => if t == LOOP then EventLoop else Caller(t)
    case _ => EventLoop
  }

  // What may come next in the same program, step by step. `v` is what the earlier step saw.

  predicate AfterDial(v: View, step: DialStep, next: Step) {
    match step
    case DialFail => next.Create?
    case DialStart => next == ByDial(DialAdd)
    case DialAdd => if v.conn.handle in v.table.conns then next.Create? else next == ByDial(DialRegister)
    case DialRegister => next == ByDial(DialReturn)
    case DialReturn => next.Create?
  }

  /** The application calls `send`, `getStatus` or `close`. */
  predicate Begins(next: Step) {
    || (next.BySend? && (next.send.SendGet? || next.send.StatusGet?))
    || (next.ByClose? && next.close.CloseCall?)
  }

  predicate AfterSend(v: View, t: Thread, step: SendStep, next: Step) {
    match step
    case SendGet(h, _) => if h in v.table.conns then next == BySend(t, SendLock) else Begins(next)
    case SendLock => next == BySend(t, SendQueue)
    case SendQueue => next == BySend(t, if v.conn.state == Connected then SendStore else SendUnlock)
    case SendStore => next == BySend(t, SendNotify)
    case SendNotify => next == BySend(t, SendUnlock)
    case SendUnlock => next == BySend(t, ReleaseCall)
    case StatusGet(h) => if h in v.table.conns then next == BySend(t, StatusRead) else Begins(next)
    case StatusRead => next == BySend(t, ReleaseCall)
    case ReleaseCall => Begins(next)
  }

  /** `close` returns: to the loop, or to the application. */
  predicate Returns(t: Thread, next: Step) {
    if t == LOOP then next == ByReap(CloseReturned) else Begins(next)
  }

  predicate AfterClose(v: View, t: Thread, step: CloseStep, next: Step) {
    match step
    case CloseCall(_) => next == ByClose(t, CloseGet)
    case CloseGet =>
      if v.call.CloseStart? && v.call.h in v.table.conns then next == ByClose(t, CloseUnregister) else Returns(t, next)
    case CloseUnregister => next == ByClose(t, CloseRemove)
    case CloseRemove =>
      next == ByClose(t, if Held(v.call).Some? && IsOnline(v.table.conns, Held(v.call).value)
                         then CloseMark else CloseRelease)
    case CloseMark => next == ByClose(t, CloseSocket)
    case CloseSocket => next == ByClose(t, CloseRelease)
    case CloseRelease => Returns(t, next)
  }

  predicate PollsOrStops(next: Step) {
    next.ByBatch? && (next.batch.Poll? || next.batch.Stop?)
  }

  predicate AfterBatch(v: View, step: BatchStep, next: Step) {
    match step
    case Poll(evs) => next == ByBatch(if evs == [] then BatchDone else NextEvent)
    case NextEvent => next == ByRead(ReadEvent)
    case EventRelease => next == ByBatch(if Rest(v.loop) == [] then BatchDone else NextEvent)
    case BatchDone => next.ByReap? && (next.reap.SkipTick? || next.reap.Sweep?)
    case Stop => false
  }

  /** The event in hand. */
  function Handled(loop: Loop): Event {
    if Current(loop).Some? then Current(loop).value.ev else Event(0, false, false)
  }

  predicate Writes(next: Step) {
    next.ByConnect? && next.connect.WriteEvent?
  }

  predicate AfterRead(v: View, step: ReadStep, next: Step) {
    match step
    case ReadEvent =>
      if Handled(v.loop).read && SomeConnected(v.conn.state)
      then next.ByRead? && !next.read.ReadEvent? else Writes(next)
    case ReadPdu => next.ByRead? && !next.read.ReadEvent?
    case ReadOk => Writes(next)
    case ReadFail => next == ByClose(LOOP, CloseGet)
  }

  predicate AfterConnect(v: View, step: ConnectStep, next: Step) {
    match step
    case WriteEvent(connected) =>
      if !Handled(v.loop).write then next == ByBatch(EventRelease)
      else if v.conn.state == Connecting then
        next == if connected then ByConnect(SetConnected) else ByClose(LOOP, CloseGet)
      else next == if SomeConnected(v.conn.state) then ByWrite(WriteLock) else ByBatch(EventRelease)
    case SetConnected => next == ByConnect(ConnectCallback)
    case ConnectCallback => next == ByBatch(EventRelease)
  }

  predicate AfterWrite(v: View, step: WriteStep, next: Step) {
    match step
    case WriteLock => next.ByWrite? && next.write.WriteSome?
    case WriteSome(_, _) => next == ByWrite(WriteDrain)
    case WriteDrain => next == ByWrite(WriteNotify)
    case WriteNotify => next == ByWrite(WriteUnlock)
    case WriteUnlock => next == ByBatch(EventRelease)
  }

  predicate AfterReap(v: View, step: ReapStep, next: Step) {
    match step
    case CloseReturned => next == ByReap(CloseCallback)
    case CloseCallback =>
      if LoopHeld(v.loop).None? then next == ByReap(if Targets(v.loop) == [] then SweepDone else SweepNext)
      else Writes(next) || next == ByBatch(EventRelease)
    case SkipTick => PollsOrStops(next)
    case Sweep(list) => next == ByReap(if list == [] then SweepDone else SweepNext)
    case SweepNext => next == ByClose(LOOP, CloseGet)
    case SweepDone => PollsOrStops(next)
  }

  predicate Succeeds(v: View, step: Step, next: Step) {
    match step
    case Create => next == ByDial(DialFail) || next == ByDial(DialStart)
    case ByDial(x) => AfterDial(v, x, next)
    case BySend(t, x) => AfterSend(v, t, x, next)
    case ByClose(t, x) => AfterClose(v, t, x, next)
    case ByBatch(x) => AfterBatch(v, x, next)
    case ByRead(x) => AfterRead(v, x, next)
    case ByConnect(x) => AfterConnect(v, x, next)
    case ByWrite(x) => AfterWrite(v, x, next)
    case ByReap(x) => AfterReap(v, x, next)
  }

  /** The connection that the program is bound to by a step: the one it found, or the one it worked on. */
  function BoundTo(v: View, step: Step): Option<ConnId> {
    match step
    case Create => Some(|v.table.refs|)
    case BySend(_, SendGet(h, _)) => Lookup(v.table, h)
    case BySend(_, StatusGet(h)) => Lookup(v.table, h)
    case ByClose(_, CloseGet) => if v.call.CloseStart? then Lookup(v.table, v.call.h) else None
    case ByBatch(NextEvent) => if Rest(v.loop) == [] then None else Some(Rest(v.loop)[0].conn)
    case _ => SubjectOf(v.dial, v.loop, v.call, step)
  }

  function Lookup(t: Table, h: int): Option<ConnId> {
    if h in t.conns then Some(t.conns[h]) else None
  }

  /** Both steps are about the same connection, if each is about one. */
  predicate Sticks(v: View, step: Step, u: View, next: Step) {
    var a, b := BoundTo(v, step), SubjectOf(u.dial, u.loop, u.call, next);
    a.Some? && b.Some? ==> a == b
  }

  /** The places that decide what a program does next are as they were left. */
  predicate SamePlace(p: Program, w: View, u: View) {
    match p
    case Dialer => u.dial == w.dial
    case EventLoop => u.loop == w.loop && u.call == w.call
    case Caller(_) => u.call == w.call
  }

  /** The loop's own call is a `close`, and only while the loop waits for it. */
  predicate LoopCallOk(v: View, p: Program) {
    p == EventLoop ==> LoopCalls(v.loop, v.call, v.table.conns)
  }

  // One lemma for each kind of step, then all of them together.

  lemma SucceedDial(v: View, step: DialStep, u: View, next: Step)
    requires Typed(v) && CanDial(v, step) && SamePlace(Dialer, DoDial(v, step), u)
    requires Enabled(u, next) && ProgramOf(next) == Dialer
    ensures AfterDial(v, step, next)
    ensures Sticks(v, ByDial(step), u, next)
  {
  }

  lemma SucceedSend(v: View, t: Thread, step: SendStep, u: View, next: Step)
    requires Typed(v) && CanSend(v, t, step) && t != LOOP && SamePlace(Caller(t), DoSend(v, t, step), u)
    requires Enabled(u, next) && ProgramOf(next) == Caller(t)
    ensures AfterSend(v, t, step, next)
    ensures Sticks(v, BySend(t, step), u, next)
  {
  }

  lemma SucceedClose(v: View, t: Thread, step: CloseStep, u: View, next: Step)
    requires Typed(v) && CallNamed(v.call) && CanClose(v, t, step)
    requires LoopCallOk(v, ProgramOf(ByClose(t, step)))
    requires SamePlace(ProgramOf(ByClose(t, step)), DoClose(v, t, step), u)
    requires Enabled(u, next) && ProgramOf(next) == ProgramOf(ByClose(t, step))
    ensures AfterClose(v, t, step, next)
    ensures Sticks(v, ByClose(t, step), u, next)
  {
  }

  lemma SucceedBatch(v: View, step: BatchStep, u: View, next: Step)
    requires Typed(v) && CanBatch(v, step) && LoopCallOk(v, EventLoop) && SamePlace(EventLoop, DoBatch(v, step), u)
    requires Enabled(u, next) && ProgramOf(next) == EventLoop
    ensures AfterBatch(v, step, next)
    ensures Sticks(v, ByBatch(step), u, next)
  {
  }

  lemma SucceedRead(v: View, step: ReadStep, u: View, next: Step)
    requires Typed(v) && CanRead(v, step) && LoopCallOk(v, EventLoop) && SamePlace(EventLoop, DoRead(v, step), u)
    requires Enabled(u, next) && ProgramOf(next) == EventLoop
    ensures AfterRead(v, step, next)
    ensures Sticks(v, ByRead(step), u, next)
  {
  }

  lemma SucceedConnect(v: View, step: ConnectStep, u: View, next: Step)
    requires Typed(v) && CanConnect(v, step) && LoopCallOk(v, EventLoop)
    requires SamePlace(EventLoop, DoConnect(v, step), u)
    requires Enabled(u, next) && ProgramOf(next) == EventLoop
    ensures AfterConnect(v, step, next)
    ensures Sticks(v, ByConnect(step), u, next)
  {
  }

  lemma SucceedWrite(v: View, step: WriteStep, u: View, next: Step)
    requires Typed(v) && CanWrite(v, step) && LoopCallOk(v, EventLoop) && SamePlace(EventLoop, DoWrite(v, step), u)
    requires Enabled(u, next) && ProgramOf(next) == EventLoop
    ensures AfterWrite(v, step, next)
    ensures Sticks(v, ByWrite(step), u, next)
  {
  }

  /** A `close` on behalf of an event is a `close` of its connection. */
  predicate ClosesHeld(loop: Loop) {
    TargetOf(loop).Some? && LoopHeld(loop).Some? ==> LoopHeld(loop).value == TargetOf(loop).value.c
  }

  lemma SucceedReap(v: View, step: ReapStep, u: View, next: Step)
    requires ClosesHeld(v.loop)
    requires Typed(v) && CanReap(v, step) && LoopCallOk(v, EventLoop) && SamePlace(EventLoop, DoReap(v, step), u)
    requires Enabled(u, next) && ProgramOf(next) == EventLoop
    ensures AfterReap(v, step, next)
    ensures Sticks(v, ByReap(step), u, next)
  {
  }

  lemma SucceedEffect(v: View, step: Step, u: View, next: Step)
    requires Typed(v) && CallNamed(v.call) && Enabled(v, step) && !step.Create?
    requires ClosesHeld(v.loop) && LoopCallOk(v, ProgramOf(step)) && (step.BySend? ==> step.t != LOOP)
    requires SamePlace(ProgramOf(step), Effect(v, step), u) && Enabled(u, next) && ProgramOf(next) == ProgramOf(step)
    ensures Succeeds(v, step, next) && Sticks(v, step, u, next)
  {
    match step
    case ByDial(x) => SucceedDial(v, x, u, next);
    case BySend(t, x) => SucceedSend(v, t, x, u, next);
    case ByClose(t, x) => SucceedClose(v, t, x, u, next);
    case ByBatch(x) => SucceedBatch(v, x, u, next);
    case ByRead(x) => SucceedRead(v, x, u, next);
    case ByConnect(x) => SucceedConnect(v, x, u, next);
    case ByWrite(x) => SucceedWrite(v, x, u, next);
    case ByReap(x) => SucceedReap(v, x, u, next);
  }

  // In a run.

  predicate PlaceKept(p: Program, s: State, r: State) {
    match p
    case Dialer => r.dial == s.dial
    case EventLoop => r.loop == s.loop && LOOP in r.calls && LOOP in s.calls && r.calls[LOOP] == s.calls[LOOP]
    case Caller(t) => t in r.calls && t in s.calls && r.calls[t] == s.calls[t]
  }

  lemma KeepsOthers(v: View, step: Step)
    requires Typed(v) && Enabled(v, step)
    ensures !step.ByDial? ==> Effect(v, step).dial == v.dial
    ensures step.ByDial? || step.BySend? || step.ByClose? ==> Effect(v, step).loop == v.loop
    ensures step.ByDial? ==> Effect(v, step).call == v.call
  {
  }

  /** A step of one program leaves the place of every other one. */
  lemma {:induction false} PlaceStays(r: Run, k: nat, p: Program)
    requires IsRun(r) && k < |r.steps| && ProgramOf(r.steps[k]) != p && p != Caller(LOOP)
    requires p.Caller? ==> p.t in r.states[k].calls
    ensures PlaceKept(p, r.states[k], r.states[k + 1])
  {
    assert Takes(r, k);
    var s, step := r.states[k], r.steps[k];
    if !step.Create? {
      KeepsOthers(Look(s, FocusOf(s, step), Actor(step)), step);
    }
  }

  /** The program takes no step between `j` and `i`. */
  ghost predicate Rests(r: Run, p: Program, j: nat, i: nat) {
    j <= i < |r.states| && i <= |r.steps| && forall k: nat :: j <= k < i ==> ProgramOf(r.steps[k]) != p
  }

  lemma {:induction false} PlaceRests(r: Run, p: Program, j: nat, i: nat)
    requires IsRun(r) && Rests(r, p, j, i) && p != Caller(LOOP) && (p.Caller? ==> p.t in r.states[j].calls)
    ensures PlaceKept(p, r.states[j], r.states[i])
    decreases i
  {
    if i > j {
      PlaceRests(r, p, j, i - 1);
      PlaceStays(r, i - 1, p);
    } else {
      HasLoop(r, j);
    }
  }

  lemma {:induction false} HasLoop(r: Run, j: nat)
    requires IsRun(r) && j < |r.states|
    ensures LOOP in r.states[j].calls
    decreases j
  {
    if j > 0 {
      HasLoop(r, j - 1);
      assert Takes(r, j - 1);
    }
  }

  /** What a step sees: the shared places, the connection it works on, its thread. */
  function Seen(s: State, step: Step): View
    requires Actor(step) in s.calls
  {
    Look(s, if Subject(s, step).Some? then Subject(s, step).value else 0, Actor(step))
  }

  /** What the places say when a step is taken. */
  lemma {:induction false} SeenInRun(r: Run, j: nat)
    requires IsCarefulRun(r) && j < |r.steps|
    ensures var s, step := r.states[j], r.steps[j];
            && WellTyped(s) && Can(s, step) && r.states[j + 1] == Do(s, step)
            && CallNamed(s.calls[Actor(step)]) && ClosesHeld(s.loop) && LoopCalls(s.loop, s.calls[LOOP], s.table.conns)
            && (step.BySend? ==> step.t != LOOP)
  {
    Always(r, j);
    assert Takes(r, j);
  }

  /** Only what the step works on matters. */
  lemma SeenIsEnough(s: State, step: Step, next: Step, u: View)
    requires WellTyped(s) && Can(s, step) && !step.Create?
    requires var v := Look(s, FocusOf(s, step), Actor(step)); Succeeds(v, step, next) && Sticks(v, step, u, next)
    ensures Succeeds(Seen(s, step), step, next) && Sticks(Seen(s, step), step, u, next)
  {
    if Subject(s, step).Some? {
      SubjectInFocus(s, step);
    }
  }

  /**
   * A program's next step is the one that its last step leads to, given what that step found;
   * and from the step that finds a connection to the last one of the call it works on this
   * connection only.
   */
  lemma {:induction false} ProgramOrder(r: Run, j: nat, i: nat)
    requires IsCarefulRun(r) && j < i < |r.steps| && ProgramOf(r.steps[j]) == ProgramOf(r.steps[i])
    requires Rests(r, ProgramOf(r.steps[i]), j + 1, i)
    ensures Actor(r.steps[j]) in r.states[j].calls && Actor(r.steps[i]) in r.states[i].calls
    ensures var v := Seen(r.states[j], r.steps[j]);
            && Succeeds(v, r.steps[j], r.steps[i])
            && Sticks(v, r.steps[j], Seen(r.states[i], r.steps[i]), r.steps[i])
  {
    SeenInRun(r, j);
    SeenInRun(r, i);
    var s, step, u := r.states[j], r.steps[j], Look(r.states[i], FocusOf(r.states[i], r.steps[i]), Actor(r.steps[i]));
    PlaceRests(r, ProgramOf(step), j + 1, i);
    if !step.Create? {
      SucceedEffect(Look(s, FocusOf(s, step), Actor(step)), step, u, r.steps[i]);
      SeenIsEnough(s, step, r.steps[i], u);
    }
  }

  /** The first step of a program. */
  lemma {:induction false} ProgramBegins(r: Run, i: nat)
    requires IsCarefulRun(r) && i < |r.steps| && Rests(r, ProgramOf(r.steps[i]), 0, i)
    ensures match ProgramOf(r.steps[i])
            case Dialer => r.steps[i].Create?
            case EventLoop => PollsOrStops(r.steps[i])
            case Caller(_) => Begins(r.steps[i])
  {
    SeenInRun(r, i);
    SameThreadsAs(r, i);
    PlaceRests(r, ProgramOf(r.steps[i]), 0, i);
  }

  lemma {:induction false} SameThreadsAs(r: Run, i: nat)
    requires IsRun(r) && i < |r.states|
    ensures r.states[i].calls.Keys == r.states[0].calls.Keys
    decreases i
  {
    if i > 0 {
      SameThreadsAs(r, i - 1);
      assert Takes(r, i - 1);
    }
  }

  // When a program is at its end.

  /** The step that `v` saw is the last one of its call, of the connect, or of the loop. */
  predicate Finishes(v: View, step: Step) {
    match step
    case Create => false
    case ByDial(x) => x.DialFail? || x.DialReturn? || (x.DialAdd? && v.conn.handle in v.table.conns)
    case BySend(_, x) => x.ReleaseCall? || ((x.SendGet? || x.StatusGet?) && x.h !in v.table.conns)
    case ByClose(_, x) => x.CloseRelease? || (x.CloseGet? && v.call.CloseStart? && v.call.h !in v.table.conns)
    case ByBatch(x) => x.Stop?
    case _ => false
  }

  predicate AtRest(p: Program, v: View) {
    match p
    case Dialer => v.dial.NoDial?
    case EventLoop => v.loop.Stopped?
    case Caller(_) => v.call.Idle?
  }

  lemma FinishEffect(v: View, step: Step)
    requires Typed(v) && Enabled(v, step) && !step.Create?
    requires ProgramOf(step).EventLoop? ==> !v.loop.Stopped? && (step.ByClose? ==> v.loop.Closing?)
    requires step.BySend? ==> step.t != LOOP
    ensures AtRest(ProgramOf(step), Effect(v, step)) <==>
              Finishes(v, step) && !(step.ByClose? && step.t == LOOP)
  {
  }

  /** The place of a program, in a whole state. */
  predicate Rested(p: Program, s: State) {
    match p
    case Dialer => s.dial.NoDial?
    case EventLoop => s.loop.Stopped?
    case Caller(t) => t in s.calls && s.calls[t].Idle?
  }

  /**
   * A program is at rest if and only if its last step was a last step: nobody gives up in the
   * middle of a call, and the loop stops only when it is told to.
   */
  lemma {:induction false} ProgramEnds(r: Run, j: nat, i: nat)
    requires IsCarefulRun(r) && j < |r.steps| && Rests(r, ProgramOf(r.steps[j]), j + 1, i)
    ensures Actor(r.steps[j]) in r.states[j].calls
    ensures Rested(ProgramOf(r.steps[j]), r.states[i]) <==>
              Finishes(Seen(r.states[j], r.steps[j]), r.steps[j])
              && !(r.steps[j].ByClose? && r.steps[j].t == LOOP)
  {
    SeenInRun(r, j);
    var s, step := r.states[j], r.steps[j];
    PlaceRests(r, ProgramOf(step), j + 1, i);
    if !step.Create? {
      FinishEffect(Look(s, FocusOf(s, step), Actor(step)), step);
      if Subject(s, step).Some? {
        SubjectInFocus(s, step);
      }
    }
  }
}
