/**
 * The work of the event loop, told from the steps: the events of the last batch are served
 * one by one, in order, none lost and none twice; the connections of a timeout list are closed
 * one by one; and after `onClose` the loop goes on where the `close` came from.
 */
module Work {
  import opened Protocol
  import opened Runs
  import opened Order

  /** The last batch that epoll reported, and how many of its events have been taken up since. */
  function Polled(r: Run, i: nat): (seq<Event>, nat)
    requires i <= |r.steps|
    decreases i
  {
    if i == 0 then ([], 0)
    else match r.steps[i - 1]
      case ByBatch(Poll(evs)) => (evs, 0)
      case ByBatch(NextEvent) => (Polled(r, i - 1).0, Polled(r, i - 1).1 + 1)
      case _ => Polled(r, i - 1)
  }

  /** The last timeout list, and how many of its connections the loop has begun to close since. */
  function Listed(r: Run, i: nat): (seq<Target>, nat)
    requires i <= |r.steps|
    decreases i
  {
    if i == 0 then ([], 0)
    else match r.steps[i - 1]
      case ByReap(Sweep(list)) => (list, 0)
      case ByReap(SweepNext) => (Listed(r, i - 1).0, Listed(r, i - 1).1 + 1)
      case _ => Listed(r, i - 1)
  }

  /** Where the loop's last call of `close` came from. */
  datatype Origin = Nowhere | FromRead | FromConnect | FromSweep

  function OriginOf(r: Run, i: nat): Origin
    requires i <= |r.steps|
    decreases i
  {
    if i == 0 then Nowhere
    else match r.steps[i - 1]
      case ByRead(ReadFail) => FromRead
      case ByConnect(WriteEvent(false)) => FromConnect
      case ByReap(SweepNext) => FromSweep
      case _ => OriginOf(r, i - 1)
  }

  predicate InBatch(loop: Loop) {
    loop.Batch? || Current(loop).Some?
  }

  predicate InSweep(loop: Loop) {
    loop.Sweeping? || ((loop.Closing? || loop.Notifying?) && loop.cont.ThenSweep?)
  }

  /** `n` of these events have been taken up, the last one is in hand, and the others are still to come. */
  predicate Serves(loop: Loop, evs: seq<Event>, n: nat) {
    InBatch(loop) ==>
      && n <= |evs| && Rest(loop) == evs[n..]
      && (Current(loop).Some? ==> n >= 1 && Current(loop).value.ev == evs[n - 1])
  }

  /** The same for the connections of a timeout list. */
  predicate Sweeps(loop: Loop, list: seq<Target>, n: nat) {
    InSweep(loop) ==>
      && n <= |list| && Targets(loop) == list[n..]
      && (TargetOf(loop).Some? ==> n >= 1 && TargetOf(loop).value == list[n - 1])
  }

  predicate Remembers(loop: Loop, o: Origin) {
    loop.Closing? || loop.Notifying? ==>
      match loop.cont
      case ThenWrite(_) => o == FromRead
      case ThenDone(_) => o == FromConnect
      case ThenSweep(_) => o == FromSweep
  }

  function PolledAfter(x: (seq<Event>, nat), step: Step): (seq<Event>, nat) {
    match step
    case ByBatch(Poll(evs)) => (evs, 0)
    case ByBatch(NextEvent) => (x.0, x.1 + 1)
    case _ => x
  }

  function ListedAfter(x: (seq<Target>, nat), step: Step): (seq<Target>, nat) {
    match step
    case ByReap(Sweep(list)) => (list, 0)
    case ByReap(SweepNext) => (x.0, x.1 + 1)
    case _ => x
  }

  function OriginAfter(o: Origin, step: Step): Origin {
    match step
    case ByRead(ReadFail) => FromRead
    case ByConnect(WriteEvent(false)) => FromConnect
    case ByReap(SweepNext) => FromSweep
    case _ => o
  }

  predicate AtWork(loop: Loop, evs: (seq<Event>, nat), list: (seq<Target>, nat), o: Origin) {
    Serves(loop, evs.0, evs.1) && Sweeps(loop, list.0, list.1) && Remembers(loop, o)
  }

  predicate WorksOn(v: View, w: View, evs: (seq<Event>, nat), list: (seq<Target>, nat), o: Origin, step: Step) {
    AtWork(v.loop, evs, list, o) ==>
      AtWork(w.loop, PolledAfter(evs, step), ListedAfter(list, step), OriginAfter(o, step))
  }

  // One lemma for each kind of step, then all of them together.

  lemma WorkBatch(v: View, step: BatchStep, evs: (seq<Event>, nat), list: (seq<Target>, nat), o: Origin)
    requires Typed(v) && CanBatch(v, step)
    ensures WorksOn(v, DoBatch(v, step), evs, list, o, ByBatch(step))
  {
    if step.NextEvent? && Serves(v.loop, evs.0, evs.1) {
      DropNext(evs.0, evs.1);
    }
  }

  lemma DropNext<T>(s: seq<T>, n: nat)
    requires n < |s|
    ensures s[n..] != [] && s[n..][0] == s[n] && s[n..][1..] == s[n + 1..]
  {
  }

  lemma WorkRead(v: View, step: ReadStep, evs: (seq<Event>, nat), list: (seq<Target>, nat), o: Origin)
    requires CanRead(v, step)
    ensures WorksOn(v, DoRead(v, step), evs, list, o, ByRead(step))
  {
  }

  lemma WorkConnect(v: View, step: ConnectStep, evs: (seq<Event>, nat), list: (seq<Target>, nat), o: Origin)
    requires CanConnect(v, step)
    ensures WorksOn(v, DoConnect(v, step), evs, list, o, ByConnect(step))
  {
  }

  lemma WorkWrite(v: View, step: WriteStep, evs: (seq<Event>, nat), list: (seq<Target>, nat), o: Origin)
    requires CanWrite(v, step)
    ensures WorksOn(v, DoWrite(v, step), evs, list, o, ByWrite(step))
  {
  }

  lemma WorkReap(v: View, step: ReapStep, evs: (seq<Event>, nat), list: (seq<Target>, nat), o: Origin)
    requires Typed(v) && CanReap(v, step)
    ensures WorksOn(v, DoReap(v, step), evs, list, o, ByReap(step))
  {
    if step.SweepNext? && Sweeps(v.loop, list.0, list.1) {
      DropNext(list.0, list.1);
    }
  }

  lemma WorkEffect(v: View, step: Step, evs: (seq<Event>, nat), list: (seq<Target>, nat), o: Origin)
    requires Typed(v) && Enabled(v, step)
    ensures WorksOn(v, Effect(v, step), evs, list, o, step)
  {
    match step
    case ByBatch(x) => WorkBatch(v, x, evs, list, o);
    case ByRead(x) => WorkRead(v, x, evs, list, o);
    case ByConnect(x) => WorkConnect(v, x, evs, list, o);
    case ByWrite(x) => WorkWrite(v, x, evs, list, o);
    case ByReap(x) => WorkReap(v, x, evs, list, o);
    case _ => KeepsOthers(v, step);
  }

  lemma {:induction false} WorkNext(r: Run, i: nat)
    requires IsRun(r) && i < |r.steps|
    requires AtWork(r.states[i].loop, Polled(r, i), Listed(r, i), OriginOf(r, i))
    ensures AtWork(r.states[i + 1].loop, Polled(r, i + 1), Listed(r, i + 1), OriginOf(r, i + 1))
  {
    assert Takes(r, i);
    var s, step := r.states[i], r.steps[i];
    assert Polled(r, i + 1) == PolledAfter(Polled(r, i), step);
    assert Listed(r, i + 1) == ListedAfter(Listed(r, i), step);
    assert OriginOf(r, i + 1) == OriginAfter(OriginOf(r, i), step);
    if !step.Create? {
      WorkEffect(Look(s, FocusOf(s, step), Actor(step)), step, Polled(r, i), Listed(r, i), OriginOf(r, i));
    }
  }

  lemma {:induction false} AlwaysAtWork(r: Run, i: nat)
    requires IsRun(r) && i < |r.states|
    ensures i <= |r.steps| && AtWork(r.states[i].loop, Polled(r, i), Listed(r, i), OriginOf(r, i))
    decreases i
  {
    if i > 0 {
      AlwaysAtWork(r, i - 1);
      WorkNext(r, i - 1);
    }
  }

  /**
   * Every event of a batch is taken up, once and in order: the event in hand is the one the
   * count says, the rest is still to come, and the batch is only left when all have had their turn.
   */
  lemma {:induction false} EventsInOrder(r: Run, i: nat)
    requires IsRun(r) && i < |r.states|
    ensures i <= |r.steps| && Serves(r.states[i].loop, Polled(r, i).0, Polled(r, i).1)
    ensures i < |r.steps| && r.steps[i] == ByBatch(BatchDone) ==> Polled(r, i).1 == |Polled(r, i).0|
  {
    AlwaysAtWork(r, i);
    if i < |r.steps| {
      assert Takes(r, i);
    }
  }

  /** So is every connection of a timeout list. */
  lemma {:induction false} SweepInOrder(r: Run, i: nat)
    requires IsRun(r) && i < |r.states|
    ensures i <= |r.steps| && Sweeps(r.states[i].loop, Listed(r, i).0, Listed(r, i).1)
    ensures i < |r.steps| && r.steps[i] == ByReap(SweepDone) ==> Listed(r, i).1 == |Listed(r, i).0|
  {
    AlwaysAtWork(r, i);
    if i < |r.steps| {
      assert Takes(r, i);
    }
  }

  predicate GoesOn(o: Origin, list: (seq<Target>, nat), next: Step) {
    match o
    case FromRead => Writes(next)
    case FromConnect => next == ByBatch(EventRelease)
    case FromSweep => next == ByReap(if list.1 == |list.0| then SweepDone else SweepNext)
    case Nowhere => false
  }

  lemma CallbackLeadsOn(v: View, u: View, evs: (seq<Event>, nat), list: (seq<Target>, nat), o: Origin, next: Step)
    requires Typed(v) && CanReap(v, CloseCallback) && LoopCallOk(v, EventLoop) && AtWork(v.loop, evs, list, o)
    requires SamePlace(EventLoop, DoReap(v, CloseCallback), u) && Enabled(u, next) && ProgramOf(next) == EventLoop
    ensures GoesOn(o, list, next)
  {
  }

  /**
   * After `onClose` the loop goes on behind the place the `close` came from: the write half of
   * the same event, the end of the event, or the next connection of the timeout list.
   */
  lemma {:induction false} AfterOnClose(r: Run, j: nat, i: nat)
    requires IsCarefulRun(r) && j < i < |r.steps| && r.steps[j] == ByReap(CloseCallback)
    requires ProgramOf(r.steps[i]) == EventLoop && Rests(r, EventLoop, j + 1, i)
    ensures GoesOn(OriginOf(r, j), Listed(r, j), r.steps[i])
  {
    AlwaysAtWork(r, j);
    SeenInRun(r, j);
    SeenInRun(r, i);
    PlaceRests(r, EventLoop, j + 1, i);
    var s, u := r.states[j], Look(r.states[i], FocusOf(r.states[i], r.steps[i]), Actor(r.steps[i]));
    CallbackLeadsOn(Look(s, FocusOf(s, r.steps[j]), LOOP), u, Polled(r, j), Listed(r, j), OriginOf(r, j), r.steps[i]);
  }
}
