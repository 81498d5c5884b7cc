/**
 * The output of a connection: nothing is lost or reordered on the way from `send` to the
 * socket, and nobody forgets to ask epoll for the next write event.
 */
module Output {
  import opened Codec
  import opened Interface
  import opened Registry
  import opened Protocol
  import opened Names
  import opened Lifetimes
  import opened LoopOrder

  predicate HandlingOf(loop: Loop, c: ConnId) {
    loop.Handling? && loop.cur.ev.conn == c
  }

  /** The loop is inside `write_data` of connection `c` ... */
  predicate Writing(loop: Loop, c: ConnId) {
    HandlingOf(loop, c) && (loop.pc == WriteLocking || WriteSection(loop.pc))
  }

  /** ... and holds its mutex. */
  predicate WriteSection(pc: EventPc) {
    pc == WriteLocked || pc.WriteTaken? || pc == WriteDrained || pc == WriteUnlocking
  }

  /** The thread is inside `deliver_data` and holds the mutex of the connection. */
  predicate SendSection(call: Call) {
    call.SendLocked? || call.SendCopied? || call.SendQueued? || call.SendUnlocking?
  }

  /** There is something to send and nobody has asked for the write event. */
  predicate Silent(r: Conn) {
    r.registered && r.output != [] && !r.wantWrite
  }

  /** What is still to be sent: between the write and the drain `_output` lags behind. */
  function Unsent(r: Conn, loop: Loop, c: ConnId): seq<byte> {
    if HandlingOf(loop, c) && loop.pc.WriteTaken? then loop.pc.left else r.output
  }

  predicate FlowOk(r: Conn, loop: Loop, c: ConnId) {
    && r.sent + Unsent(r, loop, c) == r.accepted
    && (Unsent(r, loop, c) != [] ==> r.output != [])
    && (r.registered && r.state == Connecting ==> r.wantWrite)
    && (Writing(loop, c) ==> r.state != Connecting)
    && (HandlingOf(loop, c) && WriteSection(loop.pc) ==> r.locked == Some(LOOP))
  }

  /** The owner of the mutex has queued a message and is about to ask. */
  predicate AboutToAsk(r: Conn, calls: map<Thread, Call>, c: ConnId) {
    r.locked.Some? && r.locked.value in calls && calls[r.locked.value] == SendQueued(c)
  }

  /** Thread `u` is inside a section that the mutex of `c` protects. */
  predicate Inside(calls: map<Thread, Call>, loop: Loop, u: Thread, c: ConnId) {
    && u in calls
    && (|| (SendSection(calls[u]) && calls[u].c == c)
        || (u == LOOP && HandlingOf(loop, c) && WriteSection(loop.pc)))
  }

  predicate FlowsOk(s: State, c: ConnId)
    requires c < |s.cs|
  {
    && FlowOk(s.cs[c], s.loop, c)
    && (Silent(s.cs[c]) ==> AboutToAsk(s.cs[c], s.calls, c))
    && (s.cs[c].locked.Some? ==> Inside(s.calls, s.loop, s.cs[c].locked.value, c))
  }

  predicate LocksOk(s: State, t: Thread)
    requires WellTyped(s) && t in s.calls
  {
    && (SendSection(s.calls[t]) ==> s.cs[s.calls[t].c].locked == Some(t))
    && (s.calls[t].SendCopied? ==> s.cs[s.calls[t].c].output == s.calls[t].seen)
  }

  ghost predicate Flowing(s: State) {
    && Ordered(s)
    && (forall c: ConnId :: c < |s.cs| ==> FlowsOk(s, c))
    && (forall t :: t in s.calls ==> LocksOk(s, t))
  }

  /** `asked` says that another thread owns the mutex and is about to ask. */
  predicate ViewFlowing(v: View, t: Thread, c: ConnId, asked: bool) {
    && FlowOk(v.conn, v.loop, c)
    && (SendSection(v.call) && Held(v.call) == Some(c) ==> v.conn.locked == Some(t))
    && (v.call.SendCopied? && v.call.c == c ==> v.conn.output == v.call.seen)
    && (v.conn.locked == Some(t) ==>
          || (SendSection(v.call) && Held(v.call) == Some(c))
          || (t == LOOP && HandlingOf(v.loop, c) && WriteSection(v.loop.pc)))
    && (asked ==> v.conn.locked.Some? && v.conn.locked != Some(t))
    && (Silent(v.conn) ==> asked || (v.conn.locked == Some(t) && v.call == SendQueued(c)))
  }

  /** Another thread than `t` owns the mutex of `c` and is about to ask. */
  predicate Asked(s: State, c: ConnId, t: Thread) {
    c < |s.cs| && AboutToAsk(s.cs[c], s.calls, c) && s.cs[c].locked != Some(t)
  }

  /** Thread `t` takes the mutex only if it is free, and changes the output only if it has it. */
  predicate LockKept(r: Conn, q: Conn, t: Thread) {
    && (q.locked == r.locked || (r.locked in {None, Some(t)} && q.locked in {None, Some(t)}))
    && (q.output == r.output || r.locked == Some(t))
  }

  /** What the other invariants say about the connection and the thread in view. */
  predicate Settled(v: View, c: ConnId, t: Thread) {
    && (DialOwns(v.dial) == Some(c) ==> !v.conn.registered && LoopHeld(v.loop) != Some(c))
    && (TargetOf(v.loop).Some? && LoopHeld(v.loop).Some? ==> Some(TargetOf(v.loop).value.c) == LoopHeld(v.loop))
    && (t == LOOP ==> LoopCalls(v.loop, v.call, v.table.conns))
  }

  lemma StreamGrows(r: Conn, msg: seq<byte>)
    requires r.sent + r.output == r.accepted
    ensures r.sent + (r.output + msg) == r.accepted + msg
  {
  }

  lemma StreamMoves(r: Conn, took: seq<byte>, left: seq<byte>)
    requires r.sent + r.output == r.accepted && r.output == took + left
    ensures (r.sent + took) + left == r.accepted
    ensures left != [] ==> r.output != []
  {
  }

  // One lemma for each kind of step, then all of them together.

  lemma FlowDial(v: View, c: ConnId, t: Thread, asked: bool, step: DialStep)
    requires Typed(v) && Focused(v, c, ByDial(step)) && CanDial(v, step) && Settled(v, c, t) && t == LOOP
    requires ViewFlowing(v, t, c, asked)
    ensures ViewFlowing(DoDial(v, step), t, c, asked) && LockKept(v.conn, DoDial(v, step).conn, t)
  {
  }

  lemma FlowSend(v: View, c: ConnId, t: Thread, asked: bool, step: SendStep)
    requires Typed(v) && Focused(v, c, BySend(t, step)) && CanSend(v, t, step) && Settled(v, c, t)
    requires ViewFlowing(v, t, c, asked)
    ensures ViewFlowing(DoSend(v, t, step), t, c, asked) && LockKept(v.conn, DoSend(v, t, step).conn, t)
  {
    if step.SendStore? {
      StreamGrows(v.conn, v.call.msg);
    }
  }

  lemma FlowClose(v: View, c: ConnId, t: Thread, asked: bool, step: CloseStep)
    requires Typed(v) && Focused(v, c, ByClose(t, step)) && CanClose(v, t, step) && Settled(v, c, t)
    requires ViewFlowing(v, t, c, asked)
    ensures ViewFlowing(DoClose(v, t, step), t, c, asked) && LockKept(v.conn, DoClose(v, t, step).conn, t)
  {
  }

  lemma FlowBatch(v: View, c: ConnId, t: Thread, asked: bool, step: BatchStep)
    requires Typed(v) && Focused(v, c, ByBatch(step)) && CanBatch(v, step) && Settled(v, c, t) && t == LOOP
    requires ViewFlowing(v, t, c, asked)
    ensures ViewFlowing(DoBatch(v, step), t, c, asked) && LockKept(v.conn, DoBatch(v, step).conn, t)
  {
  }

  lemma FlowRead(v: View, c: ConnId, t: Thread, asked: bool, step: ReadStep)
    requires Typed(v) && Focused(v, c, ByRead(step)) && CanRead(v, step) && Settled(v, c, t) && t == LOOP
    requires ViewFlowing(v, t, c, asked)
    ensures ViewFlowing(DoRead(v, step), t, c, asked) && LockKept(v.conn, DoRead(v, step).conn, t)
  {
  }

  lemma FlowConnect(v: View, c: ConnId, t: Thread, asked: bool, step: ConnectStep)
    requires Typed(v) && Focused(v, c, ByConnect(step)) && CanConnect(v, step) && Settled(v, c, t) && t == LOOP
    requires ViewFlowing(v, t, c, asked)
    ensures ViewFlowing(DoConnect(v, step), t, c, asked) && LockKept(v.conn, DoConnect(v, step).conn, t)
  {
  }

  lemma FlowWrite(v: View, c: ConnId, t: Thread, asked: bool, step: WriteStep)
    requires Typed(v) && Focused(v, c, ByWrite(step)) && CanWrite(v, step) && Settled(v, c, t) && t == LOOP
    requires ViewFlowing(v, t, c, asked)
    ensures ViewFlowing(DoWrite(v, step), t, c, asked) && LockKept(v.conn, DoWrite(v, step).conn, t)
  {
    match step
    case WriteLock =>
    case WriteSome(took, left) => StreamMoves(v.conn, took, left);
    case WriteDrain =>
    case WriteNotify =>
    case WriteUnlock =>
  }

  lemma FlowReap(v: View, c: ConnId, t: Thread, asked: bool, step: ReapStep)
    requires Typed(v) && Focused(v, c, ByReap(step)) && CanReap(v, step) && Settled(v, c, t) && t == LOOP
    requires ViewFlowing(v, t, c, asked)
    ensures ViewFlowing(DoReap(v, step), t, c, asked) && LockKept(v.conn, DoReap(v, step).conn, t)
  {
  }

  lemma FlowEffect(v: View, c: ConnId, t: Thread, asked: bool, step: Step)
    requires Typed(v) && Focused(v, c, step) && Enabled(v, step) && Settled(v, c, t) && t == Actor(step)
    requires ViewFlowing(v, t, c, asked)
    ensures ViewFlowing(Effect(v, step), t, c, asked) && LockKept(v.conn, Effect(v, step).conn, t)
  {
    match step
    case Create =>
    case ByDial(x) => FlowDial(v, c, t, asked, x);
    case BySend(_, x) => FlowSend(v, c, t, asked, x);
    case ByClose(_, x) => FlowClose(v, c, t, asked, x);
    case ByBatch(x) => FlowBatch(v, c, t, asked, x);
    case ByRead(x) => FlowRead(v, c, t, asked, x);
    case ByConnect(x) => FlowConnect(v, c, t, asked, x);
    case ByWrite(x) => FlowWrite(v, c, t, asked, x);
    case ByReap(x) => FlowReap(v, c, t, asked, x);
  }

  /** A step on connection `c` does not bring the loop to the output of any other one. */
  lemma FlowElsewhere(v: View, c: ConnId, d: ConnId, step: Step)
    requires Typed(v) && Focused(v, c, step) && Enabled(v, step) && d != c && OnLoop(step) && Settled(v, c, LOOP)
    ensures HandlingOf(Effect(v, step).loop, d) || HandlingOf(v.loop, d) ==> Effect(v, step).loop == v.loop
  {
  }

  lemma SettledSeen(s: State, step: Step)
    requires Ordered(s) && Can(s, step)
    ensures Settled(Look(s, FocusOf(s, step), Actor(step)), FocusOf(s, step), Actor(step))
  {
    var c := FocusOf(s, step);
    if c < |s.cs| {
      assert LifeOk(s.cs[c], IsOnline(s.table.conns, c), c, s.dial);
    }
  }

  lemma FlowSeen(s: State, c: ConnId, t: Thread)
    requires Flowing(s) && t in s.calls
    ensures ViewFlowing(Look(s, c, t), t, c, Asked(s, c, t))
  {
    assert LocksOk(s, t);
    if c < |s.cs| {
      assert FlowsOk(s, c);
    }
  }

  lemma FlowPutHere(s: State, c: ConnId, t: Thread, w: View)
    requires Flowing(s) && t in s.calls && c < |s.cs|
    requires ViewFlowing(w, t, c, Asked(s, c, t)) && LockKept(s.cs[c], w.conn, t)
    requires t != LOOP ==> w.loop == s.loop
    ensures FlowsOk(Put(s, c, t, w), c)
  {
    assert FlowsOk(s, c);
  }

  lemma FlowPutThere(s: State, c: ConnId, t: Thread, w: View, d: ConnId)
    requires Flowing(s) && t in s.calls && d < |s.cs| && d != c
    requires HandlingOf(w.loop, d) || HandlingOf(s.loop, d) ==> w.loop == s.loop
    requires Held(s.calls[t]) == Some(d) ==> w.call == s.calls[t] || !SendSection(s.calls[t])
    ensures FlowsOk(Put(s, c, t, w), d)
  {
    assert FlowsOk(s, d);
  }

  /** The view after a step, of the connection it looked at. */
  lemma FlowAfter(s: State, step: Step)
    requires Flowing(s) && Can(s, step) && !step.Create?
    ensures var c, t := FocusOf(s, step), Actor(step);
            var w := Effect(Look(s, c, t), step);
            && ViewFlowing(w, t, c, Asked(s, c, t)) && LockKept(ConnAt(s.cs, c), w.conn, t)
            && (t != LOOP ==> w.loop == s.loop)
  {
    var c, t := FocusOf(s, step), Actor(step);
    AliveSeen(s, step);
    SettledSeen(s, step);
    FlowSeen(s, c, t);
    FlowEffect(Look(s, c, t), c, t, Asked(s, c, t), step);
    if t != LOOP {
      OffLoop(Look(s, c, t), step);
    }
  }

  /** A step on one connection leaves the loop and the thread as they are for every other one. */
  lemma FlowOfOthers(s: State, step: Step, d: ConnId)
    requires Flowing(s) && Can(s, step) && !step.Create? && d != FocusOf(s, step)
    ensures var c, t := FocusOf(s, step), Actor(step);
            var w := Effect(Look(s, c, t), step);
            && (HandlingOf(w.loop, d) || HandlingOf(s.loop, d) ==> w.loop == s.loop)
            && (Held(s.calls[t]) == Some(d) ==> w.call == s.calls[t] || !SendSection(s.calls[t]))
  {
    var c, t := FocusOf(s, step), Actor(step);
    AliveSeen(s, step);
    SettledSeen(s, step);
    if OnLoop(step) {
      FlowElsewhere(Look(s, c, t), c, d, step);
    } else if t != LOOP {
      OffLoop(Look(s, c, t), step);
    }
  }

  lemma FlowAct(s: State, step: Step, d: ConnId)
    requires Flowing(s) && Can(s, step) && !step.Create? && d < |s.cs|
    ensures FlowsOk(Do(s, step), d)
  {
    var c, t := FocusOf(s, step), Actor(step);
    FlowAfter(s, step);
    if d == c {
      FlowPutHere(s, c, t, Effect(Look(s, c, t), step));
    } else {
      FlowOfOthers(s, step, d);
      FlowPutThere(s, c, t, Effect(Look(s, c, t), step), d);
    }
  }

  lemma LocksPutOwn(s: State, c: ConnId, t: Thread, w: View)
    requires Flowing(s) && t in s.calls && WellTyped(Put(s, c, t, w)) && ViewFlowing(w, t, c, Asked(s, c, t))
    requires w.call == s.calls[t] || Held(w.call) == None || Held(w.call) == Some(c)
    ensures LocksOk(Put(s, c, t, w), t)
  {
    assert LocksOk(s, t);
  }

  lemma LocksPutOther(s: State, c: ConnId, t: Thread, w: View, u: Thread)
    requires Flowing(s) && t in s.calls && u in s.calls && u != t && WellTyped(Put(s, c, t, w))
    requires LockKept(ConnAt(s.cs, c), w.conn, t)
    ensures LocksOk(Put(s, c, t, w), u)
  {
    assert LocksOk(s, u);
  }

  lemma CallMoves(v: View, c: ConnId, step: Step)
    requires ViewNamed(v, c) && Focused(v, c, step) && Enabled(v, step) && Legal(step, |v.table.refs|)
    ensures var call := Effect(v, step).call; call == v.call || Held(call) == None || Held(call) == Some(c)
  {
  }

  /** Whoever is inside `deliver_data` keeps the mutex until it unlocks. */
  lemma LocksAct(s: State, step: Step, u: Thread)
    requires Flowing(s) && Can(s, step) && !step.Create? && u in s.calls && WellTyped(Do(s, step))
    ensures LocksOk(Do(s, step), u)
  {
    var c, t := FocusOf(s, step), Actor(step);
    var v := Look(s, c, t);
    AliveSeen(s, step);
    CallMoves(v, c, step);
    FlowAfter(s, step);
    if u == t {
      LocksPutOwn(s, c, t, Effect(v, step));
    } else {
      LocksPutOther(s, c, t, Effect(v, step), u);
    }
  }

  lemma FlowsBorn(s: State, c: ConnId)
    requires Flowing(s) && Can(s, Create) && c <= |s.cs|
    ensures FlowsOk(Born(s), c)
  {
    assert c < |s.cs| ==> FlowsOk(s, c);
  }

  lemma LocksBorn(s: State, t: Thread)
    requires Flowing(s) && Can(s, Create) && WellTyped(Born(s)) && t in s.calls
    ensures LocksOk(Born(s), t)
  {
    assert LocksOk(s, t);
  }

  lemma FlowBorn(s: State)
    requires Flowing(s) && Can(s, Create)
    ensures Flowing(Born(s))
  {
    OrderedStep(s, Create);
    forall c: ConnId | c <= |s.cs|
      ensures FlowsOk(Born(s), c)
    {
      FlowsBorn(s, c);
    }
    forall t | t in s.calls
      ensures LocksOk(Born(s), t)
    {
      LocksBorn(s, t);
    }
  }

  lemma FlowStep(s: State, step: Step)
    requires Flowing(s) && Can(s, step) && Careful(s, step)
    ensures Flowing(Do(s, step))
  {
    if step.Create? {
      FlowBorn(s);
    } else {
      OrderedStep(s, step);
      forall d: ConnId | d < |s.cs|
        ensures FlowsOk(Do(s, step), d)
      {
        FlowAct(s, step, d);
      }
      forall u | u in s.calls
        ensures LocksOk(Do(s, step), u)
      {
        LocksAct(s, step, u);
      }
    }
  }

  lemma FlowInit(s: State)
    requires Init(s)
    ensures Flowing(s)
  {
    OrderedInit(s);
  }
}
