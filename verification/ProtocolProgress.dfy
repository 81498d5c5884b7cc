/**
 * Nobody is stuck: in every state of every run each thread that has something to do can
 * take its next step, or waits for one step of somebody who can.
 */
module Progress {
  import opened Codec
  import opened Registry
  import opened Protocol
  import opened Output
  import opened Runs

  /** A step that thread `t` takes. */
  predicate StepOf(step: Step, t: Thread) {
    ((step.BySend? || step.ByClose?) && step.t == t) || (t == LOOP && OnLoop(step))
  }

  ghost predicate CanMove(s: State, t: Thread)
    requires WellTyped(s)
  {
    exists step :: StepOf(step, t) && Can(s, step)
  }

  predicate Busy(s: State, t: Thread)
    requires t in s.calls
  {
    if t == LOOP then !s.loop.Stopped? else !s.calls[t].Idle?
  }

  /** The thread waits for the mutex of a connection that another thread owns. */
  predicate WaitsForMutex(s: State, t: Thread, c: ConnId) {
    && t in s.calls && c < |s.cs| && s.cs[c].locked.Some?
    && (if t == LOOP then HandlingOf(s.loop, c) && s.loop.pc == WriteLocking
        else s.calls[t].SendGot? && s.calls[t].c == c)
  }

  function NextOfCall(call: Call): Step
    requires !call.Idle?
  {
    match call
    case CloseStart(_) => ByClose(0, CloseGet)
    case CloseGot(_, _) => ByClose(0, CloseUnregister)
    case CloseUnreg(_, _) => ByClose(0, CloseRemove)
    case CloseWon(_, _) => ByClose(0, CloseMark)
    case CloseMarked(_, _) => ByClose(0, CloseSocket)
    case CloseDone(_, _) => ByClose(0, CloseRelease)
    case SendGot(_, _) => BySend(0, SendLock)
    case SendLocked(_, _) => BySend(0, SendQueue)
    case SendCopied(_, _, _) => BySend(0, SendStore)
    case SendQueued(_) => BySend(0, SendNotify)
    case SendUnlocking(_) => BySend(0, SendUnlock)
    case StatusGot(_) => BySend(0, StatusRead)
    case Releasing(_) => BySend(0, ReleaseCall)
  }

  lemma CallMoves(s: State, t: Thread)
    requires WellTyped(s) && t in s.calls && !s.calls[t].Idle?
    requires !(s.calls[t].SendGot? && s.cs[s.calls[t].c].locked.Some?)
    ensures CanMove(s, t)
  {
    var next := NextOfCall(s.calls[t]);
    var step := if next.BySend? then BySend(t, next.send) else ByClose(t, next.close);
    assert StepOf(step, t) && Can(s, step);
  }

  function NextOfLoop(loop: Loop, output: seq<byte>): Step
    requires !loop.Stopped?
  {
    match loop
    case Polling => ByBatch(Poll([]))
    case Batch(evs) => if evs == [] then ByBatch(BatchDone) else ByBatch(NextEvent)
    case Handling(pc, _) =>
      (match pc
       case ReadPart => ByRead(ReadEvent)
       case Reading => ByRead(ReadOk)
       case WritePart => ByConnect(WriteEvent(true))
       case MarkConnected => ByConnect(SetConnected)
       case CallOnConnect => ByConnect(ConnectCallback)
       case WriteLocking => ByWrite(WriteLock)
       case WriteLocked => ByWrite(WriteSome([], output))
       case WriteTaken(_) => ByWrite(WriteDrain)
       case WriteDrained => ByWrite(WriteNotify)
       case WriteUnlocking => ByWrite(WriteUnlock)
       case EventDone => ByBatch(EventRelease))
    case Closing(_, _) => ByReap(CloseReturned)
    case Notifying(_, _) => ByReap(CloseCallback)
    case Ticking => ByReap(SkipTick)
    case Sweeping(list) => if list == [] then ByReap(SweepDone) else ByReap(SweepNext)
  }

  lemma LoopMoves(s: State)
    requires WellTyped(s) && !s.loop.Stopped? && (s.loop.Closing? ==> s.calls[LOOP].Idle?)
    requires At(s.loop, WriteLocking) ==> s.cs[s.loop.cur.ev.conn].locked.None?
    ensures CanMove(s, LOOP)
  {
    var output := ConnAt(s.cs, LoopFocus(s.loop)).output;
    var step := NextOfLoop(s.loop, output);
    assert output == [] + output;
    assert StepOf(step, LOOP) && Can(s, step);
  }

  /** Whoever owns a mutex can take a step. */
  lemma OwnerMoves(s: State, c: ConnId)
    requires Flowing(s) && c < |s.cs| && s.cs[c].locked.Some?
    ensures CanMove(s, s.cs[c].locked.value)
  {
    var u := s.cs[c].locked.value;
    assert FlowsOk(s, c);
    if SendSection(s.calls[u]) {
      CallMoves(s, u);
    } else {
      LoopMoves(s);
    }
  }

  lemma {:induction false} NobodyIsStuck(r: Run, i: nat, t: Thread)
    requires IsCarefulRun(r) && i < |r.states| && t in r.states[i].calls && Busy(r.states[i], t)
    ensures WellTyped(r.states[i])
    ensures var s := r.states[i];
            || CanMove(s, t)
            || (exists c: ConnId :: WaitsForMutex(s, t, c) && CanMove(s, s.cs[c].locked.value))
  {
    Always(r, i);
    var s := r.states[i];
    if t == LOOP && !s.loop.Closing? {
      LoopIsNotStuck(s);
    } else if s.calls[t].Idle? {
      LoopMoves(s);
    } else {
      CallIsNotStuck(s, t);
    }
  }

  lemma LoopIsNotStuck(s: State)
    requires Flowing(s) && !s.loop.Stopped? && !s.loop.Closing?
    ensures CanMove(s, LOOP) || exists c: ConnId :: WaitsForMutex(s, LOOP, c) && CanMove(s, s.cs[c].locked.value)
  {
    if At(s.loop, WriteLocking) && s.cs[s.loop.cur.ev.conn].locked.Some? {
      OwnerMoves(s, s.loop.cur.ev.conn);
      assert WaitsForMutex(s, LOOP, s.loop.cur.ev.conn);
    } else {
      LoopMoves(s);
    }
  }

  lemma CallIsNotStuck(s: State, t: Thread)
    requires Flowing(s) && t in s.calls && !s.calls[t].Idle?
    ensures CanMove(s, t) || exists c: ConnId :: WaitsForMutex(s, t, c) && CanMove(s, s.cs[c].locked.value)
  {
    if s.calls[t].SendGot? && s.cs[s.calls[t].c].locked.Some? {
      OwnerMoves(s, s.calls[t].c);
      assert WaitsForMutex(s, t, s.calls[t].c);
    } else {
      CallMoves(s, t);
    }
  }
}
