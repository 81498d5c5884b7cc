/**
 * The main results about every run: every interleaving of one event-loop thread and any
 * number of application threads, with any behaviour of epoll and of the sockets.
 */
module Runs {
  import opened Interface
  import opened Registry
  import opened Protocol
  import opened Names
  import opened Lifetimes
  import opened LoopOrder
  import opened References
  import opened Callbacks
  import opened Output

  datatype Run = Run(states: seq<State>, steps: seq<Step>)

  ghost predicate Follows(s: State, step: Step, r: State) {
    WellTyped(s) && Can(s, step) && r == Do(s, step)
  }

  ghost predicate IsRun(r: Run) {
    && |r.states| == |r.steps| + 1 && Init(r.states[0])
    && forall i: nat :: i < |r.steps| ==> Takes(r, i)
  }

  ghost predicate Takes(r: Run, i: nat) {
    i < |r.steps| && i + 1 < |r.states| && Follows(r.states[i], r.steps[i], r.states[i + 1])
  }

  /** A run in which no `close` finds a connection between its `addconn` and its `add_event`. */
  ghost predicate IsCarefulRun(r: Run) {
    IsRun(r) && forall i: nat :: i < |r.steps| ==> TakesCare(r, i)
  }

  predicate TakesCare(r: Run, i: nat) {
    i < |r.steps| && i < |r.states| && Careful(r.states[i], r.steps[i])
  }

  ghost predicate Sound(s: State) {
    Counted(s) && Talking(s) && Flowing(s)
  }

  lemma SoundStep(s: State, step: Step)
    requires Sound(s) && Can(s, step) && Careful(s, step)
    ensures Sound(Do(s, step))
  {
    CountedStep(s, step);
    TalkStep(s, step);
    FlowStep(s, step);
  }

  lemma {:induction false} SoundNext(r: Run, i: nat)
    requires IsCarefulRun(r) && i < |r.steps| && Sound(r.states[i])
    ensures Sound(r.states[i + 1])
  {
    assert Takes(r, i) && TakesCare(r, i);
    SoundStep(r.states[i], r.steps[i]);
  }

  lemma {:induction false} Always(r: Run, i: nat)
    requires IsCarefulRun(r) && i < |r.states|
    ensures Sound(r.states[i])
    decreases i
  {
    if i == 0 {
      CountedInit(r.states[0]);
      TalkInit(r.states[0]);
      FlowInit(r.states[0]);
    } else {
      Always(r, i - 1);
      SoundNext(r, i - 1);
    }
  }

  // Reference counts and reclamation.

  /** A live connection's count is the number of its owners; a connection without owners has been deleted, once. */
  lemma {:induction false} ReferenceCounts(r: Run, i: nat, d: ConnId)
    requires IsCarefulRun(r) && i < |r.states| && d < |r.states[i].cs|
    ensures r.states[i].table.Shaped() && d < |r.states[i].table.refs|
    ensures var s := r.states[i];
            && s.table.frees[d] == Bit(Owners(s, d) == 0)
            && (Owners(s, d) > 0 ==> s.table.refs[d] == Owners(s, d))
            && !(InConns(s, d) && d in s.table.recycles) && NoDuplicates(s.table.recycles)
  {
    Always(r, i);
    assert Balanced(r.states[i].table, d, Owners(r.states[i], d));
    OneplaceOnly(r.states[i], d);
  }

  /** The registry maps some handle to this connection. */
  ghost predicate InConns(s: State, d: ConnId) {
    exists h :: h in s.table.conns && s.table.conns[h] == d
  }

  lemma OneplaceOnly(s: State, d: ConnId)
    requires Alive(s)
    ensures InConns(s, d) <==> IsOnline(s.table.conns, d)
    ensures !(InConns(s, d) && d in s.table.recycles)
  {
    if IsOnline(s.table.conns, d) {
      assert s.table.conns[d + 1] == d;
    }
  }

  /** Deletions are never undone, step by step ... */
  lemma FreesGrow(v: View, c: ConnId, step: Step, d: ConnId)
    requires ViewAlive(v, c) && Enabled(v, step) && d < |v.table.refs|
    ensures d < |Effect(v, step).table.frees| && Effect(v, step).table.frees[d] >= v.table.frees[d]
  {
    if step.ByReap? && step.reap.SweepDone? {
      ReleaseAllCounts(v.table.(recycles := []), v.table.recycles, d);
    }
  }

  lemma FreesGrowInStep(s: State, step: Step, d: ConnId)
    requires Counted(s) && Can(s, step) && d < |s.cs|
    ensures d < |s.table.frees| && d < |Do(s, step).table.frees|
    ensures Do(s, step).table.frees[d] >= s.table.frees[d]
  {
    if !step.Create? {
      AliveSeen(s, step);
      FreesGrow(Look(s, FocusOf(s, step), Actor(step)), FocusOf(s, step), step, d);
    }
  }

  lemma ConnsGrow(s: State, step: Step)
    requires WellTyped(s) && Can(s, step)
    ensures |Do(s, step).cs| == |s.cs| + if step.Create? then 1 else 0
  {
  }

  lemma GoneStep(s: State, step: Step, d: ConnId)
    requires Counted(s) && Can(s, step) && Careful(s, step) && d < |s.cs| && Owners(s, d) == 0
    ensures d < |Do(s, step).cs| && Owners(Do(s, step), d) == 0
  {
    CountedStep(s, step);
    FreesGrowInStep(s, step, d);
    ConnsGrow(s, step);
    assert Balanced(s.table, d, Owners(s, d)) && Balanced(Do(s, step).table, d, Owners(Do(s, step), d));
  }

  lemma {:induction false} GoneNext(r: Run, i: nat, d: ConnId)
    requires IsCarefulRun(r) && i < |r.steps| && d < |r.states[i].cs| && Owners(r.states[i], d) == 0
    ensures d < |r.states[i + 1].cs| && Owners(r.states[i + 1], d) == 0
  {
    Always(r, i);
    assert Takes(r, i) && TakesCare(r, i);
    GoneStep(r.states[i], r.steps[i], d);
  }

  /** ... so a connection that has lost its last owner stays deleted, and nobody ever owns it again. */
  lemma {:induction false} GoneForEver(r: Run, i: nat, j: nat, d: ConnId)
    requires IsCarefulRun(r) && i <= j < |r.states| && d < |r.states[i].cs|
    requires Owners(r.states[i], d) == 0
    ensures d < |r.states[j].cs| && Owners(r.states[j], d) == 0
    decreases j
  {
    if i < j {
      GoneForEver(r, i, j - 1, d);
      GoneNext(r, j - 1, d);
    }
  }

  // No use after free.

  /** The step follows a pointer to connection `d`. */
  ghost predicate Touches(s: State, step: Step, d: ConnId) {
    match step
    case Create => false
    case ByDial(_) => DialConn(s.dial) == Some(d)
    case BySend(t, x) => t in s.calls && TouchesCall(s.table, s.calls[t], x.SendGet? || x.StatusGet?, step, d)
    case ByClose(t, x) => t in s.calls && TouchesCall(s.table, s.calls[t], x.CloseGet?, step, d)
    case ByBatch(x) => if x.NextEvent? then LoopFocus(s.loop) == d else x.EventRelease? && LoopHeld(s.loop) == Some(d)
    case ByRead(_) => LoopHeld(s.loop) == Some(d)
    case ByConnect(_) => LoopHeld(s.loop) == Some(d)
    case ByWrite(_) => LoopHeld(s.loop) == Some(d)
    case ByReap(x) =>
      match x
      case Sweep(_) => InConns(s, d)              // check_timeout looks at all of them
      case SweepDone => d in s.table.recycles     // clear releases all of them
      case CloseCallback => LoopHeld(s.loop) == Some(d)  // get_last_error
      case _ => false
  }

  predicate TouchesCall(t: Table, call: Call, seeks: bool, step: Step, d: ConnId) {
    var h := HandleSought(call, step);
    Held(call) == Some(d) || (seeks && h in t.conns && t.conns[h] == d)
  }

  /** The last line of `connect` reads the handle although `connect` no longer owns the connection. */
  predicate ReadsHandle(step: Step) {
    step.ByDial? && step.dial.DialReturn?
  }

  lemma OwnedIsAlive(s: State, d: ConnId)
    requires Counted(s) && d < |s.cs| && (Owners(s, d) > 0 || IsOnline(s.table.conns, d) || d in s.table.recycles)
    ensures d < |s.table.frees| && s.table.frees[d] == 0 && s.table.refs[d] >= 1
  {
    assert Balanced(s.table, d, Owners(s, d));
  }

  lemma HolderIsAlive(s: State, t: Thread)
    requires Counted(s) && t in s.calls && Held(s.calls[t]).Some?
    ensures Held(s.calls[t]).value < |s.table.frees| && s.table.frees[Held(s.calls[t]).value] == 0
  {
    var d := Held(s.calls[t]).value;
    assert CallTyped(s.calls[t], |s.cs|);
    assert t in Holders(s.calls, d);
    OwnedIsAlive(s, d);
  }

  lemma TouchedByLoop(s: State, step: Step, d: ConnId)
    requires Counted(s) && Can(s, step) && Touches(s, step, d) && OnLoop(step)
    ensures d < |s.cs| && (Owners(s, d) > 0 || IsOnline(s.table.conns, d) || d in s.table.recycles)
  {
  }

  lemma TouchedIsAlive(s: State, step: Step, d: ConnId)
    requires Counted(s) && Can(s, step) && Touches(s, step, d)
    requires ReadsHandle(step) ==> IsOnline(s.table.conns, d)
    ensures d < |s.table.frees| && s.table.frees[d] == 0
  {
    match step
    case Create =>
    case ByDial(_) => OwnedIsAlive(s, d);
    case BySend(t, _) =>
      if Held(s.calls[t]) == Some(d) {
        HolderIsAlive(s, t);
      } else {
        OwnedIsAlive(s, d);
      }
    case ByClose(t, _) =>
      if Held(s.calls[t]) == Some(d) {
        HolderIsAlive(s, t);
      } else {
        OwnedIsAlive(s, d);
      }
    case _ =>
      TouchedByLoop(s, step, d);
      OwnedIsAlive(s, d);
  }

  /** No connection that the loop still has to look at is deleted. */
  lemma {:induction false} RestIsAlive(r: Run, i: nat, k: nat)
    requires IsCarefulRun(r) && i < |r.states| && k < |Rest(r.states[i].loop)|
    ensures Rest(r.states[i].loop)[k].conn < |r.states[i].table.frees|
    ensures r.states[i].table.frees[Rest(r.states[i].loop)[k].conn] == 0
  {
    Always(r, i);
    OwnedIsAlive(r.states[i], Rest(r.states[i].loop)[k].conn);
  }

  /** Only `clear` takes a connection out of the registry for good. */
  lemma KeptInView(v: View, c: ConnId, step: Step, d: ConnId)
    requires ViewNamed(v, c) && Enabled(v, step) && Kept(v.table, d) && step != ByReap(SweepDone)
    ensures Kept(Effect(v, step).table, d)
  {
  }

  lemma KeptInStep(s: State, step: Step, d: ConnId)
    requires Alive(s) && Can(s, step) && Kept(s.table, d) && step != ByReap(SweepDone)
    ensures Kept(Do(s, step).table, d)
  {
    if !step.Create? {
      AliveSeen(s, step);
      KeptInView(Look(s, FocusOf(s, step), Actor(step)), FocusOf(s, step), step, d);
    }
  }

  /** Step `j` fetched a batch, and `clear` has not run again before state `i`. */
  ghost predicate FetchedAt(r: Run, j: nat, evs: seq<Event>, i: nat) {
    && j < i < |r.states| && i <= |r.steps| && r.steps[j] == ByBatch(Poll(evs))
    && forall m :: j < m < i ==> r.steps[m] != ByReap(SweepDone)
  }

  lemma {:induction false} FetchedIsKept(r: Run, j: nat, evs: seq<Event>, k: nat)
    requires IsCarefulRun(r) && j < |r.steps| && r.steps[j] == ByBatch(Poll(evs)) && k < |evs|
    ensures evs[k].conn < |r.states[j].cs| && Kept(r.states[j].table, evs[k].conn)
  {
    Always(r, j);
    assert Takes(r, j);
    LegalWorkSeen(r.states[j], r.steps[j]);
  }

  lemma {:induction false} StaysKept(r: Run, i: nat, d: ConnId)
    requires IsCarefulRun(r) && i < |r.steps| && r.steps[i] != ByReap(SweepDone)
    requires d < |r.states[i].cs| && Kept(r.states[i].table, d)
    ensures d < |r.states[i + 1].cs| && Kept(r.states[i + 1].table, d)
  {
    Always(r, i);
    assert Takes(r, i);
    ConnsGrow(r.states[i], r.steps[i]);
    KeptInStep(r.states[i], r.steps[i], d);
  }

  lemma {:induction false} BatchIsKept(r: Run, j: nat, evs: seq<Event>, i: nat, k: nat)
    requires IsCarefulRun(r) && FetchedAt(r, j, evs, i) && k < |evs|
    ensures evs[k].conn < |r.states[i].cs| && Kept(r.states[i].table, evs[k].conn)
    decreases i
  {
    if i == j + 1 {
      FetchedIsKept(r, j, evs, k);
    } else {
      BatchIsKept(r, j, evs, i - 1, k);
    }
    StaysKept(r, i - 1, evs[k].conn);
  }

  /**
   * No connection of a batch, handled already or not, is deleted before the `clear` that
   * follows the batch, although the loop takes its references only one by one.
   */
  lemma {:induction false} BatchIsAlive(r: Run, j: nat, evs: seq<Event>, i: nat, k: nat)
    requires IsCarefulRun(r) && FetchedAt(r, j, evs, i) && k < |evs|
    ensures evs[k].conn < |r.states[i].table.frees| && r.states[i].table.frees[evs[k].conn] == 0
  {
    BatchIsKept(r, j, evs, i, k);
    Always(r, i);
    OwnedIsAlive(r.states[i], evs[k].conn);
  }

  /** In such a run no `close` finds a connection before its `connect` has returned. */
  ghost predicate Patient(r: Run) {
    forall i: nat :: i < |r.steps| ==> Waits(r, i)
  }

  predicate Waits(r: Run, i: nat) {
    i < |r.steps| && i < |r.states| && PatientStep(r.states[i], r.steps[i])
  }

  predicate PatientStep(s: State, step: Step) {
    Actor(step) in s.calls ==> PatientView(Look(s, 0, Actor(step)), step)
  }

  ghost predicate DialUndisturbed(s: State) {
    && (s.dial.DialEvented? ==> IsOnline(s.table.conns, s.dial.c))
    && (forall t :: t in s.calls && IsClose(s.calls[t]) ==> DialConn(s.dial) != Some(s.calls[t].c))
  }

  /** `DialUndisturbed`, as far as a step can see it. */
  predicate DialLeft(v: View) {
    && (v.dial.DialEvented? ==> IsOnline(v.table.conns, v.dial.c))
    && (IsClose(v.call) ==> DialConn(v.dial) != Some(v.call.c))
  }

  predicate DialEnds(v: View, w: View) {
    DialConn(w.dial) == None || DialConn(w.dial) == DialConn(v.dial)
  }

  predicate PatientView(v: View, step: Step) {
    step.ByClose? && step.close.CloseGet? && v.call.CloseStart? && v.call.h in v.table.conns ==>
      DialConn(v.dial) != Some(v.table.conns[v.call.h])
  }

  // One lemma for each kind of step, then all of them together.

  lemma DialKeptDial(v: View, c: ConnId, step: DialStep)
    requires ViewAlive(v, c) && Focused(v, c, ByDial(step)) && CanDial(v, step)
    requires DialLeft(v) && PatientView(v, ByDial(step))
    ensures DialLeft(DoDial(v, step)) && DialEnds(v, DoDial(v, step))
  {
  }

  lemma DialKeptSend(v: View, c: ConnId, t: Thread, step: SendStep)
    requires ViewAlive(v, c) && Focused(v, c, BySend(t, step)) && CanSend(v, t, step)
    requires DialLeft(v) && PatientView(v, BySend(t, step))
    ensures DialLeft(DoSend(v, t, step)) && DialEnds(v, DoSend(v, t, step))
  {
  }

  lemma DialKeptClose(v: View, c: ConnId, t: Thread, step: CloseStep)
    requires ViewAlive(v, c) && Focused(v, c, ByClose(t, step)) && CanClose(v, t, step)
    requires DialLeft(v) && PatientView(v, ByClose(t, step))
    ensures DialLeft(DoClose(v, t, step)) && DialEnds(v, DoClose(v, t, step))
  {
  }

  lemma DialKeptBatch(v: View, c: ConnId, step: BatchStep)
    requires ViewAlive(v, c) && Focused(v, c, ByBatch(step)) && CanBatch(v, step)
    requires DialLeft(v) && PatientView(v, ByBatch(step))
    ensures DialLeft(DoBatch(v, step)) && DialEnds(v, DoBatch(v, step))
  {
  }

  lemma DialKeptRead(v: View, c: ConnId, step: ReadStep)
    requires ViewAlive(v, c) && Focused(v, c, ByRead(step)) && CanRead(v, step)
    requires DialLeft(v) && PatientView(v, ByRead(step))
    ensures DialLeft(DoRead(v, step)) && DialEnds(v, DoRead(v, step))
  {
  }

  lemma DialKeptConnect(v: View, c: ConnId, step: ConnectStep)
    requires ViewAlive(v, c) && Focused(v, c, ByConnect(step)) && CanConnect(v, step)
    requires DialLeft(v) && PatientView(v, ByConnect(step))
    ensures DialLeft(DoConnect(v, step)) && DialEnds(v, DoConnect(v, step))
  {
  }

  lemma DialKeptWrite(v: View, c: ConnId, step: WriteStep)
    requires ViewAlive(v, c) && Focused(v, c, ByWrite(step)) && CanWrite(v, step)
    requires DialLeft(v) && PatientView(v, ByWrite(step))
    ensures DialLeft(DoWrite(v, step)) && DialEnds(v, DoWrite(v, step))
  {
  }

  lemma DialKeptReap(v: View, c: ConnId, step: ReapStep)
    requires ViewAlive(v, c) && Focused(v, c, ByReap(step)) && CanReap(v, step)
    requires DialLeft(v) && PatientView(v, ByReap(step))
    ensures DialLeft(DoReap(v, step)) && DialEnds(v, DoReap(v, step))
  {
  }

  lemma DialKeptEffect(v: View, c: ConnId, step: Step)
    requires ViewAlive(v, c) && Focused(v, c, step) && Enabled(v, step) && DialLeft(v) && PatientView(v, step)
    ensures DialLeft(Effect(v, step)) && DialEnds(v, Effect(v, step))
  {
    match step
    case Create =>
    case ByDial(x) => DialKeptDial(v, c, x);
    case BySend(t, x) => DialKeptSend(v, c, t, x);
    case ByClose(t, x) => DialKeptClose(v, c, t, x);
    case ByBatch(x) => DialKeptBatch(v, c, x);
    case ByRead(x) => DialKeptRead(v, c, x);
    case ByConnect(x) => DialKeptConnect(v, c, x);
    case ByWrite(x) => DialKeptWrite(v, c, x);
    case ByReap(x) => DialKeptReap(v, c, x);
  }

  lemma DialKept(s: State, step: Step, r: State)
    requires Alive(s) && DialUndisturbed(s) && Follows(s, step, r) && PatientStep(s, step)
    ensures DialUndisturbed(r)
  {
    if step.Create? {
      DialBorn(s);
    } else {
      AliveSeen(s, step);
      DialKeptEffect(Look(s, FocusOf(s, step), Actor(step)), FocusOf(s, step), step);
    }
  }

  lemma DialBorn(s: State)
    requires Alive(s) && Can(s, Create)
    ensures DialUndisturbed(Born(s))
  {
    forall t | t in s.calls && IsClose(s.calls[t])
      ensures s.calls[t].c < |s.cs|
    {
      assert CallTyped(s.calls[t], |s.cs|);
    }
  }

  lemma {:induction false} AlwaysAlive(r: Run, i: nat)
    requires IsCarefulRun(r) && i < |r.states|
    ensures Alive(r.states[i])
  {
    Always(r, i);
  }

  lemma {:induction false} NextUndisturbed(r: Run, i: nat)
    requires IsCarefulRun(r) && Patient(r) && i < |r.steps| && DialUndisturbed(r.states[i])
    ensures DialUndisturbed(r.states[i + 1])
  {
    AlwaysAlive(r, i);
    assert Takes(r, i) && Waits(r, i);
    DialKept(r.states[i], r.steps[i], r.states[i + 1]);
  }

  lemma {:induction false} AlwaysUndisturbed(r: Run, i: nat)
    requires IsCarefulRun(r) && Patient(r) && i < |r.states|
    ensures DialUndisturbed(r.states[i])
    decreases i
  {
    if i > 0 {
      AlwaysUndisturbed(r, i - 1);
      NextUndisturbed(r, i - 1);
    }
  }

  /** Every pointer that any thread follows leads to a connection that has not been deleted. */
  lemma {:induction false} NoUseAfterFree(r: Run, i: nat, d: ConnId)
    requires IsCarefulRun(r) && i < |r.steps|
    requires Touches(r.states[i], r.steps[i], d) && (ReadsHandle(r.steps[i]) ==> Patient(r))
    ensures d < |r.states[i].table.frees| && r.states[i].table.frees[d] == 0
  {
    Always(r, i);
    assert Takes(r, i);
    if ReadsHandle(r.steps[i]) {
      AlwaysUndisturbed(r, i);
    }
    TouchedIsAlive(r.states[i], r.steps[i], d);
  }

  // Closing.

  /** `TcpConnection::close` runs at most once, whoever races to call it. */
  lemma {:induction false} ClosesOnce(r: Run, i: nat, c: ConnId, t: Thread, u: Thread)
    requires IsCarefulRun(r) && i < |r.states| && c < |r.states[i].cs|
    ensures r.states[i].cs[c].closes <= 1
    ensures var calls := r.states[i].calls;
            t in calls && u in calls && BothWon(calls[t], calls[u]) ==> t == u
  {
    Always(r, i);
    assert LifeOk(r.states[i].cs[c], IsOnline(r.states[i].table.conns, c), c, r.states[i].dial);
  }

  /** A `close` never meets a connection other than the one its caller meant, because no handle is used twice. */
  lemma {:induction false} CloseMeetsItsTarget(r: Run, i: nat, t: Thread)
    requires IsCarefulRun(r) && i < |r.states| && t in r.states[i].calls && IsClose(r.states[i].calls[t])
    ensures var s, call := r.states[i], r.states[i].calls[t];
            && call.c < |s.cs|
            && (forall c: ConnId :: c < |s.cs| ==> (s.cs[c].handle == call.h <==> c == call.c))
            && (t == LOOP ==> s.loop.Closing? && call.c == s.loop.target.c)
  {
    Always(r, i);
    assert CallTyped(r.states[i].calls[t], |r.states[i].cs|) && CallNamed(r.states[i].calls[t]);
  }

  /** `make_handle` yields the handle the model gives out, at once; `addconn` never finds it taken. */
  lemma {:induction false} NewHandleIsFresh(r: Run, i: nat)
    requires IsCarefulRun(r) && i < |r.states| && r.states[i].counter < Handles.MAX_INT - 1
    ensures var s := r.states[i];
            && Handles.FirstFree(s.counter + 1, s.counter + 1, s.table.conns.Keys)
            && !Handles.Overflows(s.counter, s.table.conns.Keys)
            && (s.dial.DialReady? ==> s.dial.c < |s.cs| && s.cs[s.dial.c].handle !in s.table.conns)
  {
    Always(r, i);
    var s := r.states[i];
    Handles.NextIsNew(s.counter, s.table.conns.Keys);
    if s.dial.DialReady? {
      assert LifeOk(s.cs[s.dial.c], IsOnline(s.table.conns, s.dial.c), s.dial.c, s.dial);
    }
  }

  // What the application hears and what the socket gets.

  /** Every connection is heard of as (onConnect onRead*)? onClose?. */
  lemma {:induction false} CallbackLanguage(r: Run, i: nat, c: ConnId)
    requires IsCarefulRun(r) && i < |r.states| && c < |r.states[i].cs|
    ensures IsSession(r.states[i].cs[c].heard)
  {
    Always(r, i);
    assert TalksOk(r.states[i], c);
    PhaseIsSession(r.states[i].cs[c].heard);
  }

  /**
   * Bytes sent, followed by bytes still to be sent, are the accepted messages in order; with
   * the mutex free, the bytes still to be sent are what the output buffer holds.
   */
  lemma {:induction false} OutputIsConserved(r: Run, i: nat, c: ConnId)
    requires IsCarefulRun(r) && i < |r.states| && c < |r.states[i].cs|
    ensures var s := r.states[i];
            && s.cs[c].sent + Unsent(s.cs[c], s.loop, c) == s.cs[c].accepted
            && (s.cs[c].locked.None? ==> Unsent(s.cs[c], s.loop, c) == s.cs[c].output)
  {
    Always(r, i);
    assert FlowsOk(r.states[i], c);
  }

  /** With the mutex free, a registered connection that waits for epoll is woken by epoll. */
  lemma {:induction false} NoLostWakeUp(r: Run, i: nat, c: ConnId)
    requires IsCarefulRun(r) && i < |r.states| && c < |r.states[i].cs|
    requires r.states[i].cs[c].registered && r.states[i].cs[c].locked.None?
    requires r.states[i].cs[c].output != [] || r.states[i].cs[c].state == Connecting
    ensures r.states[i].cs[c].wantWrite
  {
    Always(r, i);
    assert FlowsOk(r.states[i], c);
  }

  // Shutdown.

  /** Nobody is inside `connect`, `send`, `getStatus` or `close`, and the loop handles no event. */
  ghost predicate Quiet(s: State) {
    s.dial.NoDial? && LoopHeld(s.loop).None? && forall t :: t in s.calls ==> Held(s.calls[t]).None?
  }

  /** The state of the registry that `Destroy` asks for holds at every moment of every run. */
  lemma RegistryOwns(s: State)
    requires Counted(s)
    ensures s.table.Owned()
  {
    forall c: ConnId | c < |s.table.refs| && s.table.Holds(c)
      ensures s.table.refs[c] >= 1
    {
      HasKey(s.table.conns, c);
      OneplaceOnly(s, c);
      OwnedIsAlive(s, c);
    }
  }

  lemma QuietOwners(s: State, d: ConnId)
    requires Counted(s) && Quiet(s) && d < |s.cs|
    ensures d < |s.table.refs| == |s.table.frees|
    ensures if s.table.Holds(d) then s.table.refs[d] == 1 && s.table.frees[d] == 0 else s.table.frees[d] == 1
  {
    assert Holders(s.calls, d) == {};
    assert Balanced(s.table, d, Owners(s, d));
    HasKey(s.table.conns, d);
    OneplaceOnly(s, d);
  }

  /** `~OnlineUser` after the threads have gone: every connection ever created is deleted exactly once. */
  method Shutdown(online: OnlineUser, ghost r: Run)
    requires IsCarefulRun(r) && Quiet(r.states[|r.steps|]) && online.Value() == r.states[|r.steps|].table
    modifies online
    ensures |online.frees| == |r.states[|r.steps|].cs|
    ensures forall d :: 0 <= d < |online.frees| ==> online.frees[d] == 1
  {
    ghost var s := r.states[|r.steps|];
    Always(r, |r.steps|);
    RegistryOwns(s);
    online.Destroy();
    forall d | 0 <= d < |online.frees|
      ensures online.frees[d] == 1
    {
      QuietOwners(s, d);
    }
  }
}
