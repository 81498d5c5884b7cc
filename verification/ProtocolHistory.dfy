/**
 * The fields of a connection, told from the steps of the run alone: who wrote its state
 * last, which requests to epoll still stand, what was sent and heard; and that `close` is
 * final.
 */
module History {
  import opened Codec
  import opened Interface
  import opened Registry
  import opened Protocol
  import opened Lifetimes
  import opened Runs
  import Callbacks

  /** The connection that a step works on; what it only looks up or passes by does not count. */
  function Subject(s: State, step: Step): Option<ConnId> {
    if Actor(step) in s.calls then SubjectOf(s.dial, s.loop, s.calls[Actor(step)], step) else None
  }

  function SubjectOf(d: Dial, loop: Loop, call: Call, step: Step): Option<ConnId> {
    match step
    case Create => None
    case ByDial(_) => DialConn(d)
    case BySend(_, _) => Held(call)
    case ByClose(_, _) => Held(call)
    case ByBatch(_) => None
    case ByRead(_) => LoopHeld(loop)
    case ByConnect(_) => LoopHeld(loop)
    case ByWrite(_) => LoopHeld(loop)
    case ByReap(x) => if x.CloseCallback? && TargetOf(loop).Some? then Some(TargetOf(loop).value.c) else None
  }

  /** Step `k` works on connection `c`. */
  predicate On(r: Run, k: nat, c: ConnId) {
    k < |r.steps| && k < |r.states| && c < |r.states[k].cs| && Subject(r.states[k], r.steps[k]) == Some(c)
  }

  // What one step does to each field.

  function StateWritten(step: Step): Option<ConnState> {
    if step == ByDial(DialStart) then Some(Connecting)
    else if step == ByConnect(SetConnected) then Some(Connected)
    else if step.ByClose? && step.close.CloseMark? then Some(ConnState.Closed)
    else None
  }

  datatype Flag = IsOpen | IsRegistered | WantsWrite

  predicate FlagOf(r: Conn, f: Flag) {
    match f
    case IsOpen => r.open
    case IsRegistered => r.registered
    case WantsWrite => r.wantWrite
  }

  /** A socket, an EPOLL_CTL_ADD, an EPOLL_CTL_MOD with EPOLLOUT; epoll ignores what it does not know. */
  predicate Sets(f: Flag, r: Conn, step: Step) {
    match f
    case IsOpen => step == ByDial(DialStart)
    case IsRegistered => step == ByDial(DialRegister) && r.open
    case WantsWrite =>
      || (step == ByDial(DialRegister) && r.open)
      || (step.BySend? && step.send.SendNotify? && r.registered)
  }

  /** The close of the socket, an EPOLL_CTL_DEL, an EPOLL_CTL_MOD without EPOLLOUT. */
  predicate Clears(f: Flag, r: Conn, step: Step) {
    match f
    case IsOpen => step.ByClose? && step.close.CloseSocket?
    case IsRegistered => step.ByClose? && (step.close.CloseSocket? || (step.close.CloseUnregister? && r.open))
    case WantsWrite => step == ByWrite(WriteNotify) && r.output == [] && r.registered
  }

  predicate FieldsFollow(r: Conn, q: Conn, step: Step) {
    && q.state == (if StateWritten(step).Some? then StateWritten(step).value else r.state)
    && (forall f: Flag :: FlagOf(q, f) <==> Sets(f, r, step) || (FlagOf(r, f) && !Clears(f, r, step)))
    && q.closes == r.closes + (if step.ByClose? && step.close.CloseMark? then 1 else 0)
    && q.sent == r.sent + (if step.ByWrite? && step.write.WriteSome? then step.write.took else [])
    && q.heard == Callbacks.HeardAfter(r.heard, step)
    && q.handle == r.handle
  }

  // One lemma for each kind of step, then all of them together.

  lemma FieldsDial(v: View, step: DialStep)
    requires Typed(v) && CanDial(v, step)
    ensures FieldsFollow(v.conn, DoDial(v, step).conn, ByDial(step))
  {
  }

  lemma FieldsSend(v: View, t: Thread, step: SendStep)
    requires Typed(v) && CanSend(v, t, step)
    ensures FieldsFollow(v.conn, DoSend(v, t, step).conn, BySend(t, step))
    ensures Held(v.call).None? ==> DoSend(v, t, step).conn == v.conn
  {
  }

  lemma FieldsClose(v: View, t: Thread, step: CloseStep)
    requires Typed(v) && CanClose(v, t, step)
    ensures FieldsFollow(v.conn, DoClose(v, t, step).conn, ByClose(t, step))
    ensures Held(v.call).None? ==> DoClose(v, t, step).conn == v.conn
  {
  }

  lemma FieldsRead(v: View, step: ReadStep)
    requires Typed(v) && CanRead(v, step)
    ensures FieldsFollow(v.conn, DoRead(v, step).conn, ByRead(step))
  {
  }

  lemma FieldsConnect(v: View, step: ConnectStep)
    requires Typed(v) && CanConnect(v, step)
    ensures FieldsFollow(v.conn, DoConnect(v, step).conn, ByConnect(step))
  {
  }

  lemma FieldsWrite(v: View, step: WriteStep)
    requires Typed(v) && CanWrite(v, step)
    ensures FieldsFollow(v.conn, DoWrite(v, step).conn, ByWrite(step))
  {
  }

  lemma FieldsReap(v: View, step: ReapStep)
    requires Typed(v) && CanReap(v, step)
    ensures FieldsFollow(v.conn, DoReap(v, step).conn, ByReap(step))
    ensures !step.CloseCallback? ==> DoReap(v, step).conn == v.conn
  {
  }

  lemma FieldsEffect(v: View, step: Step)
    requires Typed(v) && Enabled(v, step) && !step.Create? && !step.ByBatch?
    ensures FieldsFollow(v.conn, Effect(v, step).conn, step)
  {
    match step
    case ByDial(x) => FieldsDial(v, x);
    case BySend(t, x) => FieldsSend(v, t, x);
    case ByClose(t, x) => FieldsClose(v, t, x);
    case ByRead(x) => FieldsRead(v, x);
    case ByConnect(x) => FieldsConnect(v, x);
    case ByWrite(x) => FieldsWrite(v, x);
    case ByReap(x) => FieldsReap(v, x);
  }

  /** A step that works on no connection changes none. */
  lemma NoSubject(s: State, step: Step)
    requires WellTyped(s) && Can(s, step) && !step.Create? && Subject(s, step).None?
    ensures var v := Look(s, FocusOf(s, step), Actor(step)); Effect(v, step).conn == v.conn
  {
    var v := Look(s, FocusOf(s, step), Actor(step));
    match step
    case BySend(t, x) => FieldsSend(v, t, x);
    case ByClose(t, x) => FieldsClose(v, t, x);
    case ByReap(x) => FieldsReap(v, x);
    case _ =>
  }

  lemma SubjectInFocus(s: State, step: Step)
    requires WellTyped(s) && Can(s, step) && Subject(s, step).Some?
    ensures FocusOf(s, step) == Subject(s, step).value
  {
  }

  /** In a run: the subject of a step changes as `FieldsFollow` says, every other connection stays as it is. */
  lemma {:induction false} FieldsNext(r: Run, i: nat, c: ConnId)
    requires IsRun(r) && i < |r.steps| && c < |r.states[i].cs|
    ensures c < |r.states[i + 1].cs|
    ensures if On(r, i, c) then FieldsFollow(r.states[i].cs[c], r.states[i + 1].cs[c], r.steps[i])
            else r.states[i + 1].cs[c] == r.states[i].cs[c]
  {
    var s, step := r.states[i], r.steps[i];
    assert Takes(r, i);
    if !step.Create? {
      if Subject(s, step).Some? {
        SubjectInFocus(s, step);
        FieldsEffect(Look(s, FocusOf(s, step), Actor(step)), step);
      } else {
        NoSubject(s, step);
      }
    }
  }

  /** A new connection has nothing in its fields, and no step has worked on it. */
  lemma {:induction false} NewConn(r: Run, i: nat, c: ConnId)
    requires IsRun(r) && i < |r.steps| && c < |r.states[i + 1].cs| && c >= |r.states[i].cs|
    ensures var q := r.states[i + 1].cs[c];
            q == NOBODY.(handle := q.handle)
  {
    assert Takes(r, i);
  }

  lemma {:induction false} NothingBefore(r: Run, i: nat, k: nat, c: ConnId)
    requires IsRun(r) && k <= i < |r.states| && c >= |r.states[i].cs|
    ensures c >= |r.states[k].cs|
    decreases i
  {
    if k < i {
      assert Takes(r, i - 1);
      ConnsGrow(r.states[i - 1], r.steps[i - 1]);
      NothingBefore(r, i - 1, k, c);
    }
  }

  /** No step before `i` works on `c`. */
  ghost predicate Untouched(r: Run, i: nat, c: ConnId) {
    forall k: nat :: k < i ==> !On(r, k, c)
  }

  /** Before a connection is created no step works on it. */
  lemma {:induction false} BornUntouched(r: Run, i: nat, c: ConnId)
    requires IsRun(r) && i < |r.states| && c >= |r.states[i].cs|
    ensures Untouched(r, i, c) && Untouched(r, i + 1, c)
  {
    forall k: nat | k < i + 1
      ensures !On(r, k, c)
    {
      NothingBefore(r, i, k, c);
    }
  }

  // The state.

  /** What the last step on `c` that writes `_state` has written there; CLOSED if none has. */
  function LastState(r: Run, i: nat, c: ConnId): ConnState
    requires i <= |r.steps|
    decreases i
  {
    if i == 0 then ConnState.Closed
    else if On(r, i - 1, c) && StateWritten(r.steps[i - 1]).Some? then StateWritten(r.steps[i - 1]).value
    else LastState(r, i - 1, c)
  }

  lemma {:induction false} NoStateBefore(r: Run, i: nat, c: ConnId)
    requires i <= |r.steps| && Untouched(r, i, c)
    ensures LastState(r, i, c) == ConnState.Closed
    decreases i
  {
    if i > 0 {
      NoStateBefore(r, i - 1, c);
    }
  }

  lemma {:induction false} StateNext(r: Run, i: nat, c: ConnId)
    requires IsRun(r) && i < |r.steps| && c < |r.states[i].cs|
    ensures c < |r.states[i + 1].cs|
    ensures r.states[i + 1].cs[c].state ==
            if On(r, i, c) && StateWritten(r.steps[i]).Some? then StateWritten(r.steps[i]).value
            else r.states[i].cs[c].state
  {
    FieldsNext(r, i, c);
  }

  lemma {:induction false} NewState(r: Run, i: nat, c: ConnId)
    requires IsRun(r) && i < |r.steps| && c < |r.states[i + 1].cs| && c >= |r.states[i].cs|
    ensures r.states[i + 1].cs[c].state == ConnState.Closed == LastState(r, i + 1, c)
  {
    NewConn(r, i, c);
    BornUntouched(r, i, c);
    NoStateBefore(r, i + 1, c);
  }

  /** `_state` is what was written last; only `connect`, the end of a connect, and `close` write it. */
  lemma {:induction false} StateIsLastWritten(r: Run, i: nat, c: ConnId)
    requires IsRun(r) && i < |r.states| && c < |r.states[i].cs|
    ensures r.states[i].cs[c].state == LastState(r, i, c)
    decreases i
  {
    if i > 0 && c < |r.states[i - 1].cs| {
      StateIsLastWritten(r, i - 1, c);
      StateNext(r, i - 1, c);
    } else if i > 0 {
      NewState(r, i - 1, c);
    }
  }

  // What epoll and the kernel know.

  predicate SetAt(r: Run, f: Flag, k: nat, c: ConnId) {
    On(r, k, c) && Sets(f, r.states[k].cs[c], r.steps[k])
  }

  predicate ClearedAt(r: Run, f: Flag, k: nat, c: ConnId) {
    On(r, k, c) && Clears(f, r.states[k].cs[c], r.steps[k])
  }

  /** A step before `i` has set the flag, and none since then has cleared it. */
  ghost predicate StillSet(r: Run, f: Flag, i: nat, c: ConnId) {
    exists m: nat :: m < i && SetAt(r, f, m, c) && forall k: nat :: m < k < i ==> !ClearedAt(r, f, k, c)
  }

  lemma {:induction false} StillSetNext(r: Run, f: Flag, i: nat, c: ConnId)
    requires i < |r.steps|
    ensures StillSet(r, f, i + 1, c) <==> SetAt(r, f, i, c) || (StillSet(r, f, i, c) && !ClearedAt(r, f, i, c))
  {
    if SetAt(r, f, i, c) {
      assert StillSet(r, f, i + 1, c);
    }
    if StillSet(r, f, i, c) && !ClearedAt(r, f, i, c) {
      var m: nat :| m < i && SetAt(r, f, m, c) && forall k: nat :: m < k < i ==> !ClearedAt(r, f, k, c);
      assert forall k: nat :: m < k < i + 1 ==> !ClearedAt(r, f, k, c);
    }
    if StillSet(r, f, i + 1, c) && !SetAt(r, f, i, c) {
      var m: nat :| m < i + 1 && SetAt(r, f, m, c) && forall k: nat :: m < k < i + 1 ==> !ClearedAt(r, f, k, c);
      assert m < i && forall k: nat :: m < k < i ==> !ClearedAt(r, f, k, c);
    }
  }

  /**
   * The socket is open, the connection registered, its write event on, if and only if a step
   * has made it so and none has undone it since.
   */
  lemma {:induction false} FlagIsLastSet(r: Run, i: nat, c: ConnId, f: Flag)
    requires IsRun(r) && i < |r.states| && c < |r.states[i].cs|
    ensures FlagOf(r.states[i].cs[c], f) <==> StillSet(r, f, i, c)
    decreases i
  {
    if i > 0 && c < |r.states[i - 1].cs| {
      FlagIsLastSet(r, i - 1, c, f);
      FieldsNext(r, i - 1, c);
      StillSetNext(r, f, i - 1, c);
    } else if i > 0 {
      NewConn(r, i - 1, c);
      BornUntouched(r, i - 1, c);
    }
  }

  // What was sent, heard and closed.

  /** What the socket took in the writes for `c`, in order. */
  function Took(r: Run, i: nat, c: ConnId): seq<byte>
    requires i <= |r.steps|
    decreases i
  {
    if i == 0 then []
    else Took(r, i - 1, c) +
         if On(r, i - 1, c) && r.steps[i - 1].ByWrite? && r.steps[i - 1].write.WriteSome?
         then r.steps[i - 1].write.took else []
  }

  /** The callbacks made for `c`, in order. */
  function Calls(r: Run, i: nat, c: ConnId): seq<Callback>
    requires i <= |r.steps|
    decreases i
  {
    if i == 0 then []
    else if On(r, i - 1, c) then Callbacks.HeardAfter(Calls(r, i - 1, c), r.steps[i - 1])
    else Calls(r, i - 1, c)
  }

  predicate MarkedAt(r: Run, k: nat, c: ConnId) {
    On(r, k, c) && r.steps[k].ByClose? && r.steps[k].close.CloseMark?
  }

  function Marks(r: Run, i: nat, c: ConnId): nat
    requires i <= |r.steps|
    decreases i
  {
    if i == 0 then 0 else Marks(r, i - 1, c) + if MarkedAt(r, i - 1, c) then 1 else 0
  }

  lemma {:induction false} NothingRecorded(r: Run, i: nat, c: ConnId)
    requires i <= |r.steps| && Untouched(r, i, c)
    ensures Took(r, i, c) == [] && Calls(r, i, c) == [] && Marks(r, i, c) == 0
    decreases i
  {
    if i > 0 {
      NothingRecorded(r, i - 1, c);
    }
  }

  lemma {:induction false} RecordNext(r: Run, i: nat, c: ConnId)
    requires IsRun(r) && i < |r.steps| && c < |r.states[i].cs|
    requires Recorded(r, i, c)
    ensures Recorded(r, i + 1, c)
  {
    FieldsNext(r, i, c);
  }

  lemma {:induction false} RecordBegins(r: Run, i: nat, c: ConnId)
    requires IsRun(r) && i < |r.steps| && c < |r.states[i + 1].cs| && c >= |r.states[i].cs|
    ensures Recorded(r, i + 1, c)
  {
    NewConn(r, i, c);
    BornUntouched(r, i, c);
    NothingRecorded(r, i + 1, c);
  }

  predicate Recorded(r: Run, i: nat, c: ConnId) {
    && i <= |r.steps| && i < |r.states| && c < |r.states[i].cs|
    && r.states[i].cs[c].sent == Took(r, i, c) && r.states[i].cs[c].heard == Calls(r, i, c)
    && r.states[i].cs[c].closes == Marks(r, i, c)
  }

  /** The bytes sent, the callbacks heard and the runs of `close` are those of the steps. */
  lemma {:induction false} TrafficIsRecorded(r: Run, i: nat, c: ConnId)
    requires IsRun(r) && i < |r.states| && c < |r.states[i].cs|
    ensures r.states[i].cs[c].sent == Took(r, i, c) && r.states[i].cs[c].heard == Calls(r, i, c)
    ensures r.states[i].cs[c].closes == Marks(r, i, c)
    decreases i
  {
    if i > 0 && c < |r.states[i - 1].cs| {
      TrafficIsRecorded(r, i - 1, c);
      RecordNext(r, i - 1, c);
    } else if i > 0 {
      RecordBegins(r, i - 1, c);
    }
  }

  // `close` is final.

  /** The loop writes CONNECTED into the state of `c`. */
  predicate ConnectedAt(r: Run, k: nat, c: ConnId) {
    On(r, k, c) && r.steps[k] == ByConnect(SetConnected)
  }

  /** Between the steps `m` and `i` the loop has done so. */
  ghost predicate Overwritten(r: Run, m: nat, i: nat, c: ConnId) {
    exists k: nat :: m < k < i && ConnectedAt(r, k, c)
  }

  lemma OverwrittenNext(r: Run, m: nat, i: nat, c: ConnId)
    requires m < i
    ensures Overwritten(r, m, i + 1, c) <==> Overwritten(r, m, i, c) || ConnectedAt(r, i, c)
  {
  }

  lemma {:induction false} ClosesNext(r: Run, i: nat, c: ConnId)
    requires IsRun(r) && i < |r.steps| && c < |r.states[i].cs|
    ensures c < |r.states[i + 1].cs|
    ensures r.states[i + 1].cs[c].closes == r.states[i].cs[c].closes + if MarkedAt(r, i, c) then 1 else 0
  {
    FieldsNext(r, i, c);
  }

  lemma {:induction false} MarkedCounts(r: Run, m: nat, i: nat, c: ConnId)
    requires IsRun(r) && m < i < |r.states| && MarkedAt(r, m, c)
    ensures c < |r.states[i].cs| && r.states[i].cs[c].closes >= 1
    decreases i
  {
    if i == m + 1 {
      ClosesNext(r, m, c);
    } else {
      MarkedCounts(r, m, i - 1, c);
      ClosesNext(r, i - 1, c);
    }
  }

  /** Nobody dials a connection that has been closed. */
  lemma {:induction false} NoDialAgain(r: Run, k: nat, c: ConnId)
    requires IsCarefulRun(r) && k < |r.steps| && On(r, k, c) && r.states[k].cs[c].closes >= 1
    ensures r.steps[k] != ByDial(DialStart)
  {
    Always(r, k);
    assert Takes(r, k);
    assert LifeOk(r.states[k].cs[c], IsOnline(r.states[k].table.conns, c), c, r.states[k].dial);
  }

  /** Behind a `close` no other one runs, so the only write that can follow is the one of the loop. */
  lemma {:induction false} WriteAfterClose(r: Run, m: nat, k: nat, c: ConnId)
    requires IsCarefulRun(r) && m < k < |r.steps| && MarkedAt(r, m, c)
    ensures On(r, k, c) && StateWritten(r.steps[k]).Some? <==> ConnectedAt(r, k, c)
  {
    if On(r, k, c) {
      MarkedCounts(r, m, k, c);
      NoDialAgain(r, k, c);
      ClosesNext(r, k, c);
      ClosesOnce(r, k + 1, c, LOOP, LOOP);
    }
  }

  /**
   * From the moment `TcpConnection::close` has written CLOSED the connection stays closed,
   * unless the loop, which had seen it connecting, still writes CONNECTED over it.
   */
  lemma {:induction false} CloseIsFinal(r: Run, m: nat, i: nat, c: ConnId)
    requires IsCarefulRun(r) && m < i < |r.states| && MarkedAt(r, m, c)
    ensures c < |r.states[i].cs| && r.states[i].cs[c].state in {ConnState.Closed, Connected}
    ensures r.states[i].cs[c].state == ConnState.Closed <==> !Overwritten(r, m, i, c)
    decreases i
  {
    if i == m + 1 {
      StateNext(r, m, c);
    } else {
      CloseIsFinal(r, m, i - 1, c);
      StateNext(r, i - 1, c);
      WriteAfterClose(r, m, i - 1, c);
      OverwrittenNext(r, m, i - 1, c);
    }
  }
}
