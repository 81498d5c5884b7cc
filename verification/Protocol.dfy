/**
 * The concurrent life of connections (src/network.cpp, src/tcpconnection.cpp): one
 * event-loop thread and any number of application threads as an interleaving of atomic
 * steps. A step is one locked section, one epoll call, one read or write of `_state`,
 * one socket close, or one callback. Changing `_output` takes two steps, one that reads it
 * and one that stores the new value, so only the mutex keeps two changes apart.
 *
 * `epoll` semantics: MOD and DEL have no effect on a descriptor that is not registered or
 * already closed, and a batch names each connection at most once. A call that the
 * application makes from inside a callback is a step of an application thread that is
 * taken while the loop stands at that callback.
 */
module Protocol {
  import opened Codec
  import opened Interface
  import opened Registry
  import Handles

  type Thread = nat
  const LOOP: Thread := 0

  /** One `TcpConnection`: its fields, what epoll knows about it, and the traffic it carried. */
  datatype Conn = Conn(
    handle: int,
    state: ConnState,
    open: bool,             // the socket has a descriptor
    closes: nat,            // runs of TcpConnection::close
    registered: bool,
    wantWrite: bool,        // EPOLLOUT is on
    output: seq<byte>,
    accepted: seq<byte>,    // every message deliver_data took, in order
    sent: seq<byte>,        // every byte the socket took
    locked: Option<Thread>, // owner of _mutex
    heard: seq<Callback>    // the callbacks with its handle, in order
  )

  /** Where a thread stands in `NetWork::close`, `send` or `getStatus`. */
  datatype Call =
    | Idle
    | CloseStart(h: int)              // next: getconn
    | CloseGot(h: int, c: ConnId)     // next: remove_event
    | CloseUnreg(h: int, c: ConnId)   // next: removeconn
    | CloseWon(h: int, c: ConnId)     // removeconn was true; next: _state = CLOSED
    | CloseMarked(h: int, c: ConnId)  // next: _sock.close
    | CloseDone(h: int, c: ConnId)    // next: release
    | SendGot(c: ConnId, msg: seq<byte>)     // next: lock the connection
    | SendLocked(c: ConnId, msg: seq<byte>)  // next: check the state, read the output
    | SendCopied(c: ConnId, msg: seq<byte>, seen: seq<byte>)  // next: store the longer output
    | SendQueued(c: ConnId)                  // next: set_event(true, true)
    | SendUnlocking(c: ConnId)               // next: unlock
    | StatusGot(c: ConnId)                   // next: read the state
    | Releasing(c: ConnId)                   // next: release

  /** `NetWork::connect`; calls of it are serialised, so one place suffices. */
  datatype Dial =
    | NoDial
    | DialNew(c: ConnId)      // constructed, with its handle; next: _sock.connect
    | DialReady(c: ConnId)    // connecting; next: addconn
    | DialAdded(c: ConnId)    // next: add_event
    | DialEvented(c: ConnId)  // next: return

  datatype Event = Event(conn: ConnId, read: bool, write: bool)
  datatype Cur = Cur(ev: Event, rest: seq<Event>)

  /** A `close` on behalf of connection `c`; the code only has the handle. */
  datatype Target = Target(h: int, c: ConnId)

  /** Where the loop goes on after `close` and `onClose`. */
  datatype Cont = ThenWrite(cur: Cur) | ThenDone(cur: Cur) | ThenSweep(rest: seq<Target>)

  datatype EventPc =
    | ReadPart | Reading | WritePart | MarkConnected | CallOnConnect
    | WriteLocking | WriteLocked | WriteTaken(left: seq<byte>) | WriteDrained | WriteUnlocking | EventDone

  datatype Loop =
    | Polling
    | Batch(evs: seq<Event>)
    | Handling(pc: EventPc, cur: Cur)
    | Closing(target: Target, cont: Cont)    // inside NetWork::close
    | Notifying(target: Target, cont: Cont)  // next: onClose
    | Ticking
    | Sweeping(list: seq<Target>)
    | Stopped

  datatype State = State(
    table: Table, cs: seq<Conn>, counter: int, dial: Dial, calls: map<Thread, Call>, loop: Loop)

  /** What a step sees and changes: the shared places, one connection, one thread. */
  datatype View = View(table: Table, dial: Dial, loop: Loop, conn: Conn, call: Call)

  /** The steps of `NetWork::connect` behind the constructor. */
  datatype DialStep = DialFail | DialStart | DialAdd | DialRegister | DialReturn

  /** The steps of a thread inside `send` or `getStatus`. */
  datatype SendStep =
    | SendGet(h: int, msg: seq<byte>) | SendLock | SendQueue | SendStore | SendNotify | SendUnlock
    | StatusGet(h: int) | StatusRead | ReleaseCall

  /** The steps of a thread inside `close`. */
  datatype CloseStep =
    | CloseCall(h: int) | CloseGet | CloseUnregister | CloseRemove | CloseMark | CloseSocket | CloseRelease

  /** The steps of `event_loop` itself. */
  datatype BatchStep = Poll(evs: seq<Event>) | NextEvent | EventRelease | BatchDone | Stop

  /** The steps of `on_read_event`. */
  datatype ReadStep = ReadEvent | ReadPdu | ReadOk | ReadFail

  /** The steps of `on_write_event` outside `write_data`. */
  datatype ConnectStep = WriteEvent(connected: bool) | SetConnected | ConnectCallback

  /** The steps of `write_data`. */
  datatype WriteStep = WriteLock | WriteSome(took: seq<byte>, left: seq<byte>) | WriteDrain | WriteNotify | WriteUnlock

  /** The steps of the loop behind `close`, and of `time_process`. */
  datatype ReapStep = CloseReturned | CloseCallback | SkipTick | Sweep(list: seq<Target>) | SweepNext | SweepDone

  datatype Step =
    | Create
    | ByDial(dial: DialStep)
    | BySend(t: Thread, send: SendStep)
    | ByClose(t: Thread, close: CloseStep)
    | ByBatch(batch: BatchStep)
    | ByRead(read: ReadStep)
    | ByConnect(connect: ConnectStep)
    | ByWrite(write: WriteStep)
    | ByReap(reap: ReapStep)

  // Who holds what.

  function Held(call: Call): Option<ConnId> {
    match call
    case Idle => None
    case CloseStart(_) => None
    case CloseGot(_, c) => Some(c)
    case CloseUnreg(_, c) => Some(c)
    case CloseWon(_, c) => Some(c)
    case CloseMarked(_, c) => Some(c)
    case CloseDone(_, c) => Some(c)
    case SendGot(c, _) => Some(c)
    case SendLocked(c, _) => Some(c)
    case SendCopied(c, _, _) => Some(c)
    case SendQueued(c) => Some(c)
    case SendUnlocking(c) => Some(c)
    case StatusGot(c) => Some(c)
    case Releasing(c) => Some(c)
  }

  predicate IsClose(call: Call) {
    call.CloseGot? || call.CloseUnreg? || call.CloseWon? || call.CloseMarked? || call.CloseDone?
  }

  /** The event a `close` interrupted. */
  function ContCur(k: Cont): Option<Cur> {
    if k.ThenSweep? then None else Some(k.cur)
  }

  function Current(loop: Loop): Option<Cur> {
    match loop
    case Handling(_, cur) => Some(cur)
    case Closing(_, k) => ContCur(k)
    case Notifying(_, k) => ContCur(k)
    case _ => None
  }

  /** The reference `event_loop` takes for the event it handles. */
  function LoopHeld(loop: Loop): Option<ConnId> {
    if Current(loop).Some? then Some(Current(loop).value.ev.conn) else None
  }

  /** The rest of the batch. */
  function Rest(loop: Loop): seq<Event> {
    if loop.Batch? then loop.evs else if Current(loop).Some? then Current(loop).value.rest else []
  }

  /** The connection that the loop is closing. */
  function TargetOf(loop: Loop): Option<Target> {
    if loop.Closing? || loop.Notifying? then Some(loop.target) else None
  }

  /** The rest of the timeout list. */
  function Targets(loop: Loop): seq<Target> {
    if loop.Sweeping? then loop.list
    else if (loop.Closing? || loop.Notifying?) && loop.cont.ThenSweep? then loop.cont.rest
    else []
  }

  /** The reference a new connection is born with, until `addconn` hands it over. */
  function DialOwns(d: Dial): Option<ConnId> {
    if d.DialNew? || d.DialReady? then Some(d.c) else None
  }

  function DialConn(d: Dial): Option<ConnId> {
    if d.NoDial? then None else Some(d.c)
  }

  predicate SomeConnected(state: ConnState) {
    state == Connected || state == CryptRegIng
  }

  // Every name refers to one of the `n` connections created so far.

  predicate CallTyped(call: Call, n: nat) {
    Held(call).Some? ==> Held(call).value < n
  }

  predicate EventsTyped(evs: seq<Event>, n: nat) {
    forall i :: 0 <= i < |evs| ==> evs[i].conn < n
  }

  predicate LoopTyped(loop: Loop, n: nat) {
    (LoopHeld(loop).Some? ==> LoopHeld(loop).value < n) && EventsTyped(Rest(loop), n)
  }

  predicate DialTyped(d: Dial, n: nat) {
    DialConn(d).Some? ==> DialConn(d).value < n
  }

  predicate Typed(v: View) {
    && v.table.Shaped() && DialTyped(v.dial, |v.table.refs|) && LoopTyped(v.loop, |v.table.refs|)
    && CallTyped(v.call, |v.table.refs|)
  }

  // NetWork::connect

  predicate CanDial(v: View, step: DialStep) {
    match step
    case DialFail => v.dial.DialNew?
    case DialStart => v.dial.DialNew?
    case DialAdd => v.dial.DialReady?
    case DialRegister => v.dial.DialAdded?
    case DialReturn => v.dial.DialEvented?
  }

  function DoDial(v: View, step: DialStep): View
    requires Typed(v) && CanDial(v, step)
  {
    match step
    case DialFail => v.(table := Delete(v.table, v.dial.c), dial := NoDial)
    case DialStart => v.(conn := v.conn.(state := Connecting, open := true), dial := DialReady(v.dial.c))
    case DialAdd =>
      v.(table := AddConn(v.table, v.conn.handle, v.dial.c),
         dial := if v.conn.handle in v.table.conns then NoDial else DialAdded(v.dial.c))
    case DialRegister =>
      v.(conn := if v.conn.open then v.conn.(registered := true, wantWrite := true) else v.conn,
         dial := DialEvented(v.dial.c))
    case DialReturn => v.(dial := NoDial)
  }

  // NetWork::send and getStatus

  predicate CanSend(v: View, t: Thread, step: SendStep) {
    match step
    case SendGet(_, _) => t != LOOP && v.call.Idle?
    case SendLock => v.call.SendGot? && v.conn.locked.None?
    case SendQueue => v.call.SendLocked?
    case SendStore => v.call.SendCopied?
    case SendNotify => v.call.SendQueued?
    case SendUnlock => v.call.SendUnlocking?
    case StatusGet(_) => t != LOOP && v.call.Idle?
    case StatusRead => v.call.StatusGot?
    case ReleaseCall => v.call.Releasing?
  }

  /** `getconn`: a reference, and on to `got`, if the handle is online. */
  function Fetch(v: View, h: int, got: Call, missed: Call): View
    requires Typed(v)
  {
    if h in v.table.conns then v.(table := AddRef(v.table, v.table.conns[h]), call := got) else v.(call := missed)
  }

  function Found(t: Table, h: int): ConnId {
    if h in t.conns then t.conns[h] else 0
  }

  function DoSend(v: View, t: Thread, step: SendStep): View
    requires Typed(v) && CanSend(v, t, step)
  {
    match step
    case SendGet(h, msg) => Fetch(v, h, SendGot(Found(v.table, h), msg), Idle)
    case SendLock => v.(call := SendLocked(v.call.c, v.call.msg), conn := v.conn.(locked := Some(t)))
    case SendQueue =>
      if v.conn.state == Connected
      then v.(call := SendCopied(v.call.c, v.call.msg, v.conn.output))
      else v.(call := SendUnlocking(v.call.c))
    case SendStore => v.(call := SendQueued(v.call.c), conn := Queued(v.conn, v.call.seen, v.call.msg))
    case SendNotify =>
      v.(call := SendUnlocking(v.call.c), conn := if v.conn.registered then v.conn.(wantWrite := true) else v.conn)
    case SendUnlock => v.(call := Releasing(v.call.c), conn := v.conn.(locked := None))
    case StatusGet(h) => Fetch(v, h, StatusGot(Found(v.table, h)), Idle)
    case StatusRead => v.(call := Releasing(v.call.c))
    case ReleaseCall => v.(table := Release(v.table, v.call.c), call := Idle)
  }

  function Queued(r: Conn, seen: seq<byte>, msg: seq<byte>): Conn {
    r.(output := seen + msg, accepted := r.accepted + msg)
  }

  // NetWork::close

  predicate CanClose(v: View, t: Thread, step: CloseStep) {
    match step
    case CloseCall(_) => t != LOOP && v.call.Idle?
    case CloseGet => v.call.CloseStart?
    case CloseUnregister => v.call.CloseGot?
    case CloseRemove => v.call.CloseUnreg?
    case CloseMark => v.call.CloseWon?
    case CloseSocket => v.call.CloseMarked?
    case CloseRelease => v.call.CloseDone?
  }

  function DoClose(v: View, t: Thread, step: CloseStep): View
    requires Typed(v) && CanClose(v, t, step)
  {
    match step
    case CloseCall(h) => v.(call := CloseStart(h))
    case CloseGet => Fetch(v, v.call.h, CloseGot(v.call.h, Found(v.table, v.call.h)), Idle)
    case CloseUnregister =>
      v.(call := CloseUnreg(v.call.h, v.call.c), conn := if v.conn.open then v.conn.(registered := false) else v.conn)
    case CloseRemove =>
      v.(table := RemoveConn(v.table, v.call.h),
         call := if v.call.h in v.table.conns then CloseWon(v.call.h, v.call.c) else CloseDone(v.call.h, v.call.c))
    case CloseMark =>
      v.(call := CloseMarked(v.call.h, v.call.c),
         conn := v.conn.(state := ConnState.Closed, closes := v.conn.closes + 1))
    case CloseSocket => v.(call := CloseDone(v.call.h, v.call.c), conn := v.conn.(open := false, registered := false))
    case CloseRelease => v.(table := Release(v.table, v.call.c), call := Idle)
  }

  // NetWork::event_loop and TcpConnection::on_read_event

  predicate At(loop: Loop, pc: EventPc) {
    loop.Handling? && loop.pc == pc
  }

  predicate CanBatch(v: View, step: BatchStep) {
    match step
    case Poll(_) => v.loop.Polling?
    case NextEvent => v.loop.Batch? && |v.loop.evs| > 0
    case EventRelease => At(v.loop, EventDone)
    case BatchDone => v.loop.Batch? && |v.loop.evs| == 0
    case Stop => v.loop.Polling?
  }

  function DoBatch(v: View, step: BatchStep): View
    requires Typed(v) && CanBatch(v, step)
  {
    match step
    case Poll(evs) => v.(loop := Batch(evs))
    case NextEvent =>
      var evs := Rest(v.loop);
      v.(table := AddRef(v.table, evs[0].conn), loop := Handling(ReadPart, Cur(evs[0], evs[1..])))
    case EventRelease => v.(table := Release(v.table, v.loop.cur.ev.conn), loop := Batch(v.loop.cur.rest))
    case BatchDone => v.(loop := Ticking)
    case Stop => v.(loop := Stopped)
  }

  predicate CanRead(v: View, step: ReadStep) {
    match step
    case ReadEvent => At(v.loop, ReadPart)
    case ReadPdu => At(v.loop, Reading)
    case ReadOk => At(v.loop, Reading)
    case ReadFail => At(v.loop, Reading)
  }

  function Goto(v: View, pc: EventPc): View
    requires v.loop.Handling?
  {
    v.(loop := Handling(pc, v.loop.cur))
  }

  /** The loop enters `NetWork::close`. */
  function StartClose(v: View, target: Target, k: Cont): View {
    v.(loop := Closing(target, k), call := CloseStart(target.h))
  }

  function Log(v: View, cb: Callback): View {
    v.(conn := v.conn.(heard := v.conn.heard + [cb]))
  }

  function DoRead(v: View, step: ReadStep): View
    requires CanRead(v, step)
  {
    match step
    case ReadEvent => Goto(v, if v.loop.cur.ev.read && SomeConnected(v.conn.state) then Reading else WritePart)
    case ReadPdu => Log(v, OnRead)
    case ReadOk => Goto(v, WritePart)
    case ReadFail => StartClose(v, Target(v.conn.handle, v.loop.cur.ev.conn), ThenWrite(v.loop.cur))
  }

  // TcpConnection::on_write_event and write_data

  predicate CanConnect(v: View, step: ConnectStep) {
    match step
    case WriteEvent(_) => At(v.loop, WritePart)
    case SetConnected => At(v.loop, MarkConnected)
    case ConnectCallback => At(v.loop, CallOnConnect)
  }

  predicate CanWrite(v: View, step: WriteStep) {
    match step
    case WriteLock => At(v.loop, WriteLocking) && v.conn.locked.None?
    case WriteSome(took, left) => At(v.loop, WriteLocked) && v.conn.output == took + left
    case WriteDrain => v.loop.Handling? && v.loop.pc.WriteTaken?
    case WriteNotify => At(v.loop, WriteDrained)
    case WriteUnlock => At(v.loop, WriteUnlocking)
  }

  function DoConnect(v: View, step: ConnectStep): View
    requires CanConnect(v, step)
  {
    match step
    case WriteEvent(connected) =>
      if !v.loop.cur.ev.write then Goto(v, EventDone)
      else if v.conn.state == Connecting then
        if connected then Goto(v, MarkConnected)
        else StartClose(v, Target(v.conn.handle, v.loop.cur.ev.conn), ThenDone(v.loop.cur))
      else Goto(v, if SomeConnected(v.conn.state) then WriteLocking else EventDone)
    case SetConnected => Goto(v.(conn := v.conn.(state := Connected)), CallOnConnect)
    case ConnectCallback => Goto(Log(v, OnConnect), EventDone)
  }

  function DoWrite(v: View, step: WriteStep): View
    requires CanWrite(v, step)
  {
    match step
    case WriteLock => Goto(v.(conn := v.conn.(locked := Some(LOOP))), WriteLocked)
    case WriteSome(took, left) => Goto(v.(conn := v.conn.(sent := v.conn.sent + took)), WriteTaken(left))
    case WriteDrain => Goto(v.(conn := v.conn.(output := v.loop.pc.left)), WriteDrained)
    case WriteNotify =>
      var off := v.conn.output == [] && v.conn.registered;
      Goto(v.(conn := if off then v.conn.(wantWrite := false) else v.conn), WriteUnlocking)
    case WriteUnlock => Goto(v.(conn := v.conn.(locked := None)), EventDone)
  }

  // The loop behind NetWork::close, and NetWork::time_process

  predicate CanReap(v: View, step: ReapStep) {
    match step
    case CloseReturned => v.loop.Closing? && v.call.Idle?
    case CloseCallback => v.loop.Notifying?
    case SkipTick => v.loop.Ticking?
    case Sweep(_) => v.loop.Ticking?
    case SweepNext => v.loop.Sweeping? && |v.loop.list| > 0
    case SweepDone => v.loop.Sweeping? && |v.loop.list| == 0
  }

  function AfterCallback(k: Cont): Loop {
    match k
    case ThenWrite(cur) => Handling(WritePart, cur)
    case ThenDone(cur) => Handling(EventDone, cur)
    case ThenSweep(rest) => Sweeping(rest)
  }

  function DoReap(v: View, step: ReapStep): View
    requires Typed(v) && CanReap(v, step)
  {
    match step
    case CloseReturned => v.(loop := Notifying(v.loop.target, v.loop.cont))
    case CloseCallback => Log(v, OnClose).(loop := AfterCallback(v.loop.cont))
    case SkipTick => v.(loop := Polling)
    case Sweep(list) => v.(loop := Sweeping(list))
    case SweepNext => StartClose(v, v.loop.list[0], ThenSweep(v.loop.list[1..]))
    case SweepDone => v.(table := Clear(v.table), loop := Polling)
  }

  // The whole system

  predicate CallsTyped(calls: map<Thread, Call>, n: nat) {
    forall t :: t in calls ==> CallTyped(calls[t], n)
  }

  predicate WellTyped(s: State) {
    && |s.cs| == |s.table.refs| && s.table.Shaped() && LOOP in s.calls
    && CallsTyped(s.calls, |s.cs|) && LoopTyped(s.loop, |s.cs|) && DialTyped(s.dial, |s.cs|)
  }

  /** What epoll may report: registered connections, each at most once. */
  ghost predicate LegalBatch(cs: seq<Conn>, evs: seq<Event>) {
    && |evs| <= 128
    && (forall i :: 0 <= i < |evs| ==>
          evs[i].conn < |cs| && cs[evs[i].conn].registered && (evs[i].write ==> cs[evs[i].conn].wantWrite))
    && (forall i, j :: 0 <= i < j < |evs| ==> evs[i].conn != evs[j].conn)
  }

  /** What `check_timeout` may list: connections in `_conns` that are connecting or connected, by ascending handle. */
  ghost predicate LegalSweep(conns: map<int, ConnId>, cs: seq<Conn>, list: seq<Target>) {
    && (forall i :: 0 <= i < |list| ==>
          && list[i].h in conns && conns[list[i].h] == list[i].c && list[i].c < |cs|
          && (cs[list[i].c].state == Connecting || SomeConnected(cs[list[i].c].state)))
    && (forall i, j :: 0 <= i < j < |list| ==> list[i].h < list[j].h)
  }

  /** A step of the event loop outside `close`. */
  predicate OnLoop(step: Step) {
    step.ByBatch? || step.ByRead? || step.ByConnect? || step.ByWrite? || step.ByReap?
  }

  function Actor(step: Step): Thread {
    if step.BySend? || step.ByClose? then step.t else LOOP
  }

  /** The connection that the loop is busy with, or takes up next. */
  function LoopFocus(loop: Loop): ConnId {
    if TargetOf(loop).Some? then TargetOf(loop).value.c
    else if LoopHeld(loop).Some? then LoopHeld(loop).value
    else if loop.Batch? && |loop.evs| > 0 then loop.evs[0].conn
    else if loop.Sweeping? && |loop.list| > 0 then loop.list[0].c
    else 0
  }

  /** The connection that a thread holds, or is about to find. */
  function CallFocus(t: Table, call: Call, h: int): ConnId {
    if Held(call).Some? then Held(call).value else Found(t, h)
  }

  function HandleSought(call: Call, step: Step): int {
    if step.BySend? && step.send.SendGet? then step.send.h
    else if step.BySend? && step.send.StatusGet? then step.send.h
    else if call.CloseStart? then call.h
    else 0
  }

  /** The one connection that a step looks at or changes, if any. */
  function Focus(table: Table, dial: Dial, loop: Loop, call: Call, step: Step): ConnId {
    match step
    case Create => 0
    case ByDial(_) => if dial.NoDial? then 0 else dial.c
    case BySend(_, _) => CallFocus(table, call, HandleSought(call, step))
    case ByClose(_, _) => CallFocus(table, call, HandleSought(call, step))
    case _ => LoopFocus(loop)
  }

  const NOBODY: Conn := Conn(0, ConnState.Closed, false, 0, false, false, [], [], [], None, [])

  function ConnAt(cs: seq<Conn>, c: ConnId): Conn {
    if c < |cs| then cs[c] else NOBODY
  }

  function FocusOf(s: State, step: Step): ConnId
    requires Actor(step) in s.calls
  {
    Focus(s.table, s.dial, s.loop, s.calls[Actor(step)], step)
  }

  function Look(s: State, c: ConnId, t: Thread): View
    requires t in s.calls
  {
    View(s.table, s.dial, s.loop, ConnAt(s.cs, c), s.calls[t])
  }

  function Put(s: State, c: ConnId, t: Thread, v: View): State {
    State(v.table, if c < |s.cs| then s.cs[c := v.conn] else s.cs, s.counter, v.dial, s.calls[t := v.call], v.loop)
  }

  predicate Enabled(v: View, step: Step) {
    match step
    case Create => v.dial.NoDial?
    case ByDial(x) => CanDial(v, x)
    case BySend(t, x) => CanSend(v, t, x)
    case ByClose(t, x) => CanClose(v, t, x)
    case ByBatch(x) => CanBatch(v, x)
    case ByRead(x) => CanRead(v, x)
    case ByConnect(x) => CanConnect(v, x)
    case ByWrite(x) => CanWrite(v, x)
    case ByReap(x) => CanReap(v, x)
  }

  function Effect(v: View, step: Step): View
    requires Typed(v) && Enabled(v, step)
  {
    match step
    case Create => v
    case ByDial(x) => DoDial(v, x)
    case BySend(t, x) => DoSend(v, t, x)
    case ByClose(t, x) => DoClose(v, t, x)
    case ByBatch(x) => DoBatch(v, x)
    case ByRead(x) => DoRead(v, x)
    case ByConnect(x) => DoConnect(v, x)
    case ByWrite(x) => DoWrite(v, x)
    case ByReap(x) => DoReap(v, x)
  }

  /** The constructor, `make_handle` and the first reference of a new connection. */
  function Born(s: State): State {
    s.(table := Created(s.table),
       cs := s.cs + [NOBODY.(handle := s.counter + 1)],
       counter := s.counter + 1,
       dial := DialNew(|s.cs|))
  }

  /** When a step can be taken. */
  ghost predicate Can(s: State, step: Step)
    requires WellTyped(s)
  {
    && Actor(step) in s.calls && Enabled(Look(s, FocusOf(s, step), Actor(step)), step)
    && (step.Create? ==> s.counter < Handles.MAX_INT - 1)  // before the handle counter wraps
    && (step.ByBatch? && step.batch.Poll? ==> LegalBatch(s.cs, step.batch.evs))
    && (step.ByReap? && step.reap.Sweep? ==> LegalSweep(s.table.conns, s.cs, step.reap.list))
  }

  /** Between `addconn` and `add_event` a connection can be found but is not registered yet. */
  predicate InWindow(table: Table, dial: Dial, h: int) {
    h in table.conns && dial == DialAdded(table.conns[h])
  }

  /** The assumption on callers: no `close` finds its connection in that window. */
  predicate CarefulView(v: View, step: Step) {
    step.ByClose? && step.close.CloseGet? && v.call.CloseStart? ==> !InWindow(v.table, v.dial, v.call.h)
  }

  predicate Careful(s: State, step: Step) {
    Actor(step) in s.calls ==> CarefulView(Look(s, 0, Actor(step)), step)
  }

  /** The state after a step. */
  ghost function Do(s: State, step: Step): State
    requires WellTyped(s) && Can(s, step)
  {
    if step.Create? then Born(s)
    else
      var c, t := FocusOf(s, step), Actor(step);
      Put(s, c, t, Effect(Look(s, c, t), step))
  }

  /** No connection yet, every thread idle, the loop about to poll. */
  predicate Init(s: State) {
    && s.table == Table(map[], [], [], []) && s.cs == [] && s.counter == 0 && s.dial.NoDial?
    && LOOP in s.calls && (forall t :: t in s.calls ==> s.calls[t].Idle?)
    && s.loop.Polling?
  }
}
