/**
 * What the application hears about one connection: at most one onConnect, then any number
 * of onRead, at most one onClose, and nothing after it.
 */
module Callbacks {
  import opened Interface
  import opened Registry
  import opened Protocol
  import opened Names
  import opened Lifetimes
  import opened LoopOrder

  // The language (onConnect onRead*)? onClose?, and an automaton for it.

  function Opening(connected: bool, n: nat): seq<Callback> {
    if connected then [OnConnect] + seq(n, _ => OnRead) else []
  }

  function Session(connected: bool, n: nat, closed: bool): seq<Callback> {
    Opening(connected, n) + if closed then [OnClose] else []
  }

  ghost predicate IsSession(tr: seq<Callback>) {
    exists connected, n, closed :: tr == Session(connected, n, closed)
  }

  datatype Phase = Fresh | Running | Ended | Bad

  function Hear(p: Phase, cb: Callback): Phase {
    match p
    case Fresh => if cb == OnConnect then Running else if cb == OnClose then Ended else Bad
    case Running => if cb == OnRead then Running else if cb == OnClose then Ended else Bad
    case _ => Bad
  }

  function PhaseOf(tr: seq<Callback>): Phase {
    if tr == [] then Fresh else Hear(PhaseOf(tr[..|tr| - 1]), tr[|tr| - 1])
  }

  lemma Heard(tr: seq<Callback>, cb: Callback)
    ensures PhaseOf(tr + [cb]) == Hear(PhaseOf(tr), cb)
  {
    assert (tr + [cb])[..|tr|] == tr;
  }

  lemma {:induction false} PhaseOfOpening(connected: bool, n: nat)
    ensures PhaseOf(Opening(connected, n)) == if connected then Running else Fresh
    decreases n
  {
    if connected && n > 0 {
      PhaseOfOpening(connected, n - 1);
      Heard(Opening(connected, n - 1), OnRead);
      assert Opening(connected, n) == Opening(connected, n - 1) + [OnRead];
    } else if connected {
      Heard([], OnConnect);
      assert Opening(connected, n) == [] + [OnConnect];
    }
  }

  /** The automaton is never in its bad state exactly on the traces of the language. */
  lemma {:induction false} PhaseIsSession(tr: seq<Callback>)
    ensures PhaseOf(tr) != Bad <==> IsSession(tr)
    ensures PhaseOf(tr) == Fresh <==> tr == []
  {
    if IsSession(tr) {
      var connected, n, closed :| tr == Session(connected, n, closed);
      PhaseOfOpening(connected, n);
      if closed {
        Heard(Opening(connected, n), OnClose);
      } else {
        assert tr == Opening(connected, n);
      }
    }
    if PhaseOf(tr) != Bad {
      var x := SessionOf(tr);
    }
  }

  /** Where the automaton is after the session `x`. */
  function PhaseAt(x: (bool, nat, bool)): Phase {
    if x.2 then Ended else if x.0 then Running else Fresh
  }

  /** A session that goes on with a callback that the automaton accepts is a session again. */
  lemma SessionGrows(x: (bool, nat, bool), last: Callback) returns (y: (bool, nat, bool))
    requires Hear(PhaseAt(x), last) != Bad
    ensures Session(x.0, x.1, x.2) + [last] == Session(y.0, y.1, y.2)
    ensures Hear(PhaseAt(x), last) == PhaseAt(y)
  {
    match last
    case OnClose => y := (x.0, x.1, true);
    case OnConnect => y := (true, 0, false);
    case OnRead =>
      y := (true, x.1 + 1, false);
      assert Opening(true, x.1 + 1) == Opening(true, x.1) + [OnRead];
  }

  /** The parts of a trace that the automaton accepts. */
  lemma {:induction false} SessionOf(tr: seq<Callback>) returns (x: (bool, nat, bool))
    requires PhaseOf(tr) != Bad
    ensures tr == Session(x.0, x.1, x.2) && PhaseOf(tr) == PhaseAt(x)
    decreases |tr|
  {
    if tr == [] {
      x := (false, 0, false);
    } else {
      var front, last := tr[..|tr| - 1], tr[|tr| - 1];
      assert tr == front + [last];
      Heard(front, last);
      var y := SessionOf(front);
      x := SessionGrows(y, last);
    }
  }

  // How far the conversation about connection `c` has come.

  /** The loop is at this point of the event of connection `c`. */
  predicate LoopAt(loop: Loop, pc: EventPc, c: ConnId) {
    At(loop, pc) && loop.cur.ev.conn == c
  }

  /** The loop closes connection `c` after a failed read. */
  predicate LoopBreaks(loop: Loop, c: ConnId) {
    (loop.Closing? || loop.Notifying?) && loop.cont.ThenWrite? && loop.cont.cur.ev.conn == c
  }

  ghost predicate ToBeClosed(loop: Loop, c: ConnId) {
    || AwaitsEvent(Rest(loop), c) || AwaitsClose(Targets(loop), c)
    || (TargetOf(loop).Some? && TargetOf(loop).value.c == c)
    || LoopAt(loop, ReadPart, c)
  }

  /**
   * What goes with phase `p` of a connection in this state; `waiting` says whether the loop
   * still has to look at the connection or to close it.
   */
  predicate TalkOk(p: Phase, state: ConnState, online: bool, d: Dial, loop: Loop, c: ConnId, waiting: bool) {
    && p != Bad
    && (state == ConnState.Closed || state == Connecting || state == Connected)
    && (p == Ended ==> !online && !waiting)
    && (p == Ended && LoopAt(loop, WritePart, c) ==> state != Connecting)
    && (p == Running ==> state != Connecting)
    && (p == Fresh && state == Connected ==> LoopAt(loop, CallOnConnect, c))
    && (LoopAt(loop, Reading, c) || LoopBreaks(loop, c) ==> p == Running)
    && (LoopAt(loop, MarkConnected, c) ==> p == Fresh)
    && (LoopAt(loop, CallOnConnect, c) ==> p == Fresh && state != Connecting)
    && (DialOwns(d) == Some(c) ==> p == Fresh)
  }

  ghost predicate TalksOk(s: State, c: ConnId)
    requires c < |s.cs|
  {
    TalkOk(PhaseOf(s.cs[c].heard), s.cs[c].state, IsOnline(s.table.conns, c), s.dial, s.loop, c, ToBeClosed(s.loop, c))
  }

  ghost predicate Talking(s: State) {
    Ordered(s) && forall c: ConnId :: c < |s.cs| ==> TalksOk(s, c)
  }

  /** How far the conversation about one connection has come, and what becomes of it. */
  datatype Talk = Talk(p: Phase, state: ConnState, waiting: bool)

  /** The conversation about `d`, with connection `c` in view. */
  predicate ViewTalking(v: View, c: ConnId, d: ConnId, k: Talk) {
    && (d == c ==> k.state == v.conn.state)
    && TalkOk(k.p, k.state, IsOnline(v.table.conns, d), v.dial, v.loop, d, k.waiting)
    && (LoopAt(v.loop, ReadPart, d) || (TargetOf(v.loop).Some? && TargetOf(v.loop).value.c == d) ==> k.waiting)
  }

  /** How a step may put a connection on the loop's list of work, and when it must take it off. */
  predicate WaitStep(v: View, w: View, c: ConnId, d: ConnId, waiting: bool, later: bool) {
    && (later ==> || waiting || IsOnline(v.table.conns, d)
                  || (d == c && LoopAt(v.loop, Reading, c))
                  || (d == c && LoopAt(v.loop, WritePart, c) && v.conn.state == Connecting))
    && (v.loop.Notifying? && !w.loop.Notifying? && d == c ==> !later)
    && (LoopAt(w.loop, ReadPart, d) || (TargetOf(w.loop).Some? && TargetOf(w.loop).value.c == d) ==> later)
  }

  /** The callback that a step makes. */
  function HeardIn(step: Step): Option<Callback> {
    if step == ByRead(ReadPdu) then Some(OnRead)
    else if step == ByConnect(ConnectCallback) then Some(OnConnect)
    else if step == ByReap(CloseCallback) then Some(OnClose)
    else None
  }

  function PhaseAfter(p: Phase, step: Step): Phase {
    if HeardIn(step).Some? then Hear(p, HeardIn(step).value) else p
  }

  /** The conversation about `d` after a step that leads to view `w` of connection `c`. */
  function After(k: Talk, w: View, c: ConnId, d: ConnId, step: Step, later: bool): Talk {
    if d == c then Talk(PhaseAfter(k.p, step), w.conn.state, later) else k.(waiting := later)
  }

  /** What a connection has heard after a step: one callback more, or the same. */
  function HeardAfter(heard: seq<Callback>, step: Step): seq<Callback> {
    if HeardIn(step).Some? then heard + [HeardIn(step).value] else heard
  }

  lemma HeardEffect(v: View, step: Step)
    requires Typed(v) && Enabled(v, step)
    ensures Effect(v, step).conn.heard == HeardAfter(v.conn.heard, step)
  {
  }

  lemma PhaseOfHeard(heard: seq<Callback>, step: Step)
    ensures PhaseOf(HeardAfter(heard, step)) == PhaseAfter(PhaseOf(heard), step)
  {
    if HeardIn(step).Some? {
      Heard(heard, HeardIn(step).value);
    }
  }

  /** What the loop knows about the connection it is busy with. */
  predicate LoopKnows(v: View, c: ConnId) {
    && c == LoopFocus(v.loop)
    && (LoopHeld(v.loop).Some? || TargetOf(v.loop).Some? ==> DialOwns(v.dial) != Some(c))
    && (TargetOf(v.loop).Some? && LoopHeld(v.loop).Some? ==> LoopHeld(v.loop) == Some(c))
    && (v.loop.Notifying? ==> !IsOnline(v.table.conns, c))
  }

  lemma LoopKnowsIt(v: View, c: ConnId, step: Step)
    requires ViewAlive(v, c) && Focused(v, c, step) && OnLoop(step)
    requires ViewOrdered(v, LOOP) && (LoopHeld(v.loop).Some? || TargetOf(v.loop).Some? ==> c < |v.table.refs|)
    ensures LoopKnows(v, c)
  {
  }

  ghost predicate LegalTalk(step: Step, conns: map<int, ConnId>) {
    && (step.ByBatch? && step.batch.Poll? ==>
          forall i :: 0 <= i < |step.batch.evs| ==> IsOnline(conns, step.batch.evs[i].conn))
    && (step.ByReap? && step.reap.Sweep? ==>
          forall i :: 0 <= i < |step.reap.list| ==> IsOnline(conns, step.reap.list[i].c))
  }

  lemma PolledOnline(evs: seq<Event>, conns: map<int, ConnId>, d: ConnId)
    requires forall i :: 0 <= i < |evs| ==> IsOnline(conns, evs[i].conn)
    ensures AwaitsEvent(evs, d) ==> IsOnline(conns, d)
  {
  }

  lemma NextAwaited(evs: seq<Event>, d: ConnId)
    requires |evs| > 0
    ensures AwaitsEvent(evs[1..], d) ==> AwaitsEvent(evs, d)
    ensures AwaitsEvent(evs, evs[0].conn)
  {
    if AwaitsEvent(evs[1..], d) {
      var i :| 0 <= i < |evs[1..]| && evs[1..][i].conn == d;
      assert evs[i + 1].conn == d;
    }
  }

  /** Nothing the loop is busy with comes up again in the rest of its work. */
  predicate Apart(loop: Loop) {
    && (LoopHeld(loop).Some? ==> !AwaitsEvent(Rest(loop), LoopHeld(loop).value))
    && (TargetOf(loop).Some? ==> !AwaitsClose(Targets(loop), TargetOf(loop).value.c))
    && (TargetOf(loop).Some? && LoopHeld(loop).Some? ==> TargetOf(loop).value.c == LoopHeld(loop).value)
    && (loop.Sweeping? && loop.list != [] ==> !AwaitsClose(loop.list[1..], loop.list[0].c))
  }

  lemma PlacedApart(loop: Loop, table: Table)
    requires LoopPlaced(loop, table)
    ensures Apart(loop)
  {
    if loop.Sweeping? && loop.list != [] {
      NextTarget(loop.list, table);
    }
  }

  lemma NextToClose(list: seq<Target>, d: ConnId)
    requires |list| > 0
    ensures AwaitsClose(list, d) <==> list[0].c == d || AwaitsClose(list[1..], d)
  {
    if AwaitsClose(list[1..], d) {
      var i :| 0 <= i < |list[1..]| && list[1..][i].c == d;
      assert list[i + 1].c == d;
    }
    if AwaitsClose(list, d) && list[0].c != d {
      var i :| 0 <= i < |list| && list[i].c == d;
      assert list[1..][i - 1].c == d;
    }
  }

  // One lemma for each kind of step, then all of them together.

  lemma WaitPoll(v: View, c: ConnId, d: ConnId, evs: seq<Event>)
    requires Typed(v) && c == LoopFocus(v.loop) && CanBatch(v, Poll(evs)) && Apart(v.loop)
    requires LegalTalk(ByBatch(Poll(evs)), v.table.conns)
    ensures var w := DoBatch(v, Poll(evs));
            WaitStep(v, w, c, d, ToBeClosed(v.loop, d), ToBeClosed(w.loop, d))
  {
    PolledOnline(evs, v.table.conns, d);
  }

  lemma WaitNext(v: View, c: ConnId, d: ConnId)
    requires Typed(v) && c == LoopFocus(v.loop) && CanBatch(v, NextEvent) && Apart(v.loop)
    ensures var w := DoBatch(v, NextEvent);
            WaitStep(v, w, c, d, ToBeClosed(v.loop, d), ToBeClosed(w.loop, d))
  {
    NextAwaited(v.loop.evs, d);
  }

  lemma WaitBatch(v: View, c: ConnId, d: ConnId, step: BatchStep)
    requires Typed(v) && c == LoopFocus(v.loop) && CanBatch(v, step) && Apart(v.loop)
    requires LegalTalk(ByBatch(step), v.table.conns)
    ensures WaitStep(v, DoBatch(v, step), c, d, ToBeClosed(v.loop, d), ToBeClosed(DoBatch(v, step).loop, d))
  {
    match step
    case Poll(evs) => WaitPoll(v, c, d, evs);
    case NextEvent => WaitNext(v, c, d);
    case EventRelease =>
    case BatchDone =>
    case Stop =>
  }

  lemma WaitRead(v: View, c: ConnId, d: ConnId, step: ReadStep)
    requires Typed(v) && c == LoopFocus(v.loop) && CanRead(v, step) && Apart(v.loop)
    requires LegalTalk(ByRead(step), v.table.conns)
    ensures WaitStep(v, DoRead(v, step), c, d, ToBeClosed(v.loop, d), ToBeClosed(DoRead(v, step).loop, d))
  {
  }

  lemma WaitConnect(v: View, c: ConnId, d: ConnId, step: ConnectStep)
    requires Typed(v) && c == LoopFocus(v.loop) && CanConnect(v, step)
    requires Apart(v.loop) && LegalTalk(ByConnect(step), v.table.conns)
    ensures WaitStep(v, DoConnect(v, step), c, d, ToBeClosed(v.loop, d), ToBeClosed(DoConnect(v, step).loop, d))
  {
  }

  lemma WaitWrite(v: View, c: ConnId, d: ConnId, step: WriteStep)
    requires Typed(v) && c == LoopFocus(v.loop) && CanWrite(v, step) && Apart(v.loop)
    requires LegalTalk(ByWrite(step), v.table.conns)
    ensures WaitStep(v, DoWrite(v, step), c, d, ToBeClosed(v.loop, d), ToBeClosed(DoWrite(v, step).loop, d))
  {
  }

  lemma WaitSweep(v: View, c: ConnId, d: ConnId, list: seq<Target>)
    requires Typed(v) && c == LoopFocus(v.loop) && CanReap(v, Sweep(list)) && Apart(v.loop)
    requires LegalTalk(ByReap(Sweep(list)), v.table.conns)
    ensures var w := DoReap(v, Sweep(list));
            WaitStep(v, w, c, d, ToBeClosed(v.loop, d), ToBeClosed(w.loop, d))
  {
  }

  lemma WaitTarget(v: View, c: ConnId, d: ConnId)
    requires Typed(v) && c == LoopFocus(v.loop) && CanReap(v, SweepNext) && Apart(v.loop)
    ensures var w := DoReap(v, SweepNext);
            WaitStep(v, w, c, d, ToBeClosed(v.loop, d), ToBeClosed(w.loop, d))
  {
    NextToClose(v.loop.list, d);
  }

  lemma WaitReap(v: View, c: ConnId, d: ConnId, step: ReapStep)
    requires Typed(v) && c == LoopFocus(v.loop) && CanReap(v, step) && Apart(v.loop)
    requires LegalTalk(ByReap(step), v.table.conns)
    ensures WaitStep(v, DoReap(v, step), c, d, ToBeClosed(v.loop, d), ToBeClosed(DoReap(v, step).loop, d))
  {
    match step
    case CloseReturned =>
    case CloseCallback =>
    case SkipTick =>
    case Sweep(list) => WaitSweep(v, c, d, list);
    case SweepNext => WaitTarget(v, c, d);
    case SweepDone =>
  }

  // One lemma for each kind of step, then all of them together.

  lemma TalkDial(v: View, c: ConnId, d: ConnId, k: Talk, later: bool, step: DialStep)
    requires ViewAlive(v, c) && Focused(v, c, ByDial(step)) && CanDial(v, step)
    requires ViewOrdered(v, Actor(ByDial(step))) && d < |v.table.refs|
    requires ViewTalking(v, c, d, k) && WaitStep(v, DoDial(v, step), c, d, k.waiting, later)
    ensures ViewTalking(DoDial(v, step), c, d, After(k, DoDial(v, step), c, d, ByDial(step), later))
  {
  }

  lemma TalkSend(v: View, c: ConnId, d: ConnId, k: Talk, later: bool, t: Thread, step: SendStep)
    requires ViewAlive(v, c) && Focused(v, c, BySend(t, step)) && CanSend(v, t, step)
    requires ViewOrdered(v, Actor(BySend(t, step))) && d < |v.table.refs|
    requires ViewTalking(v, c, d, k) && WaitStep(v, DoSend(v, t, step), c, d, k.waiting, later)
    ensures ViewTalking(DoSend(v, t, step), c, d, After(k, DoSend(v, t, step), c, d, BySend(t, step), later))
  {
  }

  lemma TalkClose(v: View, c: ConnId, d: ConnId, k: Talk, later: bool, t: Thread, step: CloseStep)
    requires ViewAlive(v, c) && Focused(v, c, ByClose(t, step)) && CanClose(v, t, step)
    requires ViewOrdered(v, Actor(ByClose(t, step))) && d < |v.table.refs|
    requires ViewTalking(v, c, d, k) && WaitStep(v, DoClose(v, t, step), c, d, k.waiting, later)
    ensures ViewTalking(DoClose(v, t, step), c, d, After(k, DoClose(v, t, step), c, d, ByClose(t, step), later))
  {
  }

  lemma TalkBatch(v: View, c: ConnId, d: ConnId, k: Talk, later: bool, step: BatchStep)
    requires Typed(v) && LoopKnows(v, c) && CanBatch(v, step)
    requires ViewTalking(v, c, d, k) && WaitStep(v, DoBatch(v, step), c, d, k.waiting, later)
    ensures ViewTalking(DoBatch(v, step), c, d, After(k, DoBatch(v, step), c, d, ByBatch(step), later))
  {
  }

  lemma TalkRead(v: View, c: ConnId, d: ConnId, k: Talk, later: bool, step: ReadStep)
    requires Typed(v) && LoopKnows(v, c) && CanRead(v, step)
    requires ViewTalking(v, c, d, k) && WaitStep(v, DoRead(v, step), c, d, k.waiting, later)
    ensures ViewTalking(DoRead(v, step), c, d, After(k, DoRead(v, step), c, d, ByRead(step), later))
  {
  }

  lemma TalkConnect(v: View, c: ConnId, d: ConnId, k: Talk, later: bool, step: ConnectStep)
    requires Typed(v) && LoopKnows(v, c) && CanConnect(v, step)
    requires ViewTalking(v, c, d, k) && WaitStep(v, DoConnect(v, step), c, d, k.waiting, later)
    ensures ViewTalking(DoConnect(v, step), c, d, After(k, DoConnect(v, step), c, d, ByConnect(step), later))
  {
  }

  lemma TalkWrite(v: View, c: ConnId, d: ConnId, k: Talk, later: bool, step: WriteStep)
    requires Typed(v) && LoopKnows(v, c) && CanWrite(v, step)
    requires ViewTalking(v, c, d, k) && WaitStep(v, DoWrite(v, step), c, d, k.waiting, later)
    ensures ViewTalking(DoWrite(v, step), c, d, After(k, DoWrite(v, step), c, d, ByWrite(step), later))
  {
  }

  lemma TalkReap(v: View, c: ConnId, d: ConnId, k: Talk, later: bool, step: ReapStep)
    requires Typed(v) && LoopKnows(v, c) && CanReap(v, step)
    requires ViewTalking(v, c, d, k) && WaitStep(v, DoReap(v, step), c, d, k.waiting, later)
    ensures ViewTalking(DoReap(v, step), c, d, After(k, DoReap(v, step), c, d, ByReap(step), later))
  {
  }

  lemma WaitEffect(v: View, c: ConnId, d: ConnId, step: Step)
    requires ViewAlive(v, c) && Focused(v, c, step) && Enabled(v, step) && Legal(step, |v.table.refs|)
    requires ViewOrdered(v, Actor(step)) && LegalTalk(step, v.table.conns)
    ensures WaitStep(v, Effect(v, step), c, d, ToBeClosed(v.loop, d), ToBeClosed(Effect(v, step).loop, d))
  {
    PlacedApart(v.loop, v.table);
    match step
    case ByBatch(x) => WaitBatch(v, c, d, x);
    case ByRead(x) => WaitRead(v, c, d, x);
    case ByConnect(x) => WaitConnect(v, c, d, x);
    case ByWrite(x) => WaitWrite(v, c, d, x);
    case ByReap(x) => WaitReap(v, c, d, x);
    case _ =>
  }

  lemma TalkEffect(v: View, c: ConnId, d: ConnId, k: Talk, later: bool, step: Step)
    requires ViewAlive(v, c) && Focused(v, c, step) && Enabled(v, step) && Legal(step, |v.table.refs|)
    requires ViewOrdered(v, Actor(step)) && d < |v.table.refs|
    requires ViewTalking(v, c, d, k) && WaitStep(v, Effect(v, step), c, d, k.waiting, later)
    ensures ViewTalking(Effect(v, step), c, d, After(k, Effect(v, step), c, d, step, later))
  {
    if OnLoop(step) {
      LoopKnowsIt(v, c, step);
    }
    match step
    case Create =>
    case ByDial(x) => TalkDial(v, c, d, k, later, x);
    case BySend(t, x) => TalkSend(v, c, d, k, later, t, x);
    case ByClose(t, x) => TalkClose(v, c, d, k, later, t, x);
    case ByBatch(x) => TalkBatch(v, c, d, k, later, x);
    case ByRead(x) => TalkRead(v, c, d, k, later, x);
    case ByConnect(x) => TalkConnect(v, c, d, k, later, x);
    case ByWrite(x) => TalkWrite(v, c, d, k, later, x);
    case ByReap(x) => TalkReap(v, c, d, k, later, x);
  }

  lemma LegalTalkSeen(s: State, step: Step)
    requires Alive(s) && Can(s, step)
    ensures LegalTalk(step, s.table.conns)
  {
  }

  /** The conversation about `d` in a state. */
  ghost function TalkAbout(s: State, d: ConnId): Talk
    requires d < |s.cs|
  {
    Talk(PhaseOf(s.cs[d].heard), s.cs[d].state, ToBeClosed(s.loop, d))
  }

  lemma TalkSeen(s: State, step: Step, d: ConnId)
    requires Talking(s) && Can(s, step) && d < |s.cs|
    ensures ViewTalking(Look(s, FocusOf(s, step), Actor(step)), FocusOf(s, step), d, TalkAbout(s, d))
  {
    assert TalksOk(s, d);
  }

  lemma TalkAct(s: State, step: Step, d: ConnId)
    requires Talking(s) && Can(s, step) && !step.Create? && d < |s.cs|
    ensures d < |Do(s, step).cs| && TalksOk(Do(s, step), d)
  {
    var c, t := FocusOf(s, step), Actor(step);
    var v := Look(s, c, t);
    AliveSeen(s, step);
    LegalTalkSeen(s, step);
    WaitEffect(v, c, d, step);
    TalkSeen(s, step, d);
    TalkEffect(v, c, d, TalkAbout(s, d), ToBeClosed(Effect(v, step).loop, d), step);
    HeardEffect(v, step);
    PhaseOfHeard(v.conn.heard, step);
  }

  lemma TalkBorn(s: State)
    requires Talking(s) && Can(s, Create)
    ensures Talking(Born(s))
  {
    OrderedStep(s, Create);
    var r := Born(s);
    forall c: ConnId | c < |r.cs|
      ensures TalksOk(r, c)
    {
      if c < |s.cs| {
        assert TalksOk(s, c);
      } else {
        assert !LoopHeld(s.loop).Some? || LoopHeld(s.loop).value < c;
      }
    }
  }

  lemma TalkStep(s: State, step: Step)
    requires Talking(s) && Can(s, step) && Careful(s, step)
    ensures Talking(Do(s, step))
  {
    if step.Create? {
      TalkBorn(s);
    } else {
      OrderedStep(s, step);
      forall d: ConnId | d < |s.cs|
        ensures TalksOk(Do(s, step), d)
      {
        TalkAct(s, step, d);
      }
    }
  }

  lemma TalkInit(s: State)
    requires Init(s)
    ensures Talking(s)
  {
    OrderedInit(s);
  }
}
