/**
 * Where a connection is in its life: being dialled, in `_conns`, in `_recycles`, or gone.
 * Registered with epoll implies being in `_conns`; one `close` wins and closes the socket,
 * every other one finds the handle gone.
 */
module Lifetimes {
  import opened Interface
  import opened Registry
  import opened Protocol
  import opened Names

  predicate IsOnline(conns: map<int, ConnId>, c: ConnId) {
    c + 1 in conns
  }

  predicate LifeOk(r: Conn, online: bool, c: ConnId, d: Dial) {
    && (r.registered ==> online)
    && (online ==> r.open && r.closes == 0)
    && (DialOwns(d) == Some(c) ==> !online && !r.registered && r.closes == 0 && (d.DialReady? ==> r.open))
    && (d == DialAdded(c) ==> online)
    && r.closes <= 1
  }

  /** No connection is in two places, or twice in one. */
  ghost predicate Places(table: Table, owned: Option<ConnId>) {
    && NoDuplicates(table.recycles)
    && forall i :: 0 <= i < |table.recycles| ==>
              !IsOnline(table.conns, table.recycles[i]) && owned != Some(table.recycles[i])
  }

  /** What a thread that holds a connection knows about where it is ... */
  predicate CallPlaced(call: Call, conns: map<int, ConnId>, d: Dial) {
    && (Held(call).Some? ==> Held(call) != DialOwns(d))
    && (IsClose(call) ==> d != DialAdded(call.c))
    && (call.CloseWon? || call.CloseMarked? || call.CloseDone? ==> !IsOnline(conns, call.c))
  }

  /** ... and about the connection itself. */
  predicate CallKnows(call: Call, r: Conn) {
    && (call.CloseUnreg? ==> !r.registered)
    && (call.CloseWon? ==> r.closes == 0)
  }

  predicate BothWon(call: Call, other: Call) {
    call.CloseWon? && other.CloseWon? && call.c == other.c
  }

  ghost predicate Alive(s: State) {
    && Named(s) && Places(s.table, DialOwns(s.dial))
    && (forall c: ConnId :: c < |s.cs| ==> LifeOk(s.cs[c], IsOnline(s.table.conns, c), c, s.dial))
    && (forall t :: t in s.calls ==> CallPlaced(s.calls[t], s.table.conns, s.dial))
    && (forall t :: t in s.calls && Held(s.calls[t]).Some? ==> CallKnows(s.calls[t], s.cs[Held(s.calls[t]).value]))
    && (forall t, u :: t in s.calls && u in s.calls && BothWon(s.calls[t], s.calls[u]) ==> t == u)
  }

  /** `Alive`, as far as a step can see it. */
  ghost predicate ViewAlive(v: View, c: ConnId) {
    && ViewNamed(v, c) && Places(v.table, DialOwns(v.dial))
    && (c < |v.table.refs| ==> LifeOk(v.conn, IsOnline(v.table.conns, c), c, v.dial))
    && CallPlaced(v.call, v.table.conns, v.dial)
    && (Held(v.call) == Some(c) ==> CallKnows(v.call, v.conn))
  }

  predicate SameElsewhere(conns: map<int, ConnId>, after: map<int, ConnId>, c: ConnId) {
    forall h :: h in conns.Keys + after.Keys && h != c + 1 ==> (h in conns <==> h in after)
  }

  /** What the other threads can rely on. */
  ghost predicate LifeKept(v: View, w: View, c: ConnId) {
    && SameElsewhere(v.table.conns, w.table.conns, c)
    && (IsOnline(w.table.conns, c) ==> IsOnline(v.table.conns, c) || DialOwns(v.dial) == Some(c))
    && (w.conn.registered ==> v.conn.registered || v.dial == DialAdded(c))
    && (w.conn.closes == v.conn.closes || (v.call.CloseWon? && v.call.c == c && !w.call.CloseWon?))
    && (w.call.CloseWon? ==> w.call == v.call || (w.call.c == c && IsOnline(v.table.conns, c)))
    && (w.call == v.call || Held(w.call) == None || Held(w.call) == Some(c))
    && (w.dial == v.dial || (DialConn(v.dial) == Some(c) && DialSteps(v.dial, w.dial)))
  }

  predicate DialSteps(d: Dial, e: Dial) {
    && (e.NoDial? || DialConn(e) == DialConn(d))
    && (e.DialReady? ==> d.DialNew?) && (e.DialAdded? ==> d.DialReady?) && !e.DialNew?
  }

  // One lemma for each kind of step, then all of them together.

  lemma AliveDial(v: View, c: ConnId, step: DialStep)
    requires ViewAlive(v, c) && Focused(v, c, ByDial(step)) && CanDial(v, step) && Legal(ByDial(step), |v.table.refs|)
    ensures ViewAlive(DoDial(v, step), c) && (c < |v.table.refs| ==> LifeKept(v, DoDial(v, step), c))
  {
    NamedDial(v, c, step);
  }

  lemma AliveSend(v: View, c: ConnId, t: Thread, step: SendStep)
    requires ViewAlive(v, c) && Focused(v, c, BySend(t, step)) && CanSend(v, t, step)
    requires Legal(BySend(t, step), |v.table.refs|)
    ensures ViewAlive(DoSend(v, t, step), c) && (c < |v.table.refs| ==> LifeKept(v, DoSend(v, t, step), c))
  {
    NamedSend(v, c, t, step);
  }

  lemma AliveCloseGet(v: View, c: ConnId, t: Thread)
    requires ViewAlive(v, c) && Focused(v, c, ByClose(t, CloseGet)) && CanClose(v, t, CloseGet)
    requires Legal(ByClose(t, CloseGet), |v.table.refs|) && CarefulView(v, ByClose(t, CloseGet))
    ensures ViewAlive(DoClose(v, t, CloseGet), c) && (c < |v.table.refs| ==> LifeKept(v, DoClose(v, t, CloseGet), c))
  {
    NamedClose(v, c, t, CloseGet);
  }

  lemma AliveCloseRemove(v: View, c: ConnId, t: Thread)
    requires ViewAlive(v, c) && Focused(v, c, ByClose(t, CloseRemove)) && CanClose(v, t, CloseRemove)
    requires Legal(ByClose(t, CloseRemove), |v.table.refs|)
    ensures ViewAlive(DoClose(v, t, CloseRemove), c)
    ensures c < |v.table.refs| ==> LifeKept(v, DoClose(v, t, CloseRemove), c)
  {
    NamedClose(v, c, t, CloseRemove);
  }

  lemma AliveCloseOther(v: View, c: ConnId, t: Thread, step: CloseStep)
    requires ViewAlive(v, c) && Focused(v, c, ByClose(t, step)) && CanClose(v, t, step)
    requires Legal(ByClose(t, step), |v.table.refs|) && !step.CloseGet? && !step.CloseRemove?
    ensures ViewAlive(DoClose(v, t, step), c) && (c < |v.table.refs| ==> LifeKept(v, DoClose(v, t, step), c))
  {
    NamedClose(v, c, t, step);
  }

  lemma AliveClose(v: View, c: ConnId, t: Thread, step: CloseStep)
    requires ViewAlive(v, c) && Focused(v, c, ByClose(t, step)) && CanClose(v, t, step)
    requires Legal(ByClose(t, step), |v.table.refs|)
    requires CarefulView(v, ByClose(t, step))
    ensures ViewAlive(DoClose(v, t, step), c) && (c < |v.table.refs| ==> LifeKept(v, DoClose(v, t, step), c))
  {
    match step
    case CloseGet => AliveCloseGet(v, c, t);
    case CloseRemove => AliveCloseRemove(v, c, t);
    case _ => AliveCloseOther(v, c, t, step);
  }

  lemma AliveBatch(v: View, c: ConnId, step: BatchStep)
    requires ViewAlive(v, c) && Focused(v, c, ByBatch(step)) && CanBatch(v, step)
    requires Legal(ByBatch(step), |v.table.refs|)
    ensures ViewAlive(DoBatch(v, step), c) && (c < |v.table.refs| ==> LifeKept(v, DoBatch(v, step), c))
  {
    NamedBatch(v, c, step);
  }

  lemma AliveRead(v: View, c: ConnId, step: ReadStep)
    requires ViewAlive(v, c) && Focused(v, c, ByRead(step)) && CanRead(v, step) && Legal(ByRead(step), |v.table.refs|)
    ensures ViewAlive(DoRead(v, step), c) && (c < |v.table.refs| ==> LifeKept(v, DoRead(v, step), c))
  {
    NamedRead(v, c, step);
  }

  lemma AliveConnect(v: View, c: ConnId, step: ConnectStep)
    requires ViewAlive(v, c) && Focused(v, c, ByConnect(step)) && CanConnect(v, step)
    requires Legal(ByConnect(step), |v.table.refs|)
    ensures ViewAlive(DoConnect(v, step), c) && (c < |v.table.refs| ==> LifeKept(v, DoConnect(v, step), c))
  {
    NamedConnect(v, c, step);
  }

  lemma AliveWrite(v: View, c: ConnId, step: WriteStep)
    requires ViewAlive(v, c) && Focused(v, c, ByWrite(step)) && CanWrite(v, step)
    requires Legal(ByWrite(step), |v.table.refs|)
    ensures ViewAlive(DoWrite(v, step), c) && (c < |v.table.refs| ==> LifeKept(v, DoWrite(v, step), c))
  {
    NamedWrite(v, c, step);
  }

  lemma AliveReap(v: View, c: ConnId, step: ReapStep)
    requires ViewAlive(v, c) && Focused(v, c, ByReap(step)) && CanReap(v, step) && Legal(ByReap(step), |v.table.refs|)
    ensures ViewAlive(DoReap(v, step), c) && (c < |v.table.refs| ==> LifeKept(v, DoReap(v, step), c))
  {
    NamedReap(v, c, step);
  }

  /** A step that starts from `s` may end in view `w` of connection `c`. */
  ghost predicate LifeGoesOn(s: State, c: ConnId, t: Thread, w: View) {
    && Alive(s) && t in s.calls && ViewAlive(w, c) && |w.table.refs| == |s.cs|
    && (c < |s.cs| ==> LifeKept(Look(s, c, t), w, c))
    && (c >= |s.cs| ==> w.table.conns == s.table.conns && w.dial == s.dial)
    && (c >= |s.cs| ==> w.call == s.calls[t] || Held(w.call) == None)
  }

  lemma ConnKept(s: State, c: ConnId, t: Thread, w: View, d: ConnId)
    requires LifeGoesOn(s, c, t, w) && d < |s.cs|
    ensures LifeOk(Put(s, c, t, w).cs[d], IsOnline(w.table.conns, d), d, w.dial)
  {
    assert LifeOk(s.cs[d], IsOnline(s.table.conns, d), d, s.dial);
  }

  lemma CallKept(s: State, c: ConnId, t: Thread, w: View, u: Thread)
    requires LifeGoesOn(s, c, t, w) && u in s.calls && u != t
    ensures CallPlaced(s.calls[u], w.table.conns, w.dial)
    ensures Held(s.calls[u]).Some? && Held(s.calls[u]).value < |s.cs| ==>
              CallKnows(s.calls[u], Put(s, c, t, w).cs[Held(s.calls[u]).value])
    ensures !BothWon(w.call, s.calls[u])
  {
    assert CallPlaced(s.calls[u], s.table.conns, s.dial) && !BothWon(s.calls[t], s.calls[u]);
  }

  lemma AlivePut(s: State, c: ConnId, t: Thread, w: View)
    requires LifeGoesOn(s, c, t, w)
    ensures Alive(Put(s, c, t, w))
  {
    var r := Put(s, c, t, w);
    NamedPut(s, c, t, w);
    forall d: ConnId | d < |r.cs|
      ensures LifeOk(r.cs[d], IsOnline(r.table.conns, d), d, r.dial)
    {
      ConnKept(s, c, t, w, d);
    }
    forall u | u in r.calls && u != t
      ensures CallPlaced(r.calls[u], r.table.conns, r.dial)
      ensures Held(r.calls[u]).Some? ==> CallKnows(r.calls[u], r.cs[Held(r.calls[u]).value])
      ensures !BothWon(r.calls[t], r.calls[u])
    {
      CallKept(s, c, t, w, u);
    }
  }

  lemma AliveEffect(v: View, c: ConnId, step: Step)
    requires ViewAlive(v, c) && Focused(v, c, step) && Enabled(v, step) && Legal(step, |v.table.refs|)
    requires CarefulView(v, step)
    ensures ViewAlive(Effect(v, step), c) && (c < |v.table.refs| ==> LifeKept(v, Effect(v, step), c))
  {
    match step
    case Create =>
    case ByDial(x) => AliveDial(v, c, x);
    case BySend(t, x) => AliveSend(v, c, t, x);
    case ByClose(t, x) => AliveClose(v, c, t, x);
    case ByBatch(x) => AliveBatch(v, c, x);
    case ByRead(x) => AliveRead(v, c, x);
    case ByConnect(x) => AliveConnect(v, c, x);
    case ByWrite(x) => AliveWrite(v, c, x);
    case ByReap(x) => AliveReap(v, c, x);
  }

  lemma AliveBorn(s: State)
    requires Alive(s) && Can(s, Create)
    ensures Alive(Born(s))
  {
    NamedStep(s, Create);
  }

  /** What a step sees of a state that is alive. */
  lemma AliveSeen(s: State, step: Step)
    requires Alive(s) && Can(s, step)
    ensures ViewAlive(Look(s, FocusOf(s, step), Actor(step)), FocusOf(s, step))
    ensures Focused(Look(s, FocusOf(s, step), Actor(step)), FocusOf(s, step), step) && Legal(step, |s.cs|)
  {
  }

  /** A step that looks at no connection moves none, and takes hold of none. */
  lemma NothingInView(v: View, c: ConnId, step: Step)
    requires ViewAlive(v, c) && Focused(v, c, step) && Enabled(v, step) && c >= |v.table.refs|
    ensures var w := Effect(v, step);
            w.table.conns == v.table.conns && w.dial == v.dial && (w.call == v.call || Held(w.call) == None)
  {
  }

  lemma AliveGoesOn(s: State, step: Step)
    requires Alive(s) && Can(s, step) && Careful(s, step) && !step.Create?
    ensures var c, t := FocusOf(s, step), Actor(step); LifeGoesOn(s, c, t, Effect(Look(s, c, t), step))
  {
    var c := FocusOf(s, step);
    var v := Look(s, c, Actor(step));
    AliveSeen(s, step);
    NamedEffect(v, c, step);
    AliveEffect(v, c, step);
    if c >= |s.cs| {
      NothingInView(v, c, step);
    }
  }

  lemma AliveAct(s: State, step: Step)
    requires Alive(s) && Can(s, step) && Careful(s, step) && !step.Create?
    ensures Alive(Do(s, step))
  {
    var c, t := FocusOf(s, step), Actor(step);
    AliveGoesOn(s, step);
    AlivePut(s, c, t, Effect(Look(s, c, t), step));
  }

  lemma AliveStep(s: State, step: Step)
    requires Alive(s) && Can(s, step) && Careful(s, step)
    ensures Alive(Do(s, step))
  {
    if step.Create? {
      AliveBorn(s);
    } else {
      AliveAct(s, step);
    }
  }

  lemma AliveInit(s: State)
    requires Init(s)
    ensures Alive(s)
  {
  }
}
