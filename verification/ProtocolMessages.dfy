/**
 * Which messages the connections accept: exactly those whose `deliver_data` finds the
 * connection connected, each one the message that its caller passed to `send`, in the order
 * in which the mutex let them in. After a `close` there are no more of them.
 */
module Messages {
  import opened Codec
  import opened Interface
  import opened Registry
  import opened Protocol
  import opened Names
  import opened Lifetimes
  import opened Output
  import opened Runs
  import opened History
  import opened Framing

  // What a thread inside `send` carries is what its caller passed.

  /** The arguments of the last `send` that thread `t` entered. */
  function Asked(r: Run, i: nat, t: Thread): Option<(int, seq<byte>)>
    requires i <= |r.steps|
    decreases i
  {
    if i == 0 then None
    else match r.steps[i - 1]
      case BySend(u, SendGet(h, msg)) => if u == t then Some((h, msg)) else Asked(r, i - 1, t)
      case _ => Asked(r, i - 1, t)
  }

  function Carried(call: Call): Option<seq<byte>> {
    if call.SendGot? || call.SendLocked? || call.SendCopied? then Some(call.msg) else None
  }

  lemma CarriedBySend(v: View, t: Thread, step: SendStep)
    requires Typed(v) && CanSend(v, t, step)
    ensures var call := DoSend(v, t, step).call;
            if step.SendGet?
            then call == if step.h in v.table.conns then SendGot(v.table.conns[step.h], step.msg) else Idle
            else Carried(call).Some? ==> Carried(v.call) == Carried(call) && Held(v.call) == Held(call)
  {
  }

  lemma CarriedByOthers(v: View, step: Step)
    requires Typed(v) && Enabled(v, step) && !step.BySend?
    ensures Carried(Effect(v, step).call).Some? ==> Effect(v, step).call == v.call
  {
  }

  /** How the calls of the threads change: only the actor's, and a message only enters with `SendGet`. */
  lemma {:induction false} CallNext(r: Run, i: nat, t: Thread)
    requires IsRun(r) && i < |r.steps| && t in r.states[i].calls
    ensures t in r.states[i + 1].calls
    ensures var call, next := r.states[i].calls[t], r.states[i + 1].calls[t];
            match r.steps[i]
            case BySend(u, SendGet(h, msg)) =>
              if u == t then
                next == (if h in r.states[i].table.conns then SendGot(r.states[i].table.conns[h], msg) else Idle)
              else next == call
            case _ => Carried(next).Some? ==> Carried(call) == Carried(next) && Held(call) == Held(next)
  {
    var s, step := r.states[i], r.steps[i];
    assert Takes(r, i);
    if !step.Create? && Actor(step) == t {
      var v := Look(s, FocusOf(s, step), t);
      if step.BySend? {
        CarriedBySend(v, t, step.send);
      } else {
        CarriedByOthers(v, step);
      }
    }
  }

  lemma {:induction false} NamedNext(r: Run, i: nat)
    requires IsRun(r) && i < |r.steps| && Named(r.states[i])
    ensures Named(r.states[i + 1])
  {
    assert Takes(r, i);
    NamedStep(r.states[i], r.steps[i]);
  }

  lemma {:induction false} AlwaysNamed(r: Run, i: nat)
    requires IsRun(r) && i < |r.states|
    ensures Named(r.states[i])
    decreases i
  {
    if i > 0 {
      AlwaysNamed(r, i - 1);
      NamedNext(r, i - 1);
    }
  }

  /** The thread carries the message of its last `send`, to the connection under that handle. */
  predicate CarriesAsked(r: Run, i: nat, t: Thread)
    requires i <= |r.steps| && i < |r.states| && t in r.states[i].calls
  {
    var call := r.states[i].calls[t];
    Carried(call).Some? ==>
      && Held(call).value < |r.states[i].cs|
      && Asked(r, i, t) == Some((r.states[i].cs[Held(call).value].handle, Carried(call).value))
  }

  lemma {:induction false} CarriesNext(r: Run, i: nat, t: Thread)
    requires IsRun(r) && i < |r.steps| && t in r.states[i].calls && CarriesAsked(r, i, t)
    ensures t in r.states[i + 1].calls && CarriesAsked(r, i + 1, t)
  {
    CallNext(r, i, t);
    AlwaysNamed(r, i);
    AlwaysNamed(r, i + 1);
    if Carried(r.states[i + 1].calls[t]).Some? {
      var c := Held(r.states[i + 1].calls[t]).value;
      assert CallTyped(r.states[i + 1].calls[t], |r.states[i + 1].cs|);
      assert r.states[i + 1].cs[c].handle == c + 1;
      HandleFound(r.states[i]);
    }
  }

  lemma HandleFound(s: State)
    requires Named(s)
    ensures forall h :: h in s.table.conns ==> h == s.table.conns[h] + 1
    ensures forall c: ConnId :: c < |s.cs| ==> s.cs[c].handle == c + 1
  {
  }

  lemma {:induction false} AlwaysCarries(r: Run, i: nat, t: Thread)
    requires IsRun(r) && i < |r.states| && t in r.states[i].calls
    ensures CarriesAsked(r, i, t)
    decreases i
  {
    if i > 0 {
      SameThreads(r, i - 1);
      AlwaysCarries(r, i - 1, t);
      CarriesNext(r, i - 1, t);
    }
  }

  lemma {:induction false} SameThreads(r: Run, i: nat)
    requires IsRun(r) && i < |r.steps|
    ensures r.states[i + 1].calls.Keys == r.states[i].calls.Keys
  {
    assert Takes(r, i);
  }

  // What a connection accepts.

  /** A `deliver_data` of `c` finds the connection connected. */
  predicate TakesAt(r: Run, k: nat, c: ConnId) {
    On(r, k, c) && r.steps[k].BySend? && r.steps[k].send.SendQueue? && r.states[k].cs[c].state == Connected
  }

  /** The messages of those calls of `deliver_data`, in order. */
  function Taken(r: Run, i: nat, c: ConnId): seq<seq<byte>>
    requires i <= |r.steps|
    decreases i
  {
    if i == 0 then []
    else if TakesAt(r, i - 1, c) && Asked(r, i - 1, r.steps[i - 1].t).Some?
    then Taken(r, i - 1, c) + [Asked(r, i - 1, r.steps[i - 1].t).value.1]
    else Taken(r, i - 1, c)
  }

  /** The message that the owner of the mutex of `c` has yet to store. */
  function InFlight(s: State, c: ConnId): seq<byte>
    requires c < |s.cs|
  {
    var owner := s.cs[c].locked;
    if owner.Some? && owner.value in s.calls then Unstored(s.calls[owner.value], c) else []
  }

  function Unstored(call: Call, c: ConnId): seq<byte> {
    if call.SendCopied? && call.c == c then call.msg else []
  }

  /** The message that a step takes. */
  function TakenBy(v: View, c: ConnId, step: Step): seq<byte> {
    if step.BySend? && step.send.SendQueue? && v.call.SendLocked? && v.call.c == c && v.conn.state == Connected
    then v.call.msg else []
  }

  predicate Gains(v: View, w: View, c: ConnId, msg: seq<byte>) {
    && w.conn.accepted + Unstored(w.call, c) == v.conn.accepted + Unstored(v.call, c) + msg
    && (w.conn.accepted == v.conn.accepted || v.call.SendCopied?)
  }

  lemma GainsBySend(v: View, c: ConnId, t: Thread, step: SendStep)
    requires Typed(v) && CanSend(v, t, step) && Focused(v, c, BySend(t, step))
    ensures Gains(v, DoSend(v, t, step), c, TakenBy(v, c, BySend(t, step)))
  {
    match step
    case SendQueue => assert v.conn.accepted + [] + v.call.msg == v.conn.accepted + v.call.msg + [];
    case SendStore => assert (v.conn.accepted + v.call.msg) + [] == v.conn.accepted + v.call.msg + [];
    case _ =>
  }

  lemma GainsByOthers(v: View, c: ConnId, step: Step)
    requires Typed(v) && Enabled(v, step) && !step.BySend?
    ensures Effect(v, step).conn.accepted == v.conn.accepted
    ensures Carried(Effect(v, step).call).Some? ==> Effect(v, step).call == v.call
  {
    CarriedByOthers(v, step);
  }

  lemma GainsEffect(v: View, c: ConnId, step: Step)
    requires Typed(v) && Enabled(v, step) && Focused(v, c, step) && Settled(v, c, Actor(step))
    ensures Gains(v, Effect(v, step), c, TakenBy(v, c, step))
  {
    if step.BySend? {
      GainsBySend(v, c, step.t, step.send);
    } else {
      GainsByOthers(v, c, step);
      GainsByLoop(v, step, c);
    }
  }

  /** No other step begins or ends in the middle of `deliver_data`. */
  lemma GainsByLoop(v: View, step: Step, c: ConnId)
    requires Typed(v) && Enabled(v, step) && !step.BySend? && Settled(v, c, Actor(step))
    ensures Unstored(Effect(v, step).call, c) == Unstored(v.call, c)
  {
  }

  /** The connection in view, with whatever thread owns its mutex. */
  lemma FlightHere(s: State, c: ConnId, t: Thread, w: View, msg: seq<byte>, asked: bool)
    requires WellTyped(s) && t in s.calls && c < |s.cs|
    requires ViewFlowing(Look(s, c, t), t, c, asked) && ViewFlowing(w, t, c, asked) && LockKept(s.cs[c], w.conn, t)
    requires Gains(Look(s, c, t), w, c, msg) && (msg != [] ==> s.cs[c].locked == Some(t))
    ensures var r := Put(s, c, t, w);
            c < |r.cs| && r.cs[c].accepted + InFlight(r, c) == s.cs[c].accepted + InFlight(s, c) + msg
  {
    if s.cs[c].locked in {None, Some(t)} {
      assert InFlight(s, c) == Unstored(s.calls[t], c) && InFlight(Put(s, c, t, w), c) == Unstored(w.call, c);
    } else {
      assert Unstored(s.calls[t], c) == [] && Unstored(w.call, c) == [] && msg == [];
      NothingAdded(s.cs[c].accepted, w.conn.accepted);
      assert InFlight(Put(s, c, t, w), c) == InFlight(s, c);
      NothingAdded(s.cs[c].accepted + InFlight(s, c), s.cs[c].accepted + InFlight(s, c));
    }
  }

  lemma NothingAdded(a: seq<byte>, b: seq<byte>)
    ensures b + [] == a + [] + [] ==> a == b
    ensures a + [] == a
  {
    assert a + [] + [] == a && b + [] == b;
  }

  /** Every other connection. */
  lemma FlightThere(s: State, c: ConnId, t: Thread, w: View, d: ConnId)
    requires WellTyped(s) && t in s.calls && d < |s.cs| && d != c
    requires Held(s.calls[t]) == Some(d) ==> w.call == s.calls[t] || !SendSection(s.calls[t])
    requires w.call == s.calls[t] || Held(w.call) == None || Held(w.call) == Some(c)
    ensures var r := Put(s, c, t, w); d < |r.cs| && r.cs[d] == s.cs[d] && InFlight(r, d) == InFlight(s, d)
  {
  }

  /** One step adds to what is accepted and in flight the message it takes, and nothing else. */
  lemma FlightStep(s: State, step: Step, d: ConnId)
    requires Flowing(s) && Can(s, step) && !step.Create? && d < |s.cs|
    ensures var r, c := Do(s, step), FocusOf(s, step);
            && d < |r.cs|
            && r.cs[d].accepted + InFlight(r, d) ==
               s.cs[d].accepted + InFlight(s, d) +
               if d == c then TakenBy(Look(s, c, Actor(step)), c, step) else []
  {
    var c, t := FocusOf(s, step), Actor(step);
    var v := Look(s, c, t);
    AliveSeen(s, step);
    SettledSeen(s, step);
    FlowAfter(s, step);
    FlowSeen(s, c, t);
    if d == c {
      GainsEffect(v, c, step);
      FlightHere(s, c, t, Effect(v, step), TakenBy(v, c, step), Output.Asked(s, c, t));
    } else {
      FlowOfOthers(s, step, d);
      CallMoves(v, c, step);
      FlightThere(s, c, t, Effect(v, step), d);
      NothingAdded(s.cs[d].accepted + InFlight(s, d), []);
    }
  }

  /** What is accepted and in flight is what was taken. */
  predicate Balances(r: Run, i: nat, c: ConnId)
    requires i <= |r.steps| && i < |r.states| && c < |r.states[i].cs|
  {
    r.states[i].cs[c].accepted + InFlight(r.states[i], c) == Flatten(Taken(r, i, c))
  }

  /** The message that a step takes is the one its caller passed to `send`. */
  lemma {:induction false} TakenIsAsked(r: Run, i: nat, c: ConnId)
    requires IsRun(r) && i < |r.steps| && c < |r.states[i].cs| && !r.steps[i].Create?
    requires WellTyped(r.states[i]) && Can(r.states[i], r.steps[i])
    ensures var s, step := r.states[i], r.steps[i];
            var v := Look(s, FocusOf(s, step), Actor(step));
            var msg := if c == FocusOf(s, step) then TakenBy(v, c, step) else [];
            && (TakesAt(r, i, c) ==> c == FocusOf(s, step) && Asked(r, i, step.t).Some?)
            && Taken(r, i + 1, c) == (if TakesAt(r, i, c) then Taken(r, i, c) + [msg] else Taken(r, i, c))
            && (!TakesAt(r, i, c) ==> msg == [])
  {
    if r.steps[i].BySend? && r.steps[i].send.SendQueue? {
      AlwaysCarries(r, i, r.steps[i].t);
    }
  }

  lemma {:induction false} BalancesNext(r: Run, i: nat, c: ConnId)
    requires IsCarefulRun(r) && i < |r.steps| && c < |r.states[i].cs| && Balances(r, i, c)
    ensures c < |r.states[i + 1].cs| && Balances(r, i + 1, c)
  {
    var s, step := r.states[i], r.steps[i];
    Always(r, i);
    assert Takes(r, i);
    if !step.Create? {
      FlightStep(s, step, c);
      TakenIsAsked(r, i, c);
      var msg := if c == FocusOf(s, step) then TakenBy(Look(s, c, Actor(step)), c, step) else [];
      FlattenSnoc(Taken(r, i, c), msg);
      NothingAdded(Flatten(Taken(r, i, c)), []);
    }
  }

  lemma TakenSame(r: Run, i: nat, c: ConnId)
    requires i < |r.steps| && !TakesAt(r, i, c)
    ensures Taken(r, i + 1, c) == Taken(r, i, c)
  {
  }

  lemma {:induction false} NothingTaken(r: Run, i: nat, c: ConnId)
    requires i <= |r.steps| && Untouched(r, i, c)
    ensures Taken(r, i, c) == []
    decreases i
  {
    if i > 0 {
      TakenSame(r, i - 1, c);
      NothingTaken(r, i - 1, c);
    }
  }

  lemma {:induction false} BalanceBegins(r: Run, i: nat, c: ConnId)
    requires IsRun(r) && i < |r.steps| && c < |r.states[i + 1].cs| && c >= |r.states[i].cs|
    ensures Balances(r, i + 1, c)
  {
    NewConn(r, i, c);
    BornUntouched(r, i, c);
    NothingTaken(r, i + 1, c);
  }

  lemma {:induction false} AlwaysBalances(r: Run, i: nat, c: ConnId)
    requires IsCarefulRun(r) && i < |r.states| && c < |r.states[i].cs|
    ensures Balances(r, i, c)
    decreases i
  {
    if i == 0 {
    } else if c < |r.states[i - 1].cs| {
      AlwaysBalances(r, i - 1, c);
      BalancesNext(r, i - 1, c);
    } else {
      BalanceBegins(r, i - 1, c);
    }
  }

  /**
   * The accepted bytes are the messages passed to those calls of `send` that found the
   * connection connected, in order; less the one that a thread has yet to store. Sent and
   * still unsent bytes together are therefore those messages.
   */
  lemma {:induction false} AcceptedIsWhatWasSent(r: Run, i: nat, c: ConnId)
    requires IsCarefulRun(r) && i < |r.states| && c < |r.states[i].cs|
    ensures var s := r.states[i];
            && (s.cs[c].locked.None? ==> s.cs[c].sent + s.cs[c].output == s.cs[c].accepted == Flatten(Taken(r, i, c)))
            && (forall t :: t in s.calls && s.calls[t].SendCopied? && s.calls[t].c == c ==>
                  s.cs[c].accepted + s.calls[t].msg == Flatten(Taken(r, i, c)))
            && ((forall t :: t in s.calls && s.calls[t].SendCopied? ==> s.calls[t].c != c) ==>
                  s.cs[c].accepted == Flatten(Taken(r, i, c)))
  {
    var s := r.states[i];
    AlwaysBalances(r, i, c);
    Always(r, i);
    OutputIsConserved(r, i, c);
    NothingAdded(s.cs[c].accepted, []);
    forall t | t in s.calls && s.calls[t].SendCopied? && s.calls[t].c == c
      ensures s.cs[c].accepted + s.calls[t].msg == Flatten(Taken(r, i, c))
    {
      assert LocksOk(s, t);
    }
  }

  lemma {:induction false} RefusedAfterClose(r: Run, m: nat, i: nat, c: ConnId)
    requires IsCarefulRun(r) && m < i < |r.states| && MarkedAt(r, m, c) && !Overwritten(r, m, i, c)
    ensures !TakesAt(r, m, c) && !TakesAt(r, i, c)
  {
    CloseIsFinal(r, m, i, c);
  }

  /** Behind a `close` that is not overwritten, `send` is refused: nothing is taken any more. */
  lemma {:induction false} ClosedTakesNothing(r: Run, m: nat, i: nat, c: ConnId)
    requires IsCarefulRun(r) && m < i <= |r.steps| && i < |r.states| && MarkedAt(r, m, c) && !Overwritten(r, m, i, c)
    ensures Taken(r, i, c) == Taken(r, m, c)
    decreases i
  {
    if i == m + 1 {
      RefusedAfterClose(r, m, i, c);
      TakenSame(r, m, c);
    } else {
      OverwrittenNext(r, m, i - 1, c);
      RefusedAfterClose(r, m, i - 1, c);
      TakenSame(r, i - 1, c);
      ClosedTakesNothing(r, m, i - 1, c);
    }
  }
}
