/**
 * The reference count is the number of owners: being in `_conns`, being in `_recycles`,
 * the event being handled, the connect under way, and one for every thread inside
 * `send`, `getStatus` or `close`. When the last owner lets go, and only then, and only
 * once, the connection is deleted.
 */
module References {
  import opened Interface
  import opened Registry
  import opened Protocol
  import opened Names
  import opened Lifetimes
  import opened LoopOrder

  function Bit(b: bool): nat { if b then 1 else 0 }

  /** The threads that hold a reference. */
  function Holders(calls: map<Thread, Call>, d: ConnId): set<Thread> {
    set t | t in calls && Held(calls[t]) == Some(d)
  }

  /** The owners other than threads inside a call. */
  function PlacesOf(table: Table, dial: Dial, loop: Loop, d: ConnId): nat {
    Bit(IsOnline(table.conns, d)) + Bit(d in table.recycles)
    + Bit(LoopHeld(loop) == Some(d)) + Bit(DialOwns(dial) == Some(d))
  }

  function Owners(s: State, d: ConnId): nat {
    PlacesOf(s.table, s.dial, s.loop, d) + |Holders(s.calls, d)|
  }

  /** `others` threads besides the one in view hold a reference. */
  function ViewOwners(v: View, d: ConnId, others: nat): nat {
    PlacesOf(v.table, v.dial, v.loop, d) + Bit(Held(v.call) == Some(d)) + others
  }

  predicate Balanced(table: Table, d: ConnId, owners: nat)
    requires d < |table.refs| == |table.frees|
  {
    if table.frees[d] == 0 then table.refs[d] == owners >= 1 else table.frees[d] == 1 && owners == 0
  }

  ghost predicate Counted(s: State) {
    Ordered(s) && forall d: ConnId :: d < |s.cs| ==> Balanced(s.table, d, Owners(s, d))
  }

  ghost predicate ViewCounted(v: View, d: ConnId, others: nat) {
    && v.table.Shaped() && d < |v.table.refs|
    && Balanced(v.table, d, ViewOwners(v, d, others))
    && (DialOwns(v.dial) == Some(d) ==> others == 0)
  }

  // One lemma for each kind of step, then all of them together.

  lemma CountedDial(v: View, c: ConnId, d: ConnId, others: nat, step: DialStep)
    requires ViewAlive(v, c) && Focused(v, c, ByDial(step)) && CanDial(v, step) && Legal(ByDial(step), |v.table.refs|)
    requires ViewOrdered(v, Actor(ByDial(step))) && ViewCounted(v, d, others)
    ensures |DoDial(v, step).table.refs| == |v.table.refs| && DoDial(v, step).table.Shaped()
    ensures Balanced(DoDial(v, step).table, d, ViewOwners(DoDial(v, step), d, others))
  {
  }

  lemma CountedSend(v: View, c: ConnId, d: ConnId, others: nat, t: Thread, step: SendStep)
    requires ViewAlive(v, c) && Focused(v, c, BySend(t, step)) && CanSend(v, t, step)
    requires Legal(BySend(t, step), |v.table.refs|)
    requires ViewOrdered(v, Actor(BySend(t, step))) && ViewCounted(v, d, others)
    ensures |DoSend(v, t, step).table.refs| == |v.table.refs| && DoSend(v, t, step).table.Shaped()
    ensures Balanced(DoSend(v, t, step).table, d, ViewOwners(DoSend(v, t, step), d, others))
  {
  }

  lemma CountedClose(v: View, c: ConnId, d: ConnId, others: nat, t: Thread, step: CloseStep)
    requires ViewAlive(v, c) && Focused(v, c, ByClose(t, step)) && CanClose(v, t, step)
    requires Legal(ByClose(t, step), |v.table.refs|)
    requires ViewOrdered(v, Actor(ByClose(t, step))) && ViewCounted(v, d, others)
    ensures |DoClose(v, t, step).table.refs| == |v.table.refs| && DoClose(v, t, step).table.Shaped()
    ensures Balanced(DoClose(v, t, step).table, d, ViewOwners(DoClose(v, t, step), d, others))
  {
  }

  lemma CountedBatch(v: View, c: ConnId, d: ConnId, others: nat, step: BatchStep)
    requires ViewAlive(v, c) && Focused(v, c, ByBatch(step)) && CanBatch(v, step)
    requires Legal(ByBatch(step), |v.table.refs|)
    requires ViewOrdered(v, Actor(ByBatch(step))) && ViewCounted(v, d, others)
    ensures |DoBatch(v, step).table.refs| == |v.table.refs| && DoBatch(v, step).table.Shaped()
    ensures Balanced(DoBatch(v, step).table, d, ViewOwners(DoBatch(v, step), d, others))
  {
  }

  lemma CountedRead(v: View, c: ConnId, d: ConnId, others: nat, step: ReadStep)
    requires ViewAlive(v, c) && Focused(v, c, ByRead(step)) && CanRead(v, step) && Legal(ByRead(step), |v.table.refs|)
    requires ViewOrdered(v, Actor(ByRead(step))) && ViewCounted(v, d, others)
    ensures |DoRead(v, step).table.refs| == |v.table.refs| && DoRead(v, step).table.Shaped()
    ensures Balanced(DoRead(v, step).table, d, ViewOwners(DoRead(v, step), d, others))
  {
  }

  lemma CountedConnect(v: View, c: ConnId, d: ConnId, others: nat, step: ConnectStep)
    requires ViewAlive(v, c) && Focused(v, c, ByConnect(step)) && CanConnect(v, step)
    requires Legal(ByConnect(step), |v.table.refs|)
    requires ViewOrdered(v, Actor(ByConnect(step))) && ViewCounted(v, d, others)
    ensures |DoConnect(v, step).table.refs| == |v.table.refs| && DoConnect(v, step).table.Shaped()
    ensures Balanced(DoConnect(v, step).table, d, ViewOwners(DoConnect(v, step), d, others))
  {
  }

  lemma CountedWrite(v: View, c: ConnId, d: ConnId, others: nat, step: WriteStep)
    requires ViewAlive(v, c) && Focused(v, c, ByWrite(step)) && CanWrite(v, step)
    requires Legal(ByWrite(step), |v.table.refs|)
    requires ViewOrdered(v, Actor(ByWrite(step))) && ViewCounted(v, d, others)
    ensures |DoWrite(v, step).table.refs| == |v.table.refs| && DoWrite(v, step).table.Shaped()
    ensures Balanced(DoWrite(v, step).table, d, ViewOwners(DoWrite(v, step), d, others))
  {
  }

  lemma CountedClear(v: View, d: ConnId, others: nat)
    requires Typed(v) && CanReap(v, SweepDone) && NoDuplicates(v.table.recycles) && ViewCounted(v, d, others)
    ensures |DoReap(v, SweepDone).table.refs| == |v.table.refs| && DoReap(v, SweepDone).table.Shaped()
    ensures Balanced(DoReap(v, SweepDone).table, d, ViewOwners(DoReap(v, SweepDone), d, others))
  {
    ReleaseAllCounts(v.table.(recycles := []), v.table.recycles, d);
  }

  lemma CountedReap(v: View, c: ConnId, d: ConnId, others: nat, step: ReapStep)
    requires ViewAlive(v, c) && Focused(v, c, ByReap(step)) && CanReap(v, step) && Legal(ByReap(step), |v.table.refs|)
    requires ViewOrdered(v, Actor(ByReap(step))) && ViewCounted(v, d, others)
    ensures |DoReap(v, step).table.refs| == |v.table.refs| && DoReap(v, step).table.Shaped()
    ensures Balanced(DoReap(v, step).table, d, ViewOwners(DoReap(v, step), d, others))
  {
    match step
    case CloseReturned =>
    case CloseCallback =>
    case SkipTick =>
    case Sweep(_) =>
    case SweepNext =>
    case SweepDone => CountedClear(v, d, others);
  }

  lemma CountedEffect(v: View, c: ConnId, d: ConnId, others: nat, step: Step)
    requires ViewAlive(v, c) && Focused(v, c, step) && Enabled(v, step) && Legal(step, |v.table.refs|)
    requires ViewOrdered(v, Actor(step)) && ViewCounted(v, d, others)
    ensures |Effect(v, step).table.refs| == |v.table.refs| && Effect(v, step).table.Shaped()
    ensures Balanced(Effect(v, step).table, d, ViewOwners(Effect(v, step), d, others))
  {
    match step
    case Create =>
    case ByDial(x) => CountedDial(v, c, d, others, x);
    case BySend(t, x) => CountedSend(v, c, d, others, t, x);
    case ByClose(t, x) => CountedClose(v, c, d, others, t, x);
    case ByBatch(x) => CountedBatch(v, c, d, others, x);
    case ByRead(x) => CountedRead(v, c, d, others, x);
    case ByConnect(x) => CountedConnect(v, c, d, others, x);
    case ByWrite(x) => CountedWrite(v, c, d, others, x);
    case ByReap(x) => CountedReap(v, c, d, others, x);
  }

  lemma HoldersBut(calls: map<Thread, Call>, t: Thread, call: Call, d: ConnId)
    requires t in calls
    ensures |Holders(calls, d)| == |Holders(calls, d) - {t}| + Bit(Held(calls[t]) == Some(d))
    ensures Holders(calls[t := call], d) - {t} == Holders(calls, d) - {t}
  {
    if Held(calls[t]) == Some(d) {
      assert Holders(calls, d) == (Holders(calls, d) - {t}) + {t};
    } else {
      assert Holders(calls, d) == Holders(calls, d) - {t};
    }
  }

  /** Counting the owners of `d` by counting thread `t` apart from the others. */
  lemma OwnersSeen(s: State, c: ConnId, t: Thread, w: View, d: ConnId)
    requires t in s.calls
    ensures Owners(s, d) == ViewOwners(Look(s, c, t), d, |Holders(s.calls, d) - {t}|)
    ensures Owners(Put(s, c, t, w), d) == ViewOwners(w, d, |Holders(s.calls, d) - {t}|)
  {
    HoldersBut(s.calls, t, w.call, d);
    HoldersBut(s.calls[t := w.call], t, w.call, d);
  }

  lemma NobodyHoldsTheUnborn(s: State, t: Thread, d: ConnId)
    requires Alive(s)
    ensures DialOwns(s.dial) == Some(d) ==> |Holders(s.calls, d) - {t}| == 0
  {
    forall u | u in s.calls
      ensures Held(s.calls[u]).Some? ==> Held(s.calls[u]) != DialOwns(s.dial)
    {
      assert CallPlaced(s.calls[u], s.table.conns, s.dial);
    }
    if DialOwns(s.dial) == Some(d) {
      assert Holders(s.calls, d) - {t} == {};
    }
  }

  lemma CountedSeen(s: State, step: Step, d: ConnId)
    requires Counted(s) && Can(s, step) && d < |s.cs|
    ensures ViewCounted(Look(s, FocusOf(s, step), Actor(step)), d, |Holders(s.calls, d) - {Actor(step)}|)
    ensures ViewOrdered(Look(s, FocusOf(s, step), Actor(step)), Actor(step))
  {
    var c, t := FocusOf(s, step), Actor(step);
    OwnersSeen(s, c, t, Look(s, c, t), d);
    NobodyHoldsTheUnborn(s, t, d);
  }

  lemma CountedAct(s: State, step: Step, d: ConnId)
    requires Counted(s) && Can(s, step) && !step.Create? && d < |s.cs|
    ensures Do(s, step).table.Shaped() && |Do(s, step).table.refs| == |s.cs|
    ensures Balanced(Do(s, step).table, d, Owners(Do(s, step), d))
  {
    var c, t := FocusOf(s, step), Actor(step);
    var v := Look(s, c, t);
    AliveSeen(s, step);
    CountedSeen(s, step, d);
    CountedEffect(v, c, d, |Holders(s.calls, d) - {t}|, step);
    OwnersSeen(s, c, t, Effect(v, step), d);
  }

  lemma CountedBorn(s: State)
    requires Counted(s) && Can(s, Create)
    ensures Counted(Born(s))
  {
    OrderedStep(s, Create);
    forall d: ConnId | d < |s.cs| + 1
      ensures Balanced(Born(s).table, d, Owners(Born(s), d))
    {
      if d == |s.cs| {
        assert Holders(s.calls, d) == {};
      } else {
        assert Balanced(s.table, d, Owners(s, d));
      }
    }
  }

  lemma CountedStep(s: State, step: Step)
    requires Counted(s) && Can(s, step) && Careful(s, step)
    ensures Counted(Do(s, step))
  {
    if step.Create? {
      CountedBorn(s);
    } else {
      OrderedStep(s, step);
      forall d: ConnId | d < |s.cs|
        ensures Balanced(Do(s, step).table, d, Owners(Do(s, step), d))
      {
        CountedAct(s, step, d);
      }
    }
  }

  lemma CountedInit(s: State)
    requires Init(s)
    ensures Counted(s)
  {
    OrderedInit(s);
  }
}
