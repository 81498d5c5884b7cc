/**
 * `NetWork::connect`, `NetWork::close` and `NetWork::time_process` (src/network.cpp) run by one thread with
 * nobody interfering: what one timeout sweep does to the registry and what it reports.
 */
module Sweeping {
  import opened Interface
  import opened Registry
  import Handles

  datatype Report = Report(handle: int, reason: int)

  class NetWork {
    const online: OnlineUser
    const handles: Handles.HandleSource
    var info: seq<ConnInfo>       // `_state` and `_last_active_time` of every connection
    var closed: set<ConnId>       // `TcpConnection::close` has run
    var lastTime: int
    ghost var reports: seq<Report>  // the arguments of onClose, in order

    ghost predicate Valid()
      reads this, online
    {
      && online.Value().Owned() && |info| == |online.refs|
      && (forall c: ConnId :: c in online.conns.Values ==> c !in closed)
      && (forall c: ConnId :: c in closed ==> c < |info|)
    }

    constructor (now: int)
      ensures Valid() && online.conns == map[] && lastTime == now && fresh(online) && fresh(handles)
      ensures handles.h == 0
    {
      online := new OnlineUser();
      handles := new Handles.HandleSource();
      info, closed, lastTime, reports := [], {}, now, [];
    }

    /**
     * `connect`: a new connection under a handle that nobody uses, in state CONNECTING,
     * unless the socket refuses (`ok` is false); then it is deleted again. `overflow` reports
     * the signed increment of `make_handle` that C++ leaves undefined; nothing follows it here.
     */
    method Connect(ok: bool, now: int, ghost f: int) returns (handle: int, overflow: bool)
      requires Valid() && 0 <= handles.h <= Handles.MAX_INT && Handles.Free(f, online.conns.Keys)
      modifies this`info, online, handles
      ensures Valid() && (overflow <==> Handles.Overflows(old(handles.h), old(online.conns).Keys))
      ensures overflow ==> handle == -1 && online.Value() == old(online.Value()) && info == old(info)
      ensures !overflow ==> 0 <= handles.h <= Handles.MAX_INT
      ensures !overflow ==> |info| == |old(info)| + 1 && info[..|old(info)|] == old(info)
      ensures !overflow && ok ==>
                && handle == handles.h && handle !in old(online.conns)
                && online.Value() == AddConn(Created(old(online.Value())), handle, |old(info)|)
                && info[|old(info)|] == ConnInfo(Connecting, now)
      ensures !overflow && !ok ==>
                handle == -1 && online.Value() == Delete(Created(old(online.Value())), |old(info)|)
    {
      ghost var t := online.Value();
      var h;
      h, overflow := handles.MakeHandle(online.conns.Keys, f);
      if overflow {
        handle := -1;
        return;
      }
      var c := online.Create();
      CreatedKeepsOwned(t, h);
      info := info + [ConnInfo(if ok then Connecting else ConnState.Closed, now)];
      if ok {
        var added := online.Addconn(h, c);
        handle := h;
      } else {
        online.DeleteConn(c);
        handle := -1;
      }
    }

    /** `close`: a registered connection leaves `_conns` for `_recycles`, and only then is closed, once. */
    method Close(handle: int)
      requires Valid()
      modifies this`info, this`closed, online
      ensures Valid()
      ensures online.Value() == RemoveConn(old(online.Value()), handle)
      ensures closed == old(closed) + if handle in old(online.conns) then {old(online.conns)[handle]} else {}
      ensures forall c: ConnId :: c < |info| ==>
                (handle in old(online.conns) && c == old(online.conns)[handle]) || info[c] == old(info)[c]
      ensures handle in old(online.conns) ==>
                var c := old(online.conns)[handle];
                c < |old(info)| && info[c] == old(info)[c].(state := ConnState.Closed)
    {
      RemoveKeepsOwned(online.Value(), handle);
      var conn := online.Getconn(handle);
      if conn.Some? {
        var removed := online.Removeconn(handle);
        if removed {
          info := info[conn.value := info[conn.value].(state := Closed)];
          closed := closed + {conn.value};
        }
        online.ReleaseReference(conn.value);
        assert online.refs == old(online.refs);
      }
    }

    /** One connection of the timeout list: `close` it, then tell the application. */
    method CloseAndReport(handle: int, reason: int)
      requires Valid() && handle in online.conns
      modifies this`info, this`closed, this`reports, online
      ensures Valid() && lastTime == old(lastTime)
      ensures online.Value() == RemoveConn(old(online.Value()), handle)
      ensures closed == old(closed) + {old(online.conns)[handle]}
      ensures OnlyClosed(old(info), old(online.conns), {handle})
      ensures reports == old(reports) + [Report(handle, reason)]
    {
      Close(handle);
      reports := reports + [Report(handle, reason)];
    }

    /** The connections of these handles are in state CLOSED; nothing else about any connection has changed. */
    ghost predicate OnlyClosed(was: seq<ConnInfo>, conns: map<int, ConnId>, hs: set<int>)
      reads this
    {
      && |info| == |was|
      && forall c: ConnId :: c < |was| ==>
           info[c] == if ListedIn(conns, hs, c) then was[c].(state := ConnState.Closed) else was[c]
    }

    /** The timeout list, worked off in the ascending order of a std::map. */
    method CloseAll(list: map<int, int>, ghost t: Table, ghost was: set<ConnId>, ghost infos: seq<ConnInfo>,
                    ghost before: seq<Report>)
      requires Worked(t, was, infos, before, list, {}) && list.Keys <= t.conns.Keys
      modifies this`info, this`closed, this`reports, online
      ensures Worked(t, was, infos, before, list, list.Keys)
    {
      var todo := list.Keys;
      ghost var done: set<int> := {};
      while todo != {}
        invariant done + todo == list.Keys && Worked(t, was, infos, before, list, done)
        invariant Below(done, todo)
        decreases todo
      {
        var h := Least(todo, done);
        CloseNext(h, list, t, was, infos, before, done);
        todo, done := todo - {h}, done + {h};
      }
    }

    /** The handles of `done` have been worked off, starting from these values. */
    ghost predicate Worked(t: Table, was: set<ConnId>, infos: seq<ConnInfo>, before: seq<Report>,
                           list: map<int, int>, done: set<int>)
      reads this, online
    {
      && Valid()
      && online.conns == t.conns - done && online.refs == t.refs && online.frees == t.frees
      && (forall c: ConnId :: c in online.recycles <==> c in t.recycles || ListedIn(t.conns, done, c))
      && (forall c: ConnId :: c in closed <==> c in was || ListedIn(t.conns, done, c))
      && OnlyClosed(infos, t.conns, done)
      && |reports| >= |before| && reports[..|before|] == before && Reports(reports[|before|..], list, done)
    }

    /** The body of the loop, for the least handle that is left. */
    method CloseNext(h: int, list: map<int, int>, ghost t: Table, ghost was: set<ConnId>, ghost infos: seq<ConnInfo>,
                     ghost before: seq<Report>, ghost done: set<int>)
      requires Worked(t, was, infos, before, list, done) && list.Keys <= t.conns.Keys
      requires h in list && h !in done && forall g :: g in done ==> g < h
      modifies this`info, this`closed, this`reports, online
      ensures Worked(t, was, infos, before, list, done + {h})
    {
      ghost var rs := reports[|before|..];
      ReportsSnoc(rs, list, done, h);
      RecycledNext(t, online.Value(), done, h);
      CloseAndReport(h, list[h]);
      assert reports[|before|..] == rs + [Report(h, list[h])];
    }

    /**
     * `time_process`: nothing within a second of the last sweep; otherwise exactly the
     * connections that have been idle too long are closed and reported with their reason,
     * and every recycled connection loses the registry's reference.
     */
    method TimeProcess(now: int)
      requires Valid()
      modifies this`info, this`closed, this`reports, this`lastTime, online
      ensures Valid()
      ensures now - old(lastTime) < 1 ==>
                online.Value() == old(online.Value()) && closed == old(closed) && reports == old(reports)
      ensures now - old(lastTime) < 1 ==> lastTime == old(lastTime) && info == old(info)
      ensures now - old(lastTime) >= 1 ==>
                var list := TimeoutList(old(online.conns), old(info), now);
                && lastTime == now && online.conns == old(online.conns) - list.Keys && online.recycles == []
                && (forall c: ConnId :: c in closed <==> c in old(closed) || ListedIn(old(online.conns), list.Keys, c))
                && |reports| >= |old(reports)| && reports[..|old(reports)|] == old(reports)
                && Reports(reports[|old(reports)|..], list, list.Keys)
                && Reclaimed(old(online.Value()), list.Keys) && OnlyClosed(old(info), old(online.conns), list.Keys)
      ensures now - old(lastTime) >= 1 ==> forall h :: h in old(online.conns) ==>
                old(online.conns)[h] < |old(info)|
                && (h !in online.conns <==> IdleTooLong(old(info)[old(online.conns)[h]], now))
      ensures forall i :: |old(reports)| <= i < |reports| ==>
                && reports[i].handle in old(online.conns) && old(online.conns)[reports[i].handle] < |old(info)|
                && reports[i].reason == IdleReason(old(info)[old(online.conns)[reports[i].handle]].state)
    {
      if now - lastTime < 1 {
        return;
      }
      lastTime := now;
      var list := online.CheckTimeout(info, now);
      assert reports[|reports|..] == [];
      CloseAll(list, online.Value(), closed, info, reports);
      ReclaimAll(online.Value());
      online.ClearRecycles();
    }

    /** Recycled before or timed out now: one reference less, and deleted if it was the last. */
    ghost predicate Reclaimed(t: Table, hs: set<int>)
      requires |t.refs| == |t.frees|
      reads online
    {
      && |online.refs| == |online.frees| == |t.refs|
      && forall c: ConnId :: c < |t.refs| ==>
           var gone := c in t.recycles || ListedIn(t.conns, hs, c);
           && online.refs[c] == t.refs[c] - (if gone then 1 else 0)
           && online.frees[c] == t.frees[c] + (if gone && t.refs[c] == 1 then 1 else 0)
    }
  }

  lemma ReclaimAll(t: Table)
    requires t.Owned()
    ensures Clear(t).conns == t.conns && Clear(t).recycles == [] && Clear(t).Owned() && |Clear(t).refs| == |t.refs|
    ensures forall c: ConnId :: c < |t.refs| ==> Clear(t).refs[c] == t.refs[c] - (if c in t.recycles then 1 else 0)
    ensures forall c: ConnId :: c < |t.refs| ==>
              Clear(t).frees[c] == t.frees[c] + (if c in t.recycles && t.refs[c] == 1 then 1 else 0)
  {
    forall c: ConnId | c < |t.refs|
      ensures Clear(t).refs[c] == t.refs[c] - (if c in t.recycles then 1 else 0)
      ensures Clear(t).frees[c] == t.frees[c] + (if c in t.recycles && t.refs[c] == 1 then 1 else 0)
    {
      ReleaseAllCounts(t.(recycles := []), t.recycles, c);
    }
  }

  /** The connection of one of these handles. */
  ghost predicate ListedIn(conns: map<int, ConnId>, hs: set<int>, c: ConnId) {
    exists h :: h in hs && h in conns && conns[h] == c
  }

  lemma ListedNext(conns: map<int, ConnId>, done: set<int>, h: int, c: ConnId)
    requires h in conns
    ensures ListedIn(conns, done + {h}, c) <==> ListedIn(conns, done, c) || conns[h] == c
  {
    if ListedIn(conns, done, c) {
      var g :| g in done && g in conns && conns[g] == c;
      assert g in done + {h};
    }
    if conns[h] == c {
      assert h in done + {h};
    }
  }

  /** Recycling one more connection of the list. */
  lemma RecycledNext(t: Table, now: Table, done: set<int>, h: int)
    requires now.conns == t.conns - done && h in t.conns && h !in done
    requires now.Shaped() && forall c: ConnId :: c in now.recycles <==> c in t.recycles || ListedIn(t.conns, done, c)
    ensures RemoveConn(now, h).conns == t.conns - (done + {h})
    ensures forall c: ConnId :: c in RemoveConn(now, h).recycles <==>
              c in t.recycles || ListedIn(t.conns, done + {h}, c)
    ensures forall c: ConnId :: ListedIn(t.conns, done + {h}, c) <==> ListedIn(t.conns, done, c) || t.conns[h] == c
  {
    forall c: ConnId
      ensures ListedIn(t.conns, done + {h}, c) <==> ListedIn(t.conns, done, c) || t.conns[h] == c
    {
      ListedNext(t.conns, done, h, c);
    }
  }

  /** Exactly one report per handle of `hs`, ascending, with the reason of the list. */
  ghost predicate Reports(rs: seq<Report>, list: map<int, int>, hs: set<int>) {
    && (forall i :: 0 <= i < |rs| ==> rs[i].handle in hs && rs[i].handle in list && rs[i].reason == list[rs[i].handle])
    && (forall h :: h in hs ==> h in list && Report(h, list[h]) in rs)
    && (forall i, j :: 0 <= i < j < |rs| ==> rs[i].handle < rs[j].handle)
  }

  lemma ReportsSnoc(rs: seq<Report>, list: map<int, int>, hs: set<int>, h: int)
    requires Reports(rs, list, hs) && h in list && forall g :: g in hs ==> g < h
    ensures Reports(rs + [Report(h, list[h])], list, hs + {h})
  {
    var next := rs + [Report(h, list[h])];
    assert next[|rs|] == Report(h, list[h]);
    forall g | g in hs
      ensures Report(g, list[g]) in next
    {
      assert Report(g, list[g]) in rs;
    }
  }

  ghost predicate Below(done: set<int>, todo: set<int>) {
    forall g, h :: g in done && h in todo ==> g < h
  }

  /** The next handle in ascending order. */
  method Least(todo: set<int>, ghost done: set<int>) returns (h: int)
    requires todo != {} && Below(done, todo)
    ensures h in todo && h !in done && (forall g :: g in done ==> g < h) && Below(done + {h}, todo - {h})
  {
    LeastExists(todo);
    h :| h in todo && forall g :: g in todo ==> h <= g;
  }

  lemma {:induction false} LeastExists(s: set<int>)
    requires s != {}
    ensures exists h :: h in s && forall g :: g in s ==> h <= g
    decreases s
  {
    HasElement(s);
    var x :| x in s;
    if s != {x} {
      LeastExists(s - {x});
      var m :| m in s - {x} && forall g :: g in s - {x} ==> m <= g;
      var least := if m < x then m else x;
      forall g | g in s
        ensures least <= g
      {
        assert g == x || g in s - {x};
      }
    }
  }

  /** A new connection, in `_conns` or deleted at once, leaves the rest of the registry as it was. */
  lemma CreatedKeepsOwned(t: Table, h: int)
    requires t.Owned() && h !in t.conns
    ensures AddConn(Created(t), h, |t.refs|).Owned() && Delete(Created(t), |t.refs|).Owned()
    ensures forall c: ConnId :: c in AddConn(Created(t), h, |t.refs|).conns.Values ==>
              c in t.conns.Values || c == |t.refs|
    ensures forall c: ConnId :: c in Created(t).conns.Values ==> c < |t.refs|
  {
    var r := AddConn(Created(t), h, |t.refs|);
    forall c: ConnId | c in t.conns.Values
      ensures c < |t.refs|
    {
      HasKey(t.conns, c);
    }
    assert forall c: ConnId :: c < |t.refs| && r.Holds(c) ==> t.Holds(c);
    assert forall c: ConnId :: c in r.conns.Values ==> c in t.conns.Values || c == |t.refs|;
  }

  lemma RemoveKeepsOwned(t: Table, h: int)
    requires t.Owned()
    ensures RemoveConn(t, h).Owned()
    ensures forall c: ConnId :: c in RemoveConn(t, h).conns.Values ==>
              c in t.conns.Values && (h in t.conns ==> c != t.conns[h])
  {
    var r := RemoveConn(t, h);
    if h in t.conns {
      assert forall g :: g in r.conns ==> g in t.conns && g != h && r.conns[g] == t.conns[g];
      assert forall c: ConnId :: c < |t.refs| && r.Holds(c) ==> t.Holds(c);
    }
  }
}
