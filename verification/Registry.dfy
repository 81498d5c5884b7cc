/**
 * The connection registry of src/network.cpp (`OnlineUser`) with the reference counts of
 * src/tools.cpp (`Ref`). Connections are named by their creation number, which stands for
 * the pointer.
 *
 * The functions on `Table` are the effect of each locked section; the class updates its
 * fields in place and is proved to have exactly that effect. The Protocol module composes
 * the same functions into a concurrent system.
 */
module Registry {
  import opened Interface

  type ConnId = nat

  /** `_conns`, `_recycles`, and for every connection ever created `_ref` and how often it was deleted. */
  datatype Table = Table(conns: map<int, ConnId>, recycles: seq<ConnId>, refs: seq<int>, frees: seq<nat>) {
    predicate Shaped() {
      && |refs| == |frees|
      && (forall h :: h in conns ==> conns[h] < |refs|)
      && (forall i :: 0 <= i < |recycles| ==> recycles[i] < |refs|)
    }

    /** The registry owns one reference to this connection. */
    ghost predicate Holds(c: ConnId) { c in conns.Values || c in recycles }

    /** No connection is in the registry twice, and each one in it is alive. */
    ghost predicate Owned() {
      && Shaped() && NoDuplicates(recycles)
      && (forall g, h :: g in conns && h in conns && conns[g] == conns[h] ==> g == h)
      && (forall h :: h in conns ==> conns[h] !in recycles)
      && (forall c: ConnId :: c < |refs| && Holds(c) ==> refs[c] >= 1)
    }
  }

  datatype ConnInfo = ConnInfo(state: ConnState, lastActive: int)

  /** Five seconds to connect, ten minutes between two signs of life. */
  function Expired(c: ConnInfo, now: int): Option<int> {
    match c.state
    case Connecting => if now - c.lastActive > 5 then Some(SOCKET_ERROR_CONN_TIMEOUT) else None
    case CryptRegIng => if now - c.lastActive > 5 then Some(SOCKET_ERROR_CONN_TIMEOUT) else None
    case Connected => if now - c.lastActive > 600 then Some(SOCKET_ERROR_TIMEOUT) else None
    case _ => None
  }

  /** The two limits, in seconds: 5 until the connection is set up, 600 from then on; a closed one has none. */
  predicate IdleTooLong(c: ConnInfo, now: int) {
    || ((c.state == Connecting || c.state == CryptRegIng) && now > c.lastActive + 5)
    || (c.state == Connected && now > c.lastActive + 600)
  }

  function IdleReason(state: ConnState): int {
    if state == Connected then SOCKET_ERROR_TIMEOUT else SOCKET_ERROR_CONN_TIMEOUT
  }

  function TimeoutList(conns: map<int, ConnId>, info: seq<ConnInfo>, now: int): map<int, int>
    requires forall h :: h in conns ==> conns[h] < |info|
  {
    map h | h in conns && Expired(info[conns[h]], now).Some? :: Expired(info[conns[h]], now).value
  }

  /** A new connection, with the reference it is born with. */
  function Created(t: Table): Table {
    t.(refs := t.refs + [1], frees := t.frees + [0])
  }

  function AddRef(t: Table, c: ConnId): Table
    requires t.Shaped() && c < |t.refs|
  {
    t.(refs := t.refs[c := t.refs[c] + 1])
  }

  /** `Ref::release`: the count goes down, and the release that takes it to 0 deletes. */
  function Release(t: Table, c: ConnId): Table
    requires t.Shaped() && c < |t.refs|
  {
    t.(refs := t.refs[c := t.refs[c] - 1],
       frees := if t.refs[c] == 1 then t.frees[c := t.frees[c] + 1] else t.frees)
  }

  function Delete(t: Table, c: ConnId): Table
    requires t.Shaped() && c < |t.refs|
  {
    t.(frees := t.frees[c := t.frees[c] + 1])
  }

  function GetConn(t: Table, h: int): Table
    requires t.Shaped()
  {
    if h in t.conns then AddRef(t, t.conns[h]) else t
  }

  function AddConn(t: Table, h: int, c: ConnId): Table
    requires t.Shaped() && c < |t.refs|
  {
    if h in t.conns then Delete(t, c) else t.(conns := t.conns[h := c])
  }

  function RemoveConn(t: Table, h: int): Table
    requires t.Shaped()
  {
    if h in t.conns then t.(conns := t.conns - {h}, recycles := t.recycles + [t.conns[h]]) else t
  }

  function ReleaseAll(t: Table, q: seq<ConnId>): (r: Table)
    requires t.Shaped() && forall i :: 0 <= i < |q| ==> q[i] < |t.refs|
    ensures r.Shaped() && |r.refs| == |t.refs| && r.conns == t.conns && r.recycles == t.recycles
    decreases |q|
  {
    if q == [] then t else ReleaseAll(Release(t, q[0]), q[1..])
  }

  function Clear(t: Table): Table
    requires t.Shaped()
  {
    ReleaseAll(t.(recycles := []), t.recycles)
  }

  predicate NoDuplicates(q: seq<ConnId>) {
    forall i, j :: 0 <= i < j < |q| ==> q[i] != q[j]
  }

  lemma HasElement(s: set<int>)
    ensures s == {} || exists x :: x in s
  {
    if forall x :: x !in s {
      assert s == {};
    }
  }

  lemma HasKey(conns: map<int, ConnId>, c: ConnId)
    ensures c in conns.Values <==> exists h :: h in conns && conns[h] == c
  {
    if c in conns.Values && forall h :: h in conns ==> conns[h] != c {
      assert false;
    }
  }

  /** Releasing a list without duplicates takes one reference from each member, and from no other. */
  lemma {:induction false} ReleaseAllCounts(t: Table, q: seq<ConnId>, c: ConnId)
    requires t.Shaped() && (forall i :: 0 <= i < |q| ==> q[i] < |t.refs|) && NoDuplicates(q) && c < |t.refs|
    ensures ReleaseAll(t, q).refs[c] == t.refs[c] - (if c in q then 1 else 0)
    ensures ReleaseAll(t, q).frees[c] == t.frees[c] + (if c in q && t.refs[c] == 1 then 1 else 0)
    decreases |q|
  {
    if q != [] {
      assert c in q <==> c == q[0] || c in q[1..];
      assert q[0] !in q[1..];
      ReleaseAllCounts(Release(t, q[0]), q[1..], c);
    }
  }

  class OnlineUser {
    var conns: map<int, ConnId>
    var recycles: seq<ConnId>
    var refs: seq<int>
    var frees: seq<nat>

    ghost function Value(): Table
      reads this
    {
      Table(conns, recycles, refs, frees)
    }

    constructor ()
      ensures Value() == Table(map[], [], [], [])
    {
      conns, recycles, refs, frees := map[], [], [], [];
    }

    method Create() returns (c: ConnId)
      modifies this
      ensures Value() == Created(old(Value())) && c == |old(refs)|
    {
      c := |refs|;
      refs, frees := refs + [1], frees + [0];
    }

    method DeleteConn(c: ConnId)
      requires Value().Shaped() && c < |refs|
      modifies this
      ensures Value() == Delete(old(Value()), c)
    {
      frees := frees[c := frees[c] + 1];
    }

    method AddReference(c: ConnId)
      requires Value().Shaped() && c < |refs|
      modifies this
      ensures Value() == AddRef(old(Value()), c)
    {
      refs := refs[c := refs[c] + 1];
    }

    method ReleaseReference(c: ConnId)
      requires Value().Shaped() && c < |refs|
      modifies this
      ensures Value() == Release(old(Value()), c)
    {
      refs := refs[c := refs[c] - 1];
      if refs[c] == 0 {
        frees := frees[c := frees[c] + 1];
      }
    }

    method Getconn(handle: int) returns (conn: Option<ConnId>)
      requires Value().Shaped()
      modifies this
      ensures Value() == GetConn(old(Value()), handle)
      ensures conn == if handle in old(conns) then Some(old(conns)[handle]) else None
    {
      conn := None;
      if handle in conns {
        conn := Some(conns[handle]);
        AddReference(conns[handle]);
      }
    }

    /**
     * `addconn`. In the branch that deletes the newcomer the source still reads its handle,
     * for the log; no run of the Protocol module gets there.
     */
    method Addconn(handle: int, c: ConnId) returns (added: bool)
      requires Value().Shaped() && c < |refs|
      modifies this
      ensures Value() == AddConn(old(Value()), handle, c)
      ensures added == (handle !in old(conns))
    {
      if handle !in conns {
        conns := conns[handle := c];
        added := true;
      } else {
        DeleteConn(c);
        added := false;
      }
    }

    method Removeconn(handle: int) returns (removed: bool)
      requires Value().Shaped()
      modifies this
      ensures Value() == RemoveConn(old(Value()), handle)
      ensures removed == (handle in old(conns))
    {
      removed := false;
      if handle in conns {
        removed := true;
        recycles := recycles + [conns[handle]];
        conns := conns - {handle};
      }
    }

    /** `clear`: pops and releases until the recycle list is empty. */
    method ClearRecycles()
      requires Value().Shaped()
      modifies this
      ensures Value() == Clear(old(Value()))
    {
      while recycles != []
        invariant Value().Shaped() && Clear(Value()) == Clear(old(Value()))
        decreases |recycles|
      {
        var conn := recycles[0];
        ghost var before := Value();
        recycles := recycles[1..];
        ReleaseReference(conn);
        assert Value() == Release(before.(recycles := recycles), conn);
        ReleaseCommutes(before, conn);
      }
    }

    static lemma ReleaseCommutes(t: Table, c: ConnId)
      requires t.Shaped() && t.recycles != [] && c == t.recycles[0]
      ensures Clear(Release(t.(recycles := t.recycles[1..]), c)) == Clear(t)
    {
    }

    /** `~OnlineUser`: one reference back for every connection in `_conns`, then for every recycled one. */
    method Destroy()
      requires Value().Owned()
      modifies this
      ensures |refs| == old(|refs|) && |frees| == old(|frees|)
      ensures forall c :: 0 <= c < |refs| ==> refs[c] == old(refs[c]) - (if old(Value()).Holds(c) then 1 else 0)
      ensures forall c :: 0 <= c < |refs| ==>
                frees[c] == old(frees[c]) + (if old(Value()).Holds(c) && old(refs[c]) == 1 then 1 else 0)
    {
      ghost var t := Value();
      ReleaseConns();
      ghost var mid := Value();
      ClearRecycles();
      forall c | 0 <= c < |t.refs|
        ensures refs[c] == t.refs[c] - (if t.Holds(c) then 1 else 0)
        ensures frees[c] == t.frees[c] + (if t.Holds(c) && t.refs[c] == 1 then 1 else 0)
      {
        HasKey(t.conns, c);
        ReleaseAllCounts(mid.(recycles := []), mid.recycles, c);
      }
    }

    method ReleaseConns()
      requires Value().Owned()
      modifies this
      ensures conns == old(conns) && recycles == old(recycles) && |refs| == old(|refs|) && |frees| == old(|frees|)
      ensures forall c :: 0 <= c < |refs| ==>
                if c in conns.Values then Dropped(old(Value()), c)
                else refs[c] == old(refs[c]) && frees[c] == old(frees[c])
    {
      ghost var t, done: set<ConnId> := Value(), {};
      var keys := conns.Keys;
      while keys != {}
        invariant Releasing(t, keys, done)
        decreases keys
      {
        HasElement(keys);
        var h :| h in keys;
        ReleaseNext(t, keys, done, h);
        keys, done := keys - {h}, done + {conns[h]};
      }
      forall c | 0 <= c < |refs|
        ensures c in conns.Values <==> c in done
      {
        HasKey(conns, c);
      }
    }

    /** One turn of that loop. */
    method ReleaseNext(ghost t: Table, ghost keys: set<int>, ghost done: set<ConnId>, h: int)
      requires t.Owned() && Releasing(t, keys, done) && h in keys
      modifies this
      ensures conns == old(conns) && Releasing(t, keys - {h}, done + {conns[h]})
    {
      ReleaseReference(conns[h]);
    }

    /** The connections in `done`, whose handles are not in `keys` any more, have lost one reference. */
    ghost predicate Releasing(t: Table, keys: set<int>, done: set<ConnId>)
      reads this
    {
      && keys <= conns.Keys && conns == t.conns && recycles == t.recycles && |refs| == |frees| == |t.refs| == |t.frees|
      && (forall h :: h in conns ==> (h in keys <==> conns[h] !in done))
      && (forall c :: c in done ==> c in conns.Values)
      && (forall c :: 0 <= c < |refs| ==>
            if c in done then Dropped(t, c) else refs[c] == t.refs[c] && frees[c] == t.frees[c])
    }

    ghost predicate Dropped(t: Table, c: ConnId)
      requires c < |t.refs| && |t.refs| == |t.frees|
      reads this
    {
      && |refs| == |frees| == |t.refs|
      && refs[c] == t.refs[c] - 1
      && frees[c] == t.frees[c] + (if t.refs[c] == 1 then 1 else 0)
    }

    /** `check_timeout`: the list of what has been idle too long, with the reason; no reference is kept. */
    method CheckTimeout(info: seq<ConnInfo>, now: int) returns (timeouts: map<int, int>)
      requires Value().Owned() && |info| == |refs|
      modifies this
      ensures Value() == old(Value())
      ensures timeouts == TimeoutList(conns, info, now)
      ensures forall h :: h in timeouts <==> h in conns && IdleTooLong(info[conns[h]], now)
      ensures forall h :: h in timeouts ==> timeouts[h] == IdleReason(info[conns[h]].state)
    {
      ghost var t := Value();
      timeouts := map[];
      var keys := conns.Keys;
      while keys != {}
        invariant Value() == t && keys <= conns.Keys
        invariant timeouts == map h | h in conns && h !in keys && Expired(info[conns[h]], now).Some?
                                :: Expired(info[conns[h]], now).value
        decreases keys
      {
        HasElement(keys);
        var h :| h in keys;
        var reason := Examine(conns[h], info[conns[h]], now);
        if reason.Some? {
          timeouts := timeouts[h := reason.value];
        }
        keys := keys - {h};
      }
    }

    /** The body of the loop, for one connection, under a reference of its own. */
    method Examine(conn: ConnId, info: ConnInfo, now: int) returns (reason: Option<int>)
      requires Value().Shaped() && conn < |refs| && refs[conn] >= 1
      modifies this
      ensures Value() == old(Value()) && reason == Expired(info, now)
    {
      reason := None;
      AddReference(conn);
      if info.state == Connecting || info.state == CryptRegIng {
        if now - info.lastActive > 5 {
          reason := Some(SOCKET_ERROR_CONN_TIMEOUT);
        }
      } else if info.state == Connected {
        if now - info.lastActive > 60 * 10 {
          reason := Some(SOCKET_ERROR_TIMEOUT);
        }
      }
      ReleaseReference(conn);
      assert refs == old(refs);
    }
  }
}
