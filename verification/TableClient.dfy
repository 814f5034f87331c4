/** The table as its callers use it: from the constructor on, through its contracts alone. */
module TableClients {
  import opened Ledger
  import opened Conservation
  import opened Collecting
  import opened Accounts
  import opened Users
  import opened Registries
  import opened Updating
  import opened UserTables
  import Limits
  import NetAddr

  /** A limiter the state no longer has belongs to no state. */
  lemma Orphaned(t: UserTable, state: UserState, l: Limits.Limiter)
    requires t.Valid() && Among(state, t.registry) && l.owner == state.handle && state.limiter != l
    ensures l !in LimitersOf(t.registry)
  {
    OpenKept(t.registry, t.current, t.clock, t.lastPush);
    forall u | u in t.registry ensures u.limiter != l {
      var k: nat :| k < |t.registry| && t.registry[k] == u;
      assert LimiterOk(t.registry[k], k);
    }
  }

  lemma OneUser(user: User, nodeSpeedLimit: nat)
    ensures Table([user], nodeSpeedLimit) == map[user.id := EffectiveLimit(nodeSpeedLimit, user.speedLimit)]
    ensures NeverUnlimited([user], nodeSpeedLimit, user.id) <==> EffectiveLimit(nodeSpeedLimit, user.speedLimit) != 0
  {
    var t := Table([user], nodeSpeedLimit);
    assert Ids([user]) == [user.id];
    assert LastLimit([user], user.id) == user.speedLimit;
    if NeverUnlimited([user], nodeSpeedLimit, user.id) {
      assert [user][0].id == user.id;
    }
  }

  lemma TwoEntries(a: User, b: User, nodeSpeedLimit: nat)
    requires a.id == b.id && EffectiveLimit(nodeSpeedLimit, a.speedLimit) == 0
    ensures Table([a, b], nodeSpeedLimit) == map[b.id := EffectiveLimit(nodeSpeedLimit, b.speedLimit)]
    ensures !NeverUnlimited([a, b], nodeSpeedLimit, b.id)
  {
    assert [a, b][..1] == [a];
    assert Ids([a, b]) == [a.id, b.id];
    assert LastLimit([a, b], b.id) == b.speedLimit;
    assert [a, b][0].id == b.id;
  }

  /** A table between pushes and updates. */
  ghost predicate Ready(t: UserTable)
    reads t, t.registry, LimitersOf(t.registry)`limit, LimitersOf(t.registry)`burst
    reads ActivitiesOf(t.registry)`active, ActivitiesOf(t.registry)`lastSeen, ConnectionsOf(t.registry)`finished
  {
    t.Valid() && t.world.retiring == [] && t.world.push.Idle?
  }

  /** One update of a table that then serves user 1. */
  method UpdateOne(t: UserTable, users: seq<User>, limit: nat, now: real) returns (state: UserState)
    requires Ready(t) && Table(users, 0) == map[1 := limit]
    modifies t.repr
    ensures Ready(t) && fresh(t.repr - old(t.repr)) && t.clock == old(t.clock)
    ensures t.world.counted == old(t.world).counted && t.world.acked == old(t.world).acked
    ensures t.world.lost == old(t.world).lost
    ensures 1 in t.current && state == t.current[1] && Among(state, t.registry) && Limited(state, limit)
    ensures 1 in old(t.current) ==> state == old(t.current)[1]
    ensures 1 in old(t.current) && old(t.current[1].limiter) != null ==>
              (state.limiter == old(t.current[1].limiter) <==> NeverUnlimited(users, 0, 1))
    ensures forall l: Limits.Limiter | old(allocated(l)) && l !in old(LimitersOf(t.registry)) :: l.limit == old(l.limit)
  {
    Belongs(t);
    var _ := t.Update(users, 0, now);
    assert 1 in Table(users, 0);
    state := t.current[1];
  }

  /** The list names the user twice, first without a limit. */
  method Repeat(t: UserTable, state: UserState, taken: Limits.Limiter)
    requires Ready(t) && 1 in t.current && t.current[1] == state && Among(state, t.registry)
    requires state.limiter == taken && taken.owner == state.handle
    modifies t.repr
    ensures Ready(t) && fresh(t.repr - old(t.repr)) && 1 in t.current && t.current[1] == state
    ensures Among(state, t.registry)
    ensures state.limiter != null && state.limiter != taken && state.limiter.limit == 5
    ensures taken !in LimitersOf(t.registry)
  {
    TwoEntries(User(1, 0, ""), User(1, 5, ""), 0);
    var same := UpdateOne(t, [User(1, 0, ""), User(1, 5, "")], 5, 1.0);
    Orphaned(t, state, taken);
  }

  /** The user gets another limit. */
  method Change(t: UserTable, state: UserState, taken: Limits.Limiter, limit: nat)
    requires Ready(t) && 1 in t.current && t.current[1] == state && state.limiter != null
    requires taken !in LimitersOf(t.registry) && limit > 0
    modifies t.repr
    ensures state.limiter == old(state.limiter) && state.limiter.limit == limit && taken.limit == old(taken.limit)
  {
    OneUser(User(1, limit, ""), 0);
    var same := UpdateOne(t, [User(1, limit, "")], limit, 2.0);
  }

  /**
    A list that names a user twice, first without a limit: the user had a limit and
    has one again, but in a new limiter.  A connection that took the old one does not
    see the limit change after that.
   */
  method RepeatedIdSplitsLimiter() returns (taken: Limits.Limiter?, current: Limits.Limiter?)
    ensures taken != null && current != null && taken != current && taken.limit != current.limit
  {
    var t := new UserTable(0);
    OneUser(User(1, 5, ""), 0);
    var state := UpdateOne(t, [User(1, 5, "")], 5, 0.0);
    taken := state.limiter;
    OpenKept(t.registry, t.current, t.clock, t.lastPush);
    assert LimiterOk(t.registry[state.handle], state.handle);
    Repeat(t, state, taken);
    current := state.limiter;
    Change(t, state, taken, taken.limit + 1);
  }

  // ---------------------------------------------------------------- traffic across a removal

  /** The uploaded bytes of user 1 that were reported or are still to be. */
  ghost function Bytes(w: World): nat {
    Total(w.acked, 1, Up) + Owed(w, 1, Up)
  }

  /** A connection of the client: open on `state`, as `conn` of the ledger. */
  ghost predicate Connected(t: UserTable, state: UserState, c: Connection, conn: nat)
    reads t, state, c
  {
    t.Holder(conn, state) && t.world.conns[conn].phase == Open && c in state.conns && !c.finished
  }

  lemma Reaches(t: UserTable, state: UserState)
    requires t.Valid() && state in t.registry
    ensures state in t.repr && state.ips.Values <= t.repr
  {
    InFootprint(t.registry);
    var k: nat :| k < |t.registry| && t.registry[k] == state;
    assert t.registry[k].Owns() <= t.repr;
  }

  /** User 1 connects. */
  method Connect(t: UserTable, address: NetAddr.Addr) returns (state: UserState, c: Connection, ghost conn: nat)
    requires Ready(t) && 1 in t.current && t.clock <= 1
    modifies t.repr
    ensures Ready(t) && fresh(t.repr - old(t.repr)) && t.clock == 1 && 1 in t.current
    ensures t.world.counted == old(t.world).counted && t.world.acked == old(t.world).acked
    ensures t.world.lost == old(t.world).lost
    ensures state in t.registry && Connected(t, state, c, conn) && 1 in t.world.current
    ensures t.world.conns[conn].cell == t.world.current[1]
  {
    var found;
    found, conn := t.Get(1);
    state := found;
    Reaches(t, state);
    c := t.OpenOn(state, address, 1, conn);
  }

  /** And uploads. */
  method Upload(t: UserTable, address: NetAddr.Addr, bytes: nat)
    returns (state: UserState, c: Connection, ghost conn: nat)
    requires Ready(t) && 1 in t.current && t.clock <= 1 && t.world.counted == [] && t.world.acked == []
    requires t.world.lost == []
    modifies t.repr
    ensures Ready(t) && fresh(t.repr - old(t.repr)) && t.clock == 1
    ensures state in t.registry && Connected(t, state, c, conn) && Bytes(t.world) == bytes
  {
    state, c, conn := Connect(t, address);
    Reaches(t, state);
    ghost var w := t.world;
    t.CountOn(state, bytes, 0, conn);
    Counted(w, t.world, conn, bytes);
  }

  lemma Counted(w: World, w': World, conn: nat, bytes: nat)
    requires Reachable(w) && Reachable(w') && Enabled(w, Count(conn, bytes, 0)) && w' == DoCount(w, conn, bytes, 0)
    requires 1 in w.current && w.conns[conn].cell == w.current[1] && w.counted == [] && w.acked == [] && w.lost == []
    requires w.push.Idle?
    ensures Bytes(w') == bytes
  {
    ReachableKeeps(w, 1, Up);
    ReachableKeeps(w', 1, Up);
    assert w.current[1] in Range(w.current);
    TotalSnoc([], Traffic(1, bytes, 0), 1, Up);
    assert [] + [Traffic(1, bytes, 0)] == [Traffic(1, bytes, 0)];
  }

  /** A push, whatever becomes of its report. */
  method Push(t: UserTable, delivered: bool, ghost state: UserState, ghost c: Connection)
    requires Ready(t)
    modifies t.repr
    ensures Ready(t) && fresh(t.repr - old(t.repr)) && t.clock == old(t.clock) && old(t.registry) <= t.registry
    ensures t.world.conns == old(t.world).conns && Bytes(t.world) == Bytes(old(t.world))
    ensures state.conns == old(state.conns) && c.finished == old(c.finished)
    ensures delivered ==> Owed(t.world, 1, Up) == 0
  {
    Belongs(t);
    t.PushTraffic(delivered);
  }

  /** The panel stops serving everyone. */
  method RemoveAll(t: UserTable, ghost state: UserState, ghost c: Connection)
    requires Ready(t)
    modifies t.repr
    ensures Ready(t) && fresh(t.repr - old(t.repr)) && t.clock == old(t.clock) && old(t.registry) <= t.registry
    ensures t.world.conns == old(t.world).conns && Bytes(t.world) == Bytes(old(t.world))
    ensures state.conns == old(state.conns) && c.finished == old(c.finished)
  {
    Belongs(t);
    ghost var w := t.world;
    var _ := t.Update([], 0, 1.0);
    SameOwed(w, t.world, 1, Up);
  }

  /** The connection ends. */
  method Disconnect(t: UserTable, state: UserState, c: Connection, ghost conn: nat)
    requires Ready(t) && t.clock <= 2 && state in t.registry && Connected(t, state, c, conn)
    modifies t.repr
    ensures Ready(t) && fresh(t.repr - old(t.repr)) && Bytes(t.world) == Bytes(old(t.world))
  {
    InRepr(t, state, c);
    ghost var w := t.world;
    t.DoneOn(state, c, 2, conn);
    SameOwed(w, t.world, 1, Up);
  }

  lemma InRepr(t: UserTable, state: UserState, c: Connection)
    requires t.Valid() && state in t.registry && c in state.conns && !c.finished
    ensures state in t.repr && c in t.repr && c.activity in t.repr
  {
    InFootprint(t.registry);
    OpenKept(t.registry, t.current, t.clock, t.lastPush);
    var k: nat :| k < |t.registry| && t.registry[k] == state;
    assert StateOk(t.registry[k], k, t.clock);
    assert c in state.Owns() && c.activity in state.Owns();
  }

  /** A failed push and a removal, while the connection is open. */
  method Interrupt(t: UserTable, state: UserState, c: Connection, ghost conn: nat)
    requires Ready(t) && state in t.registry && Connected(t, state, c, conn)
    modifies t.repr
    ensures Ready(t) && fresh(t.repr - old(t.repr)) && t.clock == old(t.clock)
    ensures state in t.registry && Connected(t, state, c, conn) && Bytes(t.world) == Bytes(old(t.world))
  {
    Push(t, false, state, c);
    RemoveAll(t, state, c);
  }

  /** A new table that serves user 1. */
  method ServeOne() returns (t: UserTable)
    ensures Ready(t) && fresh(t.repr) && 1 in t.current && t.clock == 0
    ensures t.world.counted == [] && t.world.acked == [] && t.world.lost == []
  {
    t := new UserTable(0);
    OneUser(User(1, 0, ""), 0);
    var _ := UpdateOne(t, [User(1, 0, "")], 0, 0.0);
  }

  /** The interruption, the end of the connection and a push that is delivered. */
  method Deliver(t: UserTable, state: UserState, c: Connection, ghost conn: nat)
    requires Ready(t) && t.clock <= 2 && state in t.registry && Connected(t, state, c, conn)
    modifies t.repr
    ensures Ready(t) && Bytes(t.world) == Bytes(old(t.world)) && Owed(t.world, 1, Up) == 0
  {
    Interrupt(t, state, c, conn);
    Disconnect(t, state, c, conn);
    Push(t, true, state, c);
  }

  /**
    What a user uploaded reaches the panel although the first report fails and the
    user is removed while the connection is still open.
   */
  method TrafficSurvivesRemoval(address: NetAddr.Addr, bytes: nat) returns (t: UserTable)
    ensures t.Valid() && Total(t.world.acked, 1, Up) == bytes
  {
    t := ServeOne();
    var state, c;
    ghost var conn;
    state, c, conn := Upload(t, address, bytes);
    Deliver(t, state, c, conn);
  }
}
