/**
  The user table as a node has it: what its methods do, seen from where only the
  limits, the limiters and the books of the table matter.

  `limits` and `held` are what the table serves: each ID with its limit, and with the
  limiter it has.
 */
module NodeTables {
  import opened Common
  import opened Accounts
  import opened Registries
  import opened Users
  import opened Updating
  import opened UserTables
  import opened Collecting
  import Ledger
  import Limits
  import Online
  import OnlineLists
  import NetAddr

  type Held = map<int, Limits.Limiter?>

  /** The table can be updated, and serves exactly these IDs, with these limits and these limiters. */
  ghost predicate TableOk(t: UserTable, limits: map<int, nat>, held: Held)
    reads t`current, t`retired, t`registry, t`world, t`clock, t`lastPush, t`repr
    reads t.registry`upload, t.registry`download, t.registry`active, t.registry`cancelled
    reads t.registry`limiter, t.registry`ips, t.registry`view, t.registry`conns
    reads LimitersOf(t.registry)`limit, LimitersOf(t.registry)`burst
    reads ActivitiesOf(t.registry)`active, ActivitiesOf(t.registry)`lastSeen, ConnectionsOf(t.registry)`finished
    reads t.current.Values`limiter, LimitersIn(t.current)`limit, LimitersIn(t.current)`burst
  {
    && t.Valid() && t.world.retiring == [] && !t.world.push.LockHeld()
    && Grants(t.current, limits, held)
  }

  ghost predicate Grants(served: map<int, UserState>, limits: map<int, nat>, held: Held)
    reads served.Values`limiter, LimitersIn(served)`limit, LimitersIn(served)`burst
  {
    Serves(served, limits) && held == map id | id in served :: served[id].limiter
  }

  ghost predicate TableKey(k: nat) {
    true
  }

  /** TableOk, under lock: a proof about the listener does not look into the table. */
  ghost predicate Follows(t: UserTable, limits: map<int, nat>, held: Held)
    reads t`current, t`retired, t`registry, t`world, t`clock, t`lastPush, t`repr
    reads t.registry`upload, t.registry`download, t.registry`active, t.registry`cancelled
    reads t.registry`limiter, t.registry`ips, t.registry`view, t.registry`conns
    reads LimitersOf(t.registry)`limit, LimitersOf(t.registry)`burst
    reads ActivitiesOf(t.registry)`active, ActivitiesOf(t.registry)`lastSeen, ConnectionsOf(t.registry)`finished
    reads t.current.Values`limiter, LimitersIn(t.current)`limit, LimitersIn(t.current)`burst
  {
    forall k: nat {:trigger TableKey(k)} | Locked(k) :: TableOk(t, limits, held)
  }

  lemma Open(t: UserTable, limits: map<int, nat>, held: Held)
    ensures Follows(t, limits, held) <==> TableOk(t, limits, held)
  {
    assert TableKey(0) && Locked(0);
  }

  /** What a table reaches exists, so a call that does not name it leaves it alone. */
  lemma Exists(t: UserTable)
    ensures forall u | u in t.registry :: allocated(u)
    ensures forall o | o in LimitersOf(t.registry) :: allocated(o)
    ensures forall o | o in ActivitiesOf(t.registry) :: allocated(o)
    ensures forall o | o in ConnectionsOf(t.registry) :: allocated(o)
    ensures forall u | u in t.current.Values :: allocated(u)
    ensures forall o | o in LimitersIn(t.current) :: allocated(o)
  {
    Allocated(t.registry);
    AllocatedIn(t.current);
  }

  /** What updates leave alone: the push, the connections, the bytes, and what the push loop has asked for. */
  datatype Books = Books(
    push: Ledger.Push,
    conns: seq<Ledger.Conn>,
    counted: seq<Ledger.Traffic>,
    acked: seq<Ledger.Traffic>,
    lost: seq<Ledger.Traffic>,
    clock: int,
    lastPush: int)

  ghost function BooksOf(t: UserTable): Books
    reads t`world, t`clock, t`lastPush
  {
    Books(t.world.push, t.world.conns, t.world.counted, t.world.acked, t.world.lost, t.clock, t.lastPush)
  }

  /** A limiter a user had is its limiter after an update with this list if and only if no entry took the limit away. */
  ghost predicate Carries(list: seq<User>, nodeSpeedLimit: nat, held: Held, held': Held) {
    forall id | id in held && id in held' && held[id] != null ::
      held'[id] == held[id] <==> NeverUnlimited(list, nodeSpeedLimit, id)
  }

  /** The served users of a list have an entry each. */
  ghost predicate Listed(held: Held, list: seq<User>) {
    forall id :: id in held <==> id in Ids(list)
  }

  method NewTable(ghost now: int) returns (t: UserTable)
    ensures Follows(t, map[], map[]) && fresh(t.repr) && t.world == Ledger.Init && t.clock == now && t.lastPush == now
  {
    t := new UserTable(now);
    Open(t, map[], map[]);
  }

  /** users.update. */
  method UpdateUsers(t: UserTable, list: seq<User>, nodeSpeedLimit: nat, now: real, ghost limits: map<int, nat>,
                     ghost held: Held)
    returns (ghost held': Held)
    requires Follows(t, limits, held)
    modifies t.repr
    ensures Follows(t, Table(list, nodeSpeedLimit), held') && fresh(t.repr - old(t.repr))
    ensures BooksOf(t) == old(BooksOf(t)) && old(t.registry) <= t.registry
    ensures Carries(list, nodeSpeedLimit, held, held') && Listed(held', list)
    ensures forall id | id in held && id in held' :: held'[id] == held[id] || held'[id] == null || fresh(held'[id])
  {
    Open(t, limits, held);
    Belongs(t);
    var _ := t.Update(list, nodeSpeedLimit, now);
    held' := map id | id in t.current :: t.current[id].limiter;
    Open(t, Table(list, nodeSpeedLimit), held');
  }

  /** The online list of a push. */
  method ListTable(t: UserTable, since: int, ghost now: int, ghost limits: map<int, nat>, ghost held: Held)
    returns (online: seq<OnlineLists.UserOnline>)
    requires Follows(t, limits, held) && since == t.lastPush && t.clock <= now
    modifies t`clock, t`lastPush, t.current.Values`ips, t.current.Values`view
    ensures Follows(t, limits, held) && t.clock == now && t.lastPush == now
    ensures NoDup(online)
    ensures forall e :: e in online <==>
              e.userId in t.current && OnlineLists.IsOnline(old(t.current[e.userId].view), since, e.address)
  {
    Open(t, limits, held);
    online := ListKeeps(t, since, now, t.current, limits, held);
    Open(t, limits, held);
  }

  method ListKeeps(t: UserTable, since: int, ghost now: int, ghost served: map<int, UserState>,
                   ghost limits: map<int, nat>, ghost held: Held)
    returns (online: seq<OnlineLists.UserOnline>)
    requires t.Valid() && Grants(served, limits, held) && since == t.lastPush && t.clock <= now
    modifies t`clock, t`lastPush, t.current.Values`ips, t.current.Values`view
    ensures t.Valid() && Grants(served, limits, held) && t.clock == now && t.lastPush == now
    ensures NoDup(online)
    ensures forall e :: e in online <==>
              e.userId in t.current && OnlineLists.IsOnline(old(t.current[e.userId].view), since, e.address)
  {
    AllocatedIn(served);
    online := t.ListOnline(since, now);
  }

  /** Its traffic: the bytes owed are acknowledged or stay owed. */
  method PushTable(t: UserTable, delivered: bool, ghost limits: map<int, nat>, ghost held: Held)
    requires Follows(t, limits, held) && t.world.push.Idle?
    modifies t`world, t`retired, t`registry, t`repr, t.registry`upload, t.registry`download
    ensures Follows(t, limits, held) && t.world.push.Idle? && old(t.registry) <= t.registry
    ensures fresh(t.repr - old(t.repr))
    ensures Pushed(old(t.world), t.world, delivered)
  {
    Open(t, limits, held);
    PushKeeps(t, delivered, t.current, limits, held);
    Open(t, limits, held);
  }

  ghost predicate Pushed(w: Ledger.World, w': Ledger.World, delivered: bool) {
    && w'.counted == w.counted && w'.conns == w.conns && (!delivered ==> w'.acked == w.acked)
    && (forall id, dir ::
          Ledger.Total(w'.acked, id, dir) + Owed(w', id, dir) == Ledger.Total(w.acked, id, dir) + Owed(w, id, dir))
    && (delivered ==> forall id, dir :: Owed(w', id, dir) == 0)
  }

  method PushKeeps(t: UserTable, delivered: bool, ghost served: map<int, UserState>, ghost limits: map<int, nat>,
                   ghost held: Held)
    requires t.Valid() && t.world.retiring == [] && t.world.push.Idle? && Grants(served, limits, held)
    modifies t`world, t`retired, t`registry, t`repr, t.registry`upload, t.registry`download
    ensures t.Valid() && t.world.retiring == [] && t.world.push.Idle? && Grants(served, limits, held)
    ensures old(t.registry) <= t.registry && fresh(t.repr - old(t.repr)) && Pushed(old(t.world), t.world, delivered)
  {
    AllocatedIn(served);
    t.PushTraffic(delivered);
  }

  /** The items of the last collect are what was owed, and with it every counted byte is accounted for. */
  ghost predicate Settled(w: Ledger.World, w': Ledger.World, items: seq<Ledger.Traffic>) {
    && w'.counted == w.counted && w'.acked == w.acked && Closes(w', items)
    && forall id, dir :: Ledger.Total(items, id, dir) == Owed(w, id, dir)
  }

  /** With these items every byte counted is acknowledged, reported last or lost. */
  ghost predicate Closes(w: Ledger.World, items: seq<Ledger.Traffic>) {
    forall id, dir ::
      Ledger.Total(w.counted, id, dir)
      == Ledger.Total(w.acked, id, dir) + Ledger.Total(items, id, dir) + Ledger.Total(w.lost, id, dir)
  }

  /** The last collect. */
  method CollectTable(t: UserTable, ghost limits: map<int, nat>, ghost held: Held) returns (items: seq<Ledger.Traffic>)
    requires Follows(t, limits, held) && t.world.push.Idle?
    modifies t`world, t`retired, t.registry`upload, t.registry`download
    ensures t.Valid() && Settled(old(t.world), t.world, items)
  {
    Open(t, limits, held);
    items := t.FinalCollect();
  }

  /** Connections come and count while push, updates and reports stand still. */
  ghost predicate Between(w: Ledger.World, w': Ledger.World) {
    && w'.push == w.push && w'.current == w.current && w'.retiring == w.retiring && w'.retired == w.retired
    && w'.acked == w.acked && w'.lost == w.lost
  }

  /** A connection of user `id`: found and opened, or refused. */
  method RouteTable(t: UserTable, id: int, address: NetAddr.Addr, now: int, ghost limits: map<int, nat>,
                    ghost held: Held)
    returns (state: UserState?, c: Connection?, ghost conn: nat)
    requires Follows(t, limits, held) && t.clock <= now
    modifies t`world, t`clock, t`repr, t.registry`ips, t.registry`active, t.registry`view, t.registry`conns
    modifies ActivitiesOf(t.registry)`active, ActivitiesOf(t.registry)`lastSeen
    ensures Follows(t, limits, held) && fresh(t.repr - old(t.repr)) && (state == null <==> id !in limits)
    ensures Between(old(t.world), t.world) && t.world.counted == old(t.world.counted)
    ensures t.clock == (if state == null then old(t.clock) else now)
    ensures state != null ==> c != null && Connects(t, id, state, c, conn)
    ensures state != null ==> c != null && Noted(t, id, state, c, NetAddr.Unmap(address), now)
  {
    Open(t, limits, held);
    state, c, conn := RouteKeeps(t, id, address, now, t.current, limits, held);
    Open(t, limits, held);
  }

  /** Connection `conn` of the ledger, open on the state that serves `id`. */
  ghost predicate Connects(t: UserTable, id: int, state: UserState, c: Connection, conn: nat)
    reads t, state`conns, c`finished
  {
    && t.Holder(conn, state) && t.world.conns[conn].phase == Ledger.Open && c in state.conns && !c.finished
    && id in t.world.current && t.world.conns[conn].cell == t.world.current[id]
  }

  /** The state that serves `id` has the connection's address, and an event of it. */
  ghost predicate Noted(t: UserTable, id: int, state: UserState, c: Connection, address: NetAddr.Addr, now: int)
    reads t`current, state`view
  {
    && id in t.current && t.current[id] == state && c.address == address
    && |state.view.log| > 0 && state.view.log[|state.view.log| - 1] == Online.Event(address, now)
  }

  method RouteKeeps(t: UserTable, id: int, address: NetAddr.Addr, now: int, ghost served: map<int, UserState>,
                    ghost limits: map<int, nat>, ghost held: Held)
    returns (state: UserState?, c: Connection?, ghost conn: nat)
    requires t.Valid() && Grants(served, limits, held) && t.clock <= now
    modifies t`world, t`clock, t`repr, t.registry`ips, t.registry`active, t.registry`view, t.registry`conns
    modifies ActivitiesOf(t.registry)`active, ActivitiesOf(t.registry)`lastSeen
    ensures t.Valid() && Grants(served, limits, held) && fresh(t.repr - old(t.repr))
    ensures state == null <==> id !in t.current
    ensures Between(old(t.world), t.world) && t.world.counted == old(t.world.counted)
    ensures t.clock == (if state == null then old(t.clock) else now)
    ensures state != null ==> c != null && Connects(t, id, state, c, conn)
    ensures state != null ==> c != null && Noted(t, id, state, c, NetAddr.Unmap(address), now)
  {
    AllocatedIn(served);
    state, c, conn := Route(t, id, address, now);
  }

  method Route(t: UserTable, id: int, address: NetAddr.Addr, now: int)
    returns (state: UserState?, c: Connection?, ghost conn: nat)
    requires t.Valid() && t.clock <= now
    modifies t`world, t`clock, t`repr, t.registry`ips, t.registry`active, t.registry`view, t.registry`conns
    modifies ActivitiesOf(t.registry)`active, ActivitiesOf(t.registry)`lastSeen
    ensures t.Valid() && fresh(t.repr - old(t.repr)) && (state == null <==> id !in t.current)
    ensures Between(old(t.world), t.world) && t.world.counted == old(t.world.counted)
    ensures t.clock == (if state == null then old(t.clock) else now)
    ensures state != null ==> c != null && Connects(t, id, state, c, conn)
    ensures state != null ==> c != null && Noted(t, id, state, c, NetAddr.Unmap(address), now)
  {
    state, conn := t.Get(id);
    c := null;
    if state != null {
      c := t.OpenOn(state, address, now, conn);
    }
  }

  /** It counts. */
  method CountTable(t: UserTable, state: UserState, up: nat, down: nat, ghost conn: nat, ghost limits: map<int, nat>,
                    ghost held: Held)
    requires Follows(t, limits, held) && t.Holder(conn, state) && t.world.conns[conn].phase == Ledger.Open
    modifies t`world, state`upload, state`download
    ensures Follows(t, limits, held) && Ledger.Enabled(old(t.world), Ledger.Count(conn, up, down))
    ensures t.world == Ledger.DoCount(old(t.world), conn, up, down)
    ensures state.upload == old(state.upload) + up && state.download == old(state.download) + down
  {
    Open(t, limits, held);
    CountKeeps(t, state, up, down, conn, t.current, limits, held);
    Open(t, limits, held);
  }

  method CountKeeps(t: UserTable, state: UserState, up: nat, down: nat, ghost conn: nat,
                    ghost served: map<int, UserState>, ghost limits: map<int, nat>, ghost held: Held)
    requires t.Valid() && Grants(served, limits, held)
    requires t.Holder(conn, state) && t.world.conns[conn].phase == Ledger.Open
    modifies t`world, state`upload, state`download
    ensures t.Valid() && Grants(served, limits, held)
    ensures Ledger.Enabled(old(t.world), Ledger.Count(conn, up, down))
    ensures t.world == Ledger.DoCount(old(t.world), conn, up, down)
    ensures state.upload == old(state.upload) + up && state.download == old(state.download) + down
  {
    AllocatedIn(served);
    t.CountOn(state, up, down, conn);
  }

  /** It ends. */
  method DoneTable(t: UserTable, state: UserState, c: Connection, now: int, ghost conn: nat,
                   ghost limits: map<int, nat>, ghost held: Held)
    requires Follows(t, limits, held) && t.Holder(conn, state) && t.world.conns[conn].phase == Ledger.Open
    requires t.clock <= now && c in state.conns && !c.finished
    modifies t`world, t`clock, state`active, state`view, c`finished, c.activity`active, c.activity`lastSeen
    ensures Follows(t, limits, held) && t.clock == now && c.finished
    ensures Ledger.Enabled(old(t.world), Ledger.CloseConn(conn)) && t.world == Ledger.DoClose(old(t.world), conn)
    ensures state.view.log == old(state.view).log + [Online.Event(c.address, now)]
  {
    Open(t, limits, held);
    DoneKeeps(t, state, c, now, conn, t.current, limits, held);
    Open(t, limits, held);
  }

  method DoneKeeps(t: UserTable, state: UserState, c: Connection, now: int, ghost conn: nat,
                   ghost served: map<int, UserState>, ghost limits: map<int, nat>, ghost held: Held)
    requires t.Valid() && Grants(served, limits, held)
    requires t.Holder(conn, state) && t.world.conns[conn].phase == Ledger.Open
    requires t.clock <= now && c in state.conns && !c.finished
    modifies t`world, t`clock, state`active, state`view, c`finished, c.activity`active, c.activity`lastSeen
    ensures t.Valid() && Grants(served, limits, held) && t.clock == now && c.finished
    ensures Ledger.Enabled(old(t.world), Ledger.CloseConn(conn)) && t.world == Ledger.DoClose(old(t.world), conn)
    ensures state.view.log == old(state.view).log + [Online.Event(c.address, now)]
  {
    AllocatedIn(served);
    t.DoneOn(state, c, now, conn);
  }
}
