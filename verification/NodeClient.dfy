/** A node as its process uses it: from start to Close, through the contracts alone. */
module NodeClients {
  import opened Registries
  import opened Users
  import opened UserTables
  import opened Collecting
  import opened Pull
  import opened NodeTables
  import opened Servers
  import Ledger
  import Conservation
  import NetAddr

  /** A node that has started, with no byte counted and no push under way. */
  method Begin(round: Round, now: real, time: int) returns (node: Server?)
    ensures node == null <==> Begun(round.turn, round.luck).None?
    ensures node != null ==> node.Running() && node.rounds == [round]
    ensures node != null ==> BooksOf(node.users) == Books(Ledger.Idle, [], [], [], [], time, time)
    ensures node != null ==> fresh(node) && fresh(node.client) && fresh(node.users.repr)
    ensures node != null ==> node.nodeServer == null || fresh(node.nodeServer)
  {
    var server := new Server(time);
    var ok := server.Start(round.turn, round.luck, now);
    node := if ok then server else null;
  }

  /** Its first pull. */
  method BeginAndPull(first: Round, second: Round, now: real, time: int) returns (node: Server?)
    ensures node == null <==> Begun(first.turn, first.luck).None?
    ensures node != null ==> node.Running() && node.rounds == [first, second] && node.users.world.push.Idle?
  {
    node := Begin(first, now, time);
    if node != null {
      node.PullOnce(second.turn, second.luck, now);
    }
  }

  /**
    The end of a node, whatever it carried so far and whatever its last pull changes:
    after that pull, a push that may fail and Close, every byte counted is
    acknowledged, in the last report or was lost to a late count before; a push
    that was delivered leaves the last report empty.
   */
  method WindDown(node: Server, round: Round, delivered: bool, now: real, time: int)
    returns (items: seq<Ledger.Traffic>)
    requires node.Running() && node.users.world.push.Idle? && node.users.clock <= time
    modifies node, node.client, node.nodeServer, node.users.repr
    ensures node.users.world.counted == old(node.users.world.counted) && Closes(node.users.world, items)
    ensures delivered ==> forall id, dir :: Ledger.Total(items, id, dir) == 0
    ensures node.nodeServer != null ==> !node.nodeServer.live
  {
    node.PullOnce(round.turn, round.luck, now);
    items := Finish(node, delivered, time);
  }

  /** Its last push and Close. */
  method Finish(node: Server, delivered: bool, time: int) returns (items: seq<Ledger.Traffic>)
    requires node.Valid() && node.users.world.push.Idle? && node.users.clock <= time
    modifies node, node.nodeServer, node.users.repr
    ensures node.users.world.counted == old(node.users.world.counted) && Closes(node.users.world, items)
    ensures delivered ==> forall id, dir :: Ledger.Total(items, id, dir) == 0
    ensures node.nodeServer != null ==> !node.nodeServer.live
  {
    Mine(node);
    var _ := node.PushOnce(delivered, time);
    Mine(node);
    items := node.Close();
  }

  /** The first connection of a node counts, if its user is served. */
  method Upload(node: Server, id: int, address: NetAddr.Addr, up: nat, down: nat, time: int) returns (served: bool)
    requires node.Valid() && BooksOf(node.users) == Books(Ledger.Idle, [], [], [], [], time, time)
    modifies node.users.repr
    ensures node.Valid() && node.Model() == old(node.Model()) && node.rounds == old(node.rounds)
    ensures node.nodeServer == old(node.nodeServer) && fresh(node.users.repr - old(node.users.repr))
    ensures node.users.world.push.Idle? && node.users.clock == time && served == (id in node.limits)
    ensures served ==> OnlyCounted(node.users.world, Ledger.Traffic(id, up, down))
  {
    Mine(node);
    var state, c;
    ghost var conn;
    state, c, conn := node.Connect(id, address, time);
    served := state != null;
    if served {
      CountFirst(node, id, state, c, up, down, conn);
    }
  }

  method CountFirst(node: Server, ghost id: int, state: UserState, ghost c: Connection, up: nat, down: nat,
                    ghost conn: nat)
    requires node.Valid() && node.users.world.push.Idle? && Connects(node.users, id, state, c, conn)
    requires node.users.world.counted == [] && node.users.world.acked == [] && node.users.world.lost == []
    modifies node.users.repr
    ensures node.Valid() && node.Model() == old(node.Model()) && node.rounds == old(node.rounds)
    ensures node.nodeServer == old(node.nodeServer) && node.users.repr == old(node.users.repr)
    ensures node.users.world.push.Idle? && node.users.clock == old(node.users.clock) && node.limits == old(node.limits)
    ensures OnlyCounted(node.users.world, Ledger.Traffic(id, up, down))
  {
    Mine(node);
    Inside(node);
    ghost var w := node.users.world;
    node.CountBytes(state, up, down, conn);
    CountedOnce(w, node.users.world, id, conn, up, down);
  }

  /** Nothing but this was ever counted, and it is neither acknowledged nor lost. */
  ghost predicate OnlyCounted(w: Ledger.World, t: Ledger.Traffic) {
    w.counted == [t] && w.acked == [] && w.lost == []
  }

  lemma CountedOnce(w: Ledger.World, w': Ledger.World, id: int, conn: nat, up: nat, down: nat)
    requires Conservation.Reachable(w) && w.push.Idle? && w.counted == [] && w.acked == [] && w.lost == []
    requires Ledger.Enabled(w, Ledger.Count(conn, up, down)) && w' == Ledger.DoCount(w, conn, up, down)
    requires id in w.current && w.conns[conn].cell == w.current[id]
    ensures OnlyCounted(w', Ledger.Traffic(id, up, down)) && w'.push.Idle?
  {
    Conservation.ReachableKeeps(w, id, Ledger.Up);
    assert w.current[id] in Ledger.Range(w.current);
  }

  lemma AllOwed(w: Ledger.World, t: Ledger.Traffic, dir: Ledger.Direction)
    requires Conservation.Reachable(w) && OnlyCounted(w, t)
    ensures Owed(w, t.userId, dir) == if dir.Up? then t.upload else t.download
  {
    Conservation.ReachableKeeps(w, t.userId, dir);
    Ledger.TotalSnoc([], t, t.userId, dir);
    assert [] + [t] == [t];
  }

  /** A push that is delivered, after any pull. */
  method PullAndPush(node: Server, second: Round, now: real, ghost t: Ledger.Traffic, counted: bool)
    requires node.Running() && node.users.world.push.Idle? && (counted ==> OnlyCounted(node.users.world, t))
    modifies node, node.client, node.nodeServer, node.users.repr
    ensures node.Running() && node.rounds == old(node.rounds) + [second]
    ensures counted ==>
              && Ledger.Total(node.users.world.acked, t.userId, Ledger.Up) == t.upload
              && Ledger.Total(node.users.world.acked, t.userId, Ledger.Down) == t.download
  {
    node.PullOnce(second.turn, second.luck, now);
    Inside(node);
    Mine(node);
    if counted {
      AllOwed(node.users.world, t, Ledger.Up);
      AllOwed(node.users.world, t, Ledger.Down);
    }
    node.PushTraffic(true);
  }

  /**
    From start to panel: a node starts, a served user's connection counts, the next
    pull brings whatever it brings, the user's removal included, and a push that is
    delivered reports exactly what the connection counted.
   */
  method Delivers(first: Round, second: Round, id: int, address: NetAddr.Addr, up: nat, down: nat, now: real,
                  time: int)
    returns (node: Server?, served: bool)
    ensures node == null <==> Begun(first.turn, first.luck).None?
    ensures node != null ==> node.Running() && node.rounds == [first, second]
    ensures node != null ==> (served <==> id in Begun(first.turn, first.luck).value.table)
    ensures node != null && served ==>
              && Ledger.Total(node.users.world.acked, id, Ledger.Up) == up
              && Ledger.Total(node.users.world.acked, id, Ledger.Down) == down
  {
    served := false;
    node := Begin(first, now, time);
    if node != null {
      OpenRun([first], node.Model());
      served := Upload(node, id, address, up, down, time);
      PullAndPush(node, second, now, Ledger.Traffic(id, up, down), served);
    }
  }

  /** What a push may change belongs to the node. */
  lemma Mine(node: Server)
    requires node.Valid()
    ensures node.users in node.users.repr && node.users.current.Values <= node.users.repr
    ensures forall k | 0 <= k < |node.users.registry| :: node.users.registry[k] in node.users.repr
    ensures ActivitiesOf(node.users.registry) <= node.users.repr
  {
    Inside(node);
    Belongs(node.users);
    var t := node.users;
    InFootprint(t.registry);
    forall id | id in t.current ensures t.current[id] in t.repr {
      assert t.registry[t.world.current[id]] == t.current[id];
    }
  }
}
