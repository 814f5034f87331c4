/**
  server.go: the fields of a node, and the methods that update them.

  The node's state as the pull loop sees it is Model().
 */
module Servers {
  import opened Common
  import opened Accounts
  import opened Panel
  import opened Pull
  import opened PullProperties
  import opened Registries
  import opened Users
  import opened Updating
  import opened UserTables
  import opened NodeTables
  import Ledger
  import Online
  import OnlineLists
  import NetAddr

  /** adapter.NodeServer: a listener that a failed call leaves as it may. */
  class NodeServer {
    ghost const id: nat
    const config: NodeConfig
    var users: seq<User>
    var live: bool

    constructor (config: NodeConfig, ghost id: nat)
      ensures this.config == config && this.id == id && users == [] && live
    {
      this.config, this.id, users, live := config, id, [], true;
    }

    method UpdateUsers(list: seq<User>, ok: bool, left: seq<User>)
      modifies this`users
      ensures users == if ok then list else left
    {
      users := if ok then list else left;
    }

    method Close()
      modifies this`live
      ensures !live
    {
      live := false;
    }
  }

  // Keys: a locked predicate is looked into only where its key is turned.

  ghost predicate NodeKey(k: nat) {
    true
  }

  ghost predicate RunKey(k: nat) {
    true
  }

  // ---------------------------------------------------------------- which limiters a pull keeps

  /** No update of this pull takes the user's limit away: neither the refresh nor the list the panel sends. */
  ghost predicate KeepsLimiter(n: Node, turn: Turn, id: int) {
    var a := WithInfo(n, turn.info);
    && (a.running.Some? && a.config.speedLimit != a.running.value.speedLimit ==>
          NeverUnlimited(n.users, a.config.speedLimit, id))
    && (Sent(n.etags.users, turn.users) ==> NeverUnlimited(Panel.Accepted(turn.users.body), a.config.speedLimit, id))
  }

  /** One of the two updates of a pull, if it is made. */
  ghost predicate Passes(made: bool, list: seq<User>, nodeSpeedLimit: nat, held: Held, held': Held) {
    if made then Carries(list, nodeSpeedLimit, held, held') else held' == held
  }

  /** An update gives no user a limiter that another time was its own. */
  ghost predicate Forgets(was: Held, held: Held, held': Held) {
    forall id | id in was && id in held && id in held' ::
      held'[id] == held[id] || held'[id] == null || held'[id] != was[id]
  }

  /** The two updates of a pull, one after the other. */
  ghost predicate Updates(n: Node, turn: Turn, held: Held, mid: Held, held': Held) {
    var a := WithInfo(n, turn.info);
    var sent := UsersFetch(n.etags.users, turn.users).result;
    && Passes(Refreshes(a), n.users, a.config.speedLimit, held, mid)
    && Passes(sent.Some?, if sent.Some? then sent.value else [], a.config.speedLimit, mid, held')
  }

  /** A limiter that a user had before a pull is its limiter after it if and only if no update took the limit away. */
  ghost predicate Spares(n: Node, turn: Turn, held: Held, held': Held) {
    forall id | id in held && id in held' && held[id] != null :: held'[id] == held[id] <==> KeepsLimiter(n, turn, id)
  }

  lemma PullCarries(n: Node, turn: Turn, held: Held, mid: Held, held': Held)
    requires Updates(n, turn, held, mid, held')
    requires Listed(held, n.users) && Listed(mid, n.users) && Forgets(held, mid, held')
    ensures Spares(n, turn, held, held')
  {
    forall id | id in held && id in held' && held[id] != null
      ensures held'[id] == held[id] <==> KeepsLimiter(n, turn, id)
    {
      assert id in mid;
    }
  }

  /** One node is the other, rebuilt. */
  ghost predicate Rebuilds(n: Node, luck: Luck, n': Node) {
    forall k: nat {:trigger RunKey(k)} | Locked(k) :: n' == Rebuilt(n, luck)
  }

  lemma OpenRebuilds(n: Node, luck: Luck)
    ensures forall n' :: Rebuilds(n, luck, n') <==> n' == Rebuilt(n, luck)
  {
    assert RunKey(0) && Locked(0);
  }

  // The two halves of a pull, and both together.

  ghost predicate SyncsTo(n: Node, turn: Turn, luck: Luck, n': Node) {
    forall k: nat {:trigger RunKey(k)} | Locked(k) :: n' == Synced(WithInfo(n, turn.info), luck)
  }

  ghost predicate ListsTo(n: Node, turn: Turn, luck: Luck, n': Node) {
    forall k: nat {:trigger RunKey(k)} | Locked(k) :: n' == WithRules(WithUsers(n, turn.users, luck), turn.rules)
  }

  ghost predicate PullsTo(n: Node, turn: Turn, luck: Luck, n': Node) {
    forall k: nat {:trigger RunKey(k)} | Locked(k) :: n' == Pulled(n, turn, luck)
  }

  lemma OpenPulls(n: Node, n': Node, turn: Turn, luck: Luck)
    ensures SyncsTo(n, turn, luck, n') <==> n' == Synced(WithInfo(n, turn.info), luck)
    ensures ListsTo(n, turn, luck, n') <==> n' == WithRules(WithUsers(n, turn.users, luck), turn.rules)
    ensures PullsTo(n, turn, luck, n') <==> n' == Pulled(n, turn, luck)
  {
    assert RunKey(0) && Locked(0);
  }

  lemma HalvesPull(n: Node, m: Node, n': Node, turn: Turn, luck: Luck)
    requires SyncsTo(n, turn, luck, m) && ListsTo(m, turn, luck, n')
    ensures PullsTo(n, turn, luck, n')
  {
    assert RunKey(0) && Locked(0);
  }

  /** These rounds are a run that ends in this node. */
  ghost predicate Ran(rounds: seq<Round>, n: Node) {
    forall k: nat {:trigger RunKey(k)} | Locked(k) :: IsRun(rounds) && Exec(rounds) == n
  }

  lemma OpenRun(rounds: seq<Round>, n: Node)
    ensures Ran(rounds, n) <==> IsRun(rounds) && Exec(rounds) == n
  {
    assert RunKey(0) && Locked(0);
  }

  // ---------------------------------------------------------------- the node

  class Server {
    const client: Client
    const users: UserTable
    var nodeConfig: NodeConfig
    var runningConfig: Option<NodeConfig>
    var nodeServer: NodeServer?
    var userList: seq<User>
    var rules: Option<seq<Rule>>
    var lastPush: int

    /** The rounds so far, once started. */
    ghost var rounds: seq<Round>
    ghost var limits: map<int, nat>
    ghost var held: Held
    ghost var applied: nat
    ghost var made: nat
    ghost var log: seq<Event>
    ghost var told: seq<Told>

    constructor (now: int)
      ensures Valid() && Model() == Blank(nodeConfig) && nodeServer == null
      ensures fresh(client) && fresh(users.repr) && BooksOf(users) == Books(Ledger.Idle, [], [], [], [], now, now)
    {
      client := new Client();
      var table := NewTable(now);
      users := table;
      nodeConfig, runningConfig, nodeServer, userList, rules := NodeConfig("", 0), None, null, [], None;
      lastPush, limits, held, applied, made, log, told, rounds := now, map[], map[], 0, 0, [], [], [];
      new;
      OpenNode();
    }

    /** The node server, if there is one. */
    ghost function Current(): set<NodeServer>
      reads this`nodeServer
    {
      if nodeServer == null then {} else {nodeServer}
    }

    ghost function Model(): Node
      reads this`nodeConfig, this`runningConfig, this`nodeServer, this`userList, this`limits, this`rules
      reads this`applied, this`made, this`log, this`told, client`infoETag, client`usersETag, client`rulesETag
      reads Current()`users, Current()`live
    {
      Node(ETags(client.infoETag, client.usersETag, client.rulesETag), nodeConfig, runningConfig,
           if nodeServer == null then None else Some(Listener(nodeServer.id, nodeServer.config, nodeServer.users)),
           userList, limits, rules, applied, made, log, told)
    }

    /** The node server is the one listener that exists, and comes and goes with the running config. */
    ghost predicate Listening()
      reads this`nodeConfig, this`runningConfig, this`nodeServer, this`userList, this`limits, this`rules
      reads this`applied, this`made, this`log, this`told, client`infoETag, client`usersETag, client`rulesETag
      reads Current()`users, Current()`live
    {
      Listens(Model()) && (nodeServer != null ==> nodeServer.live)
    }

    /** The table's objects are its own. */
    ghost predicate Apart()
      reads this`nodeServer, users`repr
    {
      this !in users.repr && client !in users.repr && (nodeServer != null ==> nodeServer !in users.repr)
    }

    ghost predicate Sound()
      reads this`nodeConfig, this`runningConfig, this`nodeServer, this`userList, this`limits, this`held, this`rules
      reads this`lastPush
      reads this`applied, this`made, this`log, this`told, client`infoETag, client`usersETag, client`rulesETag
      reads Current()`users, Current()`live
      reads users`current, users`retired, users`registry, users`world, users`clock, users`lastPush, users`repr
      reads users.registry`upload, users.registry`download, users.registry`active, users.registry`cancelled
      reads users.registry`limiter, users.registry`ips, users.registry`view, users.registry`conns
      reads LimitersOf(users.registry)`limit, LimitersOf(users.registry)`burst
      reads ActivitiesOf(users.registry)`active, ActivitiesOf(users.registry)`lastSeen
      reads ConnectionsOf(users.registry)`finished
      reads users.current.Values`limiter, LimitersIn(users.current)`limit, LimitersIn(users.current)`burst
    {
      && Listening() && Apart() && Follows(users, limits, held)
      && Listed(held, userList) && lastPush == users.lastPush
    }

    /** Sound, under lock: handing the node on does not look into it. */
    ghost predicate Valid()
      reads this`nodeConfig, this`runningConfig, this`nodeServer, this`userList, this`limits, this`held, this`rules
      reads this`lastPush
      reads this`applied, this`made, this`log, this`told, client`infoETag, client`usersETag, client`rulesETag
      reads Current()`users, Current()`live
      reads users`current, users`retired, users`registry, users`world, users`clock, users`lastPush, users`repr
      reads users.registry`upload, users.registry`download, users.registry`active, users.registry`cancelled
      reads users.registry`limiter, users.registry`ips, users.registry`view, users.registry`conns
      reads LimitersOf(users.registry)`limit, LimitersOf(users.registry)`burst
      reads ActivitiesOf(users.registry)`active, ActivitiesOf(users.registry)`lastSeen
      reads ConnectionsOf(users.registry)`finished
      reads users.current.Values`limiter, LimitersIn(users.current)`limit, LimitersIn(users.current)`burst
    {
      forall k: nat {:trigger NodeKey(k)} | Locked(k) :: Sound()
    }

    lemma OpenNode()
      ensures Valid() <==> Sound()
    {
      assert NodeKey(0) && Locked(0);
    }

    /** The node is where the rounds so far lead, so what holds in every run holds of it. */
    ghost predicate Running()
      reads this`nodeConfig, this`runningConfig, this`nodeServer, this`userList, this`limits, this`held, this`rules
      reads this`lastPush
      reads this`applied, this`made, this`log, this`told, this`rounds
      reads client`infoETag, client`usersETag, client`rulesETag
      reads Current()`users, Current()`live
      reads users`current, users`retired, users`registry, users`world, users`clock, users`lastPush, users`repr
      reads users.registry`upload, users.registry`download, users.registry`active, users.registry`cancelled
      reads users.registry`limiter, users.registry`ips, users.registry`view, users.registry`conns
      reads LimitersOf(users.registry)`limit, LimitersOf(users.registry)`burst
      reads ActivitiesOf(users.registry)`active, ActivitiesOf(users.registry)`lastSeen
      reads ConnectionsOf(users.registry)`finished
      reads users.current.Values`limiter, LimitersIn(users.current)`limit, LimitersIn(users.current)`burst
    {
      Valid() && Ran(rounds, Model())
    }

    // -------------------------------------------------------------- the listener

    /** Closes the running listener, if there is one. */
    method Stop()
      modifies this`nodeServer, this`runningConfig, this`log, Current()`live
      ensures nodeServer == null && Model() == Stopped(old(Model()))
      ensures old(nodeServer) != null ==> !old(nodeServer).live
    {
      if nodeServer != null {
        nodeServer.Close();
        log := log + [Closed(nodeServer.id)];
        nodeServer, runningConfig := null, None;
      }
    }

    /** Makes and starts a listener from the node's config; returns whether that succeeded. */
    method Build(luck: Luck) returns (ok: bool)
      requires nodeServer == null
      modifies this`nodeServer, this`runningConfig, this`log, this`made, this`told
      ensures Model() == Pull.Built(old(Model()), luck) && ok == (nodeServer != null)
      ensures nodeServer != null ==> fresh(nodeServer) && nodeServer.live
    {
      log := log + [Make(nodeConfig)];
      if !luck.make {
        return false;
      }
      var server := new NodeServer(nodeConfig, made);
      log := log + [Made(made)];
      made, told := made + 1, told + [Told(userList, limits)];
      ok := Launch(server, luck);
    }

    /** The listener gets the users and is started, or is closed again. */
    method Launch(server: NodeServer, luck: Luck) returns (ok: bool)
      requires nodeServer == null && server.config == nodeConfig && made > 0 && server.id == made - 1 && server.live
      modifies this`nodeServer, this`runningConfig, this`log, server`users, server`live
      ensures Model() == Launched(old(Model()), luck) && ok == (nodeServer != null)
      ensures nodeServer != null ==> nodeServer == server && server.live
      ensures nodeServer == null ==> !server.live
    {
      server.UpdateUsers(userList, luck.load, luck.left);
      if !luck.load {
        server.Close();
        log := log + [Closed(server.id)];
        return false;
      }
      if !luck.start {
        server.Close();
        log := log + [Closed(server.id)];
        return false;
      }
      nodeServer, runningConfig := server, Some(nodeConfig);
      log := log + [Started(server.id)];
      ok := true;
    }

    /** What follows the refresh: the listener is kept, or closed and built again. */
    method Rebuild(luck: Luck) returns (ok: bool)
      requires Listening()
      modifies this`nodeServer, this`runningConfig, this`log, this`made, this`told
      modifies Current()`live
      ensures Listening() && Rebuilds(old(Model()), luck, Model()) && ok == (nodeServer != null)
      ensures nodeServer == old(nodeServer) || nodeServer == null || fresh(nodeServer)
    {
      RebuildListens(Model(), luck);
      OpenRebuilds(Model(), luck);
      if nodeServer != null && SameListener(nodeConfig, runningConfig.value) {
        runningConfig := Some(nodeConfig);
        return true;
      }
      Stop();
      ok := Build(luck);
    }

    /** Rebuilding leaves the table alone. */
    method RebuildKeeps(luck: Luck, ghost t: UserTable, ghost table: map<int, nat>, ghost kept: Held) returns (ok: bool)
      requires Listening() && Follows(t, table, kept)
      modifies this`nodeServer, this`runningConfig, this`log, this`made, this`told
      modifies Current()`live
      ensures Listening() && Rebuilds(old(Model()), luck, Model()) && ok == (nodeServer != null)
      ensures Follows(t, table, kept)
      ensures nodeServer == old(nodeServer) || nodeServer == null || fresh(nodeServer)
    {
      Exists(t);
      ok := Rebuild(luck);
    }

    // -------------------------------------------------------------- the table

    /** users.update, with what the pull loop sees of it. */
    method UpdateTable(list: seq<User>, nodeSpeedLimit: nat, now: real)
      requires Follows(users, limits, held) && Apart()
      modifies this`limits, this`applied, this`held, users.repr
      ensures Follows(users, limits, held) && Apart() && fresh(users.repr - old(users.repr))
      ensures limits == Table(list, nodeSpeedLimit) && applied == nodeSpeedLimit && Listed(held, list)
      ensures Carries(list, nodeSpeedLimit, old(held), held)
      ensures BooksOf(users) == old(BooksOf(users)) && old(users.registry) <= users.registry
      ensures forall id | id in old(held) && id in held ::
                held[id] == old(held)[id] || held[id] == null || fresh(held[id])
    {
      ghost var kept := UpdateUsers(users, list, nodeSpeedLimit, now, limits, held);
      Note(Table(list, nodeSpeedLimit), nodeSpeedLimit, kept);
    }

    ghost method Note(table: map<int, nat>, nodeSpeedLimit: nat, kept: Held)
      requires Follows(users, table, kept)
      modifies this`limits, this`applied, this`held
      ensures Follows(users, limits, held) && limits == table && applied == nodeSpeedLimit && held == kept
    {
      limits, applied, held := table, nodeSpeedLimit, kept;
    }

    /** The table takes the node limit, if that changed under a running listener. */
    method Refresh(now: real)
      requires Valid()
      modifies this`limits, this`applied, this`held, users.repr
      ensures Valid() && Model() == Refreshed(old(Model())) && fresh(users.repr - old(users.repr))
      ensures nodeServer == old(nodeServer) && rounds == old(rounds) && lastPush == old(lastPush)
      ensures Passes(Refreshes(old(Model())), old(userList), old(nodeConfig).speedLimit, old(held), held)
      ensures BooksOf(users) == old(BooksOf(users)) && old(users.registry) <= users.registry
      ensures forall id | id in old(held) && id in held ::
                held[id] == old(held)[id] || held[id] == null || fresh(held[id])
    {
      OpenNode();
      SameListening(Model(), Refreshed(Model()));
      if runningConfig.Some? && nodeConfig.speedLimit != runningConfig.value.speedLimit {
        UpdateTable(userList, nodeConfig.speedLimit, now);
      }
      OpenNode();
    }

    /** syncNodeServer: refresh the table, then keep or rebuild the listener. */
    method SyncNodeServer(luck: Luck, now: real) returns (ok: bool)
      requires Valid()
      modifies this`limits, this`applied, this`held, this`nodeServer, this`runningConfig, this`log, this`made, this`told
      modifies Current()`live, users.repr
      ensures Valid() && Model() == Synced(old(Model()), luck) && ok == (nodeServer != null)
      ensures nodeServer == old(nodeServer) || nodeServer == null || fresh(nodeServer)
      ensures fresh(users.repr - old(users.repr)) && rounds == old(rounds) && lastPush == old(lastPush)
      ensures Passes(Refreshes(old(Model())), old(userList), old(nodeConfig).speedLimit, old(held), held)
      ensures BooksOf(users) == old(BooksOf(users)) && old(users.registry) <= users.registry
      ensures forall id | id in old(held) && id in held ::
                held[id] == old(held)[id] || held[id] == null || fresh(held[id])
    {
      ghost var n := Model();
      Refresh(now);
      ok := RebuildListener(luck);
      OpenRebuilds(Refreshed(n), luck);
    }

    method RebuildListener(luck: Luck) returns (ok: bool)
      requires Valid()
      modifies this`nodeServer, this`runningConfig, this`log, this`made, this`told
      modifies Current()`live
      ensures Valid() && Rebuilds(old(Model()), luck, Model()) && ok == (nodeServer != null)
      ensures nodeServer == old(nodeServer) || nodeServer == null || fresh(nodeServer)
    {
      OpenNode();
      ok := RebuildKeeps(luck, users, limits, held);
      OpenNode();
    }

    // -------------------------------------------------------------- users, rules and config

    /** The list is taken over, and told to a running listener. */
    method Tell(list: seq<User>, luck: Luck)
      modifies this`userList, this`told, Current()`users
      ensures Model() == Informs(old(Model()), list, luck)
    {
      userList := list;
      if nodeServer != null {
        told := told + [Told(list, limits)];
        nodeServer.UpdateUsers(list, luck.update, luck.left);
      }
    }

    /** Telling leaves the table alone. */
    method TellKeeps(list: seq<User>, luck: Luck, ghost t: UserTable, ghost table: map<int, nat>, ghost kept: Held)
      requires Follows(t, table, kept)
      modifies this`userList, this`told, Current()`users
      ensures Model() == Informs(old(Model()), list, luck) && Follows(t, table, kept)
    {
      Exists(t);
      Tell(list, luck);
    }

    /** The table first, then the listener. */
    method ApplyUsers(list: seq<User>, luck: Luck, now: real)
      requires Valid()
      modifies this`limits, this`applied, this`held, this`userList, this`told
      modifies Current()`users, users.repr
      ensures Valid() && Model() == Applied(old(Model()), list, luck) && fresh(users.repr - old(users.repr))
      ensures nodeServer == old(nodeServer) && rounds == old(rounds) && lastPush == old(lastPush)
      ensures Carries(list, nodeConfig.speedLimit, old(held), held)
      ensures BooksOf(users) == old(BooksOf(users)) && old(users.registry) <= users.registry
      ensures forall id | id in old(held) && id in held ::
                held[id] == old(held)[id] || held[id] == null || fresh(held[id])
    {
      OpenNode();
      AppliedListens(Model(), list, luck);
      RouteUsers(list, now);
      TellKeeps(list, luck, users, limits, held);
      OpenNode();
    }

    /** The table's half of it. */
    method RouteUsers(list: seq<User>, now: real)
      requires Sound()
      modifies this`limits, this`applied, this`held, users.repr
      ensures Follows(users, limits, held) && Apart() && fresh(users.repr - old(users.repr))
      ensures Model() == Routed(old(Model()), list) && Listed(held, list) && (nodeServer != null ==> nodeServer.live)
      ensures nodeServer == old(nodeServer) && rounds == old(rounds) && lastPush == old(lastPush) == users.lastPush
      ensures Carries(list, nodeConfig.speedLimit, old(held), held)
      ensures BooksOf(users) == old(BooksOf(users)) && old(users.registry) <= users.registry
      ensures forall id | id in old(held) && id in held ::
                held[id] == old(held)[id] || held[id] == null || fresh(held[id])
    {
      UpdateTable(list, nodeConfig.speedLimit, now);
    }

    method FetchRules(turn: Turn)
      modifies this`rules, client`rulesETag
      ensures Model() == WithRules(old(Model()), turn.rules)
    {
      var fetched := client.FetchDetectRules(turn.rules);
      if fetched.Some? {
        rules := fetched;
      }
    }

    /** Fetching rules leaves the table alone. */
    method FetchRulesKeeps(turn: Turn, ghost t: UserTable, ghost table: map<int, nat>, ghost kept: Held)
      requires Follows(t, table, kept)
      modifies this`rules, client`rulesETag
      ensures Model() == WithRules(old(Model()), turn.rules) && Follows(t, table, kept)
    {
      Exists(t);
      FetchRules(turn);
    }

    method PullDetectRules(turn: Turn)
      requires Valid()
      modifies this`rules, client`rulesETag
      ensures Valid() && Model() == WithRules(old(Model()), turn.rules)
    {
      OpenNode();
      SameListening(Model(), WithRules(Model(), turn.rules));
      FetchRulesKeeps(turn, users, limits, held);
      OpenNode();
    }

    method FetchConfig(turn: Turn) returns (got: bool)
      modifies this`nodeConfig, client`infoETag
      ensures Model() == WithInfo(old(Model()), turn.info)
      ensures got == InfoFetch(old(client.infoETag), turn.info).result.Some?
    {
      var config := client.FetchNodeConfig(turn.info);
      got := config.Some?;
      if got {
        nodeConfig := config.value;
      }
    }

    /** Fetching the config leaves the table alone. */
    method FetchConfigKeeps(turn: Turn, ghost t: UserTable, ghost table: map<int, nat>, ghost kept: Held)
      returns (got: bool)
      requires Follows(t, table, kept)
      modifies this`nodeConfig, client`infoETag
      ensures Model() == WithInfo(old(Model()), turn.info) && Follows(t, table, kept)
      ensures got == InfoFetch(old(client.infoETag), turn.info).result.Some?
    {
      Exists(t);
      got := FetchConfig(turn);
    }

    /** Takes over a fresh config; `got` says whether there was one. */
    method PullConfig(turn: Turn) returns (got: bool)
      requires Valid()
      modifies this`nodeConfig, client`infoETag
      ensures Valid() && Model() == WithInfo(old(Model()), turn.info)
      ensures got == InfoFetch(old(client.infoETag), turn.info).result.Some?
    {
      OpenNode();
      SameListening(Model(), WithInfo(Model(), turn.info));
      got := FetchConfigKeeps(turn, users, limits, held);
      OpenNode();
    }

    /** What the panel says about the users: a node it will not serve gets the empty list. */
    method FetchList(turn: Turn) returns (list: Option<seq<User>>)
      modifies client`usersETag
      ensures Model() == old(Model()).(etags := old(Model()).etags.(users := client.usersETag))
      ensures Fetched(client.usersETag, list) == UsersFetch(old(client.usersETag), turn.users)
    {
      var unavailable;
      list, unavailable := client.FetchUsers(turn.users);
      if unavailable {
        list := Some([]);
      }
    }

    method FetchListKeeps(turn: Turn, ghost t: UserTable, ghost table: map<int, nat>, ghost kept: Held)
      returns (list: Option<seq<User>>)
      requires Follows(t, table, kept)
      modifies client`usersETag
      ensures Model() == old(Model()).(etags := old(Model()).etags.(users := client.usersETag))
      ensures Follows(t, table, kept)
      ensures Fetched(client.usersETag, list) == UsersFetch(old(client.usersETag), turn.users)
    {
      Exists(t);
      list := FetchList(turn);
    }

    method PullList(turn: Turn) returns (list: Option<seq<User>>)
      requires Valid()
      modifies client`usersETag
      ensures Valid() && Model() == old(Model()).(etags := old(Model()).etags.(users := client.usersETag))
      ensures Fetched(client.usersETag, list) == UsersFetch(old(client.usersETag), turn.users)
    {
      OpenNode();
      SameListening(Model(), Model().(etags := Model().etags.(users := UsersFetch(client.usersETag, turn.users).etag)));
      list := FetchListKeeps(turn, users, limits, held);
      OpenNode();
    }

    method PullUsers(turn: Turn, luck: Luck, now: real)
      requires Valid()
      modifies this`limits, this`applied, this`held, this`userList, this`told
      modifies Current()`users, client`usersETag, users.repr
      ensures Valid() && Model() == WithUsers(old(Model()), turn.users, luck) && fresh(users.repr - old(users.repr))
      ensures nodeServer == old(nodeServer) && rounds == old(rounds) && lastPush == old(lastPush)
      ensures var sent := UsersFetch(old(client.usersETag), turn.users).result;
              Passes(sent.Some?, if sent.Some? then sent.value else [], nodeConfig.speedLimit, old(held), held)
      ensures BooksOf(users) == old(BooksOf(users)) && old(users.registry) <= users.registry
      ensures forall id | id in old(held) && id in held ::
                held[id] == old(held)[id] || held[id] == null || fresh(held[id])
    {
      var list := PullList(turn);
      if list.Some? {
        ApplyUsers(list.value, luck, now);
      }
    }

    // -------------------------------------------------------------- the pull loop

    lemma Lists()
      requires Valid()
      ensures Listed(held, userList)
    {
      OpenNode();
    }

    /** The first half of a pull: config and listener. */
    method PullNode(turn: Turn, luck: Luck, now: real)
      requires Valid()
      modifies this`limits, this`applied, this`held, this`nodeServer, this`runningConfig, this`log, this`made, this`told
      modifies this`nodeConfig, client`infoETag, Current()`live, users.repr
      ensures Valid() && SyncsTo(old(Model()), turn, luck, Model())
      ensures nodeServer == old(nodeServer) || nodeServer == null || fresh(nodeServer)
      ensures fresh(users.repr - old(users.repr)) && rounds == old(rounds) && lastPush == old(lastPush)
      ensures userList == old(userList) && client.usersETag == old(client.usersETag)
      ensures nodeConfig == WithInfo(old(Model()), turn.info).config && Listed(held, userList)
      ensures Passes(Refreshes(WithInfo(old(Model()), turn.info)), userList, nodeConfig.speedLimit, old(held), held)
      ensures BooksOf(users) == old(BooksOf(users)) && old(users.registry) <= users.registry
      ensures forall id | id in old(held) && id in held ::
                held[id] == old(held)[id] || held[id] == null || fresh(held[id])
    {
      ghost var n := Model();
      var _ := PullConfig(turn);
      var _ := SyncNodeServer(luck, now);
      SyncTouchesNoContent(WithInfo(n, turn.info), luck);
      Lists();
      OpenPulls(n, Model(), turn, luck);
    }

    /** The second half: users and rules. */
    method PullLists(turn: Turn, luck: Luck, now: real)
      requires Valid()
      modifies this`limits, this`applied, this`held, this`userList, this`rules, this`told
      modifies client`usersETag, client`rulesETag, Current()`users, users.repr
      ensures Valid() && ListsTo(old(Model()), turn, luck, Model())
      ensures nodeServer == old(nodeServer) && fresh(users.repr - old(users.repr)) && rounds == old(rounds)
      ensures lastPush == old(lastPush)
      ensures var sent := UsersFetch(old(client.usersETag), turn.users).result;
              Passes(sent.Some?, if sent.Some? then sent.value else [], old(nodeConfig).speedLimit, old(held), held)
      ensures BooksOf(users) == old(BooksOf(users)) && old(users.registry) <= users.registry
      ensures forall id | id in old(held) && id in held ::
                held[id] == old(held)[id] || held[id] == null || fresh(held[id])
    {
      ghost var n := Model();
      UsersTouchUsersOnly(n, turn.users, luck);
      PullUsers(turn, luck, now);
      PullDetectRules(turn);
      OpenPulls(n, Model(), turn, luck);
    }

    /** Both halves; `mid` are the limiters in between. */
    method PullHalves(turn: Turn, luck: Luck, now: real) returns (ghost mid: Held)
      requires Valid()
      modifies this, client, nodeServer, users.repr
      ensures Valid() && PullsTo(old(Model()), turn, luck, Model()) && fresh(users.repr - old(users.repr))
      ensures nodeServer == old(nodeServer) || nodeServer == null || fresh(nodeServer)
      ensures rounds == old(rounds) && lastPush == old(lastPush)
      ensures BooksOf(users) == old(BooksOf(users)) && old(users.registry) <= users.registry
      ensures Updates(old(Model()), turn, old(held), mid, held)
      ensures Listed(mid, old(userList)) && Forgets(old(held), mid, held)
    {
      ghost var n := Model();
      PullNode(turn, luck, now);
      ghost var m := Model();
      mid := held;
      PullLists(turn, luck, now);
      HalvesPull(n, m, Model(), turn, luck);
    }

    /** A pull leaves the books alone, and a user its limiter unless an update takes the limit away. */
    method PullTurn(turn: Turn, luck: Luck, now: real)
      requires Valid()
      modifies this, client, nodeServer, users.repr
      ensures Valid() && Model() == Pulled(old(Model()), turn, luck) && fresh(users.repr - old(users.repr))
      ensures nodeServer == old(nodeServer) || nodeServer == null || fresh(nodeServer)
      ensures rounds == old(rounds) && lastPush == old(lastPush)
      ensures BooksOf(users) == old(BooksOf(users)) && old(users.registry) <= users.registry
      ensures Spares(old(Model()), turn, old(held), held)
    {
      ghost var n, was := Model(), held;
      Lists();
      ghost var mid := PullHalves(turn, luck, now);
      PullCarries(n, turn, was, mid, held);
      OpenPulls(n, Model(), turn, luck);
    }

    /** One pull is one round of the machine. */
    method PullOnce(turn: Turn, luck: Luck, now: real)
      requires Running()
      modifies this, client, nodeServer, users.repr
      ensures Running() && rounds == old(rounds) + [Round(turn, luck)] && Model() == Pulled(old(Model()), turn, luck)
      ensures fresh(users.repr - old(users.repr)) && lastPush == old(lastPush)
      ensures nodeServer == old(nodeServer) || nodeServer == null || fresh(nodeServer)
      ensures BooksOf(users) == old(BooksOf(users)) && old(users.registry) <= users.registry
      ensures Spares(old(Model()), turn, old(held), held)
    {
      ghost var more := rounds + [Round(turn, luck)];
      ExtendRun(rounds, more, Round(turn, luck), Model());
      PullTurn(turn, luck, now);
      Count(more);
    }

    /** Start: the first round of a run, or no run at all. */
    method Start(turn: Turn, luck: Luck, now: real) returns (ok: bool)
      requires Valid() && nodeServer == null && Model() == Blank(nodeConfig)
      modifies this, client, users.repr
      ensures ok == Begun(turn, luck).Some?
      ensures ok ==> Running() && rounds == [Round(turn, luck)]
      ensures fresh(users.repr - old(users.repr)) && (nodeServer == null || fresh(nodeServer))
      ensures BooksOf(users) == old(BooksOf(users)) && old(users.registry) <= users.registry
    {
      ok := Prepare(turn, luck, now);
      if ok {
        ok := StartListener(turn, luck, now);
      }
    }

    /** Start, from the listener on. */
    method StartListener(turn: Turn, luck: Luck, now: real) returns (ok: bool)
      requires Valid() && nodeServer == null && Prepared(turn, luck) == Some(Model())
      modifies this, client, users.repr
      ensures ok == Begun(turn, luck).Some?
      ensures ok ==> Running() && rounds == [Round(turn, luck)]
      ensures fresh(users.repr - old(users.repr)) && (nodeServer == null || fresh(nodeServer))
      ensures BooksOf(users) == old(BooksOf(users)) && old(users.registry) <= users.registry
    {
      ok := SyncNodeServer(luck, now);
      if ok {
        StartsRun(turn, luck, Model());
        Count([Round(turn, luck)]);
      }
    }

    /** Start, up to the listener. */
    method Prepare(turn: Turn, luck: Luck, now: real) returns (ok: bool)
      requires Valid() && nodeServer == null && Model() == Blank(nodeConfig)
      modifies this, client, users.repr
      ensures Valid() && nodeServer == null && fresh(users.repr - old(users.repr))
      ensures if ok then Prepared(turn, luck) == Some(Model()) else Prepared(turn, luck) == None
      ensures BooksOf(users) == old(BooksOf(users)) && old(users.registry) <= users.registry
    {
      ok := PullConfig(turn);
      if ok {
        var list := PullList(turn);
        ok := list.Some?;
        if ok {
          ApplyUsers(list.value, luck, now);
          PullDetectRules(turn);
        }
      }
    }

    ghost method Count(more: seq<Round>)
      requires Valid() && Ran(more, Model())
      modifies this`rounds
      ensures Running() && rounds == more
    {
      rounds := more;
    }

    // -------------------------------------------------------------- the push loop

    /** The online list: what happened since the previous push began. */
    method PushOnline(now: int) returns (online: seq<OnlineLists.UserOnline>)
      requires Valid() && users.clock <= now
      modifies this`lastPush, users`clock, users`lastPush, users.current.Values`ips, users.current.Values`view
      ensures Valid() && lastPush == now && users.clock == now && Model() == old(Model())
      ensures NoDup(online)
      ensures forall e :: e in online <==>
                e.userId in users.current
                  && OnlineLists.IsOnline(old(users.current[e.userId].view), old(lastPush), e.address)
    {
      OpenNode();
      var since := lastPush;
      lastPush := now;
      online := ListTable(users, since, now, limits, held);
      OpenNode();
    }

    /** The traffic: the bytes owed are acknowledged or stay owed. */
    method PushTraffic(delivered: bool)
      requires Valid() && users.world.push.Idle?
      modifies users`world, users`retired, users`registry, users`repr, users.registry`upload, users.registry`download
      ensures Valid() && users.world.push.Idle? && Model() == old(Model())
      ensures old(users.registry) <= users.registry && fresh(users.repr - old(users.repr))
      ensures Pushed(old(users.world), users.world, delivered)
    {
      OpenNode();
      PushTable(users, delivered, limits, held);
      OpenNode();
    }

    /** pushOnce, up to the detect logs: it is no round of the pull loop, and leaves that where it is. */
    method PushOnce(delivered: bool, now: int) returns (online: seq<OnlineLists.UserOnline>)
      requires Valid() && users.world.push.Idle? && users.clock <= now
      modifies this`lastPush, users`clock, users`lastPush, users.current.Values`ips, users.current.Values`view
      modifies users`world, users`retired, users`registry, users`repr, users.registry`upload, users.registry`download
      ensures Valid() && users.world.push.Idle? && Model() == old(Model())
      ensures old(users.registry) <= users.registry && fresh(users.repr - old(users.repr))
      ensures lastPush == now && users.clock == now && Pushed(old(users.world), users.world, delivered)
      ensures NoDup(online)
      ensures forall e :: e in online <==>
                e.userId in users.current
                  && OnlineLists.IsOnline(old(users.current[e.userId].view), old(lastPush), e.address)
    {
      online := PushOnline(now);
      PushTraffic(delivered);
    }

    // -------------------------------------------------------------- connections

    /** A connection of user `id`: open on its state, or refused if it is not served. */
    method Connect(id: int, address: NetAddr.Addr, now: int)
      returns (state: UserState?, c: Connection?, ghost conn: nat)
      requires Valid() && users.clock <= now
      modifies users`world, users`clock, users`repr
      modifies users.registry`ips, users.registry`active, users.registry`view, users.registry`conns
      modifies ActivitiesOf(users.registry)`active, ActivitiesOf(users.registry)`lastSeen
      ensures Valid() && Model() == old(Model()) && fresh(users.repr - old(users.repr))
      ensures state == null <==> id !in limits
      ensures Between(old(users.world), users.world) && users.world.counted == old(users.world.counted)
      ensures users.clock == (if state == null then old(users.clock) else now)
      ensures state != null ==> c != null && Connects(users, id, state, c, conn)
      ensures state != null ==> c != null && Noted(users, id, state, c, NetAddr.Unmap(address), now)
    {
      OpenNode();
      state, c, conn := ConnectTable(id, address, now);
      assert Listening();
      OpenNode();
    }

    /** The table's part of it. */
    method ConnectTable(id: int, address: NetAddr.Addr, now: int)
      returns (state: UserState?, c: Connection?, ghost conn: nat)
      requires Follows(users, limits, held) && Apart() && users.clock <= now
      modifies users`world, users`clock, users`repr
      modifies users.registry`ips, users.registry`active, users.registry`view, users.registry`conns
      modifies ActivitiesOf(users.registry)`active, ActivitiesOf(users.registry)`lastSeen
      ensures Follows(users, limits, held) && Apart() && Model() == old(Model()) && fresh(users.repr - old(users.repr))
      ensures state == null <==> id !in limits
      ensures Between(old(users.world), users.world) && users.world.counted == old(users.world.counted)
      ensures users.clock == (if state == null then old(users.clock) else now)
      ensures state != null ==> c != null && Connects(users, id, state, c, conn)
      ensures state != null ==> c != null && Noted(users, id, state, c, NetAddr.Unmap(address), now)
    {
      state, c, conn := RouteTable(users, id, address, now, limits, held);
    }

    /** It counts. */
    method CountBytes(state: UserState, up: nat, down: nat, ghost conn: nat)
      requires Valid() && users.Holder(conn, state) && users.world.conns[conn].phase == Ledger.Open
      modifies users`world, state`upload, state`download
      ensures Valid() && Model() == old(Model()) && Ledger.Enabled(old(users.world), Ledger.Count(conn, up, down))
      ensures users.world == Ledger.DoCount(old(users.world), conn, up, down)
      ensures state.upload == old(state.upload) + up && state.download == old(state.download) + down
    {
      OpenNode();
      CountTable(users, state, up, down, conn, limits, held);
      OpenNode();
    }

    /** It ends. */
    method Disconnect(state: UserState, c: Connection, now: int, ghost conn: nat)
      requires Valid() && users.Holder(conn, state) && users.world.conns[conn].phase == Ledger.Open
      requires users.clock <= now && c in state.conns && !c.finished
      modifies users`world, users`clock, state`active, state`view
      modifies c`finished, c.activity`active, c.activity`lastSeen
      ensures Valid() && Model() == old(Model()) && users.clock == now && c.finished
      ensures Ledger.Enabled(old(users.world), Ledger.CloseConn(conn))
      ensures users.world == Ledger.DoClose(old(users.world), conn)
      ensures state.view.log == old(state.view).log + [Online.Event(c.address, now)]
    {
      OpenNode();
      DoneTable(users, state, c, now, conn, limits, held);
      OpenNode();
    }

    // -------------------------------------------------------------- Close

    /** Close, once both loops are done: no listener is left, and the last collect takes all that is owed. */
    method Close() returns (items: seq<Ledger.Traffic>)
      requires Valid() && users.world.push.Idle?
      modifies Current()`live
      modifies users`world, users`retired, users.registry`upload, users.registry`download
      ensures nodeServer != null ==> !nodeServer.live
      ensures users.Valid() && Settled(old(users.world), users.world, items)
    {
      OpenNode();
      if nodeServer != null {
        CloseKeeps(nodeServer, users, limits, held);
      }
      items := CollectTable(users, limits, held);
    }
  }

  /** Closing a listener leaves a table alone. */
  method CloseKeeps(server: NodeServer, ghost t: UserTable, ghost limits: map<int, nat>, ghost held: Held)
    requires Follows(t, limits, held)
    modifies server`live
    ensures !server.live && Follows(t, limits, held)
  {
    Exists(t);
    server.Close();
  }

  /** One listener, paired with its config, and a table that follows the list. */
  ghost predicate Listens(n: Node) {
    Alone(n) && Paired(n) && Tabled(n)
  }

  lemma AppliedListens(n: Node, list: seq<User>, luck: Luck)
    requires Listens(n)
    ensures Listens(Applied(n, list, luck))
  {
    SameListening(n, Applied(n, list, luck));
  }

  lemma RebuildListens(n: Node, luck: Luck)
    requires Listens(n)
    ensures Listens(Rebuilt(n, luck))
  {
    if !Keeps(n) {
      StopKeeps(n);
      BuildKeeps(Stopped(n), luck);
    }
  }

  lemma StartsRun(turn: Turn, luck: Luck, n: Node)
    requires Begun(turn, luck) == Some(n)
    ensures Ran([Round(turn, luck)], n)
  {
    OpenRun([Round(turn, luck)], n);
  }

  lemma ExtendRun(rounds: seq<Round>, more: seq<Round>, round: Round, n: Node)
    requires Ran(rounds, n) && more == rounds + [round]
    ensures Ran(more, Pulled(n, round.turn, round.luck))
  {
    OpenRun(rounds, n);
    OpenRun(more, Pulled(n, round.turn, round.luck));
    assert more[..|rounds|] == rounds;
    ExecLast(more, |rounds|, n);
  }

  lemma OneLimit(u: UserState, x: nat, y: nat)
    requires Limited(u, x) && Limited(u, y)
    ensures x == y
  {
  }

  /** The limiters of a table tell its limits. */
  lemma ServesOne(served: map<int, UserState>, a: map<int, nat>, b: map<int, nat>)
    requires Serves(served, a)
    ensures Serves(served, b) <==> a == b
  {
    if Serves(served, b) {
      forall id ensures id in a <==> id in b {
        assert id in served <==> id in a;
      }
      forall id | id in a ensures a[id] == b[id] {
        var u, x, y := served[id], a[id], b[id];
        assert Limited(u, x) && Limited(u, y);
        OneLimit(u, x, y);
      }
    }
  }

  /** What the node keeps about its table is so. */
  lemma Inside(server: Server)
    requires server.Valid()
    ensures TableOk(server.users, server.limits, server.held)
  {
    server.OpenNode();
    Open(server.users, server.limits, server.held);
  }

  /**
    Speed limits, on the limiters: each served user's limiter is absent if the
    stricter of the node's limit and its last entry's is 0, and has that rate otherwise,
    if and only if the node limit the table last took comes to the same as that of now.
   */
  lemma LimitersAgreeExactlyWhen(server: Server)
    requires server.Running()
    ensures IsRun(server.rounds)
    ensures Serves(server.users.current, Table(server.userList, server.nodeConfig.speedLimit))
            <==> SameLimits(server.userList, LastTaken(server.rounds), server.nodeConfig.speedLimit)
  {
    Inside(server);
    OpenRun(server.rounds, server.Model());
    LimitsAgreeInRuns(server.rounds);
    ServesOne(server.users.current, server.limits, Table(server.userList, server.nodeConfig.speedLimit));
  }

  /** They do in every calm run. */
  lemma LimitersAgree(server: Server)
    requires server.Running()
    ensures IsRun(server.rounds)
    ensures CalmRun(server.rounds)
            ==> Serves(server.users.current, Table(server.userList, server.nodeConfig.speedLimit))
  {
    OpenRun(server.rounds, server.Model());
    Inside(server);
    if CalmRun(server.rounds) {
      SpeedLimitsAgree(server.rounds);
    }
  }
}
