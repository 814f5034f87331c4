/**
  server.go, the pull loop: three resources of the panel, one listener, one user list.

  A node is started once and then pulls again and again.  `Turn` is what the panel
  answers in one pull and `Luck` how the calls on listeners go.  Everything else is
  determined.
 */
module Pull {
  import opened Common
  import opened Accounts
  import opened Panel

  datatype Turn = Turn(info: Answer<Info>, users: Answer<seq<Entry>>, rules: Answer<seq<RuleEntry>>)

  /**
    Whether proxy.New, the first UpdateUsers, Start and the UpdateUsers on a running
    listener succeed, and what the listener serves if the last one does not.
   */
  datatype Luck = Luck(make: bool, load: bool, start: bool, update: bool, left: seq<User>)

  /** A node server: the `id`-th proxy.New returned, built from `config`. */
  datatype Listener = Listener(id: nat, config: NodeConfig, users: seq<User>)

  datatype Event =
    | Make(config: NodeConfig)
    | Made(id: nat)
    | Started(id: nat)
    | Closed(id: nat)

  /** A listener was given a list while the table routed these IDs. */
  datatype Told = Told(users: seq<User>, table: map<int, nat>)

  /**
    `table` is who routes, with which limit, and `applied` the node limit it was last
    updated with.  `made`, `log` and `told` are history.
   */
  datatype Node = Node(
    etags: ETags,
    config: NodeConfig,
    running: Option<NodeConfig>,
    listener: Option<Listener>,
    users: seq<User>,
    table: map<int, nat>,
    rules: Option<seq<Rule>>,
    applied: nat,
    made: nat,
    log: seq<Event>,
    told: seq<Told>)

  datatype ETags = ETags(info: string, users: string, rules: string)

  // ---------------------------------------------------------------- syncNodeServer

  /** sameListener, on two configs that exist. */
  predicate SameListener(a: NodeConfig, b: NodeConfig) {
    a.(speedLimit := 0) == b.(speedLimit := 0)
  }

  /** The table is refreshed when the node limit changed under a running listener. */
  predicate Refreshes(n: Node) {
    n.running.Some? && n.config.speedLimit != n.running.value.speedLimit
  }

  function Refreshed(n: Node): Node {
    if Refreshes(n) then n.(table := Table(n.users, n.config.speedLimit), applied := n.config.speedLimit) else n
  }

  predicate Keeps(n: Node) {
    n.listener.Some? && n.running.Some? && SameListener(n.config, n.running.value)
  }

  function Stopped(n: Node): Node {
    if n.listener.Some? then n.(listener := None, running := None, log := n.log + [Closed(n.listener.value.id)]) else n
  }

  /** proxy.New, UpdateUsers and Start, each of which may fail; what was made is then closed. */
  function Built(n: Node, luck: Luck): Node {
    var n := n.(log := n.log + [Make(n.config)]);
    if luck.make then Launched(WithMade(n), luck) else n
  }

  function WithMade(n: Node): Node {
    n.(made := n.made + 1, told := n.told + [Told(n.users, n.table)], log := n.log + [Made(n.made)])
  }

  function Launched(n: Node, luck: Luck): Node
    requires n.made > 0
  {
    if !luck.load || !luck.start then n.(log := n.log + [Closed(n.made - 1)])
    else
      n.(listener := Some(Listener(n.made - 1, n.config, n.users)), running := Some(n.config),
         log := n.log + [Started(n.made - 1)])
  }

  /** What follows the refresh: the listener is kept, or closed and built again. */
  function Rebuilt(n: Node, luck: Luck): Node {
    if Keeps(n) then n.(running := Some(n.config)) else Built(Stopped(n), luck)
  }

  function Synced(n: Node, luck: Luck): Node {
    Rebuilt(Refreshed(n), luck)
  }

  // ---------------------------------------------------------------- applyUsers and the fetches

  /** The table takes a list. */
  function Routed(n: Node, users: seq<User>): Node {
    n.(table := Table(users, n.config.speedLimit), applied := n.config.speedLimit)
  }

  /** The node and a running listener take a list. */
  function Informs(n: Node, users: seq<User>, luck: Luck): Node {
    if n.listener.None? then n.(users := users)
    else
      var took := if luck.update then users else luck.left;
      n.(users := users, listener := Some(n.listener.value.(users := took)), told := n.told + [Told(users, n.table)])
  }

  /**
    applyUsers: the table first, so that the listener never knows a user the table does
    not route, nor the other way round.
   */
  function Applied(n: Node, users: seq<User>, luck: Luck): Node {
    Informs(Routed(n, users), users, luck)
  }

  function WithInfo(n: Node, answer: Answer<Info>): Node {
    var f := InfoFetch(n.etags.info, answer);
    n.(etags := n.etags.(info := f.etag), config := if f.result.Some? then f.result.value else n.config)
  }

  function WithUsers(n: Node, answer: Answer<seq<Entry>>, luck: Luck): Node {
    var f := UsersFetch(n.etags.users, answer);
    var n := n.(etags := n.etags.(users := f.etag));
    if f.result.Some? then Applied(n, f.result.value, luck) else n
  }

  function WithRules(n: Node, answer: Answer<seq<RuleEntry>>): Node {
    var f := RulesFetch(n.etags.rules, answer);
    n.(etags := n.etags.(rules := f.etag), rules := Now(n.rules, f))
  }

  /** pullOnce. */
  function Pulled(n: Node, turn: Turn, luck: Luck): Node {
    WithRules(WithUsers(Synced(WithInfo(n, turn.info), luck), turn.users, luck), turn.rules)
  }

  // ---------------------------------------------------------------- Start

  const NoETags: ETags := ETags("", "", "")

  function Blank(config: NodeConfig): Node {
    Node(NoETags, config, None, None, [], map[], None, 0, 0, [], [])
  }

  /** Start up to the listener, if the panel could be reached: the config and the users are there. */
  function Prepared(turn: Turn, luck: Luck): Option<Node> {
    var info := InfoFetch("", turn.info);
    var users := UsersFetch("", turn.users);
    if info.result.None? || users.result.None? then None
    else
      var n := Blank(info.result.value).(etags := ETags(info.etag, users.etag, ""));
      Some(WithRules(Applied(n, users.result.value, luck), turn.rules))
  }

  /** Start fails, and with it the process, unless the listener starts too. */
  function Begun(turn: Turn, luck: Luck): Option<Node> {
    match Prepared(turn, luck)
    case None => None
    case Some(n) => if Synced(n, luck).listener.Some? then Some(Synced(n, luck)) else None
  }

  // ---------------------------------------------------------------- runs

  datatype Round = Round(turn: Turn, luck: Luck)

  /** A successful Start and the pulls after it. */
  ghost predicate IsRun(rounds: seq<Round>) {
    rounds != [] && Begun(rounds[0].turn, rounds[0].luck).Some?
  }

  function Exec(rounds: seq<Round>): Node
    requires IsRun(rounds)
  {
    var k := |rounds| - 1;
    if k == 0 then Begun(rounds[0].turn, rounds[0].luck).value
    else Pulled(Exec(rounds[..k]), rounds[k].turn, rounds[k].luck)
  }

  /** The same with a client that never sends If-None-Match. */
  function Full(n: Node): Node {
    n.(etags := NoETags)
  }

  function ExecFull(rounds: seq<Round>): Node
    requires IsRun(rounds)
  {
    var k := |rounds| - 1;
    if k == 0 then Begun(rounds[0].turn, rounds[0].luck).value
    else Pulled(Full(ExecFull(rounds[..k])), rounds[k].turn, rounds[k].luck)
  }

  lemma ExecLast(rounds: seq<Round>, k: nat, n: Node)
    requires IsRun(rounds) && k == |rounds| - 1 > 0 && n == Exec(rounds[..k])
    ensures Exec(rounds) == Pulled(n, rounds[k].turn, rounds[k].luck)
  {
  }

  lemma ExecFullLast(rounds: seq<Round>, k: nat, n: Node)
    requires IsRun(rounds) && k == |rounds| - 1 > 0 && n == ExecFull(rounds[..k])
    ensures ExecFull(rounds) == Pulled(Full(n), rounds[k].turn, rounds[k].luck)
  {
  }

  // ---------------------------------------------------------------- conditional fetching

  /** The panel's versions: what each ETag names. */
  datatype Book = Book(info: string -> Info, users: string -> seq<Entry>, rules: string -> seq<RuleEntry>)

  ghost predicate HonestTurn(book: Book, turn: Turn) {
    Honest(book.info, turn.info) && Honest(book.users, turn.users) && Honest(book.rules, turn.rules)
  }

  ghost predicate HonestRun(book: Book, rounds: seq<Round>) {
    forall k | 0 <= k < |rounds| :: HonestTurn(book, rounds[k].turn)
  }

  /** A non-empty ETag names the version applied now. */
  ghost predicate Named(book: Book, n: Node) {
    && Names(book.info, n.etags.info, Some(n.config), ConfigOf)
    && Names(book.users, n.etags.users, Some(n.users), UsersOf)
    && Names(book.rules, n.etags.rules, n.rules, RulesOf)
  }

  lemma SyncTouchesNoContent(n: Node, luck: Luck)
    ensures var s := Synced(n, luck);
            s.etags == n.etags && s.config == n.config && s.users == n.users && s.rules == n.rules
  {
  }

  lemma UsersTouchUsersOnly(n: Node, answer: Answer<seq<Entry>>, luck: Luck)
    ensures var p := WithUsers(n, answer, luck);
            && p.config == n.config && p.rules == n.rules && p.running == n.running && p.log == n.log
            && p.made == n.made
            && (p.listener.Some? <==> n.listener.Some?)
            && (p.listener.Some? ==>
                  && p.listener.value.id == n.listener.value.id
                  && p.listener.value.config == n.listener.value.config)
            && Some(p.users) == Now(Some(n.users), UsersFetch(n.etags.users, answer))
            && p.etags == n.etags.(users := UsersFetch(n.etags.users, answer).etag)
  {
  }

  /** What one pull leaves applied, in terms of the fetches alone. */
  lemma PulledContent(n: Node, turn: Turn, luck: Luck)
    ensures var p := Pulled(n, turn, luck);
            && Some(p.config) == Now(Some(n.config), InfoFetch(n.etags.info, turn.info))
            && Some(p.users) == Now(Some(n.users), UsersFetch(n.etags.users, turn.users))
            && p.rules == Now(n.rules, RulesFetch(n.etags.rules, turn.rules))
            && p.etags == ETags(InfoFetch(n.etags.info, turn.info).etag, UsersFetch(n.etags.users, turn.users).etag,
                                RulesFetch(n.etags.rules, turn.rules).etag)
  {
    var a := WithInfo(n, turn.info);
    SyncTouchesNoContent(a, luck);
    var b := Synced(a, luck);
    UsersTouchUsersOnly(b, turn.users, luck);
  }

  lemma PullNames(book: Book, n: Node, turn: Turn, luck: Luck)
    requires Named(book, n) && HonestTurn(book, turn)
    ensures Named(book, Pulled(n, turn, luck))
  {
    PulledContent(n, turn, luck);
    InfoRefines(book.info, n.etags.info, turn.info, Some(n.config));
    UsersRefine(book.users, n.etags.users, turn.users, Some(n.users));
    RulesRefine(book.rules, n.etags.rules, turn.rules, n.rules);
  }

  lemma BeginNames(book: Book, turn: Turn, luck: Luck)
    requires HonestTurn(book, turn) && Begun(turn, luck).Some?
    ensures Named(book, Begun(turn, luck).value)
  {
    var n := Prepared(turn, luck).value;
    SyncTouchesNoContent(n, luck);
    InfoRefines(book.info, "", turn.info, None);
    UsersRefine(book.users, "", turn.users, None);
    RulesRefine(book.rules, "", turn.rules, None);
  }

  lemma {:induction false} RunNames(book: Book, rounds: seq<Round>)
    requires IsRun(rounds) && HonestRun(book, rounds)
    ensures Named(book, Exec(rounds))
  {
    var k := |rounds| - 1;
    if k == 0 {
      BeginNames(book, rounds[0].turn, rounds[0].luck);
    } else {
      RunNames(book, rounds[..k]);
      var n := Exec(rounds[..k]);
      ExecLast(rounds, k, n);
      PullNames(book, n, rounds[k].turn, rounds[k].luck);
    }
  }

  /** The two runs see the same panel; their listeners fare as they may. */
  ghost predicate SamePanel(a: seq<Round>, b: seq<Round>) {
    |a| == |b| && forall k | 0 <= k < |a| :: a[k].turn == b[k].turn
  }

  ghost predicate SameContent(a: Node, b: Node) {
    a.config == b.config && a.users == b.users && a.rules == b.rules
  }

  lemma PullRefines(book: Book, n: Node, full: Node, turn: Turn, luck: Luck, luck': Luck)
    requires Named(book, n) && HonestTurn(book, turn) && SameContent(n, full)
    ensures SameContent(Pulled(n, turn, luck), Pulled(Full(full), turn, luck'))
  {
    PulledContent(n, turn, luck);
    PulledContent(Full(full), turn, luck');
    InfoRefines(book.info, n.etags.info, turn.info, Some(n.config));
    UsersRefine(book.users, n.etags.users, turn.users, Some(n.users));
    RulesRefine(book.rules, n.etags.rules, turn.rules, n.rules);
  }

  /**
    Conditional fetching refines unconditional fetching: over any run, with whatever
    faults, the config, the user list and the rules are those of a node that always
    fetches in full.
   */
  lemma {:induction false} ConditionalRefinesFull(book: Book, rounds: seq<Round>, full: seq<Round>)
    requires IsRun(rounds) && IsRun(full) && SamePanel(rounds, full) && HonestRun(book, rounds)
    ensures SameContent(Exec(rounds), ExecFull(full))
  {
    var k := |rounds| - 1;
    if k == 0 {
      var turn := rounds[0].turn;
      SyncTouchesNoContent(Prepared(turn, rounds[0].luck).value, rounds[0].luck);
      SyncTouchesNoContent(Prepared(turn, full[0].luck).value, full[0].luck);
    } else {
      ConditionalRefinesFull(book, rounds[..k], full[..k]);
      RunNames(book, rounds[..k]);
      var n, m := Exec(rounds[..k]), ExecFull(full[..k]);
      ExecLast(rounds, k, n);
      ExecFullLast(full, k, m);
      PullRefines(book, n, m, rounds[k].turn, rounds[k].luck, full[k].luck);
    }
  }
}
