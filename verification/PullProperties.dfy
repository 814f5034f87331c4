/** What the pull loop keeps: one listener, the panel's state, and the panel's limits. */
module PullProperties {
  import opened Common
  import opened Accounts
  import opened Panel
  import opened Pull

  // ---------------------------------------------------------------- the listener

  ghost function After(live: set<nat>, e: Event): set<nat> {
    if e.Made? then live + {e.id} else if e.Closed? then live - {e.id} else live
  }

  /** The listeners that exist: made and not closed. */
  ghost function Live(log: seq<Event>): set<nat> {
    if log == [] then {} else After(Live(log[..|log| - 1]), log[|log| - 1])
  }

  ghost predicate AtMostOne(log: seq<Event>) {
    forall k | 0 <= k <= |log| :: |Live(log[..k])| <= 1
  }

  /** The node server and the running config come and go together, and the listener was built from that config. */
  ghost predicate Paired(n: Node) {
    && (n.listener.Some? <==> n.running.Some?)
    && (n.listener.Some? ==> n.listener.value.config.listener == n.running.value.listener)
  }

  /** The only listener that exists is the node server, and it was started. */
  ghost predicate Alone(n: Node) {
    && AtMostOne(n.log)
    && Live(n.log) == (if n.listener.Some? then {n.listener.value.id} else {})
    && (n.listener.Some? ==> Started(n.listener.value.id) in n.log)
  }

  lemma LiveSnoc(log: seq<Event>, e: Event)
    ensures Live(log + [e]) == After(Live(log), e)
    ensures AtMostOne(log) && |Live(log + [e])| <= 1 ==> AtMostOne(log + [e])
  {
    assert (log + [e])[..|log|] == log;
    assert forall k | 0 <= k <= |log| :: (log + [e])[..k] == log[..k];
    assert (log + [e])[..|log| + 1] == log + [e];
  }

  lemma StopKeeps(n: Node)
    requires Alone(n)
    ensures Alone(Stopped(n)) && Stopped(n).listener.None? && (Paired(n) ==> Paired(Stopped(n)))
  {
    if n.listener.Some? {
      LiveSnoc(n.log, Closed(n.listener.value.id));
    }
  }

  lemma BuildKeeps(n: Node, luck: Luck)
    requires Alone(n) && Paired(n) && n.listener.None?
    ensures Alone(Built(n, luck)) && Paired(Built(n, luck))
  {
    var tried := n.log + [Make(n.config)];
    LiveSnoc(n.log, Make(n.config));
    if luck.make {
      var made := tried + [Made(n.made)];
      LiveSnoc(tried, Made(n.made));
      LiveSnoc(made, Closed(n.made));
      LiveSnoc(made, Started(n.made));
      assert Built(n, luck).log == made + [if luck.load && luck.start then Started(n.made) else Closed(n.made)];
    }
  }

  lemma SyncKeeps(n: Node, luck: Luck)
    requires Alone(n) && Paired(n)
    ensures Alone(Synced(n, luck)) && Paired(Synced(n, luck))
  {
    var r := Refreshed(n);
    if !Keeps(r) {
      StopKeeps(r);
      BuildKeeps(Stopped(r), luck);
    }
  }

  lemma PullKeepsListener(n: Node, turn: Turn, luck: Luck)
    requires Alone(n) && Paired(n)
    ensures Alone(Pulled(n, turn, luck)) && Paired(Pulled(n, turn, luck))
  {
    var b := Synced(WithInfo(n, turn.info), luck);
    SyncKeeps(WithInfo(n, turn.info), luck);
    UsersTouchUsersOnly(b, turn.users, luck);
    SameListening(b, Pulled(n, turn, luck));
  }

  lemma SameListening(n: Node, p: Node)
    requires Alone(n) && Paired(n) && p.log == n.log && p.running == n.running
    requires n.listener.Some? <==> p.listener.Some?
    requires n.listener.Some?
             ==> p.listener.value.id == n.listener.value.id && p.listener.value.config == n.listener.value.config
    ensures Alone(p) && Paired(p)
  {
  }

  lemma BeginKeepsListener(turn: Turn, luck: Luck)
    requires Begun(turn, luck).Some?
    ensures Alone(Begun(turn, luck).value) && Paired(Begun(turn, luck).value)
  {
    var n := Prepared(turn, luck).value;
    assert Alone(n) by {
      assert n.log == [];
    }
    SyncKeeps(n, luck);
  }

  /** In every run, at every step, at most one listener exists, and it is the node server. */
  lemma {:induction false} OneListener(rounds: seq<Round>)
    requires IsRun(rounds)
    ensures Alone(Exec(rounds)) && Paired(Exec(rounds))
  {
    var k := |rounds| - 1;
    if k == 0 {
      BeginKeepsListener(rounds[0].turn, rounds[0].luck);
    } else {
      OneListener(rounds[..k]);
      var n := Exec(rounds[..k]);
      ExecLast(rounds, k, n);
      PullKeepsListener(n, rounds[k].turn, rounds[k].luck);
    }
  }

  /** Whether a pull leaves the listener alone: one runs, and at most the speed limit changed. */
  ghost predicate LeavesListener(n: Node, turn: Turn) {
    n.listener.Some? && n.running.Some? && WithInfo(n, turn.info).config.listener == n.running.value.listener
  }

  /**
    A pull rebuilds if and only if no listener runs or its config is another one but for
    the speed limit; it then tries exactly once, and a failure leaves neither a listener
    nor a running config, so the next pull tries again.
   */
  lemma RebuildsExactlyWhenNeeded(n: Node, turn: Turn, luck: Luck)
    requires Paired(n)
    ensures var p := Pulled(n, turn, luck);
            && (LeavesListener(n, turn) <==> p.log == n.log)
            && (LeavesListener(n, turn) ==>
                  && p.listener.Some? && p.listener.value.id == n.listener.value.id
                  && p.listener.value.config == n.listener.value.config
                  && p.running == Some(p.config) && p.made == n.made)
            && (!LeavesListener(n, turn) ==>
                  && Stopped(n).log + [Make(p.config)] <= p.log
                  && (p.listener.Some? <==> luck.make && luck.load && luck.start)
                  && (p.listener.Some? ==> p.listener.value.id == n.made && p.listener.value.config == p.config)
                  && (p.running == if p.listener.Some? then Some(p.config) else None))
  {
    var a := WithInfo(n, turn.info);
    SyncedCases(a, luck);
    UsersTouchUsersOnly(Synced(a, luck), turn.users, luck);
  }

  lemma SyncedCases(n: Node, luck: Luck)
    requires Paired(n)
    ensures var b := Synced(n, luck);
            && b.config == n.config
            && (Keeps(n) ==>
                  b.log == n.log && b.listener == n.listener && b.running == Some(n.config) && b.made == n.made)
            && (!Keeps(n) ==>
                  && Stopped(n).log + [Make(n.config)] <= b.log
                  && (b.listener.Some? <==> luck.make && luck.load && luck.start)
                  && (b.listener.Some? ==> b.listener.value == Listener(n.made, n.config, n.users))
                  && b.running == if b.listener.Some? then Some(n.config) else None)
  {
    assert Keeps(Refreshed(n)) == Keeps(n) && Stopped(Refreshed(n)).log == Stopped(n).log;
  }

  // ---------------------------------------------------------------- what each answer does

  /** The version the panel has comes in full: it is not the one the node asked about, or the panel sends it anyway. */
  ghost predicate Sent<T>(etag: string, answer: Answer<T>) {
    answer.Served? && (answer.full || answer.tag == "" || answer.tag != etag)
  }

  /**
    The config changes only to one that was sent and could be parsed; one that could
    not be parsed is asked for again.
   */
  lemma ConfigAfter(n: Node, turn: Turn, luck: Luck)
    ensures var p, a := Pulled(n, turn, luck), turn.info;
            if !Sent(n.etags.info, a) then p.config == n.config && p.etags.info == n.etags.info
            else if a.body.Parsable? then p.config == a.body.config && p.etags.info == a.tag
            else p.config == n.config && p.etags.info == ""
  {
    PulledContent(n, turn, luck);
  }

  /**
    The users change only to a list that was sent, or to none if the panel will not
    serve this node: an answer that never came or made no sense takes nobody away.
   */
  lemma UsersAfter(n: Node, turn: Turn, luck: Luck)
    ensures var p, a := Pulled(n, turn, luck), turn.users;
            && (if a.Unavailable? then p.users == [] && p.etags.users == ""
                else if Sent(n.etags.users, a) then p.users == Accepted(a.body) && p.etags.users == a.tag
                else p.users == n.users && p.etags.users == n.etags.users)
            && (SendsUsers(n, turn) || Tabled(n) ==> forall id :: id in p.table <==> id in Ids(p.users))
  {
    PulledContent(n, turn, luck);
    if Tabled(n) {
      PullTables(n, turn, luck);
    }
    SyncTouchesNoContent(WithInfo(n, turn.info), luck);
  }

  lemma RulesFetched(etag: string, a: Answer<seq<RuleEntry>>)
    ensures RulesFetch(etag, a)
            == if Sent(etag, a) then Fetched(a.tag, Some(Compiled(a.body))) else Fetched(etag, None)
  {
  }

  /** The rules change only to those that were sent, also if the panel will not serve this node. */
  lemma RulesAfter(n: Node, turn: Turn, luck: Luck)
    ensures var p, a := Pulled(n, turn, luck), turn.rules;
            if Sent(n.etags.rules, a) then p.rules == Some(Compiled(a.body)) && p.etags.rules == a.tag
            else p.rules == n.rules && p.etags.rules == n.etags.rules
  {
    PulledContent(n, turn, luck);
    RulesFetched(n.etags.rules, turn.rules);
  }

  /** A running listener has the list it was given last, or what a failed call left it. */
  lemma ListenerAfter(n: Node, turn: Turn, luck: Luck)
    requires Paired(n)
    ensures var p := Pulled(n, turn, luck);
            p.listener.Some? ==>
              p.listener.value.users
              == if SendsUsers(n, turn) then (if luck.update then p.users else luck.left)
                 else if LeavesListener(n, turn) then n.listener.value.users
                 else n.users
  {
    var a := WithInfo(n, turn.info);
    SyncedCases(a, luck);
    SyncTouchesNoContent(a, luck);
  }

  /** Start succeeds exactly if config and users came and the listener started, and leaves what came. */
  lemma StartsExactlyWhen(turn: Turn, luck: Luck)
    ensures Begun(turn, luck).Some? <==>
            && turn.info.Served? && turn.info.body.Parsable? && (turn.users.Served? || turn.users.Unavailable?)
            && luck.make && luck.load && luck.start
    ensures Begun(turn, luck).Some? ==>
            var n := Begun(turn, luck).value;
            && n.config == turn.info.body.config && n.running == Some(n.config)
            && n.users == (if turn.users.Served? then Accepted(turn.users.body) else [])
            && n.rules == (if turn.rules.Served? then Some(Compiled(turn.rules.body)) else None)
            && n.listener == Some(Listener(0, n.config, n.users)) && n.table == Table(n.users, n.config.speedLimit)
  {
    if Prepared(turn, luck).Some? {
      var n := Prepared(turn, luck).value;
      SyncedCases(n, luck);
      SyncTouchesNoContent(n, luck);
    }
  }

  // ---------------------------------------------------------------- convergence

  /** Nothing goes wrong in this pull. */
  ghost predicate FaultFree(turn: Turn, luck: Luck) {
    && turn.info.Served? && turn.info.body.Parsable? && turn.users.Served? && turn.rules.Served?
    && luck.make && luck.load && luck.start && luck.update
  }

  /** Config, user list, routing table and rules are the panel's. */
  ghost predicate ContentConverged(n: Node, turn: Turn)
    requires turn.info.Served? && turn.info.body.Parsable? && turn.users.Served? && turn.rules.Served?
  {
    && n.config == turn.info.body.config
    && n.users == Accepted(turn.users.body)
    && (forall id :: id in n.table <==> id in Ids(n.users))
    && n.rules == Some(Compiled(turn.rules.body))
  }

  ghost predicate ListenerConverged(n: Node, turn: Turn)
    requires turn.info.Served? && turn.info.body.Parsable? && turn.users.Served?
  {
    n.listener.Some? && n.listener.value.config.listener == turn.info.body.config.listener
    && n.listener.value.users == Accepted(turn.users.body)
  }

  /** The table serves the user list. */
  ghost predicate Tabled(n: Node) {
    n.table == Table(n.users, n.applied)
  }

  lemma PullTables(n: Node, turn: Turn, luck: Luck)
    requires Tabled(n)
    ensures Tabled(Pulled(n, turn, luck))
  {
    var a := WithInfo(n, turn.info);
    SyncTables(a, luck);
    UsersTables(Synced(a, luck), turn.users, luck);
  }

  lemma SyncTables(n: Node, luck: Luck)
    requires Tabled(n)
    ensures Tabled(Synced(n, luck))
  {
    assert Tabled(Refreshed(n));
  }

  lemma UsersTables(n: Node, answer: Answer<seq<Entry>>, luck: Luck)
    requires Tabled(n)
    ensures Tabled(WithUsers(n, answer, luck))
  {
  }

  lemma {:induction false} RunTables(rounds: seq<Round>)
    requires IsRun(rounds)
    ensures Tabled(Exec(rounds))
  {
    var k := |rounds| - 1;
    if k > 0 {
      RunTables(rounds[..k]);
      var n := Exec(rounds[..k]);
      ExecLast(rounds, k, n);
      PullTables(n, rounds[k].turn, rounds[k].luck);
    }
  }

  lemma ContentConverges(book: Book, n: Node, turn: Turn, luck: Luck)
    requires Named(book, n) && Tabled(n) && HonestTurn(book, turn) && FaultFree(turn, luck)
    ensures ContentConverged(Pulled(n, turn, luck), turn)
  {
    PulledContent(n, turn, luck);
    PullTables(n, turn, luck);
    InfoRefines(book.info, n.etags.info, turn.info, Some(n.config));
    UsersRefine(book.users, n.etags.users, turn.users, Some(n.users));
    RulesRefine(book.rules, n.etags.rules, turn.rules, n.rules);
  }

  /** The panel says whom to serve, rather than 304 or nothing of use: a list, or that it will not serve this node. */
  ghost predicate SendsUsers(n: Node, turn: Turn) {
    turn.users.Unavailable? || Sent(n.etags.users, turn.users)
  }

  /** The listener serves the users the node knows of. */
  ghost predicate Informed(n: Node) {
    n.listener.Some? ==> n.listener.value.users == n.users
  }

  lemma ListenerConverges(book: Book, n: Node, turn: Turn, luck: Luck)
    requires Named(book, n) && Tabled(n) && Paired(n) && HonestTurn(book, turn) && FaultFree(turn, luck)
    ensures var p := Pulled(n, turn, luck);
            && p.listener.Some? && p.listener.value.config.listener == turn.info.body.config.listener
            && (Informed(p) <==> SendsUsers(n, turn) || !LeavesListener(n, turn) || Informed(n))
  {
    ContentConverges(book, n, turn, luck);
    var a := WithInfo(n, turn.info);
    var b := Synced(a, luck);
    SyncTouchesNoContent(a, luck);
    assert b.listener.Some? && b.listener.value.config.listener == a.config.listener;
    assert b.listener.value.users == if LeavesListener(n, turn) then n.listener.value.users else n.users;
    UsersTouchUsersOnly(b, turn.users, luck);
  }

  /**
    One fault-free pull makes config, user list, table and rules the panel's, from any
    reachable state; the listener follows if and only if the panel sends its list, the
    listener is rebuilt, or it already served the list the node had.
   */
  lemma {:induction false} ConvergesExactlyWhen(book: Book, rounds: seq<Round>, turn: Turn, luck: Luck)
    requires IsRun(rounds) && HonestRun(book, rounds) && HonestTurn(book, turn) && FaultFree(turn, luck)
    ensures var n := Exec(rounds); var p := Pulled(n, turn, luck);
            && ContentConverged(p, turn)
            && (ListenerConverged(p, turn) <==> SendsUsers(n, turn) || !LeavesListener(n, turn) || Informed(n))
  {
    var n := Exec(rounds);
    RunNames(book, rounds);
    RunTables(rounds);
    OneListener(rounds);
    ContentConverges(book, n, turn, luck);
    ListenerConverges(book, n, turn, luck);
  }

  /** No UpdateUsers on a running listener failed. */
  ghost predicate UpdatesSucceed(n: Node, turn: Turn, luck: Luck) {
    var b := Synced(WithInfo(n, turn.info), luck);
    b.listener.Some? && UsersFetch(b.etags.users, turn.users).result.Some? ==> luck.update
  }

  ghost predicate UpdatesSucceeded(rounds: seq<Round>)
    requires IsRun(rounds)
  {
    var k := |rounds| - 1;
    k == 0 || (UpdatesSucceeded(rounds[..k]) && UpdatesSucceed(Exec(rounds[..k]), rounds[k].turn, rounds[k].luck))
  }

  lemma {:induction false} SucceededInforms(rounds: seq<Round>)
    requires IsRun(rounds) && UpdatesSucceeded(rounds)
    ensures Informed(Exec(rounds))
  {
    var k := |rounds| - 1;
    if k > 0 {
      SucceededInforms(rounds[..k]);
      var n := Exec(rounds[..k]);
      ExecLast(rounds, k, n);
      PullInforms(n, rounds[k].turn, rounds[k].luck);
    }
  }

  lemma PullInforms(n: Node, turn: Turn, luck: Luck)
    requires Informed(n) && UpdatesSucceed(n, turn, luck)
    ensures Informed(Pulled(n, turn, luck))
  {
    var a := WithInfo(n, turn.info);
    var b := Synced(a, luck);
    assert Informed(b);
    UsersTouchUsersOnly(b, turn.users, luck);
  }

  /** Convergence: unless an UpdateUsers on a running listener failed, one fault-free pull is enough. */
  lemma {:induction false} Convergence(book: Book, rounds: seq<Round>, turn: Turn, luck: Luck)
    requires IsRun(rounds) && UpdatesSucceeded(rounds)
    requires HonestRun(book, rounds) && HonestTurn(book, turn) && FaultFree(turn, luck)
    ensures ContentConverged(Pulled(Exec(rounds), turn, luck), turn)
    ensures ListenerConverged(Pulled(Exec(rounds), turn, luck), turn)
  {
    SucceededInforms(rounds);
    ConvergesExactlyWhen(book, rounds, turn, luck);
  }

  // ---------------------------------------------------------------- who routes when

  /** Whenever a listener was given a list, the table routed exactly its IDs. */
  ghost predicate InOrder(told: seq<Told>) {
    forall k | 0 <= k < |told| :: Routes(told[k])
  }

  ghost predicate Routes(t: Told) {
    forall id :: id in t.table <==> id in Ids(t.users)
  }

  lemma SyncOrders(n: Node, luck: Luck)
    requires Tabled(n) && InOrder(n.told)
    ensures InOrder(Synced(n, luck).told)
  {
    var m := Refreshed(n);
    assert Routes(Told(m.users, m.table));
  }

  lemma UsersOrder(n: Node, answer: Answer<seq<Entry>>, luck: Luck)
    requires InOrder(n.told)
    ensures InOrder(WithUsers(n, answer, luck).told)
  {
    var f := UsersFetch(n.etags.users, answer);
    if f.result.Some? {
      assert Routes(Told(f.result.value, Table(f.result.value, n.config.speedLimit)));
    }
  }

  lemma PullOrders(n: Node, turn: Turn, luck: Luck)
    requires Tabled(n) && InOrder(n.told)
    ensures InOrder(Pulled(n, turn, luck).told)
  {
    var a := WithInfo(n, turn.info);
    SyncOrders(a, luck);
    UsersOrder(Synced(a, luck), turn.users, luck);
  }

  /**
    In every run: when a listener is given a list, whether it takes it or not, every
    user of the list routes already and every other user has stopped.
   */
  lemma {:induction false} TableBeforeListener(rounds: seq<Round>)
    requires IsRun(rounds)
    ensures InOrder(Exec(rounds).told)
  {
    var k := |rounds| - 1;
    if k == 0 {
      BeginOrders(rounds[0].turn, rounds[0].luck);
    } else {
      TableBeforeListener(rounds[..k]);
      RunTables(rounds[..k]);
      var n := Exec(rounds[..k]);
      ExecLast(rounds, k, n);
      PullOrders(n, rounds[k].turn, rounds[k].luck);
    }
  }

  lemma BeginOrders(turn: Turn, luck: Luck)
    requires Begun(turn, luck).Some?
    ensures InOrder(Begun(turn, luck).value.told)
  {
    var n := Prepared(turn, luck).value;
    assert n.told == [];
    SyncOrders(n, luck);
  }

  // ---------------------------------------------------------------- speed limits

  /** The table was last updated with the node limit of now. */
  ghost predicate Agreed(n: Node) {
    n.applied == n.config.speedLimit
  }

  /** Every served user has the stricter of the node's limit and that of its last entry. */
  ghost predicate LimitsAgree(n: Node) {
    n.table == Table(n.users, n.config.speedLimit)
  }

  /** The running config has the node limit of now. */
  ghost predicate RunsNow(n: Node) {
    n.running.Some? ==> n.running.value.speedLimit == n.config.speedLimit
  }

  lemma PullRunsNow(n: Node, turn: Turn, luck: Luck)
    requires Paired(n)
    ensures RunsNow(Pulled(n, turn, luck))
  {
    var a := WithInfo(n, turn.info);
    SyncedCases(a, luck);
    UsersTouchUsersOnly(Synced(a, luck), turn.users, luck);
  }

  lemma {:induction false} RunRunsNow(rounds: seq<Round>)
    requires IsRun(rounds)
    ensures RunsNow(Exec(rounds))
  {
    var k := |rounds| - 1;
    if k == 0 {
      assert Synced(Prepared(rounds[0].turn, rounds[0].luck).value, rounds[0].luck).running.Some?;
    } else {
      OneListener(rounds[..k]);
      var n := Exec(rounds[..k]);
      ExecLast(rounds, k, n);
      PullRunsNow(n, rounds[k].turn, rounds[k].luck);
    }
  }

  /**
    When the table was last updated with the node limit of now: the panel sent its
    users; or a listener ran before and the limit changed or was right; or none ran and
    the limit is the one of the last update.
   */
  lemma AgreesExactlyWhen(n: Node, turn: Turn, luck: Luck)
    requires RunsNow(n)
    ensures var limit := WithInfo(n, turn.info).config.speedLimit;
            Agreed(Pulled(n, turn, luck)) <==>
              || SendsUsers(n, turn)
              || (if n.running.Some? then Agreed(n) || limit != n.config.speedLimit else limit == n.applied)
  {
    PullApplies(n, turn, luck);
    PulledContent(n, turn, luck);
  }

  /** The two node limits come to the same for every user of the list. */
  ghost predicate SameLimits(users: seq<User>, was: nat, now: nat) {
    forall id | id in Ids(users) ::
      EffectiveLimit(was, LastLimit(users, id)) == EffectiveLimit(now, LastLimit(users, id))
  }

  lemma SameTable(users: seq<User>, was: nat, now: nat)
    ensures Table(users, was) == Table(users, now) <==> SameLimits(users, was, now)
  {
    var t, t' := Table(users, was), Table(users, now);
    if SameLimits(users, was, now) {
      assert t.Keys == t'.Keys;
      assert forall id | id in t :: t[id] == t'[id];
    } else {
      var id :| id in Ids(users)
        && EffectiveLimit(was, LastLimit(users, id)) != EffectiveLimit(now, LastLimit(users, id));
      assert t[id] != t'[id];
    }
  }

  /** This pull updates the table: with the users the panel sends, or because the limit changed under a listener. */
  ghost predicate Touches(n: Node, turn: Turn) {
    var limit := WithInfo(n, turn.info).config.speedLimit;
    SendsUsers(n, turn) || (n.running.Some? && limit != n.running.value.speedLimit)
  }

  lemma PullApplies(n: Node, turn: Turn, luck: Luck)
    ensures var p := Pulled(n, turn, luck);
            p.applied == if Touches(n, turn) then p.config.speedLimit else n.applied
    ensures !SendsUsers(n, turn) ==> Pulled(n, turn, luck).users == n.users
  {
    var a := WithInfo(n, turn.info);
    var b := Synced(a, luck);
    SyncTouchesNoContent(a, luck);
    assert b.applied == if Refreshes(a) then a.config.speedLimit else n.applied;
    UsersTouchUsersOnly(b, turn.users, luck);
  }

  /**
    Exactly when every user is served with the limit the panel asks for after a pull:
    the pull updates the table, or the node limit it was last updated with comes to
    the same for every user.
   */
  lemma {:induction false} LimitsAgreeExactlyWhen(rounds: seq<Round>, turn: Turn, luck: Luck)
    requires IsRun(rounds)
    ensures var n := Exec(rounds);
            LimitsAgree(Pulled(n, turn, luck)) <==>
              Touches(n, turn) || SameLimits(n.users, n.applied, WithInfo(n, turn.info).config.speedLimit)
  {
    var n := Exec(rounds);
    var p := Pulled(n, turn, luck);
    RunTables(rounds);
    PullTables(n, turn, luck);
    PullApplies(n, turn, luck);
    PulledContent(n, turn, luck);
    SameTable(p.users, p.applied, p.config.speedLimit);
  }

  /** The node limit as of the last round that updated the table. */
  ghost function LastTaken(rounds: seq<Round>): nat
    requires IsRun(rounds)
  {
    var k := |rounds| - 1;
    if k == 0 || Touches(Exec(rounds[..k]), rounds[k].turn)
      then Exec(rounds).config.speedLimit else LastTaken(rounds[..k])
  }

  lemma BeginApplies(turn: Turn, luck: Luck)
    requires Begun(turn, luck).Some?
    ensures Begun(turn, luck).value.applied == Begun(turn, luck).value.config.speedLimit
  {
    SyncTouchesNoContent(Prepared(turn, luck).value, luck);
  }

  lemma {:induction false} AppliedIsLastTaken(rounds: seq<Round>)
    requires IsRun(rounds)
    ensures Exec(rounds).applied == LastTaken(rounds)
  {
    var k := |rounds| - 1;
    if k == 0 {
      BeginApplies(rounds[0].turn, rounds[0].luck);
    } else {
      AppliedIsLastTaken(rounds[..k]);
      var n := Exec(rounds[..k]);
      ExecLast(rounds, k, n);
      PullApplies(n, rounds[k].turn, rounds[k].luck);
    }
  }

  /**
    Over any run: the limits agree if and only if the node limits of now and of the last
    such round come to the same.
   */
  lemma {:induction false} LimitsAgreeInRuns(rounds: seq<Round>)
    requires IsRun(rounds)
    ensures var n := Exec(rounds);
            LimitsAgree(n) <==> SameLimits(n.users, LastTaken(rounds), n.config.speedLimit)
  {
    var n := Exec(rounds);
    RunTables(rounds);
    AppliedIsLastTaken(rounds);
    SameTable(n.users, n.applied, n.config.speedLimit);
  }

  /** The node limit does not change in this pull while no listener runs, unless the users come with it. */
  ghost predicate Calm(n: Node, turn: Turn) {
    n.running.Some? || WithInfo(n, turn.info).config.speedLimit == n.config.speedLimit || SendsUsers(n, turn)
  }

  ghost predicate CalmRun(rounds: seq<Round>)
    requires IsRun(rounds)
  {
    var k := |rounds| - 1;
    k == 0 || (CalmRun(rounds[..k]) && Calm(Exec(rounds[..k]), rounds[k].turn))
  }

  lemma {:induction false} CalmRunsAgree(rounds: seq<Round>)
    requires IsRun(rounds) && CalmRun(rounds)
    ensures Agreed(Exec(rounds))
  {
    var k := |rounds| - 1;
    if k > 0 {
      CalmRunsAgree(rounds[..k]);
      RunRunsNow(rounds[..k]);
      var n := Exec(rounds[..k]);
      ExecLast(rounds, k, n);
      AgreesExactlyWhen(n, rounds[k].turn, rounds[k].luck);
    }
  }

  /** Speed limits: after every pull of a calm run, every user is served with the limit the panel asks for. */
  lemma {:induction false} SpeedLimitsAgree(rounds: seq<Round>)
    requires IsRun(rounds) && CalmRun(rounds)
    ensures LimitsAgree(Exec(rounds))
  {
    CalmRunsAgree(rounds);
    RunTables(rounds);
  }
}
