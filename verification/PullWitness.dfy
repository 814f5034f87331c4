/** Runs of the pull loop that do not converge, for as long as the panel stays as it is. */
module PullWitness {
  import opened Common
  import opened Accounts
  import opened Panel
  import opened Pull
  import opened PullProperties

  const Good: Luck := Luck(true, true, true, true, [])

  function Times(round: Round, n: nat): (r: seq<Round>)
    ensures |r| == n && forall k | 0 <= k < n :: r[k] == round
  {
    seq(n, k => round)
  }

  lemma ExecAgain(rounds: seq<Round>, round: Round, n: nat)
    requires IsRun(rounds) && n > 0
    ensures IsRun(rounds + Times(round, n)) && IsRun(rounds + Times(round, n - 1))
    ensures Exec(rounds + Times(round, n)) == Pulled(Exec(rounds + Times(round, n - 1)), round.turn, round.luck)
  {
    var more, less := rounds + Times(round, n), rounds + Times(round, n - 1);
    assert more[..|more| - 1] == less && more[|more| - 1] == round && more[0] == rounds[0] == less[0];
    ExecLast(more, |more| - 1, Exec(less));
  }

  lemma ExecTwo(a: Round, b: Round)
    requires IsRun([a])
    ensures IsRun([a, b]) && Exec([a, b]) == Pulled(Begun(a.turn, a.luck).value, b.turn, b.luck)
  {
    assert [a, b][..1] == [a];
    ExecLast([a, b], 1, Exec([a]));
  }

  // ---------------------------------------------------------------- users a listener never learns of

  /** A panel that has `config` and `entries` under these ETags. */
  function Answers(config: NodeConfig, info: string, entries: seq<Entry>, tag: string): Turn
  {
    Turn(Served(Parsable(config), info, false), Served(entries, tag, false), Served([], "r", false))
  }

  /** The listener serves the old list, the node knows the new one, and the panel will say 304. */
  ghost predicate Stuck(n: Node, config: NodeConfig, was: seq<Entry>, entries: seq<Entry>) {
    && n.etags == ETags("i", "b", "r") && n.config == config && n.running == Some(config)
    && n.listener.Some? && n.listener.value.users == Accepted(was) && n.users == Accepted(entries)
  }

  lemma StuckStart(config: NodeConfig, was: seq<Entry>)
    ensures var n := Begun(Answers(config, "i", was, "a"), Good);
            && n.Some? && n.value.etags == ETags("i", "a", "r") && n.value.config == config
            && n.value.running == Some(config)
            && n.value.listener == Some(Listener(0, config, Accepted(was)))
  {
  }

  lemma StuckUpdate(n: Node, config: NodeConfig, was: seq<Entry>, entries: seq<Entry>, luck: Luck)
    requires n.etags == ETags("i", "a", "r") && n.config == config && n.running == Some(config)
    requires n.listener.Some? && n.listener.value.users == Accepted(was)
    requires luck == Good.(update := false, left := Accepted(was))
    ensures Stuck(Pulled(n, Answers(config, "i", entries, "b"), luck), config, was, entries)
  {
    var turn := Answers(config, "i", entries, "b");
    var b := Synced(WithInfo(n, turn.info), luck);
    assert b.listener == n.listener && b.etags == n.etags;
  }

  lemma StuckPull(n: Node, config: NodeConfig, was: seq<Entry>, entries: seq<Entry>)
    requires Stuck(n, config, was, entries)
    ensures Stuck(Pulled(n, Answers(config, "i", entries, "b"), Good), config, was, entries)
  {
    var turn := Answers(config, "i", entries, "b");
    var b := Synced(WithInfo(n, turn.info), Good);
    assert b.listener == n.listener && b.etags == n.etags;
  }

  /** A node that starts with one list and whose listener then fails to take the next one. */
  function StuckRun(config: NodeConfig, was: seq<Entry>, entries: seq<Entry>): seq<Round> {
    [Round(Answers(config, "i", was, "a"), Good),
      Round(Answers(config, "i", entries, "b"), Good.(update := false, left := Accepted(was)))]
  }

  /** Its panel keeps to the rules: equal ETags mean equal content. */
  function StuckBook(config: NodeConfig, was: seq<Entry>, entries: seq<Entry>): Book {
    Book(tag => Parsable(config), tag => if tag == "a" then was else entries, tag => [])
  }

  lemma StuckIsHonest(config: NodeConfig, was: seq<Entry>, entries: seq<Entry>, n: nat)
    ensures HonestRun(StuckBook(config, was, entries),
                      StuckRun(config, was, entries) + Times(Round(Answers(config, "i", entries, "b"), Good), n))
  {
  }

  /**
    One failed UpdateUsers is never retried: however many fault-free pulls follow, the
    listener keeps serving the old list.
   */
  lemma {:induction false} FailedUpdateSticks(config: NodeConfig, was: seq<Entry>, entries: seq<Entry>, n: nat)
    ensures var turn := Answers(config, "i", entries, "b");
            var rounds := StuckRun(config, was, entries) + Times(Round(turn, Good), n);
            && FaultFree(turn, Good) && IsRun(rounds) && Stuck(Exec(rounds), config, was, entries)
            && (Accepted(was) != Accepted(entries) ==> !ListenerConverged(Exec(rounds), turn))
            && HonestRun(StuckBook(config, was, entries), rounds)
  {
    StuckIsHonest(config, was, entries, n);
    var turn := Answers(config, "i", entries, "b");
    var start := StuckRun(config, was, entries);
    StuckStart(config, was);
    ExecTwo(start[0], start[1]);
    if n == 0 {
      StuckUpdate(Begun(start[0].turn, Good).value, config, was, entries, start[1].luck);
      assert start + Times(Round(turn, Good), 0) == start;
    } else {
      FailedUpdateSticks(config, was, entries, n - 1);
      ExecAgain(start, Round(turn, Good), n);
      StuckPull(Exec(start + Times(Round(turn, Good), n - 1)), config, was, entries);
    }
  }

  // ---------------------------------------------------------------- a limit the table never gets

  /** The listener runs with limit `now`, the table still has limit `was`. */
  ghost predicate Stale(n: Node, entries: seq<Entry>, was: nat, now: nat) {
    && n.etags == ETags("c", "a", "r") && n.config == NodeConfig("y", now) && n.running == Some(n.config)
    && n.listener.Some?
    && n.users == Accepted(entries) && n.applied == was && n.table == Table(n.users, was)
  }

  lemma StalePull(n: Node, entries: seq<Entry>, was: nat, now: nat)
    requires Stale(n, entries, was, now)
    ensures Stale(Pulled(n, Answers(NodeConfig("y", now), "c", entries, "a"), Good), entries, was, now)
  {
    var turn := Answers(NodeConfig("y", now), "c", entries, "a");
    var b := Synced(WithInfo(n, turn.info), Good);
    assert b.listener == n.listener && b.etags == n.etags;
  }

  /** The new listener cannot be made. */
  ghost predicate Down(n: Node, entries: seq<Entry>, was: nat) {
    && n.etags == ETags("b", "a", "r") && n.config == NodeConfig("y", was) && n.running.None? && n.listener.None?
    && n.users == Accepted(entries) && n.applied == was && n.table == Table(n.users, was)
  }

  lemma GoesDown(entries: seq<Entry>, was: nat)
    ensures var start := Round(Answers(NodeConfig("x", was), "i", entries, "a"), Good);
            var down := Round(Answers(NodeConfig("y", was), "b", entries, "a"), Good.(make := false));
            IsRun([start, down]) && Down(Exec([start, down]), entries, was)
  {
    var config := NodeConfig("x", was);
    var start := Round(Answers(config, "i", entries, "a"), Good);
    var down := Round(Answers(NodeConfig("y", was), "b", entries, "a"), Good.(make := false));
    StuckStart(config, entries);
    var n := Begun(start.turn, Good).value;
    assert n.users == Accepted(entries) && n.applied == was && n.table == Table(n.users, was);
    ExecTwo(start, down);
    DownPull(n, entries, was, down.turn, down.luck);
  }

  lemma DownPull(n: Node, entries: seq<Entry>, was: nat, turn: Turn, luck: Luck)
    requires n.etags == ETags("i", "a", "r") && n.config == NodeConfig("x", was) && n.running == Some(n.config)
    requires n.listener.Some?
    requires n.users == Accepted(entries) && n.applied == was && n.table == Table(n.users, was)
    requires turn == Answers(NodeConfig("y", was), "b", entries, "a") && luck == Good.(make := false)
    ensures Down(Pulled(n, turn, luck), entries, was)
  {
    var a := WithInfo(n, turn.info);
    assert !Refreshes(a) && !Keeps(a);
    var b := Synced(a, luck);
    assert b.listener.None? && b.running.None? && b.users == n.users && b.table == n.table && b.applied == n.applied;
  }

  lemma ComesUp(n: Node, entries: seq<Entry>, was: nat, now: nat)
    requires Down(n, entries, was)
    ensures Stale(Pulled(n, Answers(NodeConfig("y", now), "c", entries, "a"), Good), entries, was, now)
  {
    var turn := Answers(NodeConfig("y", now), "c", entries, "a");
    var b := Synced(WithInfo(n, turn.info), Good);
    assert b.listener.Some? && b.table == n.table;
  }

  function StaleConfig(tag: string, was: nat, now: nat): NodeConfig {
    if tag == "i" then NodeConfig("x", was) else if tag == "b" then NodeConfig("y", was) else NodeConfig("y", now)
  }

  function StaleRun(entries: seq<Entry>, was: nat): seq<Round> {
    [Round(Answers(NodeConfig("x", was), "i", entries, "a"), Good),
     Round(Answers(NodeConfig("y", was), "b", entries, "a"), Good.(make := false))]
  }

  function StaleBook(entries: seq<Entry>, was: nat, now: nat): Book {
    Book(tag => Parsable(StaleConfig(tag, was, now)), tag => entries, tag => [])
  }

  lemma StaleIsHonest(entries: seq<Entry>, was: nat, now: nat, n: nat)
    ensures HonestRun(StaleBook(entries, was, now),
                      StaleRun(entries, was) + Times(Round(Answers(NodeConfig("y", now), "c", entries, "a"), Good), n))
  {
  }

  /**
    A limit that changes while no listener runs does not reach the table, and no
    number of fault-free pulls brings it there.
   */
  lemma {:induction false} SkippedLimitSticks(entries: seq<Entry>, was: nat, now: nat, n: nat)
    ensures var turn := Answers(NodeConfig("y", now), "c", entries, "a");
            var rounds := StaleRun(entries, was) + Times(Round(turn, Good), n + 1);
            && FaultFree(turn, Good) && IsRun(rounds) && Stale(Exec(rounds), entries, was, now)
            && HonestRun(StaleBook(entries, was, now), rounds)
  {
    StaleIsHonest(entries, was, now, n + 1);
    var turn := Answers(NodeConfig("y", now), "c", entries, "a");
    var start := StaleRun(entries, was);
    GoesDown(entries, was);
    ExecAgain(start, Round(turn, Good), n + 1);
    if n == 0 {
      assert start + Times(Round(turn, Good), 0) == start;
      ComesUp(Exec(start), entries, was, now);
    } else {
      SkippedLimitSticks(entries, was, now, n - 1);
      StalePull(Exec(start + Times(Round(turn, Good), n)), entries, was, now);
    }
  }

  /** A user without a limit of its own is then served with the old one. */
  lemma StaleLimitIsWrong(n: Node, was: nat, now: nat)
    requires was != now && Stale(n, [Entry(1, 0, "")], was, now)
    ensures !LimitsAgree(n) && n.table[1] == was
  {
    var users := n.users;
    assert users == [User(1, 0, "")];
    assert Ids(users)[0] == 1;
    assert 1 in Ids(users) && LastLimit(users, 1) == 0;
    assert Table(users, was)[1] == was && Table(users, now)[1] == now;
  }
}
