/**
  What a run of the ledger did, read off its steps.

  The definitions of the first part look at the steps alone, not at the states the
  machine goes through; the lemmas after it say that the machine's states are these.
 */
module History {
  import opened Ledger
  import opened LedgerInvariant
  import opened Conservation

  // ---------------------------------------------------------------- the steps

  /** The users the connections of a run are of, in the order in which they looked them up. */
  ghost function Lookups(steps: seq<Step>): seq<int> {
    if |steps| == 0 then []
    else Lookups(Front(steps)) + (if Last(steps).Lookup? then [Last(steps).id] else [])
  }

  /** What one step counts for user `id`, where `users` are those of the connections so far. */
  ghost function CountOf(users: seq<int>, s: Step, id: int, dir: Direction): nat {
    if s.Count? && s.conn < |users| && users[s.conn] == id then (if dir.Up? then s.up else s.down) else 0
  }

  /** Every byte the connections of user `id` counted. */
  ghost function CountedBy(steps: seq<Step>, id: int, dir: Direction): nat {
    if |steps| == 0 then 0
    else CountedBy(Front(steps), id, dir) + CountOf(Lookups(Front(steps)), Last(steps), id, dir)
  }

  /** What became of the `k`-th connection. */
  ghost function PhaseOf(steps: seq<Step>, k: nat): ConnPhase {
    if |steps| == 0 then LookedUp
    else if Last(steps) == OpenConn(k) then Open
    else if Last(steps) == CloseConn(k) then Closed
    else PhaseOf(Front(steps), k)
  }

  /** The list of the last update. */
  ghost function ListOf(steps: seq<Step>): seq<int> {
    if |steps| == 0 then []
    else if Last(steps).Publish? then Last(steps).ids
    else ListOf(Front(steps))
  }

  // ---------------------------------------------------------------- connections

  /** Each connection holds a state of the user it looked up. */
  ghost predicate Holds(w: World, users: seq<int>) {
    && |w.conns| == |users|
    && forall k | 0 <= k < |w.conns| :: w.conns[k].cell < |w.cells| && w.cells[w.conns[k].cell].id == users[k]
  }

  lemma NamesStay(w: World, s: Step)
    requires Inv(w) && Enabled(w, s)
    ensures |w.cells| <= |Apply(w, s).cells|
    ensures forall r | 0 <= r < |w.cells| :: Apply(w, s).cells[r].id == w.cells[r].id
  {
  }

  lemma ConnsStay(w: World, s: Step)
    requires Inv(w) && Enabled(w, s)
    ensures |Apply(w, s).conns| == |w.conns| + (if s.Lookup? then 1 else 0)
    ensures forall k | 0 <= k < |w.conns| :: Apply(w, s).conns[k].cell == w.conns[k].cell
    ensures forall k | 0 <= k < |w.conns| ::
              Apply(w, s).conns[k].phase
              == if s == OpenConn(k) then Open else if s == CloseConn(k) then Closed else w.conns[k].phase
    ensures s.Lookup? ==> Apply(w, s).conns[|w.conns|] == Conn(w.current[s.id], LookedUp)
  {
  }

  lemma {:induction false} RunHolds(steps: seq<Step>)
    requires IsRun(steps)
    ensures Holds(Exec(steps), Lookups(steps))
    decreases |steps|
  {
    if |steps| > 0 {
      RunHolds(Front(steps));
      RunKeepsInv(Front(steps));
      NamesStay(Exec(Front(steps)), Last(steps));
      ConnsStay(Exec(Front(steps)), Last(steps));
    }
  }

  /** A connection is open from its open to its close, in every run. */
  lemma {:induction false} PhasesAre(steps: seq<Step>, k: nat)
    requires IsRun(steps) && k < |Lookups(steps)|
    ensures |Exec(steps).conns| == |Lookups(steps)| && Exec(steps).conns[k].phase == PhaseOf(steps, k)
    decreases |steps|
  {
    RunHolds(steps);
    var front, s := Front(steps), Last(steps);
    RunHolds(front);
    RunKeepsInv(front);
    ConnsStay(Exec(front), s);
    if k < |Lookups(front)| {
      PhasesAre(front, k);
    } else {
      NotYet(front, k);
    }
  }

  lemma {:induction false} NotYet(steps: seq<Step>, k: nat)
    requires IsRun(steps) && |Lookups(steps)| <= k
    ensures PhaseOf(steps, k) == LookedUp
    decreases |steps|
  {
    if |steps| > 0 {
      RunHolds(Front(steps));
      NotYet(Front(steps), k);
    }
  }

  /** A connection keeps the state that served its user when it looked it up. */
  lemma {:induction false} ConnKeepsState(steps: seq<Step>, i: nat)
    requires IsRun(steps) && i < |steps| && steps[i].Lookup?
    ensures IsRun(steps[..i])
    ensures var k := |Exec(steps[..i]).conns|;
            && k < |Exec(steps).conns| && steps[i].id in Exec(steps[..i]).current
            && Exec(steps).conns[k].cell == Exec(steps[..i]).current[steps[i].id]
    decreases |steps|
  {
    var front, s := Front(steps), Last(steps);
    RunKeepsInv(front);
    ConnsStay(Exec(front), s);
    if i < |steps| - 1 {
      assert front[..i] == steps[..i];
      ConnKeepsState(front, i);
    } else {
      assert front == steps[..i];
    }
  }

  // ---------------------------------------------------------------- bytes

  lemma CountStep(w: World, s: Step, users: seq<int>, id: int, dir: Direction)
    requires Inv(w) && Enabled(w, s) && Holds(w, users)
    ensures Total(Apply(w, s).counted, id, dir) == Total(w.counted, id, dir) + CountOf(users, s, id, dir)
  {
    if s.Count? {
      TotalSnoc(w.counted, Traffic(users[s.conn], s.up, s.down), id, dir);
    }
  }

  /** The ledger's `counted` is what the connections of a run counted, each for the user it looked up. */
  lemma {:induction false} CountedIsCounted(steps: seq<Step>, id: int, dir: Direction)
    requires IsRun(steps)
    ensures Total(Exec(steps).counted, id, dir) == CountedBy(steps, id, dir)
    decreases |steps|
  {
    if |steps| > 0 {
      CountedIsCounted(Front(steps), id, dir);
      RunHolds(Front(steps));
      RunKeepsInv(Front(steps));
      CountStep(Exec(Front(steps)), Last(steps), Lookups(Front(steps)), id, dir);
    }
  }

  /** Every byte of user `id` in the batches the panel acknowledged, each as it was when its report came back. */
  ghost function DeliveredBy(steps: seq<Step>, id: int, dir: Direction): nat
    requires IsRun(steps)
    decreases |steps|
  {
    if |steps| == 0 then 0
    else
      DeliveredBy(Front(steps), id, dir)
      + (if Last(steps).Acknowledge? then Total(Exec(Front(steps)).push.items, id, dir) else 0)
  }

  lemma AckStep(w: World, s: Step, id: int, dir: Direction)
    requires Enabled(w, s)
    ensures Total(Apply(w, s).acked, id, dir)
            == Total(w.acked, id, dir) + (if s.Acknowledge? then Total(w.push.items, id, dir) else 0)
  {
    if s.Acknowledge? {
      TotalConcat(w.acked, w.push.items, id, dir);
    }
  }

  /** And `acked` is what the panel acknowledged: a report that failed adds nothing. */
  lemma {:induction false} AckedIsDelivered(steps: seq<Step>, id: int, dir: Direction)
    requires IsRun(steps)
    ensures Total(Exec(steps).acked, id, dir) == DeliveredBy(steps, id, dir)
    decreases |steps|
  {
    if |steps| > 0 {
      AckedIsDelivered(Front(steps), id, dir);
      AckStep(Exec(Front(steps)), Last(steps), id, dir);
    }
  }

  /**
    The balance of a run: what the connections of a user counted was delivered, is in
    the batch under way, is in the counters of a state the table tracks, or came late.
   */
  lemma {:induction false} BalanceOfARun(steps: seq<Step>, id: int, dir: Direction)
    requires IsRun(steps)
    ensures CountedBy(steps, id, dir)
            == DeliveredBy(steps, id, dir) + Total(Exec(steps).push.Holding(), id, dir)
               + Held(Exec(steps).cells, Tracked(Exec(steps)), id, dir) + LateBytes(steps, id, dir)
    ensures TimelyRun(steps) ==> LateBytes(steps, id, dir) == 0
  {
    CountedIsCounted(steps, id, dir);
    AckedIsDelivered(steps, id, dir);
    EveryByteAccounted(steps, id, dir);
    LostIsLate(steps, id, dir);
    if TimelyRun(steps) {
      TimelyRunsLoseNothing(steps);
      TotalOfEmpty(Exec(steps).lost, id, dir);
    }
  }

  // ---------------------------------------------------------------- users

  lemma ServeStep(w: World, s: Step, id: int)
    requires Enabled(w, s)
    ensures id in Apply(w, s).current <==> if s.Publish? then id in s.ids else id in w.current
  {
  }

  /** In every run exactly the users of the last list are served. */
  lemma {:induction false} ServedIsLastList(steps: seq<Step>, id: int)
    requires IsRun(steps)
    ensures id in Exec(steps).current <==> id in ListOf(steps)
    decreases |steps|
  {
    if |steps| > 0 {
      ServedIsLastList(Front(steps), id);
      ServeStep(Exec(Front(steps)), Last(steps), id);
    }
  }

  // ---------------------------------------------------------------- reports

  /** No item taken so far is empty, until restoring halves one. */
  ghost predicate Worth(p: Push) {
    (p.Served? || p.ServedHalf? || p.LockHeld() || p.Reporting? || p.Restoring? || p.Finding? || p.Adding?) ==>
      forall k | 0 <= k < |p.items| :: !p.items[k].Empty()
  }

  /** The same of the items behind the one that is being put back. */
  ghost predicate WorthBehind(p: Push) {
    p.AddingDown? ==> forall k | 1 <= k < |p.items| :: !p.items[k].Empty()
  }

  lemma WorthStep(w: World, s: Step)
    requires Enabled(w, s) && Worth(w.push) && WorthBehind(w.push)
    ensures Worth(Apply(w, s).push) && WorthBehind(Apply(w, s).push)
  {
  }

  /** In every run: a report has an item, and no item of it is empty. */
  lemma {:induction false} ReportsAreWorth(steps: seq<Step>)
    requires IsRun(steps)
    ensures Worth(Exec(steps).push) && WorthBehind(Exec(steps).push)
    ensures Exec(steps).push.Reporting? ==> Exec(steps).push.items != []
    decreases |steps|
  {
    RunKeepsInv(steps);
    if |steps| > 0 {
      ReportsAreWorth(Front(steps));
      WorthStep(Exec(Front(steps)), Last(steps));
    }
  }
}
