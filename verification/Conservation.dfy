/**
  No byte is created or destroyed, whatever the interleaving.

  `Law` accounts for every byte a connection counted.  The bytes in `lost` are the
  ones no later report can carry; `Conservation` and `ExactlyWhenConserved` say
  when there are none.
 */
module Conservation {
  import opened Ledger
  import opened LedgerInvariant

  // ---------------------------------------------------------------- runs

  /** A finite interleaving of the goroutines, from the start of the node. */
  ghost predicate IsRun(steps: seq<Step>)
    decreases |steps|, 0
  {
    |steps| == 0 || (IsRun(Front(steps)) && Enabled(Exec(Front(steps)), Last(steps)))
  }

  ghost function Exec(steps: seq<Step>): World
    requires IsRun(steps)
    decreases |steps|, 1
  {
    if |steps| == 0 then Init else Apply(Exec(Front(steps)), Last(steps))
  }

  /** The invariant holds in every reachable state. */
  lemma {:induction false} RunKeepsInv(steps: seq<Step>)
    requires IsRun(steps)
    ensures Inv(Exec(steps))
    decreases |steps|
  {
    if |steps| > 0 {
      RunKeepsInv(Front(steps));
      StepKeeps(Exec(Front(steps)), Last(steps));
    }
  }

  ghost function Front(steps: seq<Step>): seq<Step>
    requires |steps| > 0
  {
    steps[..|steps| - 1]
  }

  ghost function Last(steps: seq<Step>): Step
    requires |steps| > 0
  {
    steps[|steps| - 1]
  }

  lemma RunSnoc(steps: seq<Step>, s: Step)
    requires IsRun(steps) && Enabled(Exec(steps), s)
    ensures IsRun(steps + [s]) && Exec(steps + [s]) == Apply(Exec(steps), s)
  {
    assert Front(steps + [s]) == steps;
  }

  // ---------------------------------------------------------------- the law

  /** Bytes counted are acknowledged, in flight, still in a tracked state, or lost. */
  ghost predicate Law(w: World, id: int, dir: Direction) {
    Total(w.counted, id, dir)
    == Total(w.acked, id, dir) + Total(w.push.Holding(), id, dir) + Held(w.cells, Tracked(w), id, dir)
       + Total(w.lost, id, dir)
  }

  lemma HeldSame(a: seq<Cell>, ta: set<nat>, b: seq<Cell>, tb: set<nat>, id: int, dir: Direction)
    requires |a| == |b|
    requires forall i | 0 <= i < |a| :: Part(a, ta, i, id, dir) == Part(b, tb, i, id, dir)
    ensures Held(a, ta, id, dir) == Held(b, tb, id, dir)
  {
    HeldDiffersAt(a, ta, b, tb, |a|, |a|, id, dir);
  }

  /** A step that changes no counter, no log and not what is in flight. */
  lemma SameLaw(w: World, w': World, id: int, dir: Direction)
    requires Law(w, id, dir)
    requires w'.counted == w.counted && w'.acked == w.acked && w'.lost == w.lost
    requires w'.push.Holding() == w.push.Holding()
    requires |w'.cells| == |w.cells| && Tracked(w') == Tracked(w)
    requires forall i | 0 <= i < |w.cells| ::
               w'.cells[i].id == w.cells[i].id && w'.cells[i].upload == w.cells[i].upload
                 && w'.cells[i].download == w.cells[i].download
    ensures Law(w', id, dir)
  {
    HeldSame(w.cells, Tracked(w), w'.cells, Tracked(w'), id, dir);
  }

  lemma PullLaw(w: World, s: Step, id: int, dir: Direction)
    requires Inv(w) && Enabled(w, s) && Law(w, id, dir)
    requires s.Publish? || s.Retire?
    ensures Law(Apply(w, s), id, dir)
  {
    match s
    case Publish(ids, order) =>
      PublishKeeps(w, ids, order);
      TrackedBounded(w);
      HeldGrows(w.cells, FreshCells(w.current, ids), Tracked(w), Tracked(DoPublish(w, ids, order)), id, dir);
    case Retire =>
      RetireKeeps(w);
      SameLaw(w, DoRetire(w), id, dir);
  }

  lemma CreditHeld(cells: seq<Cell>, tracked: set<nat>, r: nat, up: nat, down: nat, id: int, dir: Direction)
    requires r < |cells|
    ensures var c := cells[r];
            Held(cells[r := c.(upload := c.upload + up, download := c.download + down)], tracked, id, dir)
            == Held(cells, tracked, id, dir) + (if r in tracked then Share(Traffic(c.id, up, down), id, dir) else 0)
  {
    var c := cells[r];
    HeldUpdate(cells, tracked, r, c.(upload := c.upload + up, download := c.download + down), id, dir);
  }

  lemma CountSinceHolds(p: Push, r: nat, up: nat, down: nat)
    ensures CountSince(p, r, up, down).Holding() == p.Holding()
    ensures CountSince(p, r, up, down).Undecided() == p.Undecided()
  {
  }

  lemma CountStaysPut(w: World, c: nat, up: nat, down: nat)
    requires Enabled(w, Count(c, up, down))
    ensures var w' := DoCount(w, c, up, down);
            w'.push.Holding() == w.push.Holding() && Tracked(w') == Tracked(w) && w'.acked == w.acked
  {
    CountSinceHolds(w.push, w.conns[c].cell, up, down);
  }

  /** What a step adds to the counters it adds to the log of counted bytes, or else to the log of lost ones. */
  lemma CreditLaw(w: World, w': World, share: nat, late: bool, id: int, dir: Direction)
    requires Law(w, id, dir) && w'.acked == w.acked && w'.push.Holding() == w.push.Holding()
    requires Total(w'.counted, id, dir) == Total(w.counted, id, dir) + share
    requires Total(w'.lost, id, dir) == Total(w.lost, id, dir) + (if late then share else 0)
    requires Held(w'.cells, Tracked(w'), id, dir) == Held(w.cells, Tracked(w), id, dir) + (if late then 0 else share)
    ensures Law(w', id, dir)
  {
  }

  lemma CountLaw(w: World, c: nat, up: nat, down: nat, id: int, dir: Direction)
    requires Enabled(w, Count(c, up, down)) && Law(w, id, dir)
    ensures Law(DoCount(w, c, up, down), id, dir)
  {
    var w' := DoCount(w, c, up, down);
    var r := w.conns[c].cell;
    var t := Traffic(w.cells[r].id, up, down);
    CountStaysPut(w, c, up, down);
    CountLogs(w, c, up, down, id, dir);
    CreditHeld(w.cells, Tracked(w), r, up, down, id, dir);
    CreditLaw(w, w', Share(t, id, dir), r !in Tracked(w), id, dir);
  }

  lemma CountLogs(w: World, c: nat, up: nat, down: nat, id: int, dir: Direction)
    requires Enabled(w, Count(c, up, down))
    ensures var w', r := DoCount(w, c, up, down), w.conns[c].cell;
            var share := Share(Traffic(w.cells[r].id, up, down), id, dir);
            && Total(w'.counted, id, dir) == Total(w.counted, id, dir) + share
            && Total(w'.lost, id, dir) == Total(w.lost, id, dir) + (if r in Tracked(w) then 0 else share)
  {
    var t := Traffic(w.cells[w.conns[c].cell].id, up, down);
    TotalSnoc(w.counted, t, id, dir);
    TotalSnoc(w.lost, t, id, dir);
  }

  lemma ConnLaw(w: World, s: Step, id: int, dir: Direction)
    requires Inv(w) && Enabled(w, s) && Law(w, id, dir)
    requires s.Lookup? || s.OpenConn? || s.Count? || s.CloseConn?
    ensures Law(Apply(w, s), id, dir)
  {
    match s
    case Lookup(user) =>
      LookupKeeps(w, user);
      SameLaw(w, DoLookup(w, user), id, dir);
    case OpenConn(c) =>
      OpenKeeps(w, c);
      SameLaw(w, DoOpen(w, c), id, dir);
    case CloseConn(c) =>
      CloseKeeps(w, c);
      SameLaw(w, DoClose(w, c), id, dir);
    case Count(c, up, down) =>
      CountLaw(w, c, up, down, id, dir);
  }

  /** The push goroutine moves bytes between the counters of `r` and what it holds. */
  lemma MoveLaw(w: World, w': World, r: nat, id: int, dir: Direction)
    requires Inv(w) && Law(w, id, dir)
    requires r in Tracked(w) && r < |w.cells| && r < |w'.cells|
    requires w' == w.(cells := w.cells[r := w'.cells[r]], push := w'.push)
    requires Tracked(w') == Tracked(w) && w'.cells[r].id == w.cells[r].id
    requires w.cells[r].id == id ==>
               Total(w.push.Holding(), id, dir) + w.cells[r].Bytes(dir)
                 == Total(w'.push.Holding(), id, dir) + w'.cells[r].Bytes(dir)
    requires w.cells[r].id != id ==> Total(w.push.Holding(), id, dir) == Total(w'.push.Holding(), id, dir)
    ensures Law(w', id, dir)
  {
    HeldUpdate(w.cells, Tracked(w), r, w'.cells[r], id, dir);
  }

  lemma AppendTotal(items: seq<Traffic>, t: Traffic, id: int, dir: Direction)
    ensures Total(Append(items, t), id, dir) == Total(items, id, dir) + Share(t, id, dir)
  {
    TotalSnoc(items, t, id, dir);
  }

  lemma SwapUpLaw(w: World, id: int, dir: Direction)
    requires Inv(w) && Enabled(w, SwapUp) && Law(w, id, dir)
    ensures Law(DoSwapUp(w), id, dir)
  {
    SwapUpKeeps(w);
    var r := w.push.todo[0];
    TotalSnoc(w.push.items, Traffic(w.cells[r].id, w.cells[r].upload, 0), id, dir);
    MoveLaw(w, DoSwapUp(w), r, id, dir);
  }

  lemma SwapDownLaw(w: World, id: int, dir: Direction)
    requires Inv(w) && Enabled(w, SwapDown) && Law(w, id, dir)
    ensures Law(DoSwapDown(w), id, dir)
  {
    SwapDownKeeps(w);
    var r := w.push.todo[0];
    TotalSnoc(w.push.items, w.push.hand, id, dir);
    AppendTotal(w.push.items, w.push.hand.(download := w.cells[r].download), id, dir);
    MoveLaw(w, DoSwapDown(w), r, id, dir);
  }

  lemma CollectLaw(w: World, s: Step, id: int, dir: Direction)
    requires Inv(w) && Enabled(w, s) && Law(w, id, dir)
    requires s.BeginCollect? || s.SwapUp? || s.SwapDown? || s.Lock?
    ensures Law(Apply(w, s), id, dir)
  {
    match s
    case BeginCollect(order) =>
      BeginKeeps(w, order);
      SameLaw(w, DoBegin(w, order), id, dir);
    case SwapUp => SwapUpLaw(w, id, dir);
    case SwapDown => SwapDownLaw(w, id, dir);
    case Lock =>
      LockKeeps(w);
      SameLaw(w, DoLock(w), id, dir);
  }

  lemma PassSwapUpLaw(w: World, id: int, dir: Direction)
    requires Inv(w) && Enabled(w, PassSwapUp) && Law(w, id, dir)
    ensures Law(DoPassSwapUp(w), id, dir)
  {
    PassSwapUpKeeps(w);
    var r := w.push.todo[0];
    assert r in w.push.Undecided();
    TotalSnoc(w.push.items, Traffic(w.cells[r].id, w.cells[r].upload, 0), id, dir);
    MoveLaw(w, DoPassSwapUp(w), r, id, dir);
  }

  lemma PassSwapDownLaw(w: World, id: int, dir: Direction)
    requires Inv(w) && Enabled(w, PassSwapDown) && Law(w, id, dir)
    ensures Law(DoPassSwapDown(w), id, dir)
  {
    PassSwapDownKeeps(w);
    var r := w.push.todo[0];
    TotalSnoc(w.push.items, w.push.hand, id, dir);
    AppendTotal(w.push.items, w.push.hand.(download := w.cells[r].download), id, dir);
    MoveLaw(w, DoPassSwapDown(w), r, id, dir);
  }

  lemma HeldWithout(cells: seq<Cell>, tracked: set<nat>, r: nat, id: int, dir: Direction)
    requires r < |cells|
    ensures Held(cells, tracked, id, dir) == Held(cells, tracked - {r}, id, dir) + Part(cells, tracked, r, id, dir)
  {
    HeldDiffersAt(cells, tracked, cells, tracked - {r}, r, |cells|, id, dir);
  }

  /** Dropping a state loses exactly what was counted on it since its counters were swapped. */
  lemma PassDecideLaw(w: World, id: int, dir: Direction)
    requires Inv(w) && Enabled(w, PassDecide) && Law(w, id, dir)
    ensures Law(DoPassDecide(w), id, dir)
  {
    PassDecideKeeps(w);
    if Drops(w) {
      DropLaw(w, id, dir);
    } else {
      SameLaw(w, DoPassDecide(w), id, dir);
    }
  }

  lemma DropLaw(w: World, id: int, dir: Direction)
    requires Inv(w) && Enabled(w, PassDecide) && Drops(w) && Law(w, id, dir)
    requires Tracked(DoPassDecide(w)) == Tracked(w) - {w.push.todo[0]}
    ensures Law(DoPassDecide(w), id, dir)
  {
    var r, since := w.push.todo[0], w.push.since;
    TotalSnoc(w.lost, since, id, dir);
    HeldWithout(w.cells, Tracked(w), r, id, dir);
    assert Part(w.cells, Tracked(w), r, id, dir) == Share(since, id, dir);
    DroppedLaw(w, DoPassDecide(w), Share(since, id, dir), id, dir);
  }

  /** What leaves the counters joins the lost bytes. */
  lemma DroppedLaw(w: World, w': World, share: nat, id: int, dir: Direction)
    requires Law(w, id, dir) && w'.counted == w.counted && w'.acked == w.acked
    requires w'.push.Holding() == w.push.Holding()
    requires Total(w'.lost, id, dir) == Total(w.lost, id, dir) + share
    requires Held(w.cells, Tracked(w), id, dir) == Held(w'.cells, Tracked(w'), id, dir) + share
    ensures Law(w', id, dir)
  {
  }

  lemma PassLaw(w: World, s: Step, id: int, dir: Direction)
    requires Inv(w) && Enabled(w, s) && Law(w, id, dir)
    requires s.PassSwapUp? || s.PassSwapDown? || s.PassDecide? || s.Unlock?
    ensures Law(Apply(w, s), id, dir)
  {
    match s
    case PassSwapUp => PassSwapUpLaw(w, id, dir);
    case PassSwapDown => PassSwapDownLaw(w, id, dir);
    case PassDecide => PassDecideLaw(w, id, dir);
    case Unlock =>
      UnlockKeeps(w);
      SameLaw(w, DoUnlock(w), id, dir);
  }

  lemma RestoreFindLaw(w: World, id: int, dir: Direction)
    requires Inv(w) && Enabled(w, RestoreFind) && Law(w, id, dir)
    ensures Law(DoRestoreFind(w), id, dir)
  {
    RestoreFindKeeps(w);
    var w' := DoRestoreFind(w);
    TrackedBounded(w);
    if FallsBack(w) {
      HeldGrows(w.cells, [Cell(w.push.items[0].userId, 0, 0, 0, true)], Tracked(w), Tracked(w'), id, dir);
    } else {
      SameLaw(w, w', id, dir);
    }
  }

  lemma AddUpLaw(w: World, id: int, dir: Direction)
    requires Inv(w) && Enabled(w, AddUp) && Law(w, id, dir)
    ensures Law(DoAddUp(w), id, dir)
  {
    AddUpKeeps(w);
    var w' := DoAddUp(w);
    var items := w.push.items;
    TotalCons(items, id, dir);
    TotalCons(w'.push.items, id, dir);
    assert w'.push.items[1..] == items[1..];
    TrackedBounded(w);
    MoveLaw(w, w', w.push.cell, id, dir);
  }

  lemma AddDownLaw(w: World, id: int, dir: Direction)
    requires Inv(w) && Enabled(w, AddDown) && Law(w, id, dir)
    ensures Law(DoAddDown(w), id, dir)
  {
    AddDownKeeps(w);
    TotalCons(w.push.items, id, dir);
    TrackedBounded(w);
    MoveLaw(w, DoAddDown(w), w.push.cell, id, dir);
  }

  lemma AcknowledgeLaw(w: World, id: int, dir: Direction)
    requires Inv(w) && w.push.Reporting? && Law(w, id, dir)
    ensures Law(DoAcknowledge(w), id, dir)
  {
    ReportKeeps(w);
    TotalConcat(w.acked, w.push.items, id, dir);
  }

  lemma ReportLaw(w: World, s: Step, id: int, dir: Direction)
    requires Inv(w) && Enabled(w, s) && Law(w, id, dir)
    requires s.Acknowledge? || s.ReportFails? || s.RestoreGet?
    ensures Law(Apply(w, s), id, dir)
  {
    match s
    case Acknowledge => AcknowledgeLaw(w, id, dir);
    case ReportFails =>
      ReportKeeps(w);
      SameLaw(w, DoReportFails(w), id, dir);
    case RestoreGet =>
      RestoreGetKeeps(w);
      SameLaw(w, DoRestoreGet(w), id, dir);
  }

  lemma StepLaw(w: World, s: Step, id: int, dir: Direction)
    requires Inv(w) && Enabled(w, s) && Law(w, id, dir)
    ensures Law(Apply(w, s), id, dir)
  {
    if s.Publish? || s.Retire? {
      PullLaw(w, s, id, dir);
    } else if s.Lookup? || s.OpenConn? || s.Count? || s.CloseConn? {
      ConnLaw(w, s, id, dir);
    } else if s.BeginCollect? || s.SwapUp? || s.SwapDown? || s.Lock? {
      CollectLaw(w, s, id, dir);
    } else if s.PassSwapUp? || s.PassSwapDown? || s.PassDecide? || s.Unlock? {
      PassLaw(w, s, id, dir);
    } else if s.RestoreFind? {
      RestoreFindLaw(w, id, dir);
    } else if s.AddUp? {
      AddUpLaw(w, id, dir);
    } else if s.AddDown? {
      AddDownLaw(w, id, dir);
    } else {
      ReportLaw(w, s, id, dir);
    }
  }

  /** Every interleaving accounts for every byte of every user in each direction. */
  lemma {:induction false} EveryByteAccounted(steps: seq<Step>, id: int, dir: Direction)
    requires IsRun(steps)
    ensures Law(Exec(steps), id, dir)
  {
    if |steps| > 0 {
      EveryByteAccounted(Front(steps), id, dir);
      RunKeepsInv(Front(steps));
      StepLaw(Exec(Front(steps)), Last(steps), id, dir);
    }
  }

  // ---------------------------------------------------------------- when nothing is lost

  /** What the node promises: every byte counted was acknowledged or will be in a later report. */
  ghost predicate Conserved(w: World, id: int, dir: Direction) {
    Total(w.counted, id, dir)
    == Total(w.acked, id, dir) + Total(w.push.Holding(), id, dir) + Held(w.cells, Tracked(w), id, dir)
  }

  /**
    A step that comes in time: no connection opens on a state the table has already
    dropped, and no byte is counted on a retired state between the swap of its
    counters and the read of its connection count.
   */
  ghost predicate Timely(w: World, s: Step) {
    match s
    case OpenConn(c) => c < |w.conns| ==> w.conns[c].cell in Tracked(w)
    case Count(c, _, _) => c < |w.conns| ==> !Examined(w, w.conns[c].cell)
    case _ => true
  }

  ghost predicate TimelyRun(steps: seq<Step>)
    requires IsRun(steps)
    decreases |steps|
  {
    |steps| == 0 || (TimelyRun(Front(steps)) && Timely(Exec(Front(steps)), Last(steps)))
  }

  /**
    What timely runs keep: open connections hold tracked states, a state the table
    no longer tracks is empty, and nothing was counted too late.
   */
  ghost predicate InTime(w: World) {
    && (forall r | 0 <= r < |w.cells| && r !in Tracked(w) :: w.cells[r].upload == 0 && w.cells[r].download == 0)
    && (forall k | 0 <= k < |w.conns| && w.conns[k].phase == Open :: w.conns[k].cell in Tracked(w))
    && (forall t | t in w.lost :: t.Empty())
    && (w.push.PassHalf? || w.push.PassRead? ==> w.push.since.Empty())
  }

  /** Only a connection that still holds it can credit a state the table no longer tracks. */
  lemma UntrackedKeepCounters(w: World, s: Step, r: nat)
    requires Inv(w) && Enabled(w, s)
    requires r < |w.cells| && r !in Tracked(w)
    requires s.Count? ==> w.conns[s.conn].cell != r
    ensures r < |Apply(w, s).cells|
    ensures r < |Apply(w, s).cells|
            ==> Apply(w, s).cells[r].upload == w.cells[r].upload && Apply(w, s).cells[r].download == w.cells[r].download
  {
    if w.push.LockHeld() && w.push.todo != [] {
      assert w.push.todo[0] in w.push.Undecided();
    }
  }

  /** States made by a step start empty. */
  lemma NewAreEmpty(w: World, s: Step, r: nat)
    requires Inv(w) && Enabled(w, s)
    requires |w.cells| <= r < |Apply(w, s).cells|
    ensures Apply(w, s).cells[r].upload == 0 && Apply(w, s).cells[r].download == 0
  {
    if s.Publish? {
      assert Apply(w, s).cells[r] == FreshCells(w.current, s.ids)[r - |w.cells|];
    }
  }

  lemma UntrackedStayEmpty(w: World, s: Step, r: nat)
    requires Inv(w) && Enabled(w, s) && Timely(w, s) && InTime(w)
    requires r < |Apply(w, s).cells| && r !in Tracked(Apply(w, s))
    ensures Apply(w, s).cells[r].upload == 0 && Apply(w, s).cells[r].download == 0
  {
    StepKeeps(w, s);
    if r >= |w.cells| {
      NewAreEmpty(w, s, r);
    } else if r in Tracked(w) {
      assert s == PassDecide && r == w.push.todo[0];
    } else {
      UntrackedKeepCounters(w, s, r);
    }
  }

  /** An open connection keeps its state tracked: the pass reads `active` before it drops. */
  lemma OpenStaysTracked(w: World, s: Step, k: nat)
    requires Inv(w) && Enabled(w, s) && Timely(w, s) && InTime(w)
    requires k < |Apply(w, s).conns| && Apply(w, s).conns[k].phase == Open
    ensures Apply(w, s).conns[k].cell in Tracked(Apply(w, s))
  {
    StepKeeps(w, s);
    assert k < |w.conns| && w.conns[k].cell == Apply(w, s).conns[k].cell && w.conns[k].cell in Tracked(w);
    if s == PassDecide && Drops(w) {
      NumOpenNone(w.conns, w.push.todo[0]);
      assert w.conns[k] != Conn(w.push.todo[0], Open);
    }
  }

  lemma NothingCountedLate(w: World, s: Step)
    requires Inv(w) && Enabled(w, s) && Timely(w, s) && InTime(w)
    ensures var w' := Apply(w, s);
            && (forall t | t in w'.lost :: t.Empty())
            && (w'.push.PassHalf? || w'.push.PassRead? ==> w'.push.since.Empty())
  {
  }

  lemma TimelyStepKeeps(w: World, s: Step)
    requires Inv(w) && Enabled(w, s) && Timely(w, s) && InTime(w)
    ensures InTime(Apply(w, s))
  {
    var w' := Apply(w, s);
    forall r | 0 <= r < |w'.cells| && r !in Tracked(w')
      ensures w'.cells[r].upload == 0 && w'.cells[r].download == 0
    {
      UntrackedStayEmpty(w, s, r);
    }
    forall k | 0 <= k < |w'.conns| && w'.conns[k].phase == Open ensures w'.conns[k].cell in Tracked(w') {
      OpenStaysTracked(w, s, k);
    }
    NothingCountedLate(w, s);
  }

  lemma {:induction false} TotalOfEmpty(items: seq<Traffic>, id: int, dir: Direction)
    requires forall t | t in items :: t.Empty()
    ensures Total(items, id, dir) == 0
  {
    if |items| > 0 {
      var n := |items| - 1;
      assert items[n] in items;
      TotalOfEmpty(items[..n], id, dir);
    }
  }

  lemma {:induction false} TimelyRunsLoseNothing(steps: seq<Step>)
    requires IsRun(steps) && TimelyRun(steps)
    ensures InTime(Exec(steps))
  {
    if |steps| > 0 {
      TimelyRunsLoseNothing(Front(steps));
      RunKeepsInv(Front(steps));
      TimelyStepKeeps(Exec(Front(steps)), Last(steps));
    }
  }

  /** In a timely run every byte counted is acknowledged, in flight, or in a state the table tracks. */
  lemma {:induction false} ConservationTheorem(steps: seq<Step>, id: int, dir: Direction)
    requires IsRun(steps) && TimelyRun(steps)
    ensures Conserved(Exec(steps), id, dir)
  {
    EveryByteAccounted(steps, id, dir);
    TimelyRunsLoseNothing(steps);
    TotalOfEmpty(Exec(steps).lost, id, dir);
  }

  // ---------------------------------------------------------------- exactly what is lost

  /** Bytes `s` takes out of every later report: counted after the last swap of a state that is dropped. */
  ghost function LateAt(w: World, s: Step, id: int, dir: Direction): nat
    requires Enabled(w, s)
  {
    match s
    case Count(c, up, down) =>
      var r := w.conns[c].cell;
      if r in Tracked(w) then 0 else Share(Traffic(w.cells[r].id, up, down), id, dir)
    case PassDecide => if Drops(w) then Share(w.push.since, id, dir) else 0
    case _ => 0
  }

  ghost function LateBytes(steps: seq<Step>, id: int, dir: Direction): nat
    requires IsRun(steps)
    decreases |steps|
  {
    if |steps| == 0 then 0
    else LateBytes(Front(steps), id, dir) + LateAt(Exec(Front(steps)), Last(steps), id, dir)
  }

  lemma LateStep(w: World, s: Step, id: int, dir: Direction)
    requires Enabled(w, s)
    ensures Total(Apply(w, s).lost, id, dir) == Total(w.lost, id, dir) + LateAt(w, s, id, dir)
  {
    if s.Count? {
      TotalSnoc(w.lost, Traffic(w.cells[w.conns[s.conn].cell].id, s.up, s.down), id, dir);
    } else if s.PassDecide? {
      TotalSnoc(w.lost, w.push.since, id, dir);
    }
  }

  lemma {:induction false} LostIsLate(steps: seq<Step>, id: int, dir: Direction)
    requires IsRun(steps)
    ensures Total(Exec(steps).lost, id, dir) == LateBytes(steps, id, dir)
  {
    if |steps| > 0 {
      LostIsLate(Front(steps), id, dir);
      LateStep(Exec(Front(steps)), Last(steps), id, dir);
    }
  }

  /**
    Any run, timely or not: the promise holds for a user and a direction if and
    only if no byte was counted on a state after the swap that preceded its drop.
   */
  lemma {:induction false} ExactlyWhenConserved(steps: seq<Step>, id: int, dir: Direction)
    requires IsRun(steps)
    ensures Conserved(Exec(steps), id, dir) <==> LateBytes(steps, id, dir) == 0
  {
    EveryByteAccounted(steps, id, dir);
    LostIsLate(steps, id, dir);
  }

  // ---------------------------------------------------------------- reachable states

  ghost predicate ClosedUnderSteps(S: iset<World>) {
    Init in S && forall w, s :: w in S && Enabled(w, s) ==> Apply(w, s) in S
  }

  /** `w` belongs to every set of states that has the initial one and is closed under steps. */
  ghost predicate Reachable(w: World) {
    forall S: iset<World> :: ClosedUnderSteps(S) ==> w in S
  }

  lemma ReachableStep(w: World, s: Step)
    requires Reachable(w) && Enabled(w, s)
    ensures Reachable(Apply(w, s))
  {
  }

  ghost predicate EndsARun(w: World) {
    exists steps :: IsRun(steps) && Exec(steps) == w
  }

  lemma RunsAreClosed()
    ensures ClosedUnderSteps(iset w | EndsARun(w))
  {
    assert IsRun([]) && Exec([]) == Init;
    forall w, s | EndsARun(w) && Enabled(w, s) ensures EndsARun(Apply(w, s)) {
      var steps :| IsRun(steps) && Exec(steps) == w;
      RunSnoc(steps, s);
    }
  }

  /** A state is reachable if and only if some run ends in it. */
  lemma {:induction false} ReachableByRun(w: World)
    ensures Reachable(w) <==> EndsARun(w)
  {
    if Reachable(w) {
      RunsAreClosed();
    }
    if EndsARun(w) {
      var steps :| IsRun(steps) && Exec(steps) == w;
      RunReaches(steps);
    }
  }

  lemma {:induction false} RunReaches(steps: seq<Step>)
    requires IsRun(steps)
    ensures Reachable(Exec(steps))
  {
    if |steps| > 0 {
      RunReaches(Front(steps));
      ReachableStep(Exec(Front(steps)), Last(steps));
    }
  }

  lemma {:induction false} ReachableKeeps(w: World, id: int, dir: Direction)
    requires Reachable(w)
    ensures Inv(w) && Law(w, id, dir)
  {
    ReachableByRun(w);
    var steps :| IsRun(steps) && Exec(steps) == w;
    RunKeepsInv(steps);
    EveryByteAccounted(steps, id, dir);
  }
}
