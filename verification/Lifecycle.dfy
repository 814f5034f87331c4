/**
  The life of a user state (served, retiring, retired, dropped), and the fallback
  of restoreTraffic.
 */
module Lifecycle {
  import opened Ledger
  import opened LedgerInvariant
  import opened Conservation

  // ---------------------------------------------------------------- identity

  /** A user who stays keeps the same state object; one who (re)appears gets a new, empty one. */
  lemma {:induction false} ServedIdentity(w: World, s: Step, id: int)
    requires Inv(w) && Enabled(w, s) && id in Apply(w, s).current
    ensures var w' := Apply(w, s);
            && w'.current[id] < |w'.cells|
            && if id in w.current then w'.current[id] == w.current[id]
               else w'.current[id] >= |w.cells| && w'.cells[w'.current[id]] == Cell(id, 0, 0, 0, false)
  {
    StepKeeps(w, s);
    if s.Publish? {
      PublishedAreKnown(w, s.ids, id);
    }
  }

  /** Cancelling a state is final. */
  lemma CancelledStays(w: World, s: Step, r: nat)
    requires Inv(w) && Enabled(w, s) && r < |w.cells| && w.cells[r].cancelled
    ensures r < |Apply(w, s).cells| && Apply(w, s).cells[r].cancelled
  {
    StepKeeps(w, s);
  }

  /** Once retired, a state is cancelled and never served again, however the run goes on. */
  lemma {:induction false} RetiredNeverServed(steps: seq<Step>, n: nat, r: nat)
    requires IsRun(steps) && n <= |steps|
    requires IsRun(steps[..n]) && r < |Exec(steps[..n]).cells|
    requires Exec(steps[..n]).cells[r].cancelled || r in Exec(steps[..n]).retired
    ensures r < |Exec(steps).cells| && Exec(steps).cells[r].cancelled
    ensures r !in Range(Exec(steps).current)
    decreases |steps|
  {
    RunKeepsInv(steps[..n]);
    RunKeepsInv(steps);
    if n == |steps| {
      assert steps[..n] == steps;
    } else {
      assert Front(steps)[..n] == steps[..n];
      RetiredNeverServed(Front(steps), n, r);
      RunKeepsInv(Front(steps));
      CancelledStays(Exec(Front(steps)), Last(steps), r);
    }
  }

  /** A dropped state never comes back; in a timely run it is empty and stays so. */
  lemma {:induction false} DroppedForGood(steps: seq<Step>, n: nat, r: nat)
    requires IsRun(steps) && n <= |steps|
    requires IsRun(steps[..n]) && r < |Exec(steps[..n]).cells| && r !in Tracked(Exec(steps[..n]))
    ensures r < |Exec(steps).cells| && r !in Tracked(Exec(steps))
    ensures TimelyRun(steps) ==>
              var c := Exec(steps).cells[r]; c.upload == 0 && c.download == 0 && c.active == 0
    decreases |steps|
  {
    RunKeepsInv(steps);
    if n == |steps| {
      assert steps[..n] == steps;
    } else {
      assert Front(steps)[..n] == steps[..n];
      DroppedForGood(Front(steps), n, r);
      RunKeepsInv(Front(steps));
      StepKeeps(Exec(Front(steps)), Last(steps));
    }
    if TimelyRun(steps) {
      TimelyRunsLoseNothing(steps);
      NumOpenNone(Exec(steps).conns, r);
    }
  }

  /** The table gives a state up in one place only: the pass, at a cancelled state without a connection. */
  lemma LeavesTableOnlyIdle(w: World, s: Step, r: nat)
    requires Inv(w) && Enabled(w, s) && r in Tracked(w) && r !in Tracked(Apply(w, s))
    ensures s == PassDecide && r < |w.cells| && w.cells[r].cancelled && w.cells[r].active == 0
    ensures forall k | 0 <= k < |w.conns| :: w.conns[k] != Conn(r, Open)
  {
    StepKeeps(w, s);
    assert s == PassDecide && r == w.push.todo[0];
    assert r in w.push.Undecided();
    NumOpenNone(w.conns, r);
  }

  /** The pass drops a state only with nothing to report and, in a timely run, with empty counters. */
  lemma {:induction false} DropsOnlyIdle(steps: seq<Step>)
    requires IsRun(steps) && TimelyRun(steps) && Enabled(Exec(steps), PassDecide)
    ensures var w := Exec(steps);
            Drops(w) <==>
            var c := w.cells[w.push.todo[0]]; c.active == 0 && !w.push.hit && c.upload == 0 && c.download == 0
  {
    RunKeepsInv(steps);
    TimelyRunsLoseNothing(steps);
  }

  // ---------------------------------------------------------------- the fallback

  /**
    An update and a collect or a restore are under way at once.  A report is neither:
    updates may come and go while the panel is asked.
   */
  ghost predicate Overlaps(w: World, s: Step) {
    || (s.Publish? && !w.push.Idle? && !w.push.Reporting?)
    || (s.BeginCollect? && w.retiring != [])
    || (s.ReportFails? && w.retiring != [])
  }

  ghost predicate NoOverlap(steps: seq<Step>)
    requires IsRun(steps)
    decreases |steps|
  {
    |steps| == 0 || (NoOverlap(Front(steps)) && !Overlaps(Exec(Front(steps)), Last(steps)))
  }

  /** The user has a state restoreTraffic will find. */
  ghost predicate Homed(w: World, id: int)
    requires Refs(w)
  {
    || id in w.current
    || (exists r :: r in w.retired && w.cells[r].id == id)
    || (w.push.PassRead? && w.push.hit && AtState(w) && w.cells[w.push.todo[0]].id == id)
  }

  ghost predicate Undisturbed(w: World)
    requires Refs(w)
  {
    && (!w.push.Idle? ==> w.retiring == [] && forall t | t in w.push.items :: Homed(w, t.userId))
    && (w.push.Served? || w.push.ServedHalf? ==>
          && (forall r | r in w.push.todo :: r in Range(w.current))
          && (forall t | t in w.push.items :: t.userId in w.current))
    && (w.push.Finding? ==> w.push.items != [] && w.push.items[0].userId !in w.current)
  }

  lemma UndisturbedCollect(w: World, s: Step)
    requires Inv(w) && Enabled(w, s) && Undisturbed(w)
    requires s.SwapUp? || s.SwapDown? || s.Lock? || (s.BeginCollect? && w.retiring == [])
    ensures Inv(Apply(w, s)) && Undisturbed(Apply(w, s))
  {
    StepKeeps(w, s);
    var w' := Apply(w, s);
    if s.SwapDown? {
      var r := w.push.todo[0];
      assert r in w.push.todo;
      var id :| id in w.current && w.current[id] == r;
      assert w.push.hand.userId == id;
      assert forall x | x in w'.push.todo :: x in w.push.todo;
    }
    if !s.BeginCollect? {
      forall t | t in w'.push.items ensures Homed(w', t.userId) {
        if t in w.push.items {
          assert Homed(w, t.userId);
        }
      }
    }
  }

  lemma UndisturbedPass(w: World, s: Step)
    requires Inv(w) && Enabled(w, s) && Undisturbed(w)
    requires s.PassSwapUp? || s.PassSwapDown? || s.PassDecide? || s.Unlock?
    ensures Inv(Apply(w, s)) && Undisturbed(Apply(w, s))
  {
    StepKeeps(w, s);
    var w' := Apply(w, s);
    if !w'.push.Idle? {
      forall t | t in w'.push.items ensures Homed(w', t.userId) {
        if t in w.push.items {
          assert Homed(w, t.userId);
          if r :| r in w.retired && w.cells[r].id == t.userId {
            assert r in w'.retired;
          } else if s.PassDecide? && t.userId !in w.current {
            assert w.push.todo[0] in w'.retired;
          }
        }
      }
    }
  }

  lemma UndisturbedReport(w: World, s: Step)
    requires Inv(w) && Enabled(w, s) && Undisturbed(w)
    requires s.Acknowledge? || s.ReportFails? || s.RestoreGet?
    ensures Inv(Apply(w, s)) && Undisturbed(Apply(w, s))
  {
    StepKeeps(w, s);
    var w' := Apply(w, s);
    if !w'.push.Idle? {
      forall t | t in w'.push.items ensures Homed(w', t.userId) {
        assert Homed(w, t.userId);
      }
    }
  }

  /** A home survives a step that removes no retired state and renames nothing. */
  lemma HomeKept(w: World, w': World, id: int)
    requires Inv(w) && Inv(w') && Homed(w, id) && !w.push.LockHeld()
    requires w'.current == w.current && |w.cells| <= |w'.cells|
    requires forall r | r in w.retired :: r in w'.retired
    requires forall r | 0 <= r < |w.cells| :: w'.cells[r].id == w.cells[r].id
    ensures Homed(w', id)
  {
  }

  lemma UndisturbedFind(w: World)
    requires Inv(w) && Enabled(w, RestoreFind) && Undisturbed(w)
    ensures Inv(DoRestoreFind(w)) && Undisturbed(DoRestoreFind(w))
  {
    RestoreFindKeeps(w);
    var w' := DoRestoreFind(w);
    forall t | t in w'.push.items ensures Homed(w', t.userId) {
      assert t in w.push.items;
      HomeKept(w, w', t.userId);
    }
  }

  lemma UndisturbedAddUp(w: World)
    requires Inv(w) && Enabled(w, AddUp) && Undisturbed(w)
    ensures Inv(Apply(w, AddUp)) && Undisturbed(Apply(w, AddUp))
  {
    RestoreStepKeeps(w, AddUp);
    var w' := Apply(w, AddUp);
    forall t | t in w'.push.items ensures Homed(w', t.userId) {
      var k :| 0 <= k < |w'.push.items| && w'.push.items[k] == t;
      assert w.push.items[k] in w.push.items && w.push.items[k].userId == t.userId;
      HomeKept(w, w', t.userId);
    }
  }

  lemma UndisturbedAddDown(w: World)
    requires Inv(w) && Enabled(w, AddDown) && Undisturbed(w)
    ensures Inv(Apply(w, AddDown)) && Undisturbed(Apply(w, AddDown))
  {
    RestoreStepKeeps(w, AddDown);
    var w' := Apply(w, AddDown);
    if !w'.push.Idle? {
      forall t | t in w'.push.items ensures Homed(w', t.userId) {
        assert t in w.push.items;
        HomeKept(w, w', t.userId);
      }
    }
  }

  lemma UndisturbedOther(w: World, s: Step)
    requires Inv(w) && Enabled(w, s) && Undisturbed(w)
    requires (s.Publish? && w.push.Idle?) || s.Retire? || s.Lookup? || s.OpenConn? || s.Count? || s.CloseConn?
    ensures Inv(Apply(w, s)) && Undisturbed(Apply(w, s))
  {
    StepKeeps(w, s);
    var w' := Apply(w, s);
    if !w'.push.Idle? {
      forall t | t in w'.push.items ensures Homed(w', t.userId) {
        assert t in w.push.items && Homed(w, t.userId);
        if r :| r in w.retired && w.cells[r].id == t.userId {
          assert r in w'.retired && w'.cells[r].id == t.userId;
        }
      }
    }
  }

  /** The user's state is on its way to the retired list. */
  ghost predicate Leaving(w: World, id: int)
    requires Refs(w)
  {
    exists r :: r in w.retiring && w.cells[r].id == id
  }

  /** While a batch is being reported, each of its users has a home or is moving to one. */
  ghost predicate Settled(w: World)
    requires Refs(w)
  {
    if w.push.Reporting? then forall t | t in w.push.items :: Homed(w, t.userId) || Leaving(w, t.userId)
    else Undisturbed(w)
  }

  /** An update moves a home from the served map to the states that leave. */
  lemma PublishSettles(w: World, s: Step)
    requires Inv(w) && Enabled(w, s) && s.Publish? && w.push.Reporting? && Settled(w)
    ensures Inv(Apply(w, s)) && Settled(Apply(w, s))
  {
    StepKeeps(w, s);
    var w' := Apply(w, s);
    forall t | t in w'.push.items ensures Homed(w', t.userId) || Leaving(w', t.userId) {
      var id := t.userId;
      assert Homed(w, id);
      if r :| r in w.retired && w.cells[r].id == id {
        assert r in w'.retired && w'.cells[r].id == id;
      } else if id !in s.ids {
        var r := w.current[id];
        assert r in Removed(w.current, s.ids);
        assert r in w'.retiring && w'.cells[r].id == id;
      }
    }
  }

  /** And from there to the retired list. */
  lemma RetireSettles(w: World)
    requires Inv(w) && Enabled(w, Retire) && w.push.Reporting? && Settled(w)
    ensures Inv(DoRetire(w)) && Settled(DoRetire(w))
  {
    StepKeeps(w, Retire);
    var w' := DoRetire(w);
    forall t | t in w'.push.items ensures Homed(w', t.userId) {
      var id := t.userId;
      assert Homed(w, id) || Leaving(w, id);
      if r :| (r in w.retired || r in w.retiring) && w.cells[r].id == id {
        assert r in w'.retired && w'.cells[r].id == id;
      }
    }
  }

  lemma ConnSettles(w: World, s: Step)
    requires Inv(w) && Enabled(w, s) && w.push.Reporting? && Settled(w)
    requires s.Lookup? || s.OpenConn? || s.Count? || s.CloseConn?
    ensures Inv(Apply(w, s)) && Settled(Apply(w, s))
  {
    StepKeeps(w, s);
    var w' := Apply(w, s);
    forall t | t in w'.push.items ensures Homed(w', t.userId) || Leaving(w', t.userId) {
      var id := t.userId;
      assert Homed(w, id) || Leaving(w, id);
      if r :| r in w.retired && w.cells[r].id == id {
        assert r in w'.retired && w'.cells[r].id == id;
      } else if r :| r in w.retiring && w.cells[r].id == id {
        assert r in w'.retiring && w'.cells[r].id == id;
      }
    }
  }

  /** A step while the batch is being reported. */
  lemma ReportingSettles(w: World, s: Step)
    requires Inv(w) && Enabled(w, s) && w.push.Reporting? && Settled(w) && !Overlaps(w, s)
    ensures Inv(Apply(w, s)) && Settled(Apply(w, s))
  {
    if s.Publish? {
      PublishSettles(w, s);
    } else if s.Retire? {
      RetireSettles(w);
    } else if s.ReportFails? {
      assert Undisturbed(w);
      UndisturbedReport(w, s);
    } else if s.Acknowledge? {
      StepKeeps(w, s);
    } else {
      ConnSettles(w, s);
    }
  }

  lemma StepSettles(w: World, s: Step)
    requires Inv(w) && Enabled(w, s) && Settled(w) && !Overlaps(w, s)
    ensures Inv(Apply(w, s)) && Settled(Apply(w, s))
  {
    if w.push.Reporting? {
      ReportingSettles(w, s);
    } else if s.Publish? || s.Retire? || s.Lookup? || s.OpenConn? || s.Count? || s.CloseConn? {
      UndisturbedOther(w, s);
    } else if s.SwapUp? || s.SwapDown? || s.Lock? || s.BeginCollect? {
      UndisturbedCollect(w, s);
    } else if s.PassSwapUp? || s.PassSwapDown? || s.PassDecide? || s.Unlock? {
      UndisturbedPass(w, s);
    } else if s.RestoreFind? {
      UndisturbedFind(w);
    } else if s.AddUp? {
      UndisturbedAddUp(w);
    } else if s.AddDown? {
      UndisturbedAddDown(w);
    } else {
      UndisturbedReport(w, s);
    }
  }

  lemma {:induction false} NoOverlapSettles(steps: seq<Step>)
    requires IsRun(steps) && NoOverlap(steps)
    ensures Inv(Exec(steps)) && Settled(Exec(steps))
  {
    RunKeepsInv(steps);
    if |steps| > 0 {
      NoOverlapSettles(Front(steps));
      StepSettles(Exec(Front(steps)), Last(steps));
    }
  }

  lemma FoundWhenHomed(w: World)
    requires Inv(w) && Undisturbed(w) && Enabled(w, RestoreFind)
    ensures !FallsBack(w)
  {
    assert w.push.items[0] in w.push.items;
  }

  /**
    restoreTraffic never needs its fallback in a run where no update overlaps a collect
    or a restore; updates during the report are allowed.  (Otherwise it can, see
    LedgerWitness.FallbackIsReachable, and Conservation.EveryByteAccounted covers that
    run too.)
   */
  lemma {:induction false} FallbackNeedsOverlap(steps: seq<Step>)
    requires IsRun(steps) && Enabled(Exec(steps), RestoreFind) && FallsBack(Exec(steps))
    ensures !NoOverlap(steps)
  {
    if NoOverlap(steps) {
      NoOverlapSettles(steps);
      FoundWhenHomed(Exec(steps));
    }
  }
}
