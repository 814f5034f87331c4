/** Concrete runs: the two races that lose bytes, and the one that needs restoreTraffic's fallback. */
module LedgerWitness {
  import opened Ledger
  import opened Conservation

  /** Which half of Conservation.Timely a run may break. */
  datatype Race = CountRace | OpenRace

  ghost predicate Permits(race: Race, w: World, s: Step) {
    match race
    case CountRace => s.OpenConn? ==> Timely(w, s)
    case OpenRace => s.Count? ==> Timely(w, s)
  }

  ghost predicate RacyRun(race: Race, steps: seq<Step>)
    requires IsRun(steps)
    decreases |steps|
  {
    |steps| == 0 || (RacyRun(race, Front(steps)) && Permits(race, Exec(Front(steps)), Last(steps)))
  }

  ghost predicate Reaches(race: Race, w: World) {
    exists steps :: IsRun(steps) && RacyRun(race, steps) && Exec(steps) == w
  }

  /** `P` holds at the start and every permitted step keeps it. */
  ghost predicate KeptBySteps(P: World -> bool, race: Race) {
    P(Init) && forall w, s :: P(w) && Enabled(w, s) && Permits(race, w, s) ==> P(Apply(w, s))
  }

  lemma ReachesIsClosed(race: Race)
    ensures KeptBySteps(w => Reaches(race, w), race)
  {
    assert IsRun([]) && RacyRun(race, []) && Exec([]) == Init;
    forall w, s | Reaches(race, w) && Enabled(w, s) && Permits(race, w, s) ensures Reaches(race, Apply(w, s)) {
      var steps :| IsRun(steps) && RacyRun(race, steps) && Exec(steps) == w;
      RunSnoc(steps, s);
      assert Front(steps + [s]) == steps;
      assert RacyRun(race, steps + [s]);
    }
  }

  lemma Go(P: World -> bool, race: Race, w: World, s: Step, w': World)
    requires KeptBySteps(P, race)
    requires P(w) && Enabled(w, s) && Permits(race, w, s) && Apply(w, s) == w'
    ensures P(w')
  {
  }

  /** One state of user 1 and one connection that looked it up. */
  ghost function Small(cell: Cell, served: bool, phase: ConnPhase, push: Push, retired: seq<nat>,
                       counted: seq<Traffic>): World
  {
    World([cell], if served then map[1 := 0] else map[], [], retired, [Conn(0, phase)], push, counted, [], [])
  }

  lemma ServeOne(P: World -> bool, race: Race)
    requires KeptBySteps(P, race)
    ensures P(Small(Cell(1, 0, 0, 0, false), true, LookedUp, Idle, [], []))
  {
    var w1 := World([Cell(1, 0, 0, 0, false)], map[1 := 0], [], [], [], Idle, [], [], []);
    assert DoPublish(Init, [1], []) == w1 by {
      assert [1][..0] == [];
      assert FreshCells(map[], [1]) == [Cell(1, 0, 0, 0, false)];
      assert Serve(map[], [1], 0) == map[1 := 0];
    }
    Go(P, race, Init, Publish([1], []), w1);
    Go(P, race, w1, Lookup(1), Small(Cell(1, 0, 0, 0, false), true, LookedUp, Idle, [], []));
  }

  /** update([]) in both its steps. */
  lemma RemoveUser(P: World -> bool, race: Race, active: nat, phase: ConnPhase)
    requires KeptBySteps(P, race)
    requires P(Small(Cell(1, 0, 0, active, false), true, phase, Idle, [], []))
    ensures P(Small(Cell(1, 0, 0, active, true), false, phase, Idle, [0], []))
  {
    var w1 := Small(Cell(1, 0, 0, active, false), true, phase, Idle, [], []);
    var w2 := w1.(current := map[], retiring := [0]);
    assert Removed(w1.current, []) == {0} by {
      assert w1.current[1] == 0;
    }
    assert DoPublish(w1, [], [0]) == w2;
    Go(P, race, w1, Publish([], [0]), w2);
    var w3 := Small(Cell(1, 0, 0, active, true), false, phase, Idle, [0], []);
    assert Cancel(w2.cells, [0]) == w3.cells;
    assert DoRetire(w2) == w3;
    Go(P, race, w2, Retire, w3);
  }

  /** collectTraffic up to the read of `active`, on a retired state without traffic. */
  lemma SwapRetired(P: World -> bool, race: Race, active: nat, phase: ConnPhase)
    requires KeptBySteps(P, race)
    requires P(Small(Cell(1, 0, 0, active, true), false, phase, Idle, [0], []))
    ensures P(Small(Cell(1, 0, 0, active, true), false, phase, PassRead([0], [], false, Traffic(1, 0, 0)), [], []))
  {
    var cell := Cell(1, 0, 0, active, true);
    var w1 := Small(cell, false, phase, Idle, [0], []);
    var w2 := Small(cell, false, phase, Served([], []), [0], []);
    Go(P, race, w1, BeginCollect([]), w2);
    var w3 := Small(cell, false, phase, Pass([0], []), [], []);
    Go(P, race, w2, Lock, w3);
    var w4 := Small(cell, false, phase, PassHalf([0], [], Traffic(1, 0, 0), Traffic(1, 0, 0)), [], []);
    Go(P, race, w3, PassSwapUp, w4);
    Go(P, race, w4, PassSwapDown, Small(cell, false, phase, PassRead([0], [], false, Traffic(1, 0, 0)), [], []));
  }

  /**
    The counters are swapped before `active` is read, so a connection that counts
    and ends in between loses its bytes.
   */
  lemma LateCount(P: World -> bool, race: Race)
    requires race == CountRace
    requires KeptBySteps(P, race)
    ensures exists w :: P(w) && !Conserved(w, 1, Up)
  {
    ServeOne(P, race);
    var open := Cell(1, 0, 0, 1, false);
    assert Small(Cell(1, 0, 0, 0, false), true, LookedUp, Idle, [], []).current[1] == 0;
    Go(P, race, Small(Cell(1, 0, 0, 0, false), true, LookedUp, Idle, [], []), OpenConn(0),
      Small(open, true, Open, Idle, [], []));
    RemoveUser(P, race, 1, Open);
    SwapRetired(P, race, 1, Open);
    CountThenDrop(P, race);
    var w := Small(Cell(1, 5, 0, 0, true), false, Closed, Pass([], []), [], [Traffic(1, 5, 0)])
             .(lost := [Traffic(1, 5, 0)]);
    Unconserved(w);
  }

  lemma CountThenDrop(P: World -> bool, race: Race)
    requires race == CountRace
    requires KeptBySteps(P, race)
    requires P(Small(Cell(1, 0, 0, 1, true), false, Open, PassRead([0], [], false, Traffic(1, 0, 0)), [], []))
    ensures P(Small(Cell(1, 5, 0, 0, true), false, Closed, Pass([], []), [], [Traffic(1, 5, 0)])
              .(lost := [Traffic(1, 5, 0)]))
  {
    CountLate(P, race);
    var log := [Traffic(1, 5, 0)];
    var w := Small(Cell(1, 5, 0, 0, true), false, Closed, PassRead([0], [], false, Traffic(1, 5, 0)), [], log);
    var w' := w.(push := Pass([], []), lost := log);
    assert DoPassDecide(w) == w' by {
      assert [0][1..] == [] && [] + log == log;
    }
    Go(P, race, w, PassDecide, w');
  }

  /** The connection counts and ends before the pass decides. */
  lemma CountLate(P: World -> bool, race: Race)
    requires race == CountRace
    requires KeptBySteps(P, race)
    requires P(Small(Cell(1, 0, 0, 1, true), false, Open, PassRead([0], [], false, Traffic(1, 0, 0)), [], []))
    ensures P(Small(Cell(1, 5, 0, 0, true), false, Closed, PassRead([0], [], false, Traffic(1, 5, 0)), [],
                    [Traffic(1, 5, 0)]))
  {
    var w := Small(Cell(1, 0, 0, 1, true), false, Open, PassRead([0], [], false, Traffic(1, 0, 0)), [], []);
    var log := [Traffic(1, 5, 0)];
    var w' := Small(Cell(1, 5, 0, 1, true), false, Open, PassRead([0], [], false, Traffic(1, 5, 0)), [], log);
    assert DoCount(w, 0, 5, 0) == w' by {
      assert 0 in w.push.Undecided();
      assert [] + log == log;
    }
    Go(P, race, w, Count(0, 5, 0), w');
    Go(P, race, w', CloseConn(0), Small(Cell(1, 5, 0, 0, true), false, Closed, w'.push, [], log));
  }

  /** Five bytes were counted and nothing that is tracked, in flight or acknowledged holds them. */
  lemma Unconserved(w: World)
    requires Emptied(w)
    ensures !Conserved(w, 1, Up)
  {
    TotalSnoc([], Traffic(1, 5, 0), 1, Up);
    assert [] + [Traffic(1, 5, 0)] == w.counted;
    assert Tracked(w) == {};
    HeldZeroTail(w.cells, Tracked(w), 0, 1, Up);
  }

  /** A connection that looked its user up before the state was dropped, and opens after, loses its bytes. */
  lemma LateOpen(P: World -> bool, race: Race)
    requires race == OpenRace
    requires KeptBySteps(P, race)
    ensures exists w :: P(w) && !Conserved(w, 1, Up)
  {
    ServeOne(P, race);
    RemoveUser(P, race, 0, LookedUp);
    SwapRetired(P, race, 0, LookedUp);
    DropThenCount(P, race);
    var w :| P(w) && Emptied(w);
    Unconserved(w);
  }

  ghost predicate Emptied(w: World) {
    && w.counted == [Traffic(1, 5, 0)] && w.acked == [] && w.push == Pass([], [])
    && w.current == map[] && w.retiring == [] && w.retired == []
  }

  lemma DropThenCount(P: World -> bool, race: Race)
    requires race == OpenRace
    requires KeptBySteps(P, race)
    requires P(Small(Cell(1, 0, 0, 0, true), false, LookedUp, PassRead([0], [], false, Traffic(1, 0, 0)), [], []))
    ensures exists w :: P(w) && Emptied(w)
  {
    var cell := Cell(1, 0, 0, 0, true);
    var w1 := Small(cell, false, LookedUp, PassRead([0], [], false, Traffic(1, 0, 0)), [], []);
    var w2 := Small(cell, false, LookedUp, Pass([], []), [], []).(lost := [Traffic(1, 0, 0)]);
    assert DoPassDecide(w1) == w2 by {
      assert [0][1..] == [] && [] + [Traffic(1, 0, 0)] == [Traffic(1, 0, 0)];
    }
    Go(P, race, w1, PassDecide, w2);
    var w3 := Small(cell.(active := 1), false, Open, Pass([], []), [], []).(lost := [Traffic(1, 0, 0)]);
    Go(P, race, w2, OpenConn(0), w3);
    var w4 := DoCount(w3, 0, 5, 0);
    Go(P, race, w3, Count(0, 5, 0), w4);
    assert w4.counted == [] + [Traffic(1, 5, 0)];
    assert Emptied(w4);
  }

  /** A collect that started before an update published can end in restoreTraffic's fallback. */
  lemma Fallback(P: World -> bool, race: Race)
    requires race == OpenRace
    requires KeptBySteps(P, race)
    ensures exists w :: P(w) && Enabled(w, RestoreFind) && FallsBack(w)
  {
    ServeOne(P, race);
    var w1 := Small(Cell(1, 0, 0, 1, false), true, Open, Idle, [], []);
    Go(P, race, Small(Cell(1, 0, 0, 0, false), true, LookedUp, Idle, [], []), OpenConn(0), w1);
    CountThenRemove(P, race);
    var w :| P(w) && MidCollect(w);
    CollectThenFail(P, race, w);
  }

  /** A collect has taken its snapshot, and an update has since published a list without user 1. */
  ghost predicate MidCollect(w: World) {
    w.cells == [Cell(1, 5, 0, 1, false)] && w.current == map[] && w.retired == [] && w.push == Served([0], [])
  }

  lemma CountThenRemove(P: World -> bool, race: Race)
    requires race == OpenRace
    requires KeptBySteps(P, race)
    requires P(Small(Cell(1, 0, 0, 1, false), true, Open, Idle, [], []))
    ensures exists w :: P(w) && MidCollect(w)
  {
    var log := [Traffic(1, 5, 0)];
    var w1 := Small(Cell(1, 0, 0, 1, false), true, Open, Idle, [], []);
    var w2 := Small(Cell(1, 5, 0, 1, false), true, Open, Idle, [], log);
    assert DoCount(w1, 0, 5, 0) == w2 by {
      assert w1.current[1] == 0;
      assert 0 in Range(w1.current);
      assert [] + log == log;
    }
    Go(P, race, w1, Count(0, 5, 0), w2);
    var w3 := w2.(push := Served([0], []));
    assert Range(w2.current) == {0} by {
      assert w2.current[1] == 0;
    }
    Go(P, race, w2, BeginCollect([0]), w3);
    var w4 := w3.(current := map[], retiring := [0]);
    assert Removed(w3.current, []) == {0} by {
      assert w3.current[1] == 0;
    }
    assert DoPublish(w3, [], [0]) == w4;
    Go(P, race, w3, Publish([], [0]), w4);
    assert MidCollect(w4);
  }

  lemma CollectThenFail(P: World -> bool, race: Race, w: World)
    requires KeptBySteps(P, race)
    requires P(w)
    requires MidCollect(w)
    ensures exists w' :: P(w') && Enabled(w', RestoreFind) && FallsBack(w')
  {
    var w1 := w.(cells := [Cell(1, 0, 0, 1, false)], push := ServedHalf([0], [], Traffic(1, 5, 0)));
    Go(P, race, w, SwapUp, w1);
    var w2 := w1.(push := Served([], [Traffic(1, 5, 0)]));
    assert DoSwapDown(w1) == w2 by {
      assert [0][1..] == [] && [] + [Traffic(1, 5, 0)] == [Traffic(1, 5, 0)];
    }
    Go(P, race, w1, SwapDown, w2);
    CollectedThenFail(P, race, w2);
  }

  lemma CollectedThenFail(P: World -> bool, race: Race, w2: World)
    requires KeptBySteps(P, race)
    requires P(w2) && w2.cells == [Cell(1, 0, 0, 1, false)] && w2.current == map[] && w2.retired == []
    requires w2.push == Served([], [Traffic(1, 5, 0)])
    ensures exists w' :: P(w') && Enabled(w', RestoreFind) && FallsBack(w')
  {
    var w3 := w2.(push := Pass([], [Traffic(1, 5, 0)]));
    Go(P, race, w2, Lock, w3);
    var w4 := w2.(push := Reporting([Traffic(1, 5, 0)]));
    Go(P, race, w3, Unlock, w4);
    Failed(P, race, w4);
  }

  lemma Failed(P: World -> bool, race: Race, w: World)
    requires KeptBySteps(P, race)
    requires P(w) && w.current == map[] && w.retired == [] && w.push == Reporting([Traffic(1, 5, 0)])
    ensures exists w' :: P(w') && Enabled(w', RestoreFind) && FallsBack(w')
  {
    var w1 := w.(push := Restoring([Traffic(1, 5, 0)]));
    Go(P, race, w, ReportFails, w1);
    var w2 := w.(push := Finding([Traffic(1, 5, 0)]));
    Go(P, race, w1, RestoreGet, w2);
    assert FallsBack(w2);
  }

  // ---------------------------------------------------------------- what the code does not promise

  /** Even when no connection opens on a dropped state, bytes can be lost. */
  lemma LateCountLosesBytes()
    ensures exists w :: Reaches(CountRace, w) && !Conserved(w, 1, Up)
  {
    ReachesIsClosed(CountRace);
    LateCount(w => Reaches(CountRace, w), CountRace);
  }

  /** Even when no byte is counted on a state under examination, bytes can be lost. */
  lemma LateOpenLosesBytes()
    ensures exists w :: Reaches(OpenRace, w) && !Conserved(w, 1, Up)
  {
    ReachesIsClosed(OpenRace);
    LateOpen(w => Reaches(OpenRace, w), OpenRace);
  }

  lemma FallbackIsReachable()
    ensures exists w :: Reaches(OpenRace, w) && Enabled(w, RestoreFind) && FallsBack(w)
  {
    ReachesIsClosed(OpenRace);
    Fallback(w => Reaches(OpenRace, w), OpenRace);
  }
}
