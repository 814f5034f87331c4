/** Every step of the ledger machine keeps its invariant. */
module LedgerInvariant {
  import opened Common
  import opened Ledger

  /** update publishes states served before and not removed, and states made now. */
  lemma PublishedAreKnown(w: World, ids: seq<int>, id: int)
    requires Inv(w) && id in ids
    ensures var r := Serve(w.current, ids, |w.cells|)[id];
            if id in w.current then r == w.current[id] && r !in Removed(w.current, ids)
            else
              && |w.cells| <= r < |w.cells| + |FreshCells(w.current, ids)|
              && FreshCells(w.current, ids)[r - |w.cells|] == Cell(id, 0, 0, 0, false)
  {
    if id in w.current {
      ServesKept(w.current, ids, |w.cells|, id);
      var r := w.current[id];
      forall id' | id' in w.current && id' !in ids ensures w.current[id'] != r {
        assert w.cells[w.current[id']].id == id' && w.cells[r].id == id;
      }
    } else {
      ServesFresh(w.current, ids, |w.cells|, id);
    }
  }

  lemma PublishTracks(w: World, ids: seq<int>, order: seq<nat>)
    requires Inv(w) && Enabled(w, Publish(ids, order))
    ensures Tracked(w) <= Tracked(DoPublish(w, ids, order))
    ensures forall r | r in Tracked(DoPublish(w, ids, order)) :: r in Tracked(w) || |w.cells| <= r
  {
    var w' := DoPublish(w, ids, order);
    forall id | id in w.current ensures w.current[id] in Tracked(w') {
      if id in ids {
        ServesKept(w.current, ids, |w.cells|, id);
        assert w'.current[id] in Range(w'.current);
      } else {
        assert w.current[id] in Removed(w.current, ids);
      }
    }
    forall id | id in w'.current ensures w'.current[id] in Tracked(w) || |w.cells| <= w'.current[id] {
      PublishedAreKnown(w, ids, id);
    }
    forall r | r in order ensures r in Tracked(w) {
      assert r in Removed(w.current, ids);
    }
  }

  lemma PublishKeeps(w: World, ids: seq<int>, order: seq<nat>)
    requires Inv(w) && Enabled(w, Publish(ids, order))
    ensures Inv(DoPublish(w, ids, order))
    ensures Tracked(w) <= Tracked(DoPublish(w, ids, order))
    ensures forall r | r in Tracked(DoPublish(w, ids, order)) :: r in Tracked(w) || |w.cells| <= r
  {
    var w' := DoPublish(w, ids, order);
    PublishTracks(w, ids, order);
    PublishSeparates(w, ids, order);
    PublishActives(w, ids, order);
    PublishPhase(w, ids, order);
  }

  lemma PublishActives(w: World, ids: seq<int>, order: seq<nat>)
    requires Inv(w) && Enabled(w, Publish(ids, order))
    ensures Actives(DoPublish(w, ids, order))
  {
    var w' := DoPublish(w, ids, order);
    forall r | 0 <= r < |w'.cells| ensures w'.cells[r].active == NumOpen(w'.conns, r) {
      if r >= |w.cells| {
        assert w'.cells[r] == FreshCells(w.current, ids)[r - |w.cells|];
        NumOpenNone(w.conns, r);
      }
    }
  }

  lemma PublishedFits(w: World, ids: seq<int>, order: seq<nat>, id: int)
    requires Inv(w) && id in ids
    requires forall r | r in order :: r in Removed(w.current, ids)
    ensures FromServedOrNew(w, FreshCells(w.current, ids), order, id, Serve(w.current, ids, |w.cells|)[id])
  {
    PublishedAreKnown(w, ids, id);
    if id in w.current {
      assert w.current[id] in Range(w.current);
    }
  }

  lemma PublishSeparates(w: World, ids: seq<int>, order: seq<nat>)
    requires Inv(w) && w.retiring == [] && Lists(order, Removed(w.current, ids))
    ensures var w' := DoPublish(w, ids, order); Refs(w') && Names(w') && Separate(w')
  {
    var added, next := FreshCells(w.current, ids), Serve(w.current, ids, |w.cells|);
    forall id | id in next ensures FromServedOrNew(w, added, order, id, next[id]) {
      PublishedFits(w, ids, order, id);
    }
    assert forall r | r in order :: r in Range(w.current) by {
      assert Removed(w.current, ids) <= Range(w.current);
    }
    MovingSeparates(w, DoPublish(w, ids, order), added);
  }

  ghost predicate FromServedOrNew(w: World, added: seq<Cell>, removed: seq<nat>, id: int, r: nat)
    requires Refs(w)
  {
    || (r in Range(w.current) && r < |w.cells| && r !in removed && w.cells[r].id == id && !w.cells[r].cancelled)
    || (|w.cells| <= r < |w.cells| + |added| && added[r - |w.cells|].id == id && !added[r - |w.cells|].cancelled)
  }

  lemma MovingSeparates(w: World, w': World, added: seq<Cell>)
    requires Inv(w) && w.retiring == []
    requires w' == w.(cells := w.cells + added, current := w'.current, retiring := w'.retiring)
    requires NoDup(w'.retiring) && forall r | r in w'.retiring :: r in Range(w.current)
    requires forall id | id in w'.current :: FromServedOrNew(w, added, w'.retiring, id, w'.current[id])
    ensures Refs(w') && Names(w') && Separate(w')
  {
  }

  lemma PublishPhase(w: World, ids: seq<int>, order: seq<nat>)
    requires Inv(w) && Enabled(w, Publish(ids, order))
    requires Refs(DoPublish(w, ids, order))
    requires Tracked(w) <= Tracked(DoPublish(w, ids, order))
    ensures InPhase(DoPublish(w, ids, order))
  {
    TrackedBounded(w);
  }

  lemma TrackedBounded(w: World)
    requires Refs(w)
    ensures forall r | r in Tracked(w) :: r < |w.cells|
  {
  }

  lemma RetireKeeps(w: World)
    requires Inv(w) && Enabled(w, Retire)
    ensures Inv(DoRetire(w))
    ensures Tracked(DoRetire(w)) == Tracked(w)
  {
    var w' := DoRetire(w);
    assert forall r :: r in w'.retired <==> r in w.retired || r in w.retiring;
    assert Tracked(w') == Tracked(w);
    assert NoDup(w'.retired) by {
      NoDupConcat(w.retired, w.retiring);
    }
    assert Refs(w');
    forall id | id in w'.current ensures !w'.cells[w'.current[id]].cancelled && w'.cells[w'.current[id]].id == id {
      assert w.current[id] in Range(w.current);
    }
    assert Names(w');
    assert Separate(w');
    assert InPhase(w');
  }

  lemma NoDupConcat(a: seq<nat>, b: seq<nat>)
    requires NoDup(a) && NoDup(b)
    requires forall x | x in b :: x !in a
    ensures NoDup(a + b)
  {
    forall i, j | 0 <= i < j < |a + b| ensures (a + b)[i] != (a + b)[j] {
      if i < |a| <= j {
        assert a[i] in a && b[j - |a|] in b;
      }
    }
  }

  lemma LookupKeeps(w: World, id: int)
    requires Inv(w) && Enabled(w, Lookup(id))
    ensures Inv(DoLookup(w, id))
    ensures Tracked(DoLookup(w, id)) == Tracked(w)
  {
    var w' := DoLookup(w, id);
    assert w.current[id] in Range(w.current);
    assert Tracked(w') == Tracked(w);
    forall r | 0 <= r < |w.cells| ensures w'.cells[r].active == NumOpen(w'.conns, r) {
      NumOpenSnoc(w.conns, Conn(w.current[id], LookedUp), r);
    }
    assert Refs(w');
    assert InPhase(w');
  }

  lemma OpenKeeps(w: World, c: nat)
    requires Inv(w) && Enabled(w, OpenConn(c))
    ensures Inv(DoOpen(w, c))
    ensures Tracked(DoOpen(w, c)) == Tracked(w)
  {
    var w' := DoOpen(w, c);
    assert Tracked(w') == Tracked(w);
    forall r | 0 <= r < |w.cells| ensures w'.cells[r].active == NumOpen(w'.conns, r) {
      NumOpenUpdate(w.conns, c, Conn(w.conns[c].cell, Open), r);
    }
    SameShape(w, w');
  }

  lemma CloseKeeps(w: World, c: nat)
    requires Inv(w) && Enabled(w, CloseConn(c))
    ensures Inv(DoClose(w, c))
    ensures Tracked(DoClose(w, c)) == Tracked(w)
  {
    var w' := DoClose(w, c);
    assert Tracked(w') == Tracked(w);
    forall r | 0 <= r < |w.cells| ensures w'.cells[r].active == NumOpen(w'.conns, r) {
      NumOpenUpdate(w.conns, c, Conn(w.conns[c].cell, Closed), r);
    }
    SameShape(w, w');
  }

  /** A step that moves no state and changes no counter keeps everything but the connection counts. */
  lemma SameShape(w: World, w': World)
    requires Inv(w)
    requires w'.current == w.current && w'.retiring == w.retiring && w'.retired == w.retired && w'.push == w.push
    requires |w'.cells| == |w.cells|
    requires forall r | 0 <= r < |w.cells| :: w'.cells[r] == w.cells[r].(active := w'.cells[r].active)
    requires forall k | 0 <= k < |w'.conns| :: w'.conns[k].cell < |w.cells|
    ensures Refs(w') && Names(w') && Separate(w') && InPhase(w')
  {
    assert Tracked(w') == Tracked(w);
  }

  lemma CountKeeps(w: World, c: nat, up: nat, down: nat)
    requires Inv(w) && Enabled(w, Count(c, up, down))
    ensures Inv(DoCount(w, c, up, down))
    ensures Tracked(DoCount(w, c, up, down)) == Tracked(w)
  {
    var w' := DoCount(w, c, up, down);
    assert w'.push.Undecided() == w.push.Undecided();
    assert Tracked(w') == Tracked(w);
    assert Refs(w');
    assert InPhase(w');
  }

  lemma BeginKeeps(w: World, order: seq<nat>)
    requires Inv(w) && Enabled(w, BeginCollect(order))
    ensures Inv(DoBegin(w, order))
    ensures Tracked(DoBegin(w, order)) == Tracked(w)
  {
    var w' := DoBegin(w, order);
    assert Tracked(w') == Tracked(w);
    assert Refs(w');
  }

  /** The push goroutine changed the counters of `r` and its own phase, nothing else. */
  lemma CounterKeeps(w: World, w': World, r: nat)
    requires Inv(w) && r in Tracked(w) && r < |w'.cells|
    requires w' == w.(cells := w.cells[r := w'.cells[r]], push := w'.push)
    requires w'.cells[r] == w.cells[r].(upload := w'.cells[r].upload, download := w'.cells[r].download)
    requires w'.push.Undecided() == w.push.Undecided()
    ensures Tracked(w') == Tracked(w)
    ensures Refs(w') && Names(w') && Separate(w') && Actives(w')
  {
    assert Tracked(w') == Tracked(w);
  }

  lemma SwapUpKeeps(w: World)
    requires Inv(w) && Enabled(w, SwapUp)
    ensures Inv(DoSwapUp(w))
    ensures Tracked(DoSwapUp(w)) == Tracked(w)
  {
    CounterKeeps(w, DoSwapUp(w), w.push.todo[0]);
  }

  lemma SwapDownKeeps(w: World)
    requires Inv(w) && Enabled(w, SwapDown)
    ensures Inv(DoSwapDown(w))
    ensures Tracked(DoSwapDown(w)) == Tracked(w)
  {
    CounterKeeps(w, DoSwapDown(w), w.push.todo[0]);
    assert forall r | r in w.push.todo[1..] :: r in w.push.todo;
  }

  lemma LockKeeps(w: World)
    requires Inv(w) && Enabled(w, Lock)
    ensures Inv(DoLock(w))
    ensures Tracked(DoLock(w)) == Tracked(w)
  {
    var w' := DoLock(w);
    assert Tracked(w') == Tracked(w);
    assert Refs(w');
  }

  lemma PassSwapUpKeeps(w: World)
    requires Inv(w) && Enabled(w, PassSwapUp)
    ensures Inv(DoPassSwapUp(w))
    ensures Tracked(DoPassSwapUp(w)) == Tracked(w)
  {
    assert w.push.todo[0] in Tracked(w);
    CounterKeeps(w, DoPassSwapUp(w), w.push.todo[0]);
  }

  lemma PassSwapDownKeeps(w: World)
    requires Inv(w) && Enabled(w, PassSwapDown)
    ensures Inv(DoPassSwapDown(w))
    ensures Tracked(DoPassSwapDown(w)) == Tracked(w)
  {
    CounterKeeps(w, DoPassSwapDown(w), w.push.todo[0]);
  }

  lemma Tail(todo: seq<nat>)
    requires NoDup(todo) && todo != []
    ensures NoDup(todo[1..]) && todo[0] !in todo[1..]
    ensures forall x :: x in todo <==> x == todo[0] || x in todo[1..]
  {
    assert todo == [todo[0]] + todo[1..];
    assert forall j | 0 <= j < |todo[1..]| :: todo[1..][j] == todo[j + 1];
  }

  lemma PassDecideKeeps(w: World)
    requires Inv(w) && Enabled(w, PassDecide)
    ensures Inv(DoPassDecide(w))
    ensures Tracked(DoPassDecide(w)) == if Drops(w) then Tracked(w) - {w.push.todo[0]} else Tracked(w)
  {
    var w' := DoPassDecide(w);
    var todo := w.push.todo;
    Tail(todo);
    NoDupConcat(w.retired, [todo[0]]);
    assert w.push.Undecided() == todo && w'.push.Undecided() == todo[1..];
    assert forall x :: x in w'.retired <==> x in w.retired || (x == todo[0] && !Drops(w));
    assert Separate(w');
    assert Tracked(w') == if Drops(w) then Tracked(w) - {todo[0]} else Tracked(w);
  }

  lemma UnlockKeeps(w: World)
    requires Inv(w) && Enabled(w, Unlock)
    ensures Inv(DoUnlock(w))
    ensures Tracked(DoUnlock(w)) == Tracked(w)
  {
    var w' := DoUnlock(w);
    assert Tracked(w') == Tracked(w);
    assert Refs(w');
  }

  lemma ReportKeeps(w: World)
    requires Inv(w) && w.push.Reporting?
    ensures Inv(DoAcknowledge(w)) && Inv(DoReportFails(w))
    ensures Tracked(DoAcknowledge(w)) == Tracked(w)
    ensures Tracked(DoReportFails(w)) == Tracked(w)
  {
    var a, f := DoAcknowledge(w), DoReportFails(w);
    assert Tracked(a) == Tracked(w) && Tracked(f) == Tracked(w);
    assert Refs(a) && Refs(f);
  }

  lemma RestoreGetKeeps(w: World)
    requires Inv(w) && Enabled(w, RestoreGet)
    ensures Inv(DoRestoreGet(w))
    ensures Tracked(DoRestoreGet(w)) == Tracked(w)
  {
    var w' := DoRestoreGet(w);
    assert Tracked(w') == Tracked(w);
    assert Refs(w');
    var id := w.push.items[0].userId;
    if id in w.current {
      assert w.current[id] in Range(w.current);
    }
  }

  lemma RestoreFindKeeps(w: World)
    requires Inv(w) && Enabled(w, RestoreFind)
    ensures Inv(DoRestoreFind(w))
    ensures Tracked(DoRestoreFind(w)) == if FallsBack(w) then Tracked(w) + {|w.cells|} else Tracked(w)
  {
    var w' := DoRestoreFind(w);
    var n := |w.cells|;
    assert n !in w.retired && n !in w.retiring && n !in Range(w.current);
    assert forall x :: x in w'.retired <==> x in w.retired || (x == n && FallsBack(w));
    assert Tracked(w') == if FallsBack(w) then Tracked(w) + {n} else Tracked(w);
    assert NoDup(w'.retired) by {
      NoDupConcat(w.retired, [n]);
    }
    NumOpenNone(w.conns, n);
    assert Refs(w');
    assert Names(w');
    assert Separate(w');
    assert Actives(w');
  }

  lemma AddUpKeeps(w: World)
    requires Inv(w) && Enabled(w, AddUp)
    ensures Inv(DoAddUp(w))
    ensures Tracked(DoAddUp(w)) == Tracked(w)
  {
    CounterKeeps(w, DoAddUp(w), w.push.cell);
  }

  lemma AddDownKeeps(w: World)
    requires Inv(w) && Enabled(w, AddDown)
    ensures Inv(DoAddDown(w))
    ensures Tracked(DoAddDown(w)) == Tracked(w)
  {
    CounterKeeps(w, DoAddDown(w), w.push.cell);
  }

  /** The step tracks what was tracked, unless it dropped it, and otherwise only states it made. */
  ghost predicate TracksOn(w: World, s: Step, w': World)
    requires Inv(w) && Enabled(w, s)
  {
    && (forall r | r in Tracked(w) :: r in Tracked(w') || (s == PassDecide && Drops(w) && r == w.push.todo[0]))
    && (forall r | r in Tracked(w') :: r in Tracked(w) || |w.cells| <= r)
    && |w.cells| <= |w'.cells|
  }

  lemma PullStepKeeps(w: World, s: Step)
    requires Inv(w) && Enabled(w, s)
    requires s.Publish? || s.Retire?
    ensures Inv(Apply(w, s)) && TracksOn(w, s, Apply(w, s))
  {
    match s
    case Publish(ids, order) => PublishKeeps(w, ids, order);
    case Retire => RetireKeeps(w);
  }

  lemma ConnStepKeeps(w: World, s: Step)
    requires Inv(w) && Enabled(w, s)
    requires s.Lookup? || s.OpenConn? || s.Count? || s.CloseConn?
    ensures Inv(Apply(w, s)) && TracksOn(w, s, Apply(w, s))
  {
    match s
    case Lookup(id) => LookupKeeps(w, id);
    case OpenConn(c) => OpenKeeps(w, c);
    case Count(c, up, down) => CountKeeps(w, c, up, down);
    case CloseConn(c) => CloseKeeps(w, c);
  }

  lemma CollectStepKeeps(w: World, s: Step)
    requires Inv(w) && Enabled(w, s)
    requires s.BeginCollect? || s.SwapUp? || s.SwapDown? || s.Lock?
    ensures Inv(Apply(w, s)) && TracksOn(w, s, Apply(w, s))
  {
    match s
    case BeginCollect(order) => BeginKeeps(w, order);
    case SwapUp => SwapUpKeeps(w);
    case SwapDown => SwapDownKeeps(w);
    case Lock => LockKeeps(w);
  }

  lemma PassStepKeeps(w: World, s: Step)
    requires Inv(w) && Enabled(w, s)
    requires s.PassSwapUp? || s.PassSwapDown? || s.PassDecide? || s.Unlock?
    ensures Inv(Apply(w, s)) && TracksOn(w, s, Apply(w, s))
  {
    match s
    case PassSwapUp => PassSwapUpKeeps(w);
    case PassSwapDown => PassSwapDownKeeps(w);
    case PassDecide => PassDecideKeeps(w);
    case Unlock => UnlockKeeps(w);
  }

  lemma ReportStepKeeps(w: World, s: Step)
    requires Inv(w) && Enabled(w, s)
    requires s.Acknowledge? || s.ReportFails? || s.RestoreGet?
    ensures Inv(Apply(w, s)) && TracksOn(w, s, Apply(w, s))
  {
    match s
    case Acknowledge => ReportKeeps(w);
    case ReportFails => ReportKeeps(w);
    case RestoreGet => RestoreGetKeeps(w);
  }

  lemma RestoreStepKeeps(w: World, s: Step)
    requires Inv(w) && Enabled(w, s)
    requires s.RestoreFind? || s.AddUp? || s.AddDown?
    ensures Inv(Apply(w, s)) && TracksOn(w, s, Apply(w, s))
  {
    match s
    case RestoreFind => RestoreFindKeeps(w);
    case AddUp => AddUpKeeps(w);
    case AddDown => AddDownKeeps(w);
  }

  /** Every step keeps the invariant; only the pass over the retired list stops tracking a state. */
  lemma StepKeeps(w: World, s: Step)
    requires Inv(w) && Enabled(w, s)
    ensures Inv(Apply(w, s)) && TracksOn(w, s, Apply(w, s))
  {
    if s.Publish? || s.Retire? {
      PullStepKeeps(w, s);
    } else if s.Lookup? || s.OpenConn? || s.Count? || s.CloseConn? {
      ConnStepKeeps(w, s);
    } else if s.BeginCollect? || s.SwapUp? || s.SwapDown? || s.Lock? {
      CollectStepKeeps(w, s);
    } else if s.PassSwapUp? || s.PassSwapDown? || s.PassDecide? || s.Unlock? {
      PassStepKeeps(w, s);
    } else if s.RestoreFind? || s.AddUp? || s.AddDown? {
      RestoreStepKeeps(w, s);
    } else {
      ReportStepKeeps(w, s);
    }
  }

  /**
    The push goroutine is never stuck: it waits for a tick, has a report to hear
    about, or has a step to take.
   */
  lemma PushNeverStuck(w: World)
    requires Inv(w)
    ensures w.push.Idle? || exists s :: PushStep(s) && Enabled(w, s)
  {
    TrackedBounded(w);
    match w.push
    case Idle =>
    case Served(todo, _) =>
      if todo == [] {
        assert Enabled(w, Lock);
      } else {
        assert Enabled(w, SwapUp) by {
          assert todo[0] in Tracked(w);
        }
      }
    case ServedHalf(todo, _, _) => assert Enabled(w, SwapDown);
    case Pass(todo, _) =>
      if todo == [] {
        assert Enabled(w, Unlock);
      } else {
        assert Enabled(w, PassSwapUp) by {
          assert todo[0] in w.push.Undecided();
        }
      }
    case PassHalf(_, _, _, _) => assert Enabled(w, PassSwapDown);
    case PassRead(_, _, _, _) => assert Enabled(w, PassDecide);
    case Reporting(_) => assert Enabled(w, Acknowledge);
    case Restoring(_) => assert Enabled(w, RestoreGet);
    case Finding(_) => assert Enabled(w, RestoreFind);
    case Adding(_, _) => assert Enabled(w, AddUp);
    case AddingDown(_, _) => assert Enabled(w, AddDown);
  }

  ghost predicate PushStep(s: Step) {
    !s.Publish? && !s.Retire? && !s.Lookup? && !s.OpenConn? && !s.Count? && !s.CloseConn?
  }
}
