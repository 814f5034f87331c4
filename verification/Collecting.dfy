/** Go maps. */
module GoMaps {
  import opened Common

  /** The order in which a `range` over the map happens to visit its keys. */
  method RangeOrder<T>(m: map<int, T>) returns (ids: seq<int>)
    ensures NoDup(ids)
    ensures forall id :: id in ids <==> id in m
    ensures forall k | 0 <= k < |ids| :: ids[k] in m
  {
    ids := [];
    var rest: set<int> := m.Keys;
    while rest != {}
      invariant rest <= m.Keys
      invariant forall id | id in rest :: id !in ids
      invariant NoDup(ids)
      invariant forall id :: id in ids <==> id in m && id !in rest
      decreases |rest|
    {
      ghost var some := Element(rest);
      var next :| next in rest;
      ids, rest := ids + [next], rest - {next};
    }
  }
}

/** What an uninterrupted collectTraffic does to the ledger, on values. */
module Collecting {
  import opened Common
  import opened Ledger
  import opened LedgerInvariant
  import opened Conservation

  /** The cells with the counters of `list` swapped to zero. */
  ghost function Drained(cells: seq<Cell>, list: seq<nat>): (r: seq<Cell>)
    ensures |r| == |cells|
    ensures forall i | 0 <= i < |cells| ::
              r[i] == if i in list then cells[i].(upload := 0, download := 0) else cells[i]
  {
    seq(|cells|, i requires 0 <= i < |cells| => if i in list then cells[i].(upload := 0, download := 0) else cells[i])
  }

  ghost predicate Bounded(cells: seq<Cell>, list: seq<nat>) {
    forall k | 0 <= k < |list| :: list[k] < |cells|
  }

  /** The items collected from `list`: one for each state with something to report. */
  ghost function Items(cells: seq<Cell>, list: seq<nat>): seq<Traffic>
    requires Bounded(cells, list)
  {
    if list == [] then []
    else
      var n := |list| - 1;
      var c := cells[list[n]];
      Append(Items(cells, list[..n]), Traffic(c.id, c.upload, c.download))
  }

  /** A retired state stays if it had traffic or has an open connection. */
  ghost predicate Stays(c: Cell) {
    c.upload != 0 || c.download != 0 || c.active > 0
  }

  ghost function Survivors(cells: seq<Cell>, list: seq<nat>): seq<nat>
    requires Bounded(cells, list)
  {
    if list == [] then []
    else
      var n := |list| - 1;
      Survivors(cells, list[..n]) + (if Stays(cells[list[n]]) then [list[n]] else [])
  }

  /** The entries a drop leaves in the log of late bytes: none, as nothing was counted meanwhile. */
  ghost function Dropped(cells: seq<Cell>, list: seq<nat>): (r: seq<Traffic>)
    requires Bounded(cells, list)
    ensures forall t | t in r :: t.Empty()
  {
    if list == [] then []
    else
      var n := |list| - 1;
      Dropped(cells, list[..n]) + (if Stays(cells[list[n]]) then [] else [Traffic(cells[list[n]].id, 0, 0)])
  }

  lemma SnocBounded(cells: seq<Cell>, list: seq<nat>, k: nat)
    requires k < |list| && Bounded(cells, list)
    ensures Bounded(cells, list[..k]) && Bounded(cells, list[..k + 1]) && list[k] < |cells|
    ensures list[..k + 1][..k] == list[..k] && list[..k + 1][k] == list[k]
  {
  }

  lemma Snoc(cells: seq<Cell>, list: seq<nat>, k: nat)
    requires k < |list| && Bounded(cells, list)
    ensures Bounded(cells, list[..k]) && Bounded(cells, list[..k + 1]) && list[k] < |cells|
    ensures var c := cells[list[k]];
            && Items(cells, list[..k + 1]) == Append(Items(cells, list[..k]), Traffic(c.id, c.upload, c.download))
            && Survivors(cells, list[..k + 1]) == Survivors(cells, list[..k]) + (if Stays(c) then [list[k]] else [])
            && Dropped(cells, list[..k + 1])
               == Dropped(cells, list[..k]) + (if Stays(c) then [] else [Traffic(c.id, 0, 0)])
  {
    SnocBounded(cells, list, k);
  }

  lemma SnocDrained(cells: seq<Cell>, list: seq<nat>, k: nat)
    requires k < |list| && list[k] < |cells|
    ensures var c := cells[list[k]];
            Drained(cells, list[..k + 1]) == Drained(cells, list[..k])[list[k] := c.(upload := 0, download := 0)]
  {
    assert forall r :: r in list[..k + 1] <==> r in list[..k] || r == list[k];
  }

  // ---------------------------------------------------------------- one state at a time

  /** Both counters of the next served state are swapped to zero. */
  ghost function ServedOne(w: World): World
    requires w.push.Served? && AtState(w)
  {
    var h := w.push.todo[0];
    var c := w.cells[h];
    w.(cells := w.cells[h := c.(upload := 0, download := 0)],
       push := Served(w.push.todo[1..], Append(w.push.items, Traffic(c.id, c.upload, c.download))))
  }

  lemma ServedOneSteps(w: World)
    requires w.push.Served? && AtState(w) && Reachable(w)
    ensures Reachable(ServedOne(w))
  {
    ReachableStep(w, SwapUp);
    var w1 := DoSwapUp(w);
    ReachableStep(w1, SwapDown);
    assert DoSwapDown(w1) == ServedOne(w);
  }

  /** Both counters of the next retired state are swapped to zero, and it stays or is dropped. */
  ghost function PassedOne(w: World): World
    requires w.push.Pass? && AtState(w)
  {
    var h := w.push.todo[0];
    var c := w.cells[h];
    w.(cells := w.cells[h := c.(upload := 0, download := 0)],
       retired := w.retired + (if Stays(c) then [h] else []),
       push := Pass(w.push.todo[1..], Append(w.push.items, Traffic(c.id, c.upload, c.download))),
       lost := w.lost + (if Stays(c) then [] else [Traffic(c.id, 0, 0)]))
  }

  lemma PassedOneSteps(w: World)
    requires w.push.Pass? && AtState(w) && Reachable(w)
    ensures Reachable(PassedOne(w))
  {
    ReachableStep(w, PassSwapUp);
    var w1 := DoPassSwapUp(w);
    ReachableStep(w1, PassSwapDown);
    var w2 := DoPassSwapDown(w1);
    ReachableStep(w2, PassDecide);
    PassedOneDecides(w, w1, w2);
  }

  lemma PassedOneDecides(w: World, w1: World, w2: World)
    requires w.push.Pass? && AtState(w) && w1 == DoPassSwapUp(w) && w2 == DoPassSwapDown(w1)
    ensures Enabled(w2, PassDecide) && DoPassDecide(w2) == PassedOne(w)
  {
    var h := w.push.todo[0];
    var c := w.cells[h];
    assert w2.cells == w.cells[h := c.(upload := 0, download := 0)];
    assert w2.push.hit <==> c.upload != 0 || c.download != 0;
  }

  /** The state after collectTraffic ran alone, visiting the served states in `order`. */
  ghost function Collected(w: World, order: seq<nat>): World
    requires Bounded(w.cells, order) && Bounded(w.cells, w.retired)
  {
    var items := Items(w.cells, order) + Items(w.cells, w.retired);
    w.(cells := Drained(Drained(w.cells, order), w.retired),
       retired := Survivors(w.cells, w.retired),
       push := if items == [] then Idle else Reporting(items),
       lost := w.lost + Dropped(w.cells, w.retired))
  }

  // ---------------------------------------------------------------- both passes

  /** Ranging visits a state once, so its counters are still the ones it had. */
  lemma DrainedOnce(cells: seq<Cell>, order: seq<nat>, k: nat)
    requires NoDup(order) && k < |order| && order[k] < |cells|
    ensures Drained(cells, order[..k])[order[k]] == cells[order[k]]
  {
    assert forall j | 0 <= j < k :: order[..k][j] == order[j];
    assert order[k] !in order[..k];
  }

  /** `k` served states are collected. */
  ghost function MidServed(w: World, order: seq<nat>, k: nat): World
    requires k <= |order| && Bounded(w.cells, order)
  {
    w.(cells := Drained(w.cells, order[..k]), push := Served(order[k..], Items(w.cells, order[..k])))
  }

  lemma MidServedNext(w: World, order: seq<nat>, k: nat)
    requires k < |order| && Bounded(w.cells, order) && NoDup(order)
    ensures var m := MidServed(w, order, k);
            AtState(m) && m.push.todo[0] == order[k] && ServedOne(m) == MidServed(w, order, k + 1)
  {
    assert order[k..][0] == order[k] && order[k..][1..] == order[k + 1..];
    DrainedOnce(w.cells, order, k);
    Snoc(w.cells, order, k);
    SnocDrained(w.cells, order, k);
  }

  /** The served pass is over and `k` retired states are decided. */
  ghost function MidPass(w: World, order: seq<nat>, k: nat): World
    requires k <= |w.retired| && Bounded(w.cells, order) && Bounded(w.cells, w.retired)
  {
    w.(cells := Drained(Drained(w.cells, order), w.retired[..k]),
       retired := Survivors(w.cells, w.retired[..k]),
       push := Pass(w.retired[k..], Items(w.cells, order) + Items(w.cells, w.retired[..k])),
       lost := w.lost + Dropped(w.cells, w.retired[..k]))
  }

  ghost predicate Apart(w: World, order: seq<nat>) {
    && Bounded(w.cells, order) && Bounded(w.cells, w.retired) && NoDup(order) && NoDup(w.retired)
    && forall k | 0 <= k < |w.retired| :: w.retired[k] !in order
  }

  lemma MidPassStart(w: World, order: seq<nat>)
    requires Apart(w, order)
    ensures DoLock(MidServed(w, order, |order|)) == MidPass(w, order, 0)
  {
    assert order[..|order|] == order && w.retired[0..] == w.retired;
    assert Drained(Drained(w.cells, order), w.retired[..0]) == Drained(w.cells, order);
    assert Items(w.cells, order) + [] == Items(w.cells, order);
    assert w.lost + [] == w.lost;
  }

  lemma MidPassNext(w: World, order: seq<nat>, k: nat)
    requires Apart(w, order) && k < |w.retired|
    ensures var m := MidPass(w, order, k);
            AtState(m) && m.push.todo[0] == w.retired[k] && m.cells[w.retired[k]] == w.cells[w.retired[k]]
  {
    assert w.retired[k..][0] == w.retired[k];
    DrainedOnce(Drained(w.cells, order), w.retired, k);
  }

  lemma AppendConcat(a: seq<Traffic>, b: seq<Traffic>, t: Traffic)
    ensures Append(a + b, t) == a + Append(b, t)
  {
    assert (a + b) + [t] == a + (b + [t]);
  }

  lemma MidPassStep(w: World, order: seq<nat>, k: nat)
    requires Apart(w, order) && k < |w.retired| && AtState(MidPass(w, order, k))
    ensures PassedOne(MidPass(w, order, k)) == MidPass(w, order, k + 1)
  {
    MidPassNext(w, order, k);
    var m, m' := PassedOne(MidPass(w, order, k)), MidPass(w, order, k + 1);
    var h := w.retired[k];
    var c := w.cells[h];
    Snoc(w.cells, w.retired, k);
    assert w.retired[k..][1..] == w.retired[k + 1..];
    AppendConcat(Items(w.cells, order), Items(w.cells, w.retired[..k]), Traffic(c.id, c.upload, c.download));
    assert m.push == m'.push;
    assert m.lost == m'.lost;
    assert m.cells == m'.cells by {
      SnocDrained(Drained(w.cells, order), w.retired, k);
    }
  }

  lemma MidPassEnd(w: World, order: seq<nat>)
    requires Apart(w, order)
    ensures var m := MidPass(w, order, |w.retired|);
            m.push.todo == [] && DoUnlock(m) == Collected(w, order)
  {
    assert w.retired[..|w.retired|] == w.retired;
  }

  /** The pass keeps exactly the states that stay. */
  lemma {:induction false} SurvivorsAre(cells: seq<Cell>, list: seq<nat>, r: nat)
    requires Bounded(cells, list)
    ensures r in Survivors(cells, list) <==>
            r in list && (cells[r].upload != 0 || cells[r].download != 0 || cells[r].active > 0)
  {
    if list != [] {
      var n := |list| - 1;
      assert list == list[..n] + [list[n]];
      SurvivorsAre(cells, list[..n], r);
    }
  }

  /** In the order they had. */
  lemma {:induction false} SurvivorsKeepOrder(cells: seq<Cell>, list: seq<nat>, i: nat, j: nat)
    requires Bounded(cells, list) && i < j < |Survivors(cells, list)|
    ensures exists i', j' ::
              0 <= i' < j' < |list| && list[i'] == Survivors(cells, list)[i] && list[j'] == Survivors(cells, list)[j]
  {
    var n := |list| - 1;
    var front := list[..n];
    var s, s' := Survivors(cells, front), Survivors(cells, list);
    if j < |s| {
      SurvivorsKeepOrder(cells, front, i, j);
      var i', j' :| 0 <= i' < j' < n && front[i'] == s[i] && front[j'] == s[j];
      assert list[i'] == s'[i] && list[j'] == s'[j];
    } else {
      SurvivorsAre(cells, front, s[i]);
      var i' :| 0 <= i' < n && front[i'] == s[i];
      assert list[i'] == s'[i] && list[n] == s'[j];
    }
  }

  /** The first collect: a retired state is kept exactly if it had traffic or has a connection, and is empty after. */
  lemma {:induction false} AfterOne(w: World, order: seq<nat>, r: nat)
    requires Bounded(w.cells, order) && Bounded(w.cells, w.retired)
    ensures var w' := Collected(w, order);
            && Bounded(w'.cells, w'.retired)
            && (r in w'.retired <==> r in w.retired && Stays(w.cells[r]))
            && (r in w'.retired ==> w'.cells[r] == w.cells[r].(upload := 0, download := 0))
  {
    var w' := Collected(w, order);
    SurvivorsAre(w.cells, w.retired, r);
    forall k | 0 <= k < |w'.retired| ensures w'.retired[k] < |w'.cells| {
      SurvivorsAre(w.cells, w.retired, w'.retired[k]);
    }
  }

  /** A second collect with no new traffic leaves only retired states that still have a connection. */
  lemma {:induction false} IdleGoneAfterTwo(w: World, order: seq<nat>, w': World, order': seq<nat>, r: nat)
    requires Bounded(w.cells, order) && Bounded(w.cells, w.retired)
    requires w'.cells == Collected(w, order).cells && w'.retired == Collected(w, order).retired
    requires Bounded(w'.cells, order')
    ensures Bounded(w'.cells, w'.retired)
    ensures r in Collected(w', order').retired <==> r in w.retired && w.cells[r].active > 0
  {
    AfterOne(w, order, r);
    AfterOne(w', order', r);
  }

  // ---------------------------------------------------------------- what a collect takes

  lemma {:induction false} DroppedNothing(cells: seq<Cell>, list: seq<nat>, id: int, dir: Direction)
    requires Bounded(cells, list)
    ensures Total(Dropped(cells, list), id, dir) == 0
  {
    TotalOfEmpty(Dropped(cells, list), id, dir);
  }

  /** After a collect every state it visited is empty. */
  lemma NothingHeld(w: World, order: seq<nat>, id: int, dir: Direction)
    requires Apart(w, order) && w.retiring == [] && Lists(order, Range(w.current))
    ensures var w' := Collected(w, order); Held(w'.cells, Tracked(w'), id, dir) == 0
  {
    var w' := Collected(w, order);
    forall r | 0 <= r < |w'.cells| ensures Part(w'.cells, Tracked(w'), r, id, dir) == 0 {
      SurvivorsAre(w.cells, w.retired, r);
      assert r in Tracked(w') ==> r in order || r in w.retired;
    }
    HeldZeroTail(w'.cells, Tracked(w'), 0, id, dir);
  }

  /**
    A collect that runs alone, with no removed user waiting to be retired, takes
    everything the table holds: what was counted and not acknowledged is in its
    items, except what an earlier drop lost.
   */
  lemma {:induction false} CollectTakesAll(w: World, order: seq<nat>, id: int, dir: Direction)
    requires Reachable(w) && w.push.Idle? && w.retiring == [] && Lists(order, Range(w.current)) && Apart(w, order)
    requires Reachable(Collected(w, order))
    ensures var items := Collected(w, order).push.Holding();
            && Total(items, id, dir) == Held(w.cells, Tracked(w), id, dir)
            && Total(w.counted, id, dir) == Total(w.acked, id, dir) + Total(items, id, dir) + Total(w.lost, id, dir)
  {
    ReachableKeeps(w, id, dir);
    ReachableKeeps(Collected(w, order), id, dir);
    NothingHeld(w, order, id, dir);
    CollectLosesNothing(w, order, id, dir);
    AllTaken(w, Collected(w, order), id, dir);
  }

  lemma AllTaken(w: World, w': World, id: int, dir: Direction)
    requires Law(w, id, dir) && Law(w', id, dir) && w.push.Idle? && w'.counted == w.counted && w'.acked == w.acked
    requires Total(w'.lost, id, dir) == Total(w.lost, id, dir) && Held(w'.cells, Tracked(w'), id, dir) == 0
    ensures Total(w'.push.Holding(), id, dir) == Held(w.cells, Tracked(w), id, dir)
    ensures Total(w.counted, id, dir)
            == Total(w.acked, id, dir) + Total(w'.push.Holding(), id, dir) + Total(w.lost, id, dir)
  {
    assert Total(w.push.Holding(), id, dir) == 0;
  }

  /** What a push must neither lose nor invent: the bytes of a user not yet acknowledged. */
  ghost function Owed(w: World, id: int, dir: Direction): nat {
    Total(w.push.Holding(), id, dir) + Held(w.cells, Tracked(w), id, dir)
  }

  /** Between two states with the same bytes counted, acknowledged and lost, the same bytes are owed. */
  lemma SameOwed(w: World, w': World, id: int, dir: Direction)
    requires Reachable(w) && Reachable(w') && w'.counted == w.counted
    requires Total(w'.lost, id, dir) == Total(w.lost, id, dir)
    ensures Total(w'.acked, id, dir) + Owed(w', id, dir) == Total(w.acked, id, dir) + Owed(w, id, dir)
  {
    ReachableKeeps(w, id, dir);
    ReachableKeeps(w', id, dir);
  }

  lemma CollectLosesNothing(w: World, order: seq<nat>, id: int, dir: Direction)
    requires Bounded(w.cells, order) && Bounded(w.cells, w.retired)
    ensures Total(Collected(w, order).lost, id, dir) == Total(w.lost, id, dir)
  {
    DroppedNothing(w.cells, w.retired, id, dir);
    TotalConcat(w.lost, Dropped(w.cells, w.retired), id, dir);
  }

  // ---------------------------------------------------------------- update

  /** The state after update ran alone. */
  ghost function Updated(w: World, ids: seq<int>, order: seq<nat>): World {
    DoRetire(DoPublish(w, ids, order))
  }

  // ---------------------------------------------------------------- restoreTraffic

  /** restoreTraffic has found, or made, the state for its next item. */
  ghost function Found(w: World): World
    requires w.push.Restoring? && AtItem(w)
  {
    var w1 := DoRestoreGet(w);
    if w1.push.Finding? then DoRestoreFind(w1) else w1
  }

  lemma FoundSteps(w: World)
    requires w.push.Restoring? && AtItem(w) && Reachable(w)
    ensures Reachable(Found(w)) && Found(w).push == Adding(w.push.items, Found(w).push.cell)
    ensures Known(Found(w), Found(w).push.cell)
    ensures AtItem(Found(w)) && Found(w).cells[Found(w).push.cell].id == w.push.items[0].userId
  {
    ReachableStep(w, RestoreGet);
    var w1 := DoRestoreGet(w);
    if w1.push.Finding? {
      ReachableStep(w1, RestoreFind);
    }
    ReachableKeeps(Found(w), 0, Up);
    TrackedBounded(Found(w));
  }

  lemma FoundCases(w: World)
    requires w.push.Restoring? && AtItem(w)
    ensures var id := w.push.items[0].userId;
            if id in w.current then Found(w) == w.(push := Adding(w.push.items, w.current[id]))
            else
              match FindRetired(w.cells, w.retired, id)
              case Some(r) => Found(w) == w.(push := Adding(w.push.items, r))
              case None =>
                Found(w) == w.(cells := w.cells + [Cell(id, 0, 0, 0, true)], retired := w.retired + [|w.cells|],
                               push := Adding(w.push.items, |w.cells|))
  {
  }

  /** The next item is added to the counters of its state. */
  ghost function Added(w: World): World
    requires w.push.Adding? && AtItem(w) && Known(w, w.push.cell)
  {
    var t, c := w.push.items[0], w.cells[w.push.cell];
    w.(cells := w.cells[w.push.cell := c.(upload := c.upload + t.upload, download := c.download + t.download)],
       push := if |w.push.items| == 1 then Idle else Restoring(w.push.items[1..]))
  }

  lemma AddedSteps(w: World)
    requires w.push.Adding? && AtItem(w) && Known(w, w.push.cell) && Reachable(w)
    ensures Reachable(Added(w))
  {
    ReachableStep(w, AddUp);
    var w1 := DoAddUp(w);
    ReachableStep(w1, AddDown);
    var items := w.push.items;
    assert ([items[0].(upload := 0)] + items[1..])[1..] == items[1..];
    assert DoAddDown(w1) == Added(w);
  }
}
