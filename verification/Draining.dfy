/**
  What a collect leaves behind, whatever the other goroutines do meanwhile: an idle
  retired state goes with the second pass, and the last collect of Close misses only
  what is counted after it began.
 */
module Draining {
  import opened Ledger
  import opened LedgerInvariant
  import opened Conservation
  import opened Lifecycle

  // ---------------------------------------------------------------- idle retired states

  /** The step opens no connection on `r`, counts nothing on it and restores nothing to it. */
  ghost predicate Quiet(w: World, s: Step, r: nat) {
    match s
    case OpenConn(c) => c < |w.conns| ==> w.conns[c].cell != r
    case Count(c, _, _) => c < |w.conns| ==> w.conns[c].cell != r
    case AddUp => w.push.Adding? ==> w.push.cell != r
    case AddDown => w.push.AddingDown? ==> w.push.cell != r
    case _ => true
  }

  /** From step `n` on, every step is quiet about `r`; other users do as they like. */
  ghost predicate QuietSince(steps: seq<Step>, n: nat, r: nat)
    requires IsRun(steps)
    decreases |steps|
  {
    |steps| <= n || (QuietSince(Front(steps), n, r) && Quiet(Exec(Front(steps)), Last(steps), r))
  }

  /** A pass over the retired list began at or after step `n`. */
  ghost predicate LockedSince(steps: seq<Step>, n: nat) {
    exists i :: n <= i < |steps| && steps[i] == Lock
  }

  /** How many passes that began at or after step `n` are over. */
  ghost function Passes(steps: seq<Step>, n: nat): nat {
    if |steps| <= n then 0
    else Passes(Front(steps), n) + (if Last(steps) == Unlock && LockedSince(Front(steps), n) then 1 else 0)
  }

  ghost predicate Empty(w: World, r: nat)
    requires r < |w.cells|
  {
    w.cells[r].upload == 0 && w.cells[r].download == 0
  }

  /** The pass has swapped what it can have swapped of `r`. */
  ghost predicate Swapped(w: World, r: nat)
    requires r < |w.cells|
  {
    Examined(w, r) ==> w.cells[r].upload == 0 && (w.push.PassRead? ==> w.cells[r].download == 0)
  }

  /** The pass has found nothing on `r`. */
  ghost predicate Silent(w: World, r: nat) {
    Examined(w, r) ==> if w.push.PassHalf? then w.push.hand.upload == 0 else !w.push.hit
  }

  /**
    Where a retired state without connections is, after `passes` whole passes and, if
    `locked`, in or after another: looked at and empty after the first, gone after the
    second.
   */
  ghost predicate Drains(w: World, r: nat, locked: bool, passes: nat) {
    && r < |w.cells| && w.cells[r].active == 0 && r !in Range(w.current) && r !in w.retiring
    && (locked && passes == 0 ==>
          w.push.LockHeld() && (r in w.push.Undecided() || Empty(w, r) || r !in Tracked(w)) && Swapped(w, r))
    && (passes >= 1 ==> (Empty(w, r) || r !in Tracked(w)) && (w.push.LockHeld() ==> r !in w.retired) && Silent(w, r))
    && (passes >= 2 ==> r !in Tracked(w))
  }

  /** A step of the pull goroutine or of a connection. */
  lemma OthersDrain(w: World, s: Step, r: nat, locked: bool, passes: nat)
    requires Inv(w) && Enabled(w, s) && Quiet(w, s, r) && Drains(w, r, locked, passes)
    requires s.Publish? || s.Retire? || s.Lookup? || s.OpenConn? || s.Count? || s.CloseConn?
    ensures Drains(Apply(w, s), r, locked, passes)
  {
    StepKeeps(w, s);
    var w' := Apply(w, s);
    if s.Publish? {
      forall id | id in w'.current ensures w'.current[id] != r {
        ServedIdentity(w, s, id);
      }
    }
  }

  /** A step of the push goroutine outside the pass. */
  lemma PushDrains(w: World, s: Step, r: nat, locked: bool, passes: nat)
    requires Inv(w) && Enabled(w, s) && Quiet(w, s, r) && Drains(w, r, locked, passes)
    requires s.BeginCollect? || s.SwapUp? || s.SwapDown? || s.Acknowledge? || s.ReportFails?
             || s.RestoreGet? || s.RestoreFind? || s.AddUp? || s.AddDown?
    ensures Drains(Apply(w, s), r, locked, passes)
  {
    StepKeeps(w, s);
  }

  lemma LockDrains(w: World, r: nat, locked: bool, passes: nat)
    requires Inv(w) && Enabled(w, Lock) && Drains(w, r, locked, passes)
    ensures Drains(DoLock(w), r, true, passes)
  {
    StepKeeps(w, Lock);
  }

  lemma UnlockDrains(w: World, r: nat, locked: bool, passes: nat)
    requires Inv(w) && Enabled(w, Unlock) && Drains(w, r, locked, passes)
    ensures Drains(DoUnlock(w), r, locked, if locked then passes + 1 else passes)
  {
    StepKeeps(w, Unlock);
  }

  lemma SwapDrains(w: World, s: Step, r: nat, locked: bool, passes: nat)
    requires Inv(w) && Enabled(w, s) && Drains(w, r, locked, passes)
    requires s.PassSwapUp? || s.PassSwapDown?
    ensures Drains(Apply(w, s), r, locked, passes)
  {
    StepKeeps(w, s);
    assert w.push.todo[0] in w.push.Undecided();
  }

  lemma DecideDrains(w: World, r: nat, locked: bool, passes: nat)
    requires Inv(w) && Enabled(w, PassDecide) && Drains(w, r, locked, passes)
    ensures Drains(DoPassDecide(w), r, locked, passes)
  {
    StepKeeps(w, PassDecide);
    var h := w.push.todo[0];
    assert h in w.push.Undecided();
    assert forall x | x in w.push.todo :: x == h || x in w.push.todo[1..];
  }

  lemma StepDrains(w: World, s: Step, r: nat, locked: bool, passes: nat)
    requires Inv(w) && Enabled(w, s) && Quiet(w, s, r) && Drains(w, r, locked, passes)
    ensures Drains(Apply(w, s), r, locked || s == Lock, if s == Unlock && locked then passes + 1 else passes)
  {
    if s == Lock {
      LockDrains(w, r, locked, passes);
    } else if s == Unlock {
      UnlockDrains(w, r, locked, passes);
    } else if s.PassSwapUp? || s.PassSwapDown? {
      SwapDrains(w, s, r, locked, passes);
    } else if s == PassDecide {
      DecideDrains(w, r, locked, passes);
    } else if s.Publish? || s.Retire? || s.Lookup? || s.OpenConn? || s.Count? || s.CloseConn? {
      OthersDrain(w, s, r, locked, passes);
    } else {
      PushDrains(w, s, r, locked, passes);
    }
  }

  lemma LockedSnoc(steps: seq<Step>, n: nat)
    requires |steps| > n
    ensures LockedSince(steps, n) <==> LockedSince(Front(steps), n) || Last(steps) == Lock
  {
    if i :| n <= i < |Front(steps)| && Front(steps)[i] == Lock {
      assert steps[i] == Lock;
    }
  }

  /** A retired state, or one the running pass has still to decide about. */
  ghost predicate IsRetired(w: World, r: nat) {
    r in w.retired || r in w.push.Undecided()
  }

  lemma {:induction false} RunDrains(steps: seq<Step>, n: nat, r: nat)
    requires IsRun(steps) && n <= |steps| && IsRun(steps[..n]) && QuietSince(steps, n, r)
    requires var w := Exec(steps[..n]); IsRetired(w, r) && r < |w.cells| && w.cells[r].active == 0
    ensures Drains(Exec(steps), r, LockedSince(steps, n), Passes(steps, n))
    decreases |steps|
  {
    if n == |steps| {
      assert steps[..n] == steps;
      RunKeepsInv(steps);
    } else {
      assert Front(steps)[..n] == steps[..n];
      RunDrains(Front(steps), n, r);
      RunKeepsInv(Front(steps));
      StepDrains(Exec(Front(steps)), Last(steps), r, LockedSince(Front(steps), n), Passes(Front(steps), n));
      LockedSnoc(steps, n);
    }
  }

  /**
    A retired state without connections is gone once two passes that began since are
    over, however the other users, updates, reports and restores go on: only a
    connection of its own or a restore to it could have kept it.
   */
  lemma {:induction false} IdleGoneAfterTwoPasses(steps: seq<Step>, n: nat, r: nat)
    requires IsRun(steps) && n <= |steps| && IsRun(steps[..n]) && QuietSince(steps, n, r)
    requires var w := Exec(steps[..n]); IsRetired(w, r) && r < |w.cells| && w.cells[r].active == 0
    requires Passes(steps, n) >= 2
    ensures r !in Tracked(Exec(steps))
  {
    RunDrains(steps, n, r);
  }

  // ---------------------------------------------------------------- what a collect misses

  /** The push goroutine is in collectTraffic. */
  ghost predicate Collecting(p: Push) {
    p.Served? || p.ServedHalf? || p.LockHeld()
  }

  /** The states whose counter the running collect has still to swap. */
  ghost function ToSwap(w: World, dir: Direction): set<nat> {
    match w.push
    case Served(todo, _) => Elems(todo) + Elems(w.retired)
    case ServedHalf(todo, _, _) => Elems(if dir.Up? && todo != [] then todo[1..] else todo) + Elems(w.retired)
    case Pass(todo, _) => Elems(todo)
    case PassHalf(todo, _, _, _) => Elems(if dir.Up? && todo != [] then todo[1..] else todo)
    case PassRead(todo, _, _, _) => Elems(if todo != [] then todo[1..] else todo)
    case _ => {}
  }

  ghost function Swept(w: World, dir: Direction): set<nat> {
    Tracked(w) - ToSwap(w, dir)
  }

  /** The states the collect is done with hold no more than was counted since `before` bytes were. */
  ghost predicate Sweeps(w: World, id: int, dir: Direction, before: nat) {
    Held(w.cells, Swept(w, dir), id, dir) + before <= Total(w.counted, id, dir)
  }

  lemma {:induction false} HeldAtMost(a: seq<Cell>, ta: set<nat>, b: seq<Cell>, tb: set<nat>, n: nat, id: int,
                                      dir: Direction)
    requires n <= |a| && n <= |b|
    requires forall i | 0 <= i < n :: Part(b, tb, i, id, dir) <= Part(a, ta, i, id, dir)
    ensures HeldUpTo(b, tb, n, id, dir) <= HeldUpTo(a, ta, n, id, dir)
  {
    if n > 0 {
      HeldAtMost(a, ta, b, tb, n - 1, id, dir);
    }
  }

  /** A step that counts nothing and leaves no swept state with more than it had. */
  lemma NothingAdded(w: World, w': World, id: int, dir: Direction, before: nat)
    requires Sweeps(w, id, dir, before) && w'.counted == w.counted && |w'.cells| == |w.cells|
    requires forall i | 0 <= i < |w.cells| ::
               Part(w'.cells, Swept(w', dir), i, id, dir) <= Part(w.cells, Swept(w, dir), i, id, dir)
    ensures Sweeps(w', id, dir, before)
  {
    HeldAtMost(w.cells, Swept(w, dir), w'.cells, Swept(w', dir), |w.cells|, id, dir);
  }

  lemma PublishSweeps(w: World, s: Step, id: int, dir: Direction, before: nat)
    requires Inv(w) && Enabled(w, s) && s.Publish? && Collecting(w.push) && Sweeps(w, id, dir, before)
    ensures Sweeps(Apply(w, s), id, dir, before)
  {
    StepKeeps(w, s);
    var w' := Apply(w, s);
    TrackedBounded(w);
    forall r | 0 <= r < |w.cells| ensures r in Swept(w, dir) <==> r in Swept(w', dir) {
      assert r in Tracked(w) <==> r in Tracked(w');
    }
    HeldGrows(w.cells, FreshCells(w.current, s.ids), Swept(w, dir), Swept(w', dir), id, dir);
  }

  lemma CountSweptSame(w: World, c: nat, up: nat, down: nat, dir: Direction)
    requires Enabled(w, Count(c, up, down))
    ensures Swept(DoCount(w, c, up, down), dir) == Swept(w, dir)
  {
    CountSinceHolds(w.push, w.conns[c].cell, up, down);
  }

  lemma CountSweeps(w: World, c: nat, up: nat, down: nat, id: int, dir: Direction, before: nat)
    requires Inv(w) && Enabled(w, Count(c, up, down)) && Sweeps(w, id, dir, before)
    ensures Sweeps(DoCount(w, c, up, down), id, dir, before)
  {
    var w' := DoCount(w, c, up, down);
    var r := w.conns[c].cell;
    CountSweptSame(w, c, up, down, dir);
    var t := Traffic(w.cells[r].id, up, down);
    CreditHeld(w.cells, Swept(w, dir), r, up, down, id, dir);
    TotalSnoc(w.counted, t, id, dir);
    SweepsMore(w, w', Share(t, id, dir), id, dir, before);
  }

  lemma SweepsMore(w: World, w': World, share: nat, id: int, dir: Direction, before: nat)
    requires Sweeps(w, id, dir, before) && Total(w'.counted, id, dir) == Total(w.counted, id, dir) + share
    requires Held(w'.cells, Swept(w', dir), id, dir) <= Held(w.cells, Swept(w, dir), id, dir) + share
    ensures Sweeps(w', id, dir, before)
  {
  }

  lemma OtherSweeps(w: World, s: Step, id: int, dir: Direction, before: nat)
    requires Inv(w) && Enabled(w, s) && Collecting(w.push) && Sweeps(w, id, dir, before)
    requires s.Retire? || s.Lookup? || s.OpenConn? || s.CloseConn?
    ensures Sweeps(Apply(w, s), id, dir, before)
  {
    StepKeeps(w, s);
    NothingAdded(w, Apply(w, s), id, dir, before);
  }

  lemma ServedSwapSweeps(w: World, s: Step, id: int, dir: Direction, before: nat)
    requires Inv(w) && Enabled(w, s) && Sweeps(w, id, dir, before) && (s.SwapUp? || s.SwapDown?)
    ensures Sweeps(Apply(w, s), id, dir, before)
  {
    StepKeeps(w, s);
    TodoSplits(w.push.todo);
    NothingAdded(w, Apply(w, s), id, dir, before);
  }

  lemma PassSwapSweeps(w: World, s: Step, id: int, dir: Direction, before: nat)
    requires Inv(w) && Enabled(w, s) && Sweeps(w, id, dir, before) && (s.PassSwapUp? || s.PassSwapDown?)
    ensures Sweeps(Apply(w, s), id, dir, before)
  {
    StepKeeps(w, s);
    TodoSplits(w.push.todo);
    NothingAdded(w, Apply(w, s), id, dir, before);
  }

  lemma TodoSplits(todo: seq<nat>)
    requires todo != []
    ensures forall x :: x in todo <==> x == todo[0] || x in todo[1..]
  {
  }

  lemma PassSweeps(w: World, s: Step, id: int, dir: Direction, before: nat)
    requires Inv(w) && Enabled(w, s) && Sweeps(w, id, dir, before)
    requires s.Lock? || s.PassDecide? || s.Unlock?
    ensures Sweeps(Apply(w, s), id, dir, before)
  {
    StepKeeps(w, s);
    NothingAdded(w, Apply(w, s), id, dir, before);
  }

  lemma StepSweeps(w: World, s: Step, id: int, dir: Direction, before: nat)
    requires Inv(w) && Enabled(w, s) && Collecting(w.push) && Sweeps(w, id, dir, before)
    ensures Sweeps(Apply(w, s), id, dir, before) && (s != Unlock ==> Collecting(Apply(w, s).push))
    ensures s == Unlock ==> ToSwap(Apply(w, s), dir) == {}
  {
    if s.Publish? {
      PublishSweeps(w, s, id, dir, before);
    } else if s.Count? {
      CountSweeps(w, s.conn, s.up, s.down, id, dir, before);
    } else if s.SwapUp? || s.SwapDown? {
      ServedSwapSweeps(w, s, id, dir, before);
    } else if s.PassSwapUp? || s.PassSwapDown? {
      PassSwapSweeps(w, s, id, dir, before);
    } else if s.Lock? || s.PassDecide? || s.Unlock? {
      PassSweeps(w, s, id, dir, before);
    } else {
      OtherSweeps(w, s, id, dir, before);
    }
  }

  /** A collect that begins with no removed user waiting to be retired has everything before it. */
  lemma BeginSweeps(w: World, order: seq<nat>, id: int, dir: Direction)
    requires Inv(w) && Enabled(w, BeginCollect(order)) && w.retiring == []
    ensures Sweeps(DoBegin(w, order), id, dir, Total(w.counted, id, dir))
  {
    var w' := DoBegin(w, order);
    assert Swept(w', dir) == {};
    HeldZeroTail(w'.cells, {}, 0, id, dir);
  }

  /** The collect that begins at step `n` runs to the end of `steps`. */
  ghost predicate CollectsFrom(steps: seq<Step>, n: nat)
    requires IsRun(steps)
  {
    && n < |steps| && steps[n].BeginCollect? && (forall i | n < i < |steps| - 1 :: steps[i] != Unlock)
  }

  lemma {:induction false} RunSweeps(steps: seq<Step>, n: nat, id: int, dir: Direction)
    requires IsRun(steps) && CollectsFrom(steps, n) && IsRun(steps[..n]) && Exec(steps[..n]).retiring == []
    ensures Sweeps(Exec(steps), id, dir, Total(Exec(steps[..n]).counted, id, dir))
    ensures Last(steps) != Unlock ==> Collecting(Exec(steps).push)
    ensures Last(steps) == Unlock ==> ToSwap(Exec(steps), dir) == {}
    decreases |steps|
  {
    RunKeepsInv(Front(steps));
    FrontCollects(steps, n);
    if |steps| - 1 == n {
      BeginSweeps(Exec(steps[..n]), steps[n].order, id, dir);
    } else {
      RunSweeps(Front(steps), n, id, dir);
      StepSweeps(Exec(Front(steps)), Last(steps), id, dir, Total(Exec(steps[..n]).counted, id, dir));
    }
  }

  lemma FrontCollects(steps: seq<Step>, n: nat)
    requires IsRun(steps) && CollectsFrom(steps, n)
    ensures if |steps| - 1 == n then Front(steps) == steps[..n]
            else CollectsFrom(Front(steps), n) && Front(steps)[..n] == steps[..n] && Last(Front(steps)) != Unlock
  {
    if n < |steps| - 1 {
      var front := Front(steps);
      assert forall i | 0 <= i < |front| :: front[i] == steps[i];
    }
  }

  /**
    Whatever connections count and updates do meanwhile, what was counted before a
    collect began is acknowledged or in its items when it ends, but for bytes lost to a
    late count.  So the last collect of Close misses only what is counted after it began.
   */
  lemma {:induction false} CollectMissesOnlyLater(steps: seq<Step>, n: nat, id: int, dir: Direction)
    requires IsRun(steps) && CollectsFrom(steps, n) && Last(steps) == Unlock
    requires IsRun(steps[..n]) && Exec(steps[..n]).retiring == []
    ensures var w := Exec(steps);
            Total(Exec(steps[..n]).counted, id, dir) <= Total(w.acked, id, dir) + Total(w.push.Holding(), id, dir)
              + Total(w.lost, id, dir)
    ensures TimelyRun(steps) ==> Total(Exec(steps).lost, id, dir) == 0
  {
    var w := Exec(steps);
    RunSweeps(steps, n, id, dir);
    assert Swept(w, dir) == Tracked(w);
    EveryByteAccounted(steps, id, dir);
    if TimelyRun(steps) {
      TimelyRunsLoseNothing(steps);
      TotalOfEmpty(w.lost, id, dir);
    }
  }
}
