/**
  The traffic ledger of a node as an interleaving machine.

  The pull goroutine (userTable.update), the push goroutine (collectTraffic, the
  report, restoreTraffic) and every connection goroutine share the user table.
  Each step below is one atomic action of that code: an atomic load, store or
  swap, or a section under userTable.access.  A user state object is named by its
  handle, the position of its cell in `World.cells`; a cell outlives the object's
  place in the table, because connections keep the object they started with.

  The fields `counted`, `acked`, `lost` and `since` are history: no
  step reads them to decide what to do.
 */
module Ledger {
  import opened Common

  datatype Direction = Up | Down

  /** adapter.UserTraffic. */
  datatype Traffic = Traffic(userId: int, upload: nat, download: nat) {
    function Bytes(dir: Direction): nat {
      if dir.Up? then upload else download
    }

    predicate Empty() {
      upload == 0 && download == 0
    }
  }

  /** The accounting part of a userState. */
  datatype Cell = Cell(id: int, upload: nat, download: nat, active: nat, cancelled: bool) {
    function Bytes(dir: Direction): nat {
      if dir.Up? then upload else download
    }
  }

  datatype ConnPhase = LookedUp | Open | Closed

  datatype Conn = Conn(cell: nat, phase: ConnPhase)

  /** Where the push goroutine is. */
  datatype Push =
    | Idle
    | Served(todo: seq<nat>, items: seq<Traffic>)
    | ServedHalf(todo: seq<nat>, items: seq<Traffic>, hand: Traffic)
    | Pass(todo: seq<nat>, items: seq<Traffic>)
    | PassHalf(todo: seq<nat>, items: seq<Traffic>, hand: Traffic, since: Traffic)
    | PassRead(todo: seq<nat>, items: seq<Traffic>, hit: bool, since: Traffic)
    | Reporting(items: seq<Traffic>)
    | Restoring(items: seq<Traffic>)
    | Finding(items: seq<Traffic>)
    | Adding(items: seq<Traffic>, cell: nat)
    | AddingDown(items: seq<Traffic>, cell: nat)
  {
    /** userTable.access is held across the pass over the retired list. */
    predicate LockHeld() {
      Pass? || PassHalf? || PassRead?
    }

    /** The retired states the pass has not decided about yet. */
    function Undecided(): seq<nat> {
      if LockHeld() then todo else []
    }

    /** Bytes taken out of the counters and neither acknowledged nor put back. */
    function Holding(): seq<Traffic> {
      if Idle? then []
      else if ServedHalf? || PassHalf? then items + [hand]
      else items
    }
  }

  datatype World = World(
    cells: seq<Cell>,
    current: map<int, nat>,
    retiring: seq<nat>,
    retired: seq<nat>,
    conns: seq<Conn>,
    push: Push,
    counted: seq<Traffic>,
    acked: seq<Traffic>,
    lost: seq<Traffic>)

  datatype Step =
    // update, on the pull goroutine
    | Publish(ids: seq<int>, order: seq<nat>)
    | Retire
    // a connection goroutine
    | Lookup(id: int)
    | OpenConn(conn: nat)
    | Count(conn: nat, up: nat, down: nat)
    | CloseConn(conn: nat)
    // collectTraffic, the report and restoreTraffic, on the push goroutine
    | BeginCollect(order: seq<nat>)
    | SwapUp
    | SwapDown
    | Lock
    | PassSwapUp
    | PassSwapDown
    | PassDecide
    | Unlock
    | Acknowledge
    | ReportFails
    | RestoreGet
    | RestoreFind
    | AddUp
    | AddDown

  const Init: World := World([], map[], [], [], [], Idle, [], [], [])

  // ---------------------------------------------------------------- lists

  /** `order` is one way for Go to range over the elements of `s`. */
  ghost predicate Lists(order: seq<nat>, s: set<nat>) {
    && NoDup(order)
    && (forall r :: r in order ==> r in s)
    && (forall r :: r in s ==> r in order)
  }

  ghost function Range(m: map<int, nat>): set<nat> {
    set id | id in m :: m[id]
  }

  ghost function Elems(s: seq<nat>): set<nat> {
    set r | r in s
  }

  // ---------------------------------------------------------------- sums

  /** What the items of one user add up to in one direction. */
  ghost function Total(items: seq<Traffic>, id: int, dir: Direction): nat {
    if |items| == 0 then 0
    else
      var last := items[|items| - 1];
      Total(items[..|items| - 1], id, dir) + (if last.userId == id then last.Bytes(dir) else 0)
  }

  ghost function Share(t: Traffic, id: int, dir: Direction): nat {
    if t.userId == id then t.Bytes(dir) else 0
  }

  lemma TotalSnoc(items: seq<Traffic>, t: Traffic, id: int, dir: Direction)
    ensures Total(items + [t], id, dir) == Total(items, id, dir) + Share(t, id, dir)
  {
    assert (items + [t])[..|items|] == items;
  }

  lemma {:induction false} TotalConcat(a: seq<Traffic>, b: seq<Traffic>, id: int, dir: Direction)
    ensures Total(a + b, id, dir) == Total(a, id, dir) + Total(b, id, dir)
  {
    if |b| == 0 {
      assert a + b == a;
    } else {
      var n := |b| - 1;
      assert (a + b)[..|a + b| - 1] == a + b[..n];
      TotalConcat(a, b[..n], id, dir);
    }
  }

  lemma TotalCons(items: seq<Traffic>, id: int, dir: Direction)
    requires items != []
    ensures Total(items, id, dir) == Share(items[0], id, dir) + Total(items[1..], id, dir)
  {
    assert items == [items[0]] + items[1..];
    TotalConcat([items[0]], items[1..], id, dir);
    TotalSnoc([], items[0], id, dir);
    assert [] + [items[0]] == [items[0]];
  }

  /** What cell `r` contributes to user `id`, if it is one of `tracked`. */
  ghost function Part(cells: seq<Cell>, tracked: set<nat>, r: nat, id: int, dir: Direction): nat
    requires r < |cells|
  {
    if r in tracked && cells[r].id == id then cells[r].Bytes(dir) else 0
  }

  ghost function HeldUpTo(cells: seq<Cell>, tracked: set<nat>, n: nat, id: int, dir: Direction): nat
    requires n <= |cells|
  {
    if n == 0 then 0
    else HeldUpTo(cells, tracked, n - 1, id, dir) + Part(cells, tracked, n - 1, id, dir)
  }

  /** The counters of all tracked states of user `id`. */
  ghost function Held(cells: seq<Cell>, tracked: set<nat>, id: int, dir: Direction): nat {
    HeldUpTo(cells, tracked, |cells|, id, dir)
  }

  /** Two tables that agree everywhere but at `r` differ by what `r` contributes. */
  lemma {:induction false} HeldDiffersAt(
      a: seq<Cell>, ta: set<nat>, b: seq<Cell>, tb: set<nat>, r: nat, n: nat, id: int, dir: Direction)
    requires n <= |a| && n <= |b|
    requires forall i | 0 <= i < n && i != r :: Part(a, ta, i, id, dir) == Part(b, tb, i, id, dir)
    ensures r >= n ==> HeldUpTo(b, tb, n, id, dir) == HeldUpTo(a, ta, n, id, dir)
    ensures r < n ==> HeldUpTo(b, tb, n, id, dir) + Part(a, ta, r, id, dir)
                      == HeldUpTo(a, ta, n, id, dir) + Part(b, tb, r, id, dir)
  {
    if n > 0 {
      HeldDiffersAt(a, ta, b, tb, r, n - 1, id, dir);
      if n - 1 != r {
        assert Part(a, ta, n - 1, id, dir) == Part(b, tb, n - 1, id, dir);
      }
    }
  }

  lemma HeldUpdate(cells: seq<Cell>, tracked: set<nat>, r: nat, c: Cell, id: int, dir: Direction)
    requires r < |cells|
    ensures Held(cells[r := c], tracked, id, dir) + Part(cells, tracked, r, id, dir)
            == Held(cells, tracked, id, dir) + Part(cells[r := c], tracked, r, id, dir)
  {
    HeldDiffersAt(cells, tracked, cells[r := c], tracked, r, |cells|, id, dir);
  }

  lemma {:induction false} HeldZeroTail(cells: seq<Cell>, tracked: set<nat>, n: nat, id: int, dir: Direction)
    requires n <= |cells|
    requires forall i | n <= i < |cells| :: Part(cells, tracked, i, id, dir) == 0
    ensures Held(cells, tracked, id, dir) == HeldUpTo(cells, tracked, n, id, dir)
    decreases |cells| - n
  {
    if n < |cells| {
      HeldZeroTail(cells, tracked, n + 1, id, dir);
    }
  }

  /** Appending empty cells, and tracking any of them, moves no byte. */
  lemma HeldGrows(cells: seq<Cell>, added: seq<Cell>, ta: set<nat>, tb: set<nat>, id: int, dir: Direction)
    requires forall c | c in added :: c.upload == 0 && c.download == 0
    requires forall r | 0 <= r < |cells| :: r in ta <==> r in tb
    ensures Held(cells + added, tb, id, dir) == Held(cells, ta, id, dir)
  {
    var b := cells + added;
    forall i | 0 <= i < |cells| && i != |cells| ensures Part(cells, ta, i, id, dir) == Part(b, tb, i, id, dir) {
    }
    HeldDiffersAt(cells, ta, b, tb, |cells|, |cells|, id, dir);
    forall i | |cells| <= i < |b| ensures Part(b, tb, i, id, dir) == 0 {
      assert b[i] == added[i - |cells|];
    }
    HeldZeroTail(b, tb, |cells|, id, dir);
  }

  /** How many connections of cell `r` are open. */
  ghost function NumOpen(conns: seq<Conn>, r: nat): nat {
    if |conns| == 0 then 0
    else
      var last := conns[|conns| - 1];
      NumOpen(conns[..|conns| - 1], r) + (if last == Conn(r, Open) then 1 else 0)
  }

  lemma NumOpenSnoc(conns: seq<Conn>, c: Conn, r: nat)
    ensures NumOpen(conns + [c], r) == NumOpen(conns, r) + (if c == Conn(r, Open) then 1 else 0)
  {
    assert (conns + [c])[..|conns|] == conns;
  }

  lemma {:induction false} NumOpenUpdate(conns: seq<Conn>, k: nat, c: Conn, r: nat)
    requires k < |conns|
    ensures NumOpen(conns[k := c], r) + (if conns[k] == Conn(r, Open) then 1 else 0)
            == NumOpen(conns, r) + (if c == Conn(r, Open) then 1 else 0)
  {
    var n := |conns| - 1;
    if k < n {
      assert conns[k := c][..n] == conns[..n][k := c];
      NumOpenUpdate(conns[..n], k, c, r);
    } else {
      assert conns[k := c][..n] == conns[..n];
    }
  }

  lemma {:induction false} NumOpenNone(conns: seq<Conn>, r: nat)
    ensures NumOpen(conns, r) == 0 <==> forall k | 0 <= k < |conns| :: conns[k] != Conn(r, Open)
  {
    if |conns| > 0 {
      var n := |conns| - 1;
      NumOpenNone(conns[..n], r);
      if forall k | 0 <= k < n :: conns[..n][k] != Conn(r, Open) {
        assert forall k | 0 <= k < n :: conns[k] != Conn(r, Open);
      } else {
        var k :| 0 <= k < n && conns[..n][k] == Conn(r, Open);
        assert conns[k] == Conn(r, Open);
      }
    }
  }

  // ---------------------------------------------------------------- what is tracked

  /**
    The states the table still knows: served, removed but not yet on the retired
    list, and retired (the part of the list already kept by a running pass and the
    part it still has to look at).
   */
  ghost function Tracked(w: World): set<nat> {
    Range(w.current) + Elems(w.retiring) + Elems(w.retired) + Elems(w.push.Undecided())
  }

  /** The retired state whose counters the pass has swapped but whose connections it has not read. */
  ghost predicate Examined(w: World, r: nat) {
    (w.push.PassHalf? || w.push.PassRead?) && w.push.todo != [] && w.push.todo[0] == r
  }

  // ---------------------------------------------------------------- invariant

  ghost predicate Refs(w: World) {
    && (forall id | id in w.current :: w.current[id] < |w.cells|)
    && (forall r | r in w.retiring :: r < |w.cells|)
    && (forall r | r in w.retired :: r < |w.cells|)
    && (forall r | r in w.push.Undecided() :: r < |w.cells|)
    && (forall k | 0 <= k < |w.conns| :: w.conns[k].cell < |w.cells|)
  }

  /** A served ID leads to a state of that ID which is not cancelled; a retired state is cancelled. */
  ghost predicate Names(w: World)
    requires Refs(w)
  {
    && (forall id | id in w.current :: w.cells[w.current[id]].id == id && !w.cells[w.current[id]].cancelled)
    && (forall r | r in w.retired :: w.cells[r].cancelled)
    && (forall r | r in w.push.Undecided() :: w.cells[r].cancelled)
  }

  /** No state is in two places. */
  ghost predicate Separate(w: World) {
    && NoDup(w.retiring) && NoDup(w.retired) && NoDup(w.push.Undecided())
    && (forall r | r in w.retiring :: r !in w.retired && r !in w.push.Undecided() && r !in Range(w.current))
    && (forall r | r in w.retired :: r !in w.push.Undecided() && r !in Range(w.current))
    && (forall r | r in w.push.Undecided() :: r !in Range(w.current))
  }

  ghost predicate Actives(w: World) {
    forall r | 0 <= r < |w.cells| :: w.cells[r].active == NumOpen(w.conns, r)
  }

  ghost predicate InPhase(w: World)
    requires Refs(w)
  {
    match w.push
    case Idle => true
    case Served(todo, _) =>
      forall r | r in todo :: r in Tracked(w)
    case ServedHalf(todo, _, hand) =>
      && todo != []
      && (forall r | r in todo :: r in Tracked(w))
      && todo[0] in Tracked(w)
      && hand.userId == w.cells[todo[0]].id && hand.download == 0
    case Pass(todo, _) => true
    case PassHalf(todo, _, hand, since) =>
      && todo != [] && todo[0] in Tracked(w)
      && hand.userId == w.cells[todo[0]].id && hand.download == 0
      && since == Traffic(w.cells[todo[0]].id, w.cells[todo[0]].upload, 0)
    case PassRead(todo, _, _, since) =>
      && todo != [] && todo[0] in Tracked(w)
      && since == Traffic(w.cells[todo[0]].id, w.cells[todo[0]].upload, w.cells[todo[0]].download)
    case Reporting(items) => items != []
    case Restoring(items) => items != []
    case Finding(items) => items != []
    case Adding(items, cell) =>
      items != [] && cell in Tracked(w) && w.cells[cell].id == items[0].userId
    case AddingDown(items, cell) =>
      items != [] && cell in Tracked(w) && w.cells[cell].id == items[0].userId && items[0].upload == 0
  }

  ghost predicate Inv(w: World) {
    Refs(w) && Names(w) && Separate(w) && Actives(w) && InPhase(w)
  }

  // ---------------------------------------------------------------- steps

  /** The states newUserState makes for `ids`, one per occurrence of an ID that was not served. */
  ghost function FreshCells(previous: map<int, nat>, ids: seq<int>): (added: seq<Cell>)
    ensures forall k | 0 <= k < |added| :: added[k] == Cell(added[k].id, 0, 0, 0, false)
  {
    if |ids| == 0 then []
    else
      var front, id := FreshCells(previous, ids[..|ids| - 1]), ids[|ids| - 1];
      if id in previous then front else front + [Cell(id, 0, 0, 0, false)]
  }

  /** The map update publishes: a kept ID keeps its state, a new one gets the last state made for it. */
  ghost function Serve(previous: map<int, nat>, ids: seq<int>, base: nat): (next: map<int, nat>)
    ensures forall id :: id in next <==> id in ids
  {
    if |ids| == 0 then map[]
    else
      var n := |ids| - 1;
      var id := ids[n];
      assert ids == ids[..n] + [id];
      Serve(previous, ids[..n], base)
        [id := if id in previous then previous[id] else base + |FreshCells(previous, ids[..n])|]
  }

  lemma {:induction false} ServesKept(previous: map<int, nat>, ids: seq<int>, base: nat, id: int)
    requires id in ids && id in previous
    ensures Serve(previous, ids, base)[id] == previous[id]
  {
    var n := |ids| - 1;
    if id != ids[n] {
      assert ids == ids[..n] + [ids[n]];
      ServesKept(previous, ids[..n], base, id);
    }
  }

  /** An ID that was not served before leads to a state made for it now. */
  lemma {:induction false} ServesFresh(previous: map<int, nat>, ids: seq<int>, base: nat, id: int)
    requires id in ids && id !in previous
    ensures var r := Serve(previous, ids, base)[id];
            && base <= r < base + |FreshCells(previous, ids)|
            && FreshCells(previous, ids)[r - base] == Cell(id, 0, 0, 0, false)
  {
    var n := |ids| - 1;
    var front := FreshCells(previous, ids[..n]);
    if id == ids[n] {
      assert FreshCells(previous, ids) == front + [Cell(id, 0, 0, 0, false)];
      assert Serve(previous, ids, base)[id] == base + |front|;
    } else {
      assert ids == ids[..n] + [ids[n]];
      ServesFresh(previous, ids[..n], base, id);
      assert front <= FreshCells(previous, ids);
      assert Serve(previous, ids, base)[id] == Serve(previous, ids[..n], base)[id];
    }
  }

  ghost function Removed(previous: map<int, nat>, ids: seq<int>): set<nat> {
    set id | id in previous && id !in ids :: previous[id]
  }

  /** The first retired state of user `id`, as restoreTraffic looks for it. */
  ghost function FindRetired(cells: seq<Cell>, list: seq<nat>, id: int): (found: Option<nat>)
    requires forall r | r in list :: r < |cells|
    ensures found.Some? ==> found.value in list && cells[found.value].id == id
    ensures found.None? ==> forall r | r in list :: cells[r].id != id
  {
    if list == [] then None
    else
      assert list[0] in list && forall r | r in list[1..] :: r in list;
      if cells[list[0]].id == id then Some(list[0])
      else FindRetired(cells, list[1..], id)
  }

  lemma {:induction false} FindsFirst(cells: seq<Cell>, list: seq<nat>, k: nat, id: int)
    requires forall j | 0 <= j < |list| :: list[j] < |cells|
    requires k < |list| && cells[list[k]].id == id && forall j | 0 <= j < k :: cells[list[j]].id != id
    ensures FindRetired(cells, list, id) == Some(list[k])
  {
    if k > 0 {
      assert forall j | 0 <= j < |list[1..]| :: list[1..][j] == list[j + 1];
      FindsFirst(cells, list[1..], k - 1, id);
    }
  }

  /** `r` names a state object. */
  ghost predicate Known(w: World, r: nat) {
    r < |w.cells|
  }

  /** The state the push goroutine is at. */
  ghost predicate AtState(w: World) {
    (w.push.Served? || w.push.ServedHalf? || w.push.LockHeld()) && w.push.todo != [] && Known(w, w.push.todo[0])
  }

  /** The item restoreTraffic is at. */
  ghost predicate AtItem(w: World) {
    !w.push.Idle? && w.push.items != [] && forall r | r in w.retired :: Known(w, r)
  }

  /**
    When a step can happen.  The clauses that a name is known hold in every
    reachable state (Inv); LedgerInvariant.PushNeverStuck says so.
   */
  ghost predicate Enabled(w: World, s: Step) {
    match s
    case Publish(ids, order) => w.retiring == [] && Lists(order, Removed(w.current, ids))
    case Retire => !w.push.LockHeld()
    case Lookup(id) => id in w.current
    case OpenConn(c) => c < |w.conns| && w.conns[c].phase == LookedUp && Known(w, w.conns[c].cell)
    case Count(c, _, _) => c < |w.conns| && w.conns[c].phase == Open && Known(w, w.conns[c].cell)
    case CloseConn(c) =>
      c < |w.conns| && w.conns[c].phase == Open && Known(w, w.conns[c].cell) && w.cells[w.conns[c].cell].active > 0
    case BeginCollect(order) => w.push.Idle? && Lists(order, Range(w.current))
    case SwapUp => w.push.Served? && AtState(w)
    case SwapDown => w.push.ServedHalf? && AtState(w)
    case Lock => w.push.Served? && w.push.todo == []
    case PassSwapUp => w.push.Pass? && AtState(w)
    case PassSwapDown => w.push.PassHalf? && AtState(w)
    case PassDecide => w.push.PassRead? && AtState(w)
    case Unlock => w.push.Pass? && w.push.todo == []
    case Acknowledge => w.push.Reporting?
    case ReportFails => w.push.Reporting?
    case RestoreGet => w.push.Restoring? && AtItem(w)
    case RestoreFind => w.push.Finding? && AtItem(w)
    case AddUp => w.push.Adding? && AtItem(w) && Known(w, w.push.cell)
    case AddDown => w.push.AddingDown? && AtItem(w) && Known(w, w.push.cell)
  }

  ghost function DoPublish(w: World, ids: seq<int>, order: seq<nat>): World {
    w.(cells := w.cells + FreshCells(w.current, ids),
       current := Serve(w.current, ids, |w.cells|),
       retiring := order)
  }

  /** cancel() on every state of `list`. */
  ghost function Cancel(cells: seq<Cell>, list: seq<nat>): (r: seq<Cell>)
    ensures |r| == |cells|
    ensures forall i | 0 <= i < |cells| :: r[i] == if i in list then cells[i].(cancelled := true) else cells[i]
  {
    seq(|cells|, i requires 0 <= i < |cells| => if i in list then cells[i].(cancelled := true) else cells[i])
  }

  ghost function DoRetire(w: World): World {
    w.(cells := Cancel(w.cells, w.retiring), retiring := [], retired := w.retired + w.retiring)
  }

  ghost function DoLookup(w: World, id: int): World
    requires id in w.current
  {
    w.(conns := w.conns + [Conn(w.current[id], LookedUp)])
  }

  ghost function DoOpen(w: World, c: nat): World
    requires Enabled(w, OpenConn(c))
  {
    var r := w.conns[c].cell;
    w.(conns := w.conns[c := Conn(r, Open)], cells := w.cells[r := w.cells[r].(active := w.cells[r].active + 1)])
  }

  /** Bytes counted on the examined state after its counter was swapped, before `active` is read. */
  ghost function CountSince(p: Push, r: nat, up: nat, down: nat): Push {
    match p
    case PassHalf(todo, items, hand, since) =>
      if todo != [] && todo[0] == r then
        PassHalf(todo, items, hand, since.(upload := since.upload + up))
      else p
    case PassRead(todo, items, hit, since) =>
      if todo != [] && todo[0] == r then
        PassRead(todo, items, hit, since.(upload := since.upload + up, download := since.download + down))
      else p
    case _ => p
  }

  ghost function DoCount(w: World, c: nat, up: nat, down: nat): World
    requires Enabled(w, Count(c, up, down))
  {
    var r := w.conns[c].cell;
    var cell := w.cells[r];
    var t := Traffic(cell.id, up, down);
    w.(cells := w.cells[r := cell.(upload := cell.upload + up, download := cell.download + down)],
       push := CountSince(w.push, r, up, down),
       counted := w.counted + [t],
       lost := if r in Tracked(w) then w.lost else w.lost + [t])
  }

  ghost function DoClose(w: World, c: nat): World
    requires Enabled(w, CloseConn(c))
  {
    var r := w.conns[c].cell;
    w.(conns := w.conns[c := Conn(r, Closed)], cells := w.cells[r := w.cells[r].(active := w.cells[r].active - 1)])
  }

  ghost function DoBegin(w: World, order: seq<nat>): World {
    w.(push := Served(order, []))
  }

  ghost function DoSwapUp(w: World): World
    requires Enabled(w, SwapUp)
  {
    var p := w.push;
    var r := p.todo[0];
    w.(cells := w.cells[r := w.cells[r].(upload := 0)],
       push := ServedHalf(p.todo, p.items, Traffic(w.cells[r].id, w.cells[r].upload, 0)))
  }

  /** `items` with `t` appended, unless both its counters are zero. */
  ghost function Append(items: seq<Traffic>, t: Traffic): seq<Traffic> {
    if t.Empty() then items else items + [t]
  }

  ghost function DoSwapDown(w: World): World
    requires Enabled(w, SwapDown)
  {
    var p := w.push;
    var r := p.todo[0];
    w.(cells := w.cells[r := w.cells[r].(download := 0)],
       push := Served(p.todo[1..], Append(p.items, p.hand.(download := w.cells[r].download))))
  }

  ghost function DoLock(w: World): World
    requires w.push.Served?
  {
    w.(push := Pass(w.retired, w.push.items), retired := [])
  }

  ghost function DoPassSwapUp(w: World): World
    requires Enabled(w, PassSwapUp)
  {
    var p := w.push;
    var r := p.todo[0];
    w.(cells := w.cells[r := w.cells[r].(upload := 0)],
       push := PassHalf(p.todo, p.items, Traffic(w.cells[r].id, w.cells[r].upload, 0), Traffic(w.cells[r].id, 0, 0)))
  }

  ghost function DoPassSwapDown(w: World): World
    requires Enabled(w, PassSwapDown)
  {
    var p := w.push;
    var r := p.todo[0];
    var t := p.hand.(download := w.cells[r].download);
    w.(cells := w.cells[r := w.cells[r].(download := 0)],
       push := PassRead(p.todo, Append(p.items, t), !t.Empty(), p.since))
  }

  /** The pass drops a state that had nothing to report and has no open connection. */
  ghost predicate Drops(w: World)
    requires Enabled(w, PassDecide)
  {
    !w.push.hit && w.cells[w.push.todo[0]].active == 0
  }

  ghost function DoPassDecide(w: World): World
    requires Enabled(w, PassDecide)
  {
    var p := w.push;
    w.(retired := if Drops(w) then w.retired else w.retired + [p.todo[0]],
       push := Pass(p.todo[1..], p.items),
       lost := if Drops(w) then w.lost + [p.since] else w.lost)
  }

  ghost function DoUnlock(w: World): World
    requires w.push.Pass?
  {
    w.(push := if w.push.items == [] then Idle else Reporting(w.push.items))
  }

  ghost function DoAcknowledge(w: World): World
    requires w.push.Reporting?
  {
    w.(push := Idle, acked := w.acked + w.push.items)
  }

  ghost function DoReportFails(w: World): World
    requires w.push.Reporting?
  {
    w.(push := Restoring(w.push.items))
  }

  ghost function DoRestoreGet(w: World): World
    requires Enabled(w, RestoreGet)
  {
    var items := w.push.items;
    var id := items[0].userId;
    w.(push := if id in w.current then Adding(items, w.current[id]) else Finding(items))
  }

  /** restoreTraffic finds neither a served nor a retired state and makes a fresh retired one. */
  ghost predicate FallsBack(w: World)
    requires Enabled(w, RestoreFind)
  {
    FindRetired(w.cells, w.retired, w.push.items[0].userId).None?
  }

  ghost function DoRestoreFind(w: World): World
    requires Enabled(w, RestoreFind)
  {
    var items := w.push.items;
    match FindRetired(w.cells, w.retired, items[0].userId)
    case Some(r) => w.(push := Adding(items, r))
    case None =>
      w.(cells := w.cells + [Cell(items[0].userId, 0, 0, 0, true)],
         retired := w.retired + [|w.cells|],
         push := Adding(items, |w.cells|))
  }

  ghost function DoAddUp(w: World): World
    requires Enabled(w, AddUp)
  {
    var items, r := w.push.items, w.push.cell;
    w.(cells := w.cells[r := w.cells[r].(upload := w.cells[r].upload + items[0].upload)],
       push := AddingDown([items[0].(upload := 0)] + items[1..], r))
  }

  ghost function DoAddDown(w: World): World
    requires Enabled(w, AddDown)
  {
    var items, r := w.push.items, w.push.cell;
    w.(cells := w.cells[r := w.cells[r].(download := w.cells[r].download + items[0].download)],
       push := if |items| == 1 then Idle else Restoring(items[1..]))
  }

  ghost function Apply(w: World, s: Step): World
    requires Enabled(w, s)
  {
    match s
    case Publish(ids, order) => DoPublish(w, ids, order)
    case Retire => DoRetire(w)
    case Lookup(id) => DoLookup(w, id)
    case OpenConn(c) => DoOpen(w, c)
    case Count(c, up, down) => DoCount(w, c, up, down)
    case CloseConn(c) => DoClose(w, c)
    case BeginCollect(order) => DoBegin(w, order)
    case SwapUp => DoSwapUp(w)
    case SwapDown => DoSwapDown(w)
    case Lock => DoLock(w)
    case PassSwapUp => DoPassSwapUp(w)
    case PassSwapDown => DoPassSwapDown(w)
    case PassDecide => DoPassDecide(w)
    case Unlock => DoUnlock(w)
    case Acknowledge => DoAcknowledge(w)
    case ReportFails => DoReportFails(w)
    case RestoreGet => DoRestoreGet(w)
    case RestoreFind => DoRestoreFind(w)
    case AddUp => DoAddUp(w)
    case AddDown => DoAddDown(w)
  }
}
