/**
  users.go, the table: update, collectTraffic and restoreTraffic on the objects.

  The table carries, as ghost state, the state of the ledger machine it implements.
  Valid() ties every object to its cell and says that the machine can reach that
  state, so what holds in every reachable state of the machine holds of the table.
  The methods here make their steps without interruption; other interleavings of
  the same steps are the machine's business.
 */
module UserTables {
  import opened Common
  import opened Ledger
  import opened Conservation
  import opened Collecting
  import opened Users
  import opened Accounts
  import opened Registries
  import opened Updating
  import GoMaps
  import Limits
  import NetAddr
  import Online
  import OnlineLists

  /** Writing the state at `k` to `n <= k` extends the kept part and leaves what is still to be looked at. */
  lemma Compacted(registry: seq<UserState>, buffer: seq<UserState>, list: seq<UserState>, n: nat, k: nat,
                  kept: seq<nat>, h: nat)
    requires n <= k < |buffer| == |list| && buffer[k..] == list[k..]
    requires Objects(registry, buffer[..n], kept) && h < |registry| && registry[h] == buffer[k]
    ensures buffer[k + 1..] == list[k + 1..]
    ensures var moved := buffer[n := buffer[k]];
            moved[k + 1..] == list[k + 1..] && Objects(registry, moved[..n + 1], kept + [h])
    ensures Objects(registry, buffer[..n], kept + [])
  {
    assert forall i | k < i < |list| :: list[i] == list[k..][i - k] == buffer[k..][i - k] == buffer[i];
    var moved := buffer[n := buffer[k]];
    assert moved[..n + 1] == buffer[..n] + [buffer[k]];
    assert kept + [] == kept;
  }

  class UserTable {
    var current: map<int, UserState>
    var retired: seq<UserState>

    ghost var registry: seq<UserState>
    ghost var world: World
    /** When a connection last opened or ended, and when the latest push began. */
    ghost var clock: int
    ghost var lastPush: int
    /** The table, its states and what they own, now or before. */
    ghost var repr: set<object>

    /** Everything but the retired list, which a running pass compacts. */
    ghost predicate Core()
      reads this`registry, this`world, this`current, registry`upload, registry`download, registry`active
      reads registry`cancelled
    {
      && Reachable(world)
      && |registry| == |world.cells|
      && (forall i | 0 <= i < |registry| :: registry[i].handle == i && Matches(registry[i], world.cells[i]))
      && (forall id :: id in current <==> id in world.current)
      && (forall id | id in current :: world.current[id] < |registry| && registry[world.current[id]] == current[id])
    }

    /** Objects and ledger machine agree. */
    ghost predicate Ledgered()
      reads this`registry, this`world, this`current, this`retired, registry`upload, registry`download, registry`active
      reads registry`cancelled
    {
      Core() && Objects(registry, retired, world.retired)
    }

    ghost predicate Sound()
      reads this`registry, this`current, this`clock, this`lastPush
      reads registry`limiter, LimitersOf(registry)`limit, LimitersOf(registry)`burst
      reads registry`ips, registry`active, registry`view, registry`conns
      reads ActivitiesOf(registry)`active, ActivitiesOf(registry)`lastSeen, ConnectionsOf(registry)`finished
    {
      Kept(registry, current, clock, lastPush)
    }

    ghost predicate Owned()
      reads this`repr, this`registry, registry`limiter, registry`ips, registry`conns
    {
      this in repr && Footprint(registry) <= repr
    }

    ghost predicate Valid()
      reads this`current, this`retired, this`registry, this`world, this`clock, this`lastPush, this`repr
      reads registry`upload, registry`download, registry`active, registry`cancelled, registry`limiter, registry`ips
      reads registry`view, registry`conns
      reads LimitersOf(registry)`limit, LimitersOf(registry)`burst
      reads ActivitiesOf(registry)`active, ActivitiesOf(registry)`lastSeen, ConnectionsOf(registry)`finished
    {
      Ledgered() && Sound() && Owned()
    }

    constructor (ghost now: int)
      ensures Valid() && fresh(repr) && world == Init && registry == [] && current == map[] && clock == now
      ensures lastPush == now
    {
      current, retired := map[], [];
      registry, world, clock, lastPush, repr := [], Init, now, now, {this};
      new;
      OpenKept([], map[], now, now);
    }

    /** The states come to own more. */
    ghost method Adopt(objects: set<object>)
      requires Ledgered() && Sound() && this in repr && Footprint(registry) <= repr + objects
      modifies this`repr
      ensures Valid() && repr == old(repr) + objects
    {
      repr := repr + objects;
    }

    /** The ledger machine makes one step. */
    ghost method Step(s: Step)
      requires Reachable(world) && Enabled(world, s)
      modifies this`world
      ensures Reachable(world) && world == Apply(old(world), s)
    {
      ReachableStep(world, s);
      world := Apply(world, s);
    }

    // -------------------------------------------------------------- collectTraffic

    ghost predicate At(state: UserState)
      reads this
    {
      AtState(world) && |registry| == |world.cells| && registry[world.push.todo[0]] == state
    }

    /** `collect` on a served state. */
    method CollectServed(state: UserState, items: seq<Traffic>) returns (items': seq<Traffic>)
      requires Ledgered() && world.push.Served? && world.push.items == items && At(state)
      modifies this`world, state`upload, state`download
      ensures Ledgered() && world == ServedOne(old(world)) && items' == world.push.items
    {
      ServedOneSteps(world);
      var upload, download := state.upload, state.download;
      state.upload, state.download := 0, 0;
      world := ServedOne(world);
      items' := if upload == 0 && download == 0 then items else items + [Traffic(state.id, upload, download)];
    }

    /** `collect` on a retired state, and whether the pass keeps it. */
    method CollectRetired(state: UserState, items: seq<Traffic>) returns (items': seq<Traffic>, keep: bool)
      requires Core() && world.push.Pass? && world.push.items == items && At(state)
      modifies this`world, state`upload, state`download
      ensures Core() && world == PassedOne(old(world)) && items' == world.push.items
      ensures keep == Stays(old(world).cells[old(world).push.todo[0]])
    {
      PassedOneSteps(world);
      var upload, download := state.upload, state.download;
      state.upload, state.download := 0, 0;
      world := PassedOne(world);
      var collected := upload != 0 || download != 0;
      items' := if collected then items + [Traffic(state.id, upload, download)] else items;
      keep := collected || state.active > 0;
    }

    /** `order` are the handles of the served users `ids`. */
    ghost predicate Visits(ids: seq<int>, order: seq<nat>)
      reads this
    {
      |order| == |ids| && forall k | 0 <= k < |ids| ::
        ids[k] in current && order[k] < |registry| && registry[order[k]] == current[ids[k]]
    }

    ghost method BeginPass(ids: seq<int>) returns (order: seq<nat>)
      requires Ledgered() && world.push.Idle? && NoDup(ids) && forall id :: id in ids <==> id in current
      requires forall k | 0 <= k < |ids| :: ids[k] in current
      modifies this`world
      ensures Ledgered() && Visits(ids, order) && Lists(order, Range(world.current)) && Bounded(old(world).cells, order)
      ensures world == MidServed(old(world), order, 0) && world.push.items == []
    {
      order := HandlesOf(ids);
      Begin(world, ids, order);
      world := MidServed(world, order, 0);
    }

    /** `k` of the served users are collected into `items`. */
    ghost predicate Midway(ids: seq<int>, order: seq<nat>, w: World, k: nat, items: seq<Traffic>)
      reads this, registry`upload, registry`download, registry`active, registry`cancelled
    {
      && Ledgered() && Visits(ids, order) && NoDup(order) && Bounded(w.cells, order)
      && k <= |order| && world == MidServed(w, order, k) && items == Items(w.cells, order[..k])
    }

    /** One turn of the pass over the served users. */
    method CollectNext(id: int, items: seq<Traffic>, ghost w: World, ghost ids: seq<int>, ghost order: seq<nat>,
                       ghost k: nat)
      returns (items': seq<Traffic>)
      requires Midway(ids, order, w, k, items) && k < |ids| && ids[k] == id
      modifies this`world, registry`upload, registry`download
      ensures Midway(ids, order, w, k + 1, items')
    {
      MidServedNext(w, order, k);
      items' := CollectServed(current[id], items);
    }

    /** The pass over the served users, in an order Go chooses. */
    method CollectCurrent() returns (items: seq<Traffic>, ghost order: seq<nat>)
      requires Ledgered() && world.push.Idle?
      modifies this`world, registry`upload, registry`download
      ensures Ledgered() && Lists(order, Range(world.current)) && Bounded(old(world).cells, order)
      ensures world == MidServed(old(world), order, |order|) && items == world.push.items
    {
      ghost var w := world;
      var ids := GoMaps.RangeOrder(current);
      order := BeginPass(ids);
      items := [];
      for k := 0 to |ids|
        invariant Midway(ids, order, w, k, items)
      {
        items := CollectNext(ids[k], items, w, ids, order, k);
      }
    }

    /** `k` retired states are looked at, and `buffer[..n]` of them kept. */
    ghost predicate Compacting(list: seq<UserState>, buffer: seq<UserState>, n: nat, k: nat, w: World, order: seq<nat>)
      requires k <= |w.retired| && Apart(w, order)
      reads this, registry`upload, registry`download, registry`active, registry`cancelled
    {
      && Core() && Objects(registry, list, w.retired)
      && n <= k && |buffer| == |list| && buffer[k..] == list[k..]
      && world == MidPass(w, order, k) && Objects(registry, buffer[..n], world.retired)
    }

    /** One turn of the pass over the retired list. */
    method PassOne(list: seq<UserState>, buffer: seq<UserState>, n: nat, k: nat, items: seq<Traffic>, ghost w: World,
                   ghost order: seq<nat>)
      returns (buffer': seq<UserState>, n': nat, items': seq<Traffic>)
      requires k < |w.retired| && Apart(w, order) && Compacting(list, buffer, n, k, w, order)
      requires items == world.push.items
      modifies this`world, registry`upload, registry`download
      ensures Compacting(list, buffer', n', k + 1, w, order) && items' == world.push.items
    {
      var state := buffer[k];
      assert state == buffer[k..][0] == list[k..][0] == list[k];
      MidPassNext(w, order, k);
      MidPassStep(w, order, k);
      Compacted(registry, buffer, list, n, k, world.retired, w.retired[k]);
      var keep;
      items', keep := CollectRetired(state, items);
      buffer', n' := buffer, n;
      if keep {
        buffer', n' := buffer[n := state], n + 1;
      }
    }

    /**
      The pass over the retired list, which it compacts in place: `buffer[..n]` is
      kept while `buffer[k..]` is still to be looked at.
     */
    method CollectPass(before: seq<Traffic>, ghost w: World, ghost order: seq<nat>) returns (items: seq<Traffic>)
      requires Core() && Objects(registry, retired, w.retired)
      requires Apart(w, order) && world == MidPass(w, order, 0) && before == world.push.items
      modifies this`world, this`retired, registry`upload, registry`download
      ensures Ledgered() && world == MidPass(w, order, |w.retired|) && items == world.push.items
    {
      var list := retired;
      var buffer, n: nat := list, 0;
      items := before;
      for k := 0 to |list|
        invariant |list| == |w.retired| && Compacting(list, buffer, n, k, w, order) && items == world.push.items
      {
        buffer, n, items := PassOne(list, buffer, n, k, items, w, order);
      }
      KeepFirst(list, buffer, n, w, order);
    }

    method KeepFirst(ghost list: seq<UserState>, buffer: seq<UserState>, n: nat, ghost w: World, ghost order: seq<nat>)
      requires Apart(w, order) && Compacting(list, buffer, n, |w.retired|, w, order)
      modifies this`retired
      ensures Ledgered()
    {
      retired := buffer[..n];
    }

    /** The section of collectTraffic under userTable.access. */
    method CollectLocked(before: seq<Traffic>, ghost w: World, ghost order: seq<nat>) returns (items: seq<Traffic>)
      requires Ledgered() && Apart(w, order) && world == MidServed(w, order, |order|) && before == world.push.items
      modifies this`world, this`retired, registry`upload, registry`download
      ensures Ledgered() && world == Collected(w, order) && items == world.push.Holding()
    {
      EnterPass(w, order);
      items := CollectPass(before, w, order);
      LeavePass(w, order);
    }

    ghost method EnterPass(w: World, order: seq<nat>)
      requires Ledgered() && Apart(w, order) && world == MidServed(w, order, |order|)
      modifies this`world
      ensures Core() && Objects(registry, retired, w.retired)
      ensures world == MidPass(w, order, 0) && world.push.items == old(world).push.items
    {
      LockReaches(w, order);
      world := MidPass(w, order, 0);
    }

    ghost method LeavePass(w: World, order: seq<nat>)
      requires Ledgered() && Apart(w, order) && world == MidPass(w, order, |w.retired|)
      modifies this`world
      ensures Ledgered() && world == Collected(w, order) && world.push.Holding() == old(world).push.items
    {
      UnlockReaches(w, order);
      world := Collected(w, order);
    }

    /** Both passes, as far as the ledger sees them. */
    method CollectBoth() returns (items: seq<Traffic>, ghost order: seq<nat>)
      requires Ledgered() && world.push.Idle?
      modifies this`world, this`retired, registry`upload, registry`download
      ensures Ledgered() && Lists(order, Range(old(world).current)) && Apart(old(world), order)
      ensures world == Collected(old(world), order) && items == world.push.Holding()
    {
      ghost var w := world;
      items, order := CollectCurrent();
      RetiredApart(w, order);
      items := CollectLocked(items, w, order);
    }

    /** Collecting touches no limit and no connection. */
    method CollectKeeps(ghost all: seq<UserState>, ghost served: map<int, UserState>)
      returns (items: seq<Traffic>, ghost order: seq<nat>)
      requires Ledgered() && world.push.Idle? && Kept(all, served, clock, lastPush)
      modifies this`world, this`retired, registry`upload, registry`download
      ensures Ledgered() && Kept(all, served, clock, lastPush) && Footprint(all) == old(Footprint(all))
      ensures Lists(order, Range(old(world).current)) && Apart(old(world), order)
      ensures world == Collected(old(world), order) && items == world.push.Holding()
    {
      Allocated(all);
      items, order := CollectBoth();
    }

    /**
      Both loops of collectTraffic are one Collected step of the ledger: the items are
      what the visited cells held, and a retired cell survives if it had bytes or a
      connection.
     */
    method CollectTraffic() returns (items: seq<Traffic>, ghost order: seq<nat>)
      requires Valid() && world.push.Idle?
      modifies this`world, this`retired, registry`upload, registry`download
      ensures Valid() && Lists(order, Range(old(world).current)) && Apart(old(world), order)
      ensures world == Collected(old(world), order) && items == world.push.Holding()
    {
      items, order := CollectKeeps(registry, current);
    }

    // -------------------------------------------------------------- update

    /** users.go:144. */
    method PublishNext(next: map<int, UserState>, ghost made: seq<UserState>, ghost ids: seq<int>,
                       ghost order: seq<nat>)
      requires Ledgered() && world.retiring == [] && Lists(order, Removed(world.current, ids))
      requires Built(Serve(world.current, ids, |registry|), FreshCells(world.current, ids), registry, next, made)
      modifies this`current, this`registry, this`world
      ensures Ledgered() && registry == old(registry) + made && current == next
      ensures world == DoPublish(old(world), ids, order)
    {
      ReachableStep(world, Publish(ids, order));
      current := next;
      registry := registry + made;
      world := DoPublish(world, ids, order);
    }

    /** The section of update under userTable.access. */
    method RetireAll(left: seq<UserState>, ghost order: seq<nat>)
      requires Ledgered() && world.retiring == order && Objects(registry, left, order) && !world.push.LockHeld()
      modifies this`retired, this`world, registry`cancelled
      ensures Ledgered() && world == DoRetire(old(world))
      ensures retired == old(retired) + left
    {
      ReachableStep(world, Retire);
      retired := CancelAll(left, retired, registry, world.cells, order, world.retired);
      world := DoRetire(world);
    }

    /** update: one publish and one retire step of the ledger, and what becomes of each limiter. */
    method Update(users: seq<User>, nodeSpeedLimit: nat, now: real) returns (ghost order: seq<nat>)
      requires Valid() && world.retiring == [] && !world.push.LockHeld()
      modifies this`current, this`retired, this`registry, this`world, this`repr, registry`limiter, registry`cancelled
      modifies LimitersOf(registry)
      ensures Valid() && fresh(repr - old(repr))
      ensures old(registry) <= registry && forall k | |old(registry)| <= k < |registry| :: fresh(registry[k])
      ensures Lists(order, Removed(old(world).current, Ids(users))) && world == Updated(old(world), Ids(users), order)
      ensures Serves(current, Table(users, nodeSpeedLimit))
      ensures forall id | id in old(current) && id in current :: current[id] == old(current)[id]
      ensures forall id | id in old(current) && old(current[id].limiter) != null ::
                old(current)[id].limiter == old(current[id].limiter) <==> NeverUnlimited(users, nodeSpeedLimit, id)
      ensures forall id | id in old(current) ::
                old(current)[id].limiter == old(current[id].limiter) || old(current)[id].limiter == null
                || fresh(old(current)[id].limiter)
      ensures old(retired) <= retired
    {
      order := UpdateStates(users, nodeSpeedLimit, now);
      Adopt(Footprint(registry));
    }

    /** update, before the table takes note of what is new. */
    method UpdateStates(users: seq<User>, nodeSpeedLimit: nat, now: real) returns (ghost order: seq<nat>)
      requires Valid() && world.retiring == [] && !world.push.LockHeld()
      modifies this`current, this`retired, this`registry, this`world, registry`limiter, registry`cancelled
      modifies LimitersOf(registry)
      ensures Ledgered() && Sound() && fresh(Footprint(registry) - old(Footprint(registry)))
      ensures old(registry) <= registry && forall k | |old(registry)| <= k < |registry| :: fresh(registry[k])
      ensures Lists(order, Removed(old(world).current, Ids(users))) && world == Updated(old(world), Ids(users), order)
      ensures Serves(current, Table(users, nodeSpeedLimit))
      ensures forall id | id in old(current) && id in current :: current[id] == old(current)[id]
      ensures forall id | id in old(current) && old(current[id].limiter) != null ::
                old(current)[id].limiter == old(current[id].limiter) <==> NeverUnlimited(users, nodeSpeedLimit, id)
      ensures forall id | id in old(current) ::
                old(current)[id].limiter == old(current[id].limiter) || old(current)[id].limiter == null
                || fresh(old(current)[id].limiter)
      ensures old(retired) <= retired
    {
      var next;
      ghost var b;
      next, b := BuildFrom(users, nodeSpeedLimit, now);
      order := InstallSound(next, b.made, Ids(users), Table(users, nodeSpeedLimit));
    }

    /** The loop of update, from what the table serves. */
    method BuildFrom(users: seq<User>, nodeSpeedLimit: nat, now: real)
      returns (next: map<int, UserState>, ghost b: Build)
      requires Valid()
      modifies registry`limiter, LimitersOf(registry)
      ensures Ledgered() && Kept(registry + b.made, next, clock, lastPush)
      ensures Built(Serve(world.current, Ids(users), |registry|), FreshCells(world.current, Ids(users)), registry, next,
              b.made)
      ensures Serves(next, Table(users, nodeSpeedLimit))
      ensures forall k | 0 <= k < |b.made| :: fresh(b.made[k])
      ensures fresh(Footprint(registry + b.made) - old(Footprint(registry)))
      ensures forall id | id in current && id in next :: next[id] == current[id]
      ensures forall id | id in current && old(current[id].limiter) != null ::
                current[id].limiter == old(current[id].limiter) <==> NeverUnlimited(users, nodeSpeedLimit, id)
      ensures forall id | id in current ::
                current[id].limiter == old(current[id].limiter) || current[id].limiter == null
                || fresh(current[id].limiter)
    {
      NamesServed();
      ghost var g := Before(world.current, registry, clock, map id | id in current :: current[id].limiter);
      next, b := BuildSound(users, nodeSpeedLimit, now, current, g, lastPush);
    }

    /** Install leaves the table sound. */
    method InstallSound(next: map<int, UserState>, ghost made: seq<UserState>, ghost ids: seq<int>,
                        ghost limits: map<int, nat>)
      returns (ghost order: seq<nat>)
      requires Ledgered() && world.retiring == [] && !world.push.LockHeld()
      requires Built(Serve(world.current, ids, |registry|), FreshCells(world.current, ids), registry, next, made)
      requires Kept(registry + made, next, clock, lastPush) && Serves(next, limits)
      modifies this`current, this`retired, this`registry, this`world, registry`cancelled, made`cancelled
      ensures Ledgered() && Sound() && registry == old(registry) + made && current == next && Serves(current, limits)
      ensures Footprint(registry) == old(Footprint(registry + made))
      ensures Lists(order, Removed(old(world).current, ids)) && world == Updated(old(world), ids, order)
      ensures old(retired) <= retired
    {
      order := InstallKeeps(next, made, ids, limits, registry + made);
    }

    /** Install changes no limit and no connection. */
    method InstallKeeps(next: map<int, UserState>, ghost made: seq<UserState>, ghost ids: seq<int>,
                        ghost limits: map<int, nat>, ghost all: seq<UserState>)
      returns (ghost order: seq<nat>)
      requires Ledgered() && world.retiring == [] && !world.push.LockHeld()
      requires Built(Serve(world.current, ids, |registry|), FreshCells(world.current, ids), registry, next, made)
      requires Kept(all, next, clock, lastPush) && Serves(next, limits)
      modifies this`current, this`retired, this`registry, this`world, registry`cancelled, made`cancelled
      ensures Ledgered() && registry == old(registry) + made && current == next
      ensures Kept(all, next, clock, lastPush) && Serves(next, limits) && Footprint(all) == old(Footprint(all))
      ensures Lists(order, Removed(old(world).current, ids)) && world == Updated(old(world), ids, order)
      ensures old(retired) <= retired
    {
      Allocated(all);
      AllocatedIn(next);
      order := Install(next, made, ids);
    }

    /** What follows the loop of update: publish, then retire. */
    method Install(next: map<int, UserState>, ghost made: seq<UserState>, ghost ids: seq<int>)
      returns (ghost order: seq<nat>)
      requires Ledgered() && world.retiring == [] && !world.push.LockHeld()
      requires Built(Serve(world.current, ids, |registry|), FreshCells(world.current, ids), registry, next, made)
      modifies this`current, this`retired, this`registry, this`world, registry`cancelled, made`cancelled
      ensures Ledgered() && registry == old(registry) + made && current == next
      ensures Lists(order, Removed(old(world).current, ids)) && world == Updated(old(world), ids, order)
      ensures old(retired) <= retired
    {
      var previous := current;
      var left, gone := Leaving(previous, next);
      order := HandlesOf(gone);
      LeavingLists(world, ids, gone, order);
      PublishNext(next, made, ids, order);
      assert Objects(registry, left, order);
      RetireAll(left, order);
    }

    ghost method HandlesOf(gone: seq<int>) returns (order: seq<nat>)
      requires Ledgered() && forall k | 0 <= k < |gone| :: gone[k] in current
      ensures |order| == |gone|
      ensures forall k | 0 <= k < |gone| :: gone[k] in world.current && order[k] == world.current[gone[k]]
      ensures forall k | 0 <= k < |gone| :: order[k] < |registry| && registry[order[k]] == current[gone[k]]
    {
      forall k | 0 <= k < |gone|
        ensures gone[k] in world.current && world.current[gone[k]] < |registry|
        ensures registry[world.current[gone[k]]] == current[gone[k]]
      {
        var id := gone[k];
        assert id in current;
      }
      order := Handles(world.current, gone);
    }

    lemma NamesServed()
      requires Ledgered()
      ensures Serving(world.current, current, registry)
    {
      ReachableKeeps(world, 0, Up);
    }

    // -------------------------------------------------------------- restoreTraffic

    /** The `k`-th state of the list is the first of user `id`. */
    static ghost predicate IsFirst(list: seq<UserState>, k: nat, id: int) {
      k < |list| && list[k].id == id && forall j | 0 <= j < k :: list[j].id != id
    }

    /** The first retired state of a user, if any. */
    method FindRetired(id: int) returns (found: bool, k: nat)
      requires Ledgered() && forall r | r in world.retired :: Known(world, r)
      ensures found == Ledger.FindRetired(world.cells, world.retired, id).Some?
      ensures found ==> k < |retired| && Ledger.FindRetired(world.cells, world.retired, id).value == world.retired[k]
      ensures if found then IsFirst(retired, k, id) else forall j | 0 <= j < |retired| :: retired[j].id != id
    {
      k := 0;
      while k < |retired|
        invariant k <= |retired| == |world.retired|
        invariant forall j | 0 <= j < k :: retired[j].id != id
      {
        if retired[k].id == id {
          FindsFirst(world.cells, world.retired, k, id);
          return true, k;
        }
        k := k + 1;
      }
      found := false;
    }

    /** The states are those of before, or one more that nothing has used. */
    ghost predicate Grown(was: seq<UserState>)
      reads this`registry, this`clock, registry`ips, registry`view, registry`conns, registry`limiter, registry`active
    {
      registry == was ||
      (&& |registry| == |was| + 1 && registry == was + [registry[|was|]] && registry[|was|].handle == |was|
       && Unused(registry[|was|], clock) && registry[|was|].limiter == null && registry[|was|].active == 0)
    }

    /** An item of a user with no state left gets one that was never served, at the end of the retired ones. */
    method Fallback(id: int, ghost next: World) returns (state: UserState)
      requires Ledgered() && Reachable(next)
      requires next == world.(cells := world.cells + [Cell(id, 0, 0, 0, true)],
               retired := world.retired + [|world.cells|], push := next.push)
      modifies this`world, this`retired, this`registry
      ensures Ledgered() && world == next && fresh(state) && registry == old(registry) + [state] && Grown(old(registry))
    {
      state := new UserState(id, |registry|, clock);
      state.cancelled := true;
      Admit(state, next);
    }

    method Admit(state: UserState, ghost next: World)
      requires Ledgered() && Reachable(next) && Matches(state, Cell(state.id, 0, 0, 0, true))
      requires state.handle == |registry|
      requires next == world.(cells := world.cells + [Cell(state.id, 0, 0, 0, true)],
               retired := world.retired + [|world.cells|], push := next.push)
      modifies this`world, this`retired, this`registry
      ensures Ledgered() && world == next && registry == old(registry) + [state]
    {
      retired, registry := retired + [state], registry + [state];
      world := next;
    }

    /** The state an item goes back to: served, retired, or a fresh retired one. */
    method StateFor(id: int) returns (state: UserState)
      requires Ledgered() && world.push.Restoring? && AtItem(world) && world.push.items[0].userId == id
      modifies this`world, this`retired, this`registry
      ensures Ledgered() && world == Found(old(world)) && Known(world, world.push.cell)
      ensures registry[world.push.cell] == state
      ensures Grown(old(registry)) && (state in old(registry) || fresh(state))
      ensures forall k | |old(registry)| <= k < |registry| :: fresh(registry[k])
      ensures id in current ==> state == current[id] && retired == old(retired)
      ensures forall k: nat | id !in current && IsFirst(old(retired), k, id) ::
                state == old(retired)[k] && retired == old(retired)
      ensures id !in current && (forall k | 0 <= k < |old(retired)| :: old(retired)[k].id != id) ==>
                fresh(state) && state.id == id && state.cancelled && retired == old(retired) + [state]
    {
      FoundSteps(world);
      FoundCases(world);
      if id in current {
        state := current[id];
        world := Found(world);
      } else {
        var found, k := FindRetired(id);
        if found {
          state := retired[k];
          world := Found(world);
        } else {
          state := Fallback(id, Found(world));
        }
      }
    }

    /** Adds an item to the counters of its state. */
    method Credit(state: UserState, item: Traffic)
      requires Ledgered() && world.push.Adding? && AtItem(world) && world.push.items[0] == item
      requires Known(world, world.push.cell) && registry[world.push.cell] == state
      modifies this`world, state`upload, state`download
      ensures Ledgered() && world == Added(old(world))
      ensures state.upload == old(state.upload) + item.upload
      ensures state.download == old(state.download) + item.download
    {
      AddedSteps(world);
      state.upload := state.upload + item.upload;
      state.download := state.download + item.download;
      world := Added(world);
    }

    /** Puts one item back. */
    method RestoreOne(item: Traffic)
      requires Ledgered() && world.push.Restoring? && AtItem(world) && world.push.items[0] == item
      modifies this`world, this`retired, this`registry, registry`upload, registry`download
      ensures Ledgered() && Known(Found(old(world)), Found(old(world)).push.cell) && Found(old(world)).push.Adding?
      ensures AtItem(Found(old(world)))
      ensures world == Added(Found(old(world)))
      ensures Grown(old(registry)) && forall k | |old(registry)| <= k < |registry| :: fresh(registry[k])
    {
      FoundSteps(world);
      var state := StateFor(item.userId);
      Credit(state, item);
    }

    method RestoreKeeps(item: Traffic, ghost all: seq<UserState>, ghost served: map<int, UserState>)
      requires Ledgered() && world.push.Restoring? && AtItem(world) && world.push.items[0] == item
      requires Kept(all, served, clock, lastPush)
      modifies this`world, this`retired, this`registry, registry`upload, registry`download
      ensures Ledgered() && Known(Found(old(world)), Found(old(world)).push.cell) && Found(old(world)).push.Adding?
      ensures AtItem(Found(old(world)))
      ensures world == Added(Found(old(world))) && Kept(all, served, clock, lastPush)
      ensures Footprint(all) == old(Footprint(all))
      ensures Grown(old(registry)) && forall k | |old(registry)| <= k < |registry| :: fresh(registry[k])
    {
      Allocated(all);
      RestoreOne(item);
    }

    /** Putting one item back keeps the table sound. */
    method RestoreSound(item: Traffic)
      requires Valid() && world.push.Restoring? && AtItem(world) && world.push.items[0] == item
      modifies this`world, this`retired, this`registry, this`repr, registry`upload, registry`download
      ensures Valid() && Known(Found(old(world)), Found(old(world)).push.cell) && Found(old(world)).push.Adding?
      ensures AtItem(Found(old(world)))
      ensures world == Added(Found(old(world)))
      ensures old(registry) <= registry && (forall k | |old(registry)| <= k < |registry| :: fresh(registry[k]))
      ensures fresh(repr - old(repr))
    {
      ghost var all := registry;
      RestoreKeeps(item, all, current);
      if |registry| > |all| {
        ghost var state := registry[|all|];
        SoundGrows(all, state, current, clock, lastPush);
        FootprintGrows(all, state, clock, Footprint(all));
        Adopt({state});
      }
    }

    /** `k` of the items are back; the ledger is otherwise as it was in `w`. */
    ghost predicate Restored(items: seq<Traffic>, k: nat, w: World)
      requires k <= |items|
      reads this`world
    {
      && world.push == (if k == |items| then Idle else Restoring(items[k..]))
      && world == w.(cells := world.cells, retired := world.retired, push := world.push)
    }

    /** One turn of the loop of restoreTraffic. */
    method RestoreNext(items: seq<Traffic>, k: nat, ghost w: World)
      requires Valid() && k < |items| && Restored(items, k, w)
      modifies this`world, this`retired, this`registry, this`repr, registry`upload, registry`download
      ensures Valid() && Restored(items, k + 1, w)
      ensures old(registry) <= registry && (forall k | |old(registry)| <= k < |registry| :: fresh(registry[k]))
      ensures fresh(repr - old(repr))
    {
      RestorePoint(world);
      assert items[k..][0] == items[k] && items[k..][1..] == items[k + 1..];
      FoundCases(world);
      RestoreSound(items[k]);
    }

    /** After the last item the push is idle, no byte is lost or acknowledged, and every served user kept its cell. */
    method RestoreTraffic(items: seq<Traffic>)
      requires Valid() && items != [] && world.push == Restoring(items)
      modifies this`world, this`retired, this`registry, this`repr, registry`upload, registry`download
      ensures Valid() && world.push.Idle?
      ensures world.current == old(world).current && world.counted == old(world).counted
      ensures world.acked == old(world).acked
      ensures world.lost == old(world).lost && world.retiring == old(world).retiring && world.conns == old(world).conns
      ensures old(registry) <= registry && (forall k | |old(registry)| <= k < |registry| :: fresh(registry[k]))
      ensures fresh(repr - old(repr))
    {
      RestoreAll(items, world);
    }

    method RestoreAll(items: seq<Traffic>, ghost w: World)
      requires Valid() && Restored(items, 0, w)
      modifies this`world, this`retired, this`registry, this`repr, registry`upload, registry`download
      ensures Valid() && Restored(items, |items|, w)
      ensures old(registry) <= registry && (forall k | |old(registry)| <= k < |registry| :: fresh(registry[k]))
      ensures fresh(repr - old(repr))
    {
      for k := 0 to |items|
        invariant Valid() && Restored(items, k, w)
        invariant old(registry) <= registry && (forall k | |old(registry)| <= k < |registry| :: fresh(registry[k]))
        invariant fresh(repr - old(repr))
      {
        RestoreNext(items, k, w);
      }
    }

    // -------------------------------------------------------------- the push loop

    /** The report is acknowledged or fails. */
    ghost method Settle(delivered: bool)
      requires Valid() && world.push.Reporting?
      modifies this`world
      ensures Valid() && world == if delivered then DoAcknowledge(old(world)) else DoReportFails(old(world))
    {
      if delivered {
        ReachableStep(world, Acknowledge);
        world := DoAcknowledge(world);
      } else {
        ReachableStep(world, ReportFails);
        world := DoReportFails(world);
      }
    }

    /** The report of a batch, and what follows if it fails. */
    method Report(items: seq<Traffic>, delivered: bool)
      requires Valid() && items != [] && world.push == Reporting(items)
      modifies this`world, this`retired, this`registry, this`repr, registry`upload, registry`download
      ensures Valid() && world.push.Idle?
      ensures world.current == old(world).current && world.counted == old(world).counted
      ensures world.lost == old(world).lost
      ensures world.retiring == old(world).retiring && world.conns == old(world).conns
      ensures world.acked == if delivered then old(world).acked + items else old(world).acked
      ensures old(registry) <= registry && (forall k | |old(registry)| <= k < |registry| :: fresh(registry[k]))
      ensures fresh(repr - old(repr))
    {
      Settle(delivered);
      if !delivered {
        RestoreTraffic(items);
      }
    }

    /**
      The traffic part of pushOnce; `delivered` is what became of the report.  The
      bytes owed move to the acknowledged ones or stay owed.
     */
    method PushTraffic(delivered: bool)
      requires Valid() && world.push.Idle?
      modifies this`world, this`retired, this`registry, this`repr, registry`upload, registry`download
      ensures Valid() && world.push.Idle? && world.retiring == old(world).retiring
      ensures old(registry) <= registry && (forall k | |old(registry)| <= k < |registry| :: fresh(registry[k]))
      ensures fresh(repr - old(repr))
      ensures world.current == old(world).current && world.counted == old(world).counted
      ensures world.conns == old(world).conns
      ensures !delivered ==> world.acked == old(world).acked
      ensures forall id, dir ::
                Total(world.acked, id, dir) + Owed(world, id, dir)
                  == Total(old(world).acked, id, dir) + Owed(old(world), id, dir)
      ensures delivered && old(world).retiring == [] ==> forall id, dir :: Owed(world, id, dir) == 0
    {
      ghost var w := world;
      var items;
      ghost var order;
      items, order := CollectTraffic();
      ghost var collected := world;
      if |items| > 0 {
        Report(items, delivered);
      }
      PushedOwes(w, collected, world, order, delivered);
    }

    /** Close: once both loops are done, a last collect takes all that is owed. */
    method FinalCollect() returns (items: seq<Traffic>)
      requires Valid() && world.push.Idle? && world.retiring == []
      modifies this`world, this`retired, registry`upload, registry`download
      ensures Valid() && items == world.push.Holding()
      ensures world.counted == old(world).counted && world.acked == old(world).acked && world.conns == old(world).conns
      ensures forall id, dir ::
                && Total(items, id, dir) == Owed(old(world), id, dir)
                && Total(world.counted, id, dir)
                   == Total(world.acked, id, dir) + Total(items, id, dir) + Total(world.lost, id, dir)
    {
      ghost var w := world;
      ghost var order;
      items, order := CollectTraffic();
      forall id, dir
        ensures Total(items, id, dir) == Owed(w, id, dir)
        ensures Total(world.counted, id, dir)
                == Total(world.acked, id, dir) + Total(items, id, dir) + Total(world.lost, id, dir)
      {
        CollectTakesAll(w, order, id, dir);
        CollectLosesNothing(w, order, id, dir);
      }
    }

    /**
      The list of a push that begins at `now` and asks for what happened since the
      previous one began: exactly the online addresses of the served users.
     */
    method ListOnline(since: int, ghost now: int) returns (online: seq<OnlineLists.UserOnline>)
      requires Valid() && since == lastPush && clock <= now
      modifies this`clock, this`lastPush, current.Values`ips, current.Values`view
      ensures Valid() && clock == now && lastPush == now && fresh(repr - old(repr))
      ensures NoDup(online)
      ensures forall e :: e in online <==>
                e.userId in current && OnlineLists.IsOnline(old(current[e.userId].view), since, e.address)
    {
      NamesServed();
      ghost var views := map id | id in current :: current[id].view;
      online := ListKeeps(since, now, registry, views);
    }

    method ListKeeps(since: int, ghost now: int, ghost all: seq<UserState>, ghost views: map<int, Online.View>)
      returns (online: seq<OnlineLists.UserOnline>)
      requires Ledgered() && Kept(all, current, clock, lastPush) && since == lastPush && clock <= now
      requires forall id | id in current :: current[id].id == id && id in views && current[id].view == views[id]
      modifies this`clock, this`lastPush, current.Values`ips, current.Values`view
      ensures Ledgered() && Kept(all, current, now, now) && clock == now && lastPush == now
      ensures Footprint(all) <= old(Footprint(all))
      ensures NoDup(online)
      ensures forall e ::
                e in online <==> e.userId in current && OnlineLists.IsOnline(views[e.userId], since, e.address)
    {
      online := OnlineLists.ListSound(current, since, views, all, clock, now);
      Begun(now, all, current);
    }

    /** The push that begins at `now` has asked every served user. */
    ghost method Begun(now: int, all: seq<UserState>, served: map<int, UserState>)
      requires Ledgered() && Kept(all, served, now, now)
      modifies this`clock, this`lastPush
      ensures Ledgered() && Kept(all, served, now, now) && clock == now && lastPush == now
      ensures Footprint(all) == old(Footprint(all))
    {
      clock, lastPush := now, now;
    }

    // -------------------------------------------------------------- connections

    /** get, for a connection that names its user. */
    method Get(id: int) returns (state: UserState?, ghost conn: nat)
      requires Valid()
      modifies this`world
      ensures Valid() && (state == null <==> id !in current)
      ensures state == null ==> world == old(world)
      ensures state != null ==>
                && Enabled(old(world), Lookup(id)) && world == DoLookup(old(world), id)
                && conn == |old(world).conns| && state == current[id] && Holder(conn, state)
                && world.conns[conn].phase == LookedUp
    {
      conn := |world.conns|;
      if id in current {
        state := current[id];
        Step(Lookup(id));
      } else {
        state := null;
      }
    }

    /** Connection `conn` of the ledger holds `state`. */
    ghost predicate Holder(conn: nat, state: UserState)
      reads this
    {
      conn < |world.conns| && world.conns[conn].cell < |registry| == |world.cells|
        && registry[world.conns[conn].cell] == state
    }

    /** The machine follows the objects in what became of a connection. */
    ghost method Turn(w: World, now: int, all: seq<UserState>, served: map<int, UserState>)
      requires Reachable(w) && AllMatch(registry, w.cells) && Kept(all, served, now, lastPush)
      requires w.current == world.current && w.retired == world.retired && Objects(registry, retired, world.retired)
      requires forall id :: id in current <==> id in world.current
      requires forall id | id in current :: world.current[id] < |registry| && registry[world.current[id]] == current[id]
      modifies this`world, this`clock
      ensures Ledgered() && world == w && clock == now && Kept(all, served, now, lastPush)
      ensures Footprint(all) == old(Footprint(all))
    {
      world, clock := w, now;
    }

    /** The router opens the connection on the state it looked up. */
    method OpenOn(state: UserState, address: NetAddr.Addr, now: int, ghost conn: nat) returns (c: Connection)
      requires Valid() && Holder(conn, state) && world.conns[conn].phase == LookedUp && clock <= now
      modifies this`world, this`clock, this`repr, state`ips, state`active, state`view, state`conns
      modifies state.ips.Values`active, state.ips.Values`lastSeen
      ensures Valid() && clock == now && Enabled(old(world), OpenConn(conn)) && world == DoOpen(old(world), conn)
      ensures fresh(c) && state.conns == old(state.conns) + [c] && !c.finished && fresh(repr - old(repr))
      ensures state.view == Online.Opened(old(state.view), NetAddr.Unmap(address), now)
      ensures c.address == NetAddr.Unmap(address)
    {
      c := OpenState(state, address, now, conn);
      Adopt(Footprint(registry));
    }

    method OpenState(state: UserState, address: NetAddr.Addr, now: int, ghost conn: nat) returns (c: Connection)
      requires Ledgered() && Sound() && Holder(conn, state) && world.conns[conn].phase == LookedUp && clock <= now
      modifies this`world, this`clock, state`ips, state`active, state`view, state`conns, state.ips.Values`active
      modifies state.ips.Values`lastSeen
      ensures Ledgered() && Sound() && clock == now && Enabled(old(world), OpenConn(conn))
      ensures world == DoOpen(old(world), conn)
      ensures fresh(c) && state.conns == old(state.conns) + [c] && !c.finished
      ensures fresh(Footprint(registry) - old(Footprint(registry)))
      ensures state.view == Online.Opened(old(state.view), NetAddr.Unmap(address), now)
      ensures c.address == NetAddr.Unmap(address)
    {
      ghost var next, h := OpenStep(world, conn);
      c := OpenNext(state, address, now, next, h);
    }

    /** The same, where the ledger is to become `next`. */
    method OpenNext(state: UserState, address: NetAddr.Addr, now: int, ghost next: World, ghost h: nat)
      returns (c: Connection)
      requires Ledgered() && Sound() && clock <= now && h < |registry| && registry[h] == state && Reachable(next)
      requires next == world.(conns := next.conns,
                              cells := world.cells[h := world.cells[h].(active := world.cells[h].active + 1)])
      modifies this`world, this`clock, state`ips, state`active, state`view, state`conns, state.ips.Values`active
      modifies state.ips.Values`lastSeen
      ensures Ledgered() && Sound() && clock == now && world == next
      ensures fresh(c) && state.conns == old(state.conns) + [c] && !c.finished
      ensures fresh(Footprint(registry) - old(Footprint(registry)))
      ensures state.view == Online.Opened(old(state.view), NetAddr.Unmap(address), now)
      ensures c.address == NetAddr.Unmap(address)
    {
      c := OpenMatched(state, address, now, registry, current, clock, lastPush, world.cells, h);
      Turn(next, now, registry, current);
    }

    /** The counters a connection's reads and writes add to. */
    method CountOn(state: UserState, up: nat, down: nat, ghost conn: nat)
      requires Valid() && Holder(conn, state) && world.conns[conn].phase == Open
      modifies this`world, state`upload, state`download
      ensures Valid() && Enabled(old(world), Count(conn, up, down)) && world == DoCount(old(world), conn, up, down)
      ensures state.upload == old(state.upload) + up && state.download == old(state.download) + down
    {
      CountKeeps(state, up, down, conn, registry, current);
    }

    method CountLedger(state: UserState, up: nat, down: nat, ghost conn: nat)
      requires Ledgered() && Holder(conn, state) && world.conns[conn].phase == Open
      modifies this`world, state`upload, state`download
      ensures Ledgered() && Enabled(old(world), Count(conn, up, down)) && world == DoCount(old(world), conn, up, down)
      ensures state.upload == old(state.upload) + up && state.download == old(state.download) + down
    {
      ReachableStep(world, Count(conn, up, down));
      state.upload, state.download := state.upload + up, state.download + down;
      world := DoCount(world, conn, up, down);
    }

    method CountKeeps(state: UserState, up: nat, down: nat, ghost conn: nat, ghost all: seq<UserState>,
                      ghost served: map<int, UserState>)
      requires Ledgered() && Holder(conn, state) && world.conns[conn].phase == Open
      requires Kept(all, served, clock, lastPush)
      modifies this`world, state`upload, state`download
      ensures Ledgered() && Kept(all, served, clock, lastPush) && Footprint(all) == old(Footprint(all))
      ensures Enabled(old(world), Count(conn, up, down)) && world == DoCount(old(world), conn, up, down)
      ensures state.upload == old(state.upload) + up && state.download == old(state.download) + down
    {
      Allocated(all);
      CountLedger(state, up, down, conn);
    }

    /** The first call of the connection's `done`. */
    method DoneOn(state: UserState, c: Connection, now: int, ghost conn: nat)
      requires Valid() && Holder(conn, state) && world.conns[conn].phase == Open && clock <= now && c in state.conns
      requires !c.finished
      modifies this`world, this`clock, state`active, state`view, c`finished, c.activity`active, c.activity`lastSeen
      ensures Valid() && clock == now && Enabled(old(world), CloseConn(conn)) && world == DoClose(old(world), conn)
      ensures c.finished
      ensures state.view.log == old(state.view).log + [Online.Event(c.address, now)]
    {
      ghost var next, h := CloseStep(world, conn);
      DoneMatched(state, c, now, registry, current, clock, lastPush, world.cells, h);
      Turn(next, now, registry, current);
    }
  }

  /** What a call may change belongs to the table. */
  lemma Belongs(t: UserTable)
    requires t.Valid()
    ensures (forall k | 0 <= k < |t.registry| :: t.registry[k] in t.repr) && LimitersOf(t.registry) <= t.repr
  {
    WithinFootprint(t.registry);
  }

  /** What a push that ran alone did to what is owed. */
  lemma PushedOwes(w: World, collected: World, w': World, order: seq<nat>, delivered: bool)
    requires Reachable(w) && Reachable(collected) && Reachable(w') && w.push.Idle? && w'.push.Idle?
    requires Apart(w, order) && Lists(order, Range(w.current)) && collected == Collected(w, order)
    requires w'.counted == w.counted && w'.lost == collected.lost
    requires delivered ==> w'.acked == w.acked + collected.push.Holding()
    requires !delivered ==> w'.acked == w.acked
    ensures forall id, dir :: Total(w'.acked, id, dir) + Owed(w', id, dir) == Total(w.acked, id, dir) + Owed(w, id, dir)
    ensures delivered && w.retiring == [] ==> forall id, dir :: Owed(w', id, dir) == 0
  {
    forall id, dir
      ensures Total(w'.acked, id, dir) + Owed(w', id, dir) == Total(w.acked, id, dir) + Owed(w, id, dir)
      ensures delivered && w.retiring == [] ==> Owed(w', id, dir) == 0
    {
      CollectLosesNothing(w, order, id, dir);
      SameOwed(w, w', id, dir);
      if delivered && w.retiring == [] {
        CollectTakesAll(w, order, id, dir);
        TotalConcat(w.acked, collected.push.Holding(), id, dir);
      }
    }
  }

  lemma OpenStep(w: World, conn: nat) returns (next: World, h: nat)
    requires Reachable(w) && conn < |w.conns| && w.conns[conn].phase == LookedUp && w.conns[conn].cell < |w.cells|
    ensures Enabled(w, OpenConn(conn)) && next == DoOpen(w, conn) && Reachable(next) && h == w.conns[conn].cell
    ensures next == w.(conns := next.conns, cells := w.cells[h := w.cells[h].(active := w.cells[h].active + 1)])
  {
    ReachableStep(w, OpenConn(conn));
    next, h := DoOpen(w, conn), w.conns[conn].cell;
  }

  lemma CloseStep(w: World, conn: nat) returns (next: World, h: nat)
    requires Reachable(w) && conn < |w.conns| && w.conns[conn].phase == Open && w.conns[conn].cell < |w.cells|
    ensures Enabled(w, CloseConn(conn)) && next == DoClose(w, conn) && Reachable(next) && h == w.conns[conn].cell
    ensures next == w.(conns := next.conns, cells := w.cells[h := w.cells[h].(active := w.cells[h].active - 1)])
  {
    OpenConnIsActive(w, conn);
    ReachableStep(w, CloseConn(conn));
    next, h := DoClose(w, conn), w.conns[conn].cell;
  }

  /** An open connection is counted in its state. */
  lemma OpenConnIsActive(w: World, conn: nat)
    requires Reachable(w) && conn < |w.conns| && w.conns[conn].phase == Open
    ensures w.conns[conn].cell < |w.cells| && w.cells[w.conns[conn].cell].active > 0
  {
    ReachableKeeps(w, 0, Up);
    var r := w.conns[conn].cell;
    assert w.conns[conn] == Conn(r, Open);
    NumOpenNone(w.conns, r);
  }

  lemma LockReaches(w: World, order: seq<nat>)
    requires Apart(w, order) && Reachable(MidServed(w, order, |order|))
    ensures Reachable(MidPass(w, order, 0))
    ensures MidPass(w, order, 0).push.items == MidServed(w, order, |order|).push.items
    ensures MidPass(w, order, 0).cells == MidServed(w, order, |order|).cells
  {
    MidPassStart(w, order);
    ReachableStep(MidServed(w, order, |order|), Lock);
  }

  lemma UnlockReaches(w: World, order: seq<nat>)
    requires Apart(w, order) && Reachable(MidPass(w, order, |w.retired|))
    ensures Reachable(Collected(w, order))
    ensures Collected(w, order).push.Holding() == MidPass(w, order, |w.retired|).push.items
    ensures Collected(w, order).cells == MidPass(w, order, |w.retired|).cells
    ensures Collected(w, order).retired == MidPass(w, order, |w.retired|).retired
  {
    MidPassEnd(w, order);
    ReachableStep(MidPass(w, order, |w.retired|), Unlock);
  }

  lemma {:induction false} ServedReaches(w: World, order: seq<nat>, k: nat)
    requires Reachable(w) && w.push.Idle? && Lists(order, Range(w.current)) && Bounded(w.cells, order) && k <= |order|
    ensures Reachable(MidServed(w, order, k))
  {
    if k == 0 {
      ReachableStep(w, BeginCollect(order));
      assert order[0..] == order && Drained(w.cells, order[..0]) == w.cells;
    } else {
      ServedReaches(w, order, k - 1);
      MidServedNext(w, order, k - 1);
      ServedOneSteps(MidServed(w, order, k - 1));
    }
  }

  lemma {:induction false} PassReaches(w: World, order: seq<nat>, k: nat)
    requires Apart(w, order) && Reachable(MidPass(w, order, 0)) && k <= |w.retired|
    ensures Reachable(MidPass(w, order, k))
  {
    if k > 0 {
      PassReaches(w, order, k - 1);
      MidPassNext(w, order, k - 1);
      MidPassStep(w, order, k - 1);
      PassedOneSteps(MidPass(w, order, k - 1));
    }
  }

  /** A collect that runs alone is a run of the machine. */
  lemma CollectedReaches(w: World, order: seq<nat>)
    requires Reachable(w) && w.push.Idle? && Lists(order, Range(w.current)) && Bounded(w.cells, order)
    ensures Apart(w, order) && Reachable(Collected(w, order))
  {
    RetiredApart(w, order);
    ServedReaches(w, order, |order|);
    LockReaches(w, order);
    PassReaches(w, order, |w.retired|);
    UnlockReaches(w, order);
  }

  /**
    Close: after any timely run, with no update and no push under way, the last
    collect's items and what was acknowledged before are all the bytes ever counted.
   */
  lemma {:induction false} FinalCollectConserves(steps: seq<Step>, order: seq<nat>, id: int, dir: Direction)
    requires IsRun(steps) && TimelyRun(steps) && Exec(steps).push.Idle? && Exec(steps).retiring == []
    requires Lists(order, Range(Exec(steps).current)) && Bounded(Exec(steps).cells, order)
    ensures var w := Exec(steps);
            Apart(w, order) && Total(w.counted, id, dir)
              == Total(w.acked, id, dir) + Total(Collected(w, order).push.Holding(), id, dir)
  {
    var w := Exec(steps);
    RunReaches(steps);
    CollectedReaches(w, order);
    CollectTakesAll(w, order, id, dir);
    TimelyRunsLoseNothing(steps);
    TotalOfEmpty(w.lost, id, dir);
  }

  ghost function Handles(m: map<int, nat>, ids: seq<int>): (r: seq<nat>)
    requires forall k | 0 <= k < |ids| :: ids[k] in m
    ensures |r| == |ids| && forall k | 0 <= k < |ids| :: r[k] == m[ids[k]]
  {
    seq(|ids|, k requires 0 <= k < |ids| => m[ids[k]])
  }

  /** Ranging over the served IDs is ranging over the served states. */
  lemma OrderLists(w: World, ids: seq<int>, order: seq<nat>)
    requires Inv(w) && NoDup(ids) && (forall id :: id in ids <==> id in w.current)
    requires |order| == |ids| && forall k | 0 <= k < |ids| :: ids[k] in w.current && order[k] == w.current[ids[k]]
    ensures Lists(order, Range(w.current))
  {
    forall i, j | 0 <= i < j < |order| ensures order[i] != order[j] {
      assert order[i] == w.current[ids[i]] && order[j] == w.current[ids[j]];
      assert w.cells[order[i]].id == ids[i] && w.cells[order[j]].id == ids[j];
    }
    forall k | 0 <= k < |order| ensures order[k] in Range(w.current) {
      var id := ids[k];
      assert id in w.current && order[k] == w.current[id];
    }
    forall r | r in Range(w.current) ensures r in order {
      var id :| id in w.current && w.current[id] == r;
      assert id in ids;
      var k :| 0 <= k < |ids| && ids[k] == id;
      assert order[k] == r;
    }
  }

  lemma Begin(w: World, ids: seq<int>, order: seq<nat>)
    requires Reachable(w) && w.push.Idle? && NoDup(ids) && (forall id :: id in ids <==> id in w.current)
    requires |order| == |ids| && forall k | 0 <= k < |ids| :: ids[k] in w.current && order[k] == w.current[ids[k]]
    ensures Lists(order, Range(w.current)) && Bounded(w.cells, order)
    ensures Reachable(MidServed(w, order, 0)) && MidServed(w, order, 0) == w.(push := Served(order, []))
  {
    ReachableKeeps(w, 0, Up);
    OrderLists(w, ids, order);
    ReachableStep(w, BeginCollect(order));
    assert order[0..] == order && Drained(w.cells, order[..0]) == w.cells;
  }

  /** Retired states are not served. */
  lemma RetiredApart(w: World, order: seq<nat>)
    requires Reachable(w) && Lists(order, Range(w.current)) && Bounded(w.cells, order)
    ensures Apart(w, order)
  {
    ReachableKeeps(w, 0, Up);
    forall k | 0 <= k < |w.retired| ensures w.retired[k] < |w.cells| && w.retired[k] !in order {
      assert w.retired[k] in w.retired;
    }
  }

  lemma RestorePoint(w: World)
    requires Reachable(w) && w.push.Restoring?
    ensures AtItem(w)
  {
    ReachableKeeps(w, 0, Up);
  }
}
