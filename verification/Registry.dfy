/**
  All user states of a table: their limiters, their connections and the objects they own.

  The predicates about all states go through one predicate per state, named in the
  quantifier's trigger: a proof about one state then does not unfold the others.
 */
module Registries {
  import opened Common
  import opened NetAddr
  import opened Users
  import Limits
  import Online

  // ---------------------------------------------------------------- limiters

  ghost function LimiterOf(u: UserState): set<Limits.Limiter>
    reads u`limiter
  {
    if u.limiter == null then {} else {u.limiter}
  }

  /** The limiter is absent for no limit and otherwise has that rate. */
  ghost predicate Limited(u: UserState, limit: nat)
    reads u`limiter, LimiterOf(u)`limit, LimiterOf(u)`burst
  {
    if limit == 0 then u.limiter == null else u.limiter != null && u.limiter.Valid() && u.limiter.limit == limit
  }

  /** Exactly these IDs are served, each with its limit. */
  ghost predicate Serves(served: map<int, UserState>, limits: map<int, nat>)
    reads served.Values`limiter, LimitersIn(served)`limit, LimitersIn(served)`burst
  {
    && (forall id :: id in served <==> id in limits)
    && (forall id {:trigger Limited(served[id], limits[id])} | id in served :: Limited(served[id], limits[id]))
  }

  ghost predicate LimiterOk(u: UserState, i: nat)
    reads u`limiter, LimiterOf(u)`limit, LimiterOf(u)`burst
  {
    u.handle == i && (u.limiter != null ==> u.limiter.owner == i && u.limiter.Valid())
  }

  /** Every state has its own limiter. */
  ghost predicate Limiters(all: seq<UserState>)
    reads all`limiter, LimitersOf(all)`limit, LimitersOf(all)`burst
  {
    forall i: nat {:trigger LimiterOk(all[i], i)} | i < |all| :: LimiterOk(all[i], i)
  }

  ghost function LimitersOf(all: seq<UserState>): set<Limits.Limiter>
    reads all`limiter
  {
    set u: UserState | u in all && u.limiter != null :: u.limiter as Limits.Limiter
  }

  ghost function LimitersIn(served: map<int, UserState>): set<Limits.Limiter>
    reads served.Values`limiter
  {
    set u: UserState | u in served.Values && u.limiter != null :: u.limiter as Limits.Limiter
  }

  /** `limiters` are the limiters of `states`. */
  ghost predicate Covers(limiters: set<Limits.Limiter>, states: seq<UserState>)
    reads states`limiter
  {
    forall u | u in states :: u.limiter != null ==> u.limiter in limiters
  }

  /** `state` is one of the states. */
  ghost predicate Among(state: UserState, all: seq<UserState>) {
    state.handle < |all| && all[state.handle] == state
  }

  /** setSpeedLimit on one of the states. */
  method SetLimit(state: UserState, limit: nat, now: real, ghost all: seq<UserState>)
    requires Limiters(all) && Among(state, all)
    modifies state`limiter, state.limiter
    ensures Limiters(all) && Limited(state, limit)
    ensures forall u | u in all && u != state :: u.limiter == old(u.limiter)
    ensures forall u | u in all && u != state && u.limiter != null ::
              u.limiter.limit == old(u.limiter.limit) && u.limiter.burst == old(u.limiter.burst)
    ensures limit > 0 && old(state.limiter) != null ==> state.limiter == old(state.limiter)
    ensures state.limiter == old(state.limiter) || state.limiter == null || fresh(state.limiter)
  {
    OwnLimiters(state, all);
    state.SetSpeedLimit(limit, now);
    forall i: nat | i < |all| ensures LimiterOk(all[i], i) {
      assert old(LimiterOk(all[i], i));
    }
  }

  /** No two states share a limiter. */
  lemma OwnLimiters(state: UserState, all: seq<UserState>)
    requires Limiters(all) && Among(state, all)
    ensures state.limiter != null ==> state.limiter.Valid() && state.limiter.owner == state.handle
    ensures forall u | u in all && u != state && u.limiter != null :: u.limiter != state.limiter
  {
    assert LimiterOk(all[state.handle], state.handle);
    forall u | u in all && u != state && u.limiter != null ensures u.limiter != state.limiter {
      var k: nat :| k < |all| && all[k] == u;
      assert LimiterOk(all[k], k);
    }
  }

  lemma LimitersGrow(all: seq<UserState>, all': seq<UserState>)
    requires Limiters(all) && all <= all'
    requires all' == all || (|all'| == |all| + 1 && all'[|all|].handle == |all| && all'[|all|].limiter == null)
    ensures Limiters(all')
  {
    forall i: nat | i < |all'| ensures LimiterOk(all'[i], i) {
      assert i < |all| ==> LimiterOk(all[i], i);
    }
  }

  // ---------------------------------------------------------------- connections

  ghost predicate StateOk(u: UserState, i: nat, clock: int)
    reads u`ips, u`active, u`view, u`conns, u.ips.Values`active, u.ips.Values`lastSeen, u.conns`finished
  {
    u.handle == i && u.Valid() && u.view.clock <= clock
  }

  ghost function ActivitiesOf(all: seq<UserState>): set<IpActivity>
    reads all`ips
  {
    set i, o | 0 <= i < |all| && o in all[i].ips.Values :: o
  }

  ghost function ConnectionsOf(all: seq<UserState>): set<Connection>
    reads all`conns
  {
    set i, k | 0 <= i < |all| && 0 <= k < |all[i].conns| :: all[i].conns[k]
  }

  /** Each state is valid and no event on it is later than `clock`. */
  ghost predicate States(all: seq<UserState>, clock: int)
    reads all`ips, all`active, all`view, all`conns
    reads ActivitiesOf(all)`active, ActivitiesOf(all)`lastSeen, ConnectionsOf(all)`finished
  {
    forall i: nat {:trigger StateOk(all[i], i, clock)} | i < |all| :: StateOk(all[i], i, clock)
  }

  /** A state no connection has used yet. */
  ghost predicate Unused(u: UserState, clock: int)
    reads u`ips, u`view, u`conns
  {
    u.ips == map[] && u.conns == [] && u.view == Online.Fresh(clock)
  }

  ghost predicate AllUnused(made: seq<UserState>, clock: int)
    reads made`ips, made`view, made`conns
  {
    forall k | 0 <= k < |made| :: Unused(made[k], clock)
  }

  lemma UnusedIsValid(u: UserState, clock: int)
    requires Unused(u, clock) && u.active == 0
    ensures u.Valid()
  {
  }

  lemma StatesJoin(all: seq<UserState>, made: seq<UserState>, clock: int)
    requires States(all, clock) && AllUnused(made, clock)
    requires forall k | 0 <= k < |made| :: made[k].handle == |all| + k && made[k].active == 0
    ensures States(all + made, clock)
  {
    var both := all + made;
    forall i: nat | i < |both| ensures StateOk(both[i], i, clock) {
      if i < |all| {
        assert StateOk(all[i], i, clock) && both[i] == all[i];
      } else {
        assert both[i] == made[i - |all|];
        UnusedIsValid(both[i], clock);
      }
    }
  }

  /** No two states share an activity or a connection. */
  lemma OwnersDiffer(state: UserState, all: seq<UserState>, clock: int)
    requires States(all, clock) && Among(state, all)
    ensures forall i | 0 <= i < |all| && i != state.handle :: all[i] != state && all[i].ips.Values !! state.ips.Values
    ensures forall i, c | 0 <= i < |all| && i != state.handle && c in all[i].conns :: c !in state.conns
  {
    assert StateOk(all[state.handle], state.handle, clock);
    forall i: nat | i < |all| && i != state.handle
      ensures all[i] != state && all[i].ips.Values !! state.ips.Values
      ensures forall c | c in all[i].conns :: c !in state.conns
    {
      assert StateOk(all[i], i, clock);
    }
  }

  /** `open` on one of the states. */
  method OpenIn(state: UserState, address: Addr, now: int, ghost all: seq<UserState>, ghost clock: int)
    returns (c: Connection)
    requires States(all, clock) && clock <= now && Among(state, all)
    modifies state`ips, state`active, state`view, state`conns, state.ips.Values`active, state.ips.Values`lastSeen
    ensures States(all, now) && fresh(c) && state.conns == old(state.conns) + [c] && !c.finished
    ensures state.active == old(state.active) + 1
    ensures state.view == Online.Opened(old(state.view), Unmap(address), now)
    ensures fresh(state.Owns() - old(state.Owns()))
    ensures c.address == Unmap(address)
  {
    OwnersDiffer(state, all, clock);
    assert StateOk(all[state.handle], state.handle, clock);
    c := state.Open(address, now);
    forall i: nat | i < |all| ensures StateOk(all[i], i, now) {
      if i != state.handle {
        assert old(StateOk(all[i], i, clock));
      }
    }
  }

  /** The first call of `done` on one of the states. */
  method DoneIn(state: UserState, c: Connection, now: int, ghost all: seq<UserState>, ghost clock: int)
    requires States(all, clock) && clock <= now && Among(state, all)
    requires c in state.conns && !c.finished
    modifies state`active, state`view, c`finished, c.activity`active, c.activity`lastSeen
    ensures States(all, now) && c.finished && state.active == old(state.active) - 1
    ensures state.view.log == old(state.view).log + [Online.Event(c.address, now)]
    ensures state.view.pushed == old(state.view).pushed && state.view.horizon == old(state.view).horizon
  {
    OwnersDiffer(state, all, clock);
    assert StateOk(all[state.handle], state.handle, clock);
    state.Done(c, now);
    forall i: nat | i < |all| ensures StateOk(all[i], i, now) {
      if i != state.handle {
        assert old(StateOk(all[i], i, clock));
      }
    }
  }

  /** What the states own exists: a call that does not name it leaves it alone. */
  lemma Allocated(all: seq<UserState>)
    ensures forall u | u in all :: allocated(u)
    ensures forall o | o in LimitersOf(all) :: allocated(o)
    ensures forall o | o in ActivitiesOf(all) :: allocated(o)
    ensures forall o | o in ConnectionsOf(all) :: allocated(o)
  {
  }

  lemma AllocatedIn(served: map<int, UserState>)
    ensures forall u | u in served.Values :: allocated(u)
    ensures forall o | o in LimitersIn(served) :: allocated(o)
  {
  }

  // ---------------------------------------------------------------- all together

  ghost predicate TurnOk(all: seq<UserState>, u: UserState, lastPush: int)
    reads all`view
  {
    u in all && Online.InTurn(u.view, lastPush)
  }

  /** The served states are ready for the next push. */
  ghost predicate Turns(all: seq<UserState>, served: map<int, UserState>, lastPush: int)
    reads all`view
  {
    forall id {:trigger TurnOk(all, served[id], lastPush)} | id in served :: TurnOk(all, served[id], lastPush)
  }

  /** Every state has its own limiter and connections, and the served ones are ready for the next push. */
  ghost predicate SoundWith(all: seq<UserState>, served: map<int, UserState>, clock: int, lastPush: int)
    reads all`limiter, LimitersOf(all)`limit, LimitersOf(all)`burst
    reads all`ips, all`active, all`view, all`conns
    reads ActivitiesOf(all)`active, ActivitiesOf(all)`lastSeen, ConnectionsOf(all)`finished
  {
    Limiters(all) && States(all, clock) && Turns(all, served, lastPush) && lastPush <= clock
  }

  ghost predicate StatesKey(k: nat) {
    true
  }

  /** SoundWith, under lock: a call that leaves the states alone does not look into them. */
  ghost predicate Kept(all: seq<UserState>, served: map<int, UserState>, clock: int, lastPush: int)
    reads all`limiter, LimitersOf(all)`limit, LimitersOf(all)`burst
    reads all`ips, all`active, all`view, all`conns
    reads ActivitiesOf(all)`active, ActivitiesOf(all)`lastSeen, ConnectionsOf(all)`finished
  {
    forall k: nat {:trigger StatesKey(k)} | Locked(k) :: SoundWith(all, served, clock, lastPush)
  }

  lemma OpenKept(all: seq<UserState>, served: map<int, UserState>, clock: int, lastPush: int)
    ensures Kept(all, served, clock, lastPush) <==> SoundWith(all, served, clock, lastPush)
  {
    assert StatesKey(0) && Locked(0);
  }

  /** The states and what they own. */
  ghost function Footprint(all: seq<UserState>): set<object>
    reads all`limiter, all`ips, all`conns
  {
    (set u: UserState | u in all :: u as object) + (set u: UserState, o | u in all && o in u.Owns() :: o)
  }

  /** All of it is among `objects`. */
  lemma FootprintWithin(all: seq<UserState>, objects: set<object>)
    requires forall k | 0 <= k < |all| :: all[k] in objects && all[k].Owns() <= objects
    ensures Footprint(all) <= objects
  {
  }

  lemma InFootprint(all: seq<UserState>)
    ensures forall k | 0 <= k < |all| :: all[k] in Footprint(all) && all[k].Owns() <= Footprint(all)
  {
    forall k | 0 <= k < |all| ensures all[k] in Footprint(all) && all[k].Owns() <= Footprint(all) {
      assert all[k] in all;
    }
  }

  /** The states, their activities and their connections are among `objects`. */
  ghost predicate Within(all: seq<UserState>, objects: set<object>)
    reads all`ips, all`conns
  {
    forall k | 0 <= k < |all| ::
      all[k] in objects && all[k].ips.Values <= objects && forall c | c in all[k].conns :: c in objects
  }

  lemma WithinFootprint(all: seq<UserState>)
    ensures Within(all, Footprint(all)) && LimitersOf(all) <= Footprint(all)
  {
    InFootprint(all);
    forall l | l in LimitersOf(all) ensures l in Footprint(all) {
      var u :| u in all && u.limiter == l;
      assert l in u.Owns();
    }
  }

  ghost function NewObjects(limiters: set<Limits.Limiter>, made: seq<UserState>): set<object> {
    (set l: Limits.Limiter | l in limiters :: l as object) + (set u: UserState | u in made :: u as object)
  }

  /** New states own nothing but limiters. */
  lemma FootprintJoins(all: seq<UserState>, made: seq<UserState>, clock: int, limiters: set<Limits.Limiter>,
                       was: set<object>)
    requires Within(all, was) && AllUnused(made, clock) && Covers(limiters, all + made)
    ensures Footprint(all + made) <= was + NewObjects(limiters, made)
  {
    var both, objects := all + made, was + NewObjects(limiters, made);
    forall k | 0 <= k < |both| ensures both[k] in objects && both[k].Owns() <= objects {
      assert both[k] in both;
      assert both[k] == if k < |all| then all[k] else made[k - |all|];
    }
    FootprintWithin(both, objects);
  }

  /** A new state without a limiter keeps all states sound. */
  lemma SoundGrows(all: seq<UserState>, state: UserState, served: map<int, UserState>, clock: int, lastPush: int)
    requires Kept(all, served, clock, lastPush)
    requires Unused(state, clock) && state.handle == |all| && state.limiter == null && state.active == 0
    ensures Kept(all + [state], served, clock, lastPush)
  {
    OpenKept(all, served, clock, lastPush);
    OpenKept(all + [state], served, clock, lastPush);
    LimitersGrow(all, all + [state]);
    StatesJoin(all, [state], clock);
    forall id | id in served ensures TurnOk(all + [state], served[id], lastPush) {
      assert TurnOk(all, served[id], lastPush);
    }
  }

  lemma FootprintGrows(all: seq<UserState>, state: UserState, clock: int, was: set<object>)
    requires Footprint(all) <= was && Unused(state, clock) && state.limiter == null
    ensures Footprint(all + [state]) <= was + {state}
  {
    InFootprint(all);
    var both := all + [state];
    forall k | 0 <= k < |both| ensures both[k] in was + {state} && both[k].Owns() <= was + {state} {
      assert both[k] == if k < |all| then all[k] else state;
    }
    FootprintWithin(both, was + {state});
  }

  // ---------------------------------------------------------------- connections, on sound states

  lemma TurnsOn(all: seq<UserState>, served: map<int, UserState>, lastPush: int, state: UserState, was: Online.View,
                e: Online.Event)
    requires forall id | id in served ::
               served[id] in all && (served[id] != state ==> Online.InTurn(served[id].view, lastPush))
    requires state.view.log == was.log + [e] && lastPush <= e.time
    requires state.view.pushed == was.pushed && state.view.horizon == was.horizon
    requires state in served.Values ==> Online.InTurn(was, lastPush)
    ensures Turns(all, served, lastPush)
  {
  }

  method OpenSound(state: UserState, address: Addr, now: int, ghost all: seq<UserState>,
                   ghost served: map<int, UserState>, ghost clock: int, ghost lastPush: int)
    returns (c: Connection)
    requires SoundWith(all, served, clock, lastPush) && clock <= now && Among(state, all)
    modifies state`ips, state`active, state`view, state`conns, state.ips.Values`active, state.ips.Values`lastSeen
    ensures SoundWith(all, served, now, lastPush) && fresh(Footprint(all) - old(Footprint(all)))
    ensures fresh(c) && state.conns == old(state.conns) + [c] && !c.finished && state.active == old(state.active) + 1
    ensures state.view == Online.Opened(old(state.view), Unmap(address), now)
    ensures c.address == Unmap(address)
  {
    ghost var was := Footprint(all);
    WithinFootprint(all);
    c := OpenTurns(state, address, now, all, served, clock, lastPush);
    FootprintWithin(all, was + state.Owns());
  }

  method OpenTurns(state: UserState, address: Addr, now: int, ghost all: seq<UserState>,
                   ghost served: map<int, UserState>, ghost clock: int, ghost lastPush: int)
    returns (c: Connection)
    requires SoundWith(all, served, clock, lastPush) && clock <= now && Among(state, all)
    modifies state`ips, state`active, state`view, state`conns, state.ips.Values`active, state.ips.Values`lastSeen
    ensures SoundWith(all, served, now, lastPush) && fresh(state.Owns() - old(state.Owns()))
    ensures fresh(c) && state.conns == old(state.conns) + [c] && !c.finished && state.active == old(state.active) + 1
    ensures state.view == Online.Opened(old(state.view), Unmap(address), now)
    ensures c.address == Unmap(address)
  {
    ghost var view := state.view;
    Allocated(all);
    forall id | id in served ensures served[id] in all && Online.InTurn(served[id].view, lastPush) {
      assert TurnOk(all, served[id], lastPush);
    }
    c := OpenIn(state, address, now, all, clock);
    TurnsOn(all, served, lastPush, state, view, Online.Event(Unmap(address), now));
  }

  method DoneSound(state: UserState, c: Connection, now: int, ghost all: seq<UserState>,
                   ghost served: map<int, UserState>, ghost clock: int, ghost lastPush: int)
    requires SoundWith(all, served, clock, lastPush) && clock <= now && Among(state, all) && c in state.conns
    requires !c.finished
    modifies state`active, state`view, c`finished, c.activity`active, c.activity`lastSeen
    ensures SoundWith(all, served, now, lastPush) && c.finished && state.active == old(state.active) - 1
    ensures Footprint(all) == old(Footprint(all))
    ensures state.view.log == old(state.view).log + [Online.Event(c.address, now)]
  {
    ghost var view := state.view;
    Allocated(all);
    forall id | id in served ensures served[id] in all && Online.InTurn(served[id].view, lastPush) {
      assert TurnOk(all, served[id], lastPush);
    }
    DoneIn(state, c, now, all, clock);
    TurnsOn(all, served, lastPush, state, view, Online.Event(c.address, now));
  }
}
