/** users.go, the two halves of update: the map to publish, and the states that leave. */
module Updating {
  import opened Common
  import opened Ledger
  import opened Conservation
  import opened Accounts
  import opened Users
  import opened Registries
  import GoMaps
  import Limits
  import Online
  import NetAddr

  ghost predicate Matches(u: UserState, c: Cell)
    reads u`upload, u`download, u`active, u`cancelled
  {
    u.id == c.id && u.upload == c.upload && u.download == c.download && u.active == c.active
      && u.cancelled == c.cancelled
  }

  /** `list` are the objects of the cells `handles`. */
  ghost predicate Objects(registry: seq<UserState>, list: seq<UserState>, handles: seq<nat>) {
    && |list| == |handles|
    && forall k | 0 <= k < |list| :: handles[k] < |registry| && registry[handles[k]] == list[k]
  }

  /** `made` are the states newUserState returned for the cells `added`. */
  ghost predicate Made(added: seq<Cell>, made: seq<UserState>, base: nat)
    reads made`upload, made`download, made`active, made`cancelled
  {
    |made| == |added|
    && forall j | 0 <= j < |made| :: made[j].handle == base + j && Matches(made[j], added[j])
  }

  /** `next` leads each served ID to its state. */
  ghost predicate Leads(served: map<int, nat>, next: map<int, UserState>, all: seq<UserState>) {
    && (forall id :: id in next <==> id in served)
    && (forall id | id in next :: served[id] < |all| && all[served[id]] == next[id])
  }

  lemma LeadsSnoc(served: map<int, nat>, next: map<int, UserState>, all: seq<UserState>, all': seq<UserState>, id: int,
                  state: UserState)
    requires Leads(served, next, all) && all <= all' && state.handle < |all'| && all'[state.handle] == state
    ensures Leads(served[id := state.handle], next[id := state], all')
  {
  }

  // ---------------------------------------------------------------- the loop of update

  /** `previous` are the states of the handles `served`, each named by its ID. */
  ghost predicate Serving(served: map<int, nat>, previous: map<int, UserState>, registry: seq<UserState>) {
    Leads(served, previous, registry) && forall id | id in previous :: previous[id].id == id
  }

  /** A map being built: `leads` are the handles it leads to, `made` the states made for it, with cells `added`. */
  ghost predicate Built(leads: map<int, nat>, added: seq<Cell>, registry: seq<UserState>, next: map<int, UserState>,
                        made: seq<UserState>)
    reads made`upload, made`download, made`active, made`cancelled
  {
    Made(added, made, |registry|) && Serving(leads, next, registry + made)
  }

  /** What the loop of update has made so far, and the limiters its states hold. */
  datatype Build = Build(leads: map<int, nat>, added: seq<Cell>, made: seq<UserState>, limiters: set<Limits.Limiter>)

  /** What update starts from: the handles it serves, all states, the time, and the limiters of the served users. */
  datatype Before = Before(served: map<int, nat>, registry: seq<UserState>, clock: int,
    limiters: map<int, Limits.Limiter?>)

  /** The handle the next entry leads to. */
  ghost function NextHandle(served: map<int, nat>, id: int, base: nat, added: seq<Cell>): nat {
    if id in served then served[id] else base + |added|
  }

  ghost function NextCells(served: map<int, nat>, id: int): seq<Cell> {
    if id in served then [] else [Cell(id, 0, 0, 0, false)]
  }

  /** The state of the next entry: the one it was served with, or a new one. */
  method StateOf(id: int, previous: map<int, UserState>, next: map<int, UserState>, ghost served: map<int, nat>,
                 ghost clock: int, ghost registry: seq<UserState>, ghost leads: map<int, nat>,
                 ghost added: seq<Cell>, ghost made: seq<UserState>)
    returns (state: UserState, ghost made': seq<UserState>)
    requires Serving(served, previous, registry) && Built(leads, added, registry, next, made) && AllUnused(made, clock)
    requires forall k | 0 <= k < |registry| :: registry[k].handle == k
    ensures Built(leads[id := NextHandle(served, id, |registry|, added)], added + NextCells(served, id), registry,
            next[id := state], made')
    ensures AllUnused(made', clock)
    ensures id in previous ==> state == previous[id] && made' == made
    ensures id !in previous ==> fresh(state) && state.limiter == null && made' == made + [state]
    ensures state.handle < |registry + made'| && (registry + made')[state.handle] == state
  {
    if id in previous {
      state, made' := previous[id], made;
    } else {
      state := new UserState(id, |registry| + |made|, clock);
      made' := made + [state];
    }
    assert (registry + made')[state.handle] == state;
    LeadsSnoc(leads, next, registry + made, registry + made', id, state);
  }

  /** Each user of the map has the limit of its last entry. */
  ghost predicate AllLimited(users: seq<User>, nodeSpeedLimit: nat, next: map<int, UserState>)
    reads next.Values`limiter, LimitersIn(next)`limit, LimitersIn(next)`burst
  {
    forall id | id in next :: Limited(next[id], EffectiveLimit(nodeSpeedLimit, LastLimit(users, id)))
  }

  // ---------------------------------------------------------------- which limiter objects stay

  /** No entry of the user takes its limit away. */
  ghost predicate NeverUnlimited(users: seq<User>, nodeSpeedLimit: nat, id: int) {
    forall k | 0 <= k < |users| && users[k].id == id :: EffectiveLimit(nodeSpeedLimit, users[k].speedLimit) != 0
  }

  lemma NeverUnlimitedSnoc(users: seq<User>, user: User, nodeSpeedLimit: nat, id: int)
    ensures NeverUnlimited(users + [user], nodeSpeedLimit, id) <==>
              NeverUnlimited(users, nodeSpeedLimit, id)
                && (user.id == id ==> EffectiveLimit(nodeSpeedLimit, user.speedLimit) != 0)
  {
    var all := users + [user];
    assert all[|users|] == user && forall k | 0 <= k < |users| :: all[k] == users[k];
  }

  /**
    A limiter a user had is still its limiter if and only if no entry took the limit
    away; `was` are those of before.
   */
  ghost predicate KeepsLimiters(users: seq<User>, nodeSpeedLimit: nat, previous: map<int, UserState>,
                                was: map<int, Limits.Limiter?>)
    reads previous.Values`limiter
  {
    forall id | id in previous ::
      id in was && (was[id] != null
        ==> (previous[id].limiter == was[id] <==> NeverUnlimited(users, nodeSpeedLimit, id)))
  }

  /** One turn of the loop over the new list. */
  method ServeUser(ghost users: seq<User>, user: User, nodeSpeedLimit: nat, now: real, previous: map<int, UserState>,
                   next: map<int, UserState>, ghost g: Before, ghost b: Build)
    returns (next': map<int, UserState>, ghost b': Build)
    requires Serving(g.served, previous, g.registry) && Built(b.leads, b.added, g.registry, next, b.made)
    requires Limiters(g.registry + b.made) && AllLimited(users, nodeSpeedLimit, next)
    requires Covers(b.limiters, g.registry + b.made)
    requires AllUnused(b.made, g.clock) && KeepsLimiters(users, nodeSpeedLimit, previous, g.limiters)
    modifies (g.registry + b.made)`limiter, b.limiters
    ensures b'.leads == b.leads[user.id := NextHandle(g.served, user.id, |g.registry|, b.added)]
    ensures b'.added == b.added + NextCells(g.served, user.id)
    ensures Built(b'.leads, b'.added, g.registry, next', b'.made) && AllUnused(b'.made, g.clock)
    ensures Limiters(g.registry + b'.made) && AllLimited(users + [user], nodeSpeedLimit, next')
    ensures Covers(b'.limiters, g.registry + b'.made)
    ensures KeepsLimiters(users + [user], nodeSpeedLimit, previous, g.limiters)
    ensures forall id | id in previous ::
              previous[id].limiter == old(previous[id].limiter) || previous[id].limiter == null
              || fresh(previous[id].limiter)
    ensures forall k | 0 <= k < |b'.made| :: (k < |b.made| && b'.made[k] == b.made[k]) || fresh(b'.made[k])
    ensures forall l | l in b'.limiters :: l in b.limiters || fresh(l)
  {
    var state;
    PreviousAmong(g.served, previous, g.registry, b.made);
    state, b' := StateIn(user.id, previous, next, g, b);
    next', b' := ThrottleBuilt(users, user, nodeSpeedLimit, now, previous, next, state, g, b');
  }

  /** The state of the next entry, among all states. */
  method StateIn(id: int, previous: map<int, UserState>, next: map<int, UserState>, ghost g: Before, ghost b: Build)
    returns (state: UserState, ghost b': Build)
    requires Serving(g.served, previous, g.registry) && Built(b.leads, b.added, g.registry, next, b.made)
    requires Limiters(g.registry + b.made) && Covers(b.limiters, g.registry + b.made) && AllUnused(b.made, g.clock)
    ensures b'.leads == b.leads[id := NextHandle(g.served, id, |g.registry|, b.added)]
    ensures b'.added == b.added + NextCells(g.served, id) && b'.limiters == b.limiters
    ensures Built(b'.leads, b'.added, g.registry, next[id := state], b'.made) && AllUnused(b'.made, g.clock)
    ensures Limiters(g.registry + b'.made) && Covers(b'.limiters, g.registry + b'.made)
    ensures state.id == id && (id in previous ==> state == previous[id])
    ensures state.handle < |g.registry + b'.made| && (g.registry + b'.made)[state.handle] == state
    ensures forall k | 0 <= k < |b'.made| :: (k < |b.made| && b'.made[k] == b.made[k]) || fresh(b'.made[k])
    ensures id !in previous ==> fresh(state) && state.limiter == null
  {
    forall k: nat | k < |g.registry| ensures g.registry[k].handle == k {
      assert LimiterOk((g.registry + b.made)[k], k);
    }
    ghost var made;
    Allocated(g.registry + b.made);
    state, made := StateOf(id, previous, next, g.served, g.clock, g.registry, b.leads, b.added, b.made);
    LimitersGrow(g.registry + b.made, g.registry + made);
    b' := Build(b.leads[id := NextHandle(g.served, id, |g.registry|, b.added)], b.added + NextCells(g.served, id), made,
      b.limiters);
  }

  /** Setting the limit leaves what was built. */
  method ThrottleBuilt(ghost users: seq<User>, user: User, nodeSpeedLimit: nat, now: real,
                       ghost previous: map<int, UserState>, next: map<int, UserState>,
                       state: UserState, ghost g: Before, ghost b: Build)
    returns (next': map<int, UserState>, ghost b': Build)
    requires Serving(g.served, previous, g.registry)
    requires Built(b.leads, b.added, g.registry, next[user.id := state], b.made)
    requires AllUnused(b.made, g.clock) && Limiters(g.registry + b.made) && Covers(b.limiters, g.registry + b.made)
    requires state.handle < |g.registry + b.made| && (g.registry + b.made)[state.handle] == state
    requires state.id == user.id && (user.id in previous ==> state == previous[user.id])
    requires AllLimited(users, nodeSpeedLimit, next) && KeepsLimiters(users, nodeSpeedLimit, previous, g.limiters)
    modifies state`limiter, state.limiter
    ensures b' == b.(limiters := b'.limiters) && Built(b.leads, b.added, g.registry, next', b.made)
    ensures AllUnused(b.made, g.clock)
    ensures Limiters(g.registry + b.made) && Covers(b'.limiters, g.registry + b.made)
    ensures (forall l | l in b'.limiters :: l in b.limiters || fresh(l))
    ensures AllLimited(users + [user], nodeSpeedLimit, next')
    ensures KeepsLimiters(users + [user], nodeSpeedLimit, previous, g.limiters)
    ensures forall id | id in previous ::
              previous[id].limiter == old(previous[id].limiter) || previous[id].limiter == null
              || fresh(previous[id].limiter)
  {
    PreviousAmong(g.served, previous, g.registry, b.made);
    ghost var more := next[user.id := state];
    ServedAmong(b.leads, more, g.registry + b.made);
    forall id | id in next && id != user.id ensures next[id] in g.registry + b.made && next[id].id == id {
      assert id in more && more[id] == next[id];
    }
    ghost var limiters;
    next', limiters := Throttle(users, user, nodeSpeedLimit, now, next, state, g.registry + b.made, b.limiters,
      previous, g.limiters);
    b' := b.(limiters := limiters);
  }

  lemma ServedAmong(leads: map<int, nat>, next: map<int, UserState>, all: seq<UserState>)
    requires Serving(leads, next, all)
    ensures forall id | id in next :: next[id] in all && next[id].id == id
  {
  }

  lemma PreviousAmong(served: map<int, nat>, previous: map<int, UserState>, registry: seq<UserState>,
                      made: seq<UserState>)
    requires Serving(served, previous, registry)
    ensures forall id | id in previous :: previous[id] in registry + made && previous[id].id == id
  {
    forall id | id in previous ensures previous[id] in registry + made {
      assert (registry + made)[served[id]] == previous[id];
    }
  }

  /** The limit of one entry is set on its state. */
  method Throttle(ghost users: seq<User>, user: User, nodeSpeedLimit: nat, now: real, next: map<int, UserState>,
                  state: UserState, ghost all: seq<UserState>, ghost limiters: set<Limits.Limiter>,
                  ghost previous: map<int, UserState>, ghost was: map<int, Limits.Limiter?>)
    returns (next': map<int, UserState>, ghost limiters': set<Limits.Limiter>)
    requires Limiters(all) && state.handle < |all| && all[state.handle] == state && state.id == user.id
    requires AllLimited(users, nodeSpeedLimit, next) && Covers(limiters, all)
    requires forall id | id in next && id != user.id :: next[id] in all && next[id].id == id
    requires forall id | id in previous :: previous[id] in all && previous[id].id == id
    requires user.id in previous ==> state == previous[user.id]
    requires KeepsLimiters(users, nodeSpeedLimit, previous, was)
    modifies state`limiter, state.limiter
    ensures next' == next[user.id := state] && Limiters(all) && AllLimited(users + [user], nodeSpeedLimit, next')
    ensures Covers(limiters', all) && forall l | l in limiters' :: l in limiters || fresh(l)
    ensures KeepsLimiters(users + [user], nodeSpeedLimit, previous, was)
    ensures forall id | id in previous ::
              previous[id].limiter == old(previous[id].limiter) || previous[id].limiter == null
              || fresh(previous[id].limiter)
  {
    SetLimit(state, EffectiveLimit(nodeSpeedLimit, user.speedLimit), now, all);
    limiters' := if state.limiter == null then limiters else limiters + {state.limiter};
    next' := next[user.id := state];
    forall id | id in next' ensures Limited(next'[id], EffectiveLimit(nodeSpeedLimit, LastLimit(users + [user], id))) {
      LastLimitSnoc(users, user, id);
    }
    forall id | id in previous && was[id] != null
      ensures previous[id].limiter == was[id] <==> NeverUnlimited(users + [user], nodeSpeedLimit, id)
    {
      NeverUnlimitedSnoc(users, user, nodeSpeedLimit, id);
    }
  }

  /** `leads` and `added` are what the ledger's Publish step makes of the entries so far. */
  ghost predicate Tally(served: map<int, nat>, users: seq<User>, base: nat, leads: map<int, nat>, added: seq<Cell>) {
    leads == Serve(served, Ids(users), base) && added == FreshCells(served, Ids(users))
  }

  lemma TallySnoc(served: map<int, nat>, users: seq<User>, user: User, base: nat, leads: map<int, nat>,
                  added: seq<Cell>)
    requires Tally(served, users, base, leads, added)
    ensures Tally(served, users + [user], base, leads[user.id := NextHandle(served, user.id, base, added)],
            added + NextCells(served, user.id))
  {
    var ids, ids' := Ids(users), Ids(users + [user]);
    IdsSnoc(users, user);
    ServeSnoc(served, ids, user.id, base);
    assert ids' == ids + [user.id];
    assert FreshCells(served, ids') == added + NextCells(served, user.id);
    assert Serve(served, ids', base) == leads[user.id := NextHandle(served, user.id, base, added)];
  }

  /** The loop of update so far: `next` serves `users`, each with its limit. */
  ghost predicate Building(users: seq<User>, nodeSpeedLimit: nat, served: map<int, nat>, registry: seq<UserState>,
                           next: map<int, UserState>, b: Build)
    reads b.made`upload, b.made`download, b.made`active, b.made`cancelled
    reads (registry + b.made)`limiter, LimitersOf(registry + b.made)`limit, LimitersOf(registry + b.made)`burst
    reads next.Values`limiter, LimitersIn(next)`limit, LimitersIn(next)`burst
  {
    && Built(b.leads, b.added, registry, next, b.made) && Tally(served, users, |registry|, b.leads, b.added)
    && Limiters(registry + b.made) && AllLimited(users, nodeSpeedLimit, next) && Covers(b.limiters, registry + b.made)
  }

  /** One turn of the loop. */
  method BuildStep(ghost users: seq<User>, user: User, nodeSpeedLimit: nat, now: real, previous: map<int, UserState>,
                   next: map<int, UserState>, ghost g: Before, ghost b: Build)
    returns (next': map<int, UserState>, ghost b': Build)
    requires Serving(g.served, previous, g.registry) && Building(users, nodeSpeedLimit, g.served, g.registry, next, b)
    requires AllUnused(b.made, g.clock) && KeepsLimiters(users, nodeSpeedLimit, previous, g.limiters)
    modifies g.registry`limiter, b.made`limiter, b.limiters
    ensures Building(users + [user], nodeSpeedLimit, g.served, g.registry, next', b')
    ensures AllUnused(b'.made, g.clock) && KeepsLimiters(users + [user], nodeSpeedLimit, previous, g.limiters)
    ensures forall id | id in previous ::
              previous[id].limiter == old(previous[id].limiter) || previous[id].limiter == null
              || fresh(previous[id].limiter)
    ensures forall k | 0 <= k < |b'.made| :: (k < |b.made| && b'.made[k] == b.made[k]) || fresh(b'.made[k])
    ensures forall l | l in b'.limiters :: l in b.limiters || fresh(l)
  {
    TallySnoc(g.served, users, user, |g.registry|, b.leads, b.added);
    assert forall u | u in g.registry + b.made :: u in g.registry || u in b.made;
    next', b' := ServeUser(users, user, nodeSpeedLimit, now, previous, next, g, b);
  }

  lemma BuildStart(nodeSpeedLimit: nat, previous: map<int, UserState>, g: Before)
    requires Limiters(g.registry) && g.limiters == (map id | id in previous :: previous[id].limiter)
    ensures Building([], nodeSpeedLimit, g.served, g.registry, map[], Build(map[], [], [], LimitersOf(g.registry)))
    ensures KeepsLimiters([], nodeSpeedLimit, previous, g.limiters)
  {
    assert g.registry + [] == g.registry;
  }

  /**
    The loop of update: the map to publish, with every user's limit set.  A limiter a
    user had stays its limiter exactly if no entry of it takes the limit away.
   */
  method BuildNext(users: seq<User>, nodeSpeedLimit: nat, now: real, previous: map<int, UserState>, ghost g: Before)
    returns (next: map<int, UserState>, ghost b: Build)
    requires Serving(g.served, previous, g.registry) && Limiters(g.registry)
    requires g.limiters == (map id | id in previous :: previous[id].limiter)
    modifies g.registry`limiter, LimitersOf(g.registry)
    ensures Building(users, nodeSpeedLimit, g.served, g.registry, next, b) && AllUnused(b.made, g.clock)
    ensures KeepsLimiters(users, nodeSpeedLimit, previous, g.limiters)
    ensures forall id | id in previous ::
              previous[id].limiter == old(previous[id].limiter) || previous[id].limiter == null
              || fresh(previous[id].limiter)
    ensures forall k | 0 <= k < |b.made| :: fresh(b.made[k])
    ensures forall l | l in b.limiters :: l in old(LimitersOf(g.registry)) || fresh(l)
  {
    ghost var owned := LimitersOf(g.registry);
    next, b := map[], Build(map[], [], [], owned);
    BuildStart(nodeSpeedLimit, previous, g);
    Slices(users, 0);
    for i := 0 to |users|
      invariant Building(users[..i], nodeSpeedLimit, g.served, g.registry, next, b)
      invariant AllUnused(b.made, g.clock) && KeepsLimiters(users[..i], nodeSpeedLimit, previous, g.limiters)
      invariant forall id | id in previous ::
                  previous[id].limiter == old(previous[id].limiter) || previous[id].limiter == null
                  || fresh(previous[id].limiter)
      invariant (forall k | 0 <= k < |b.made| :: fresh(b.made[k]))
      invariant (forall l | l in b.limiters :: l in owned || fresh(l))
    {
      Slices(users, i);
      ghost var before := b.made;
      next, b := BuildStep(users[..i], users[i], nodeSpeedLimit, now, previous, next, g, b);
      assert forall k | 0 <= k < |b.made| :: (k < |before| && b.made[k] == before[k]) || fresh(b.made[k]);
    }
  }

  /** What the states own after the loop: what they owned, new limiters and new states. */
  method BuildTracked(users: seq<User>, nodeSpeedLimit: nat, now: real, previous: map<int, UserState>, ghost g: Before)
    returns (next: map<int, UserState>, ghost b: Build)
    requires Serving(g.served, previous, g.registry) && Limiters(g.registry)
    requires g.limiters == (map id | id in previous :: previous[id].limiter)
    modifies g.registry`limiter, LimitersOf(g.registry)
    ensures Building(users, nodeSpeedLimit, g.served, g.registry, next, b) && AllUnused(b.made, g.clock)
    ensures KeepsLimiters(users, nodeSpeedLimit, previous, g.limiters)
    ensures forall id | id in previous ::
              previous[id].limiter == old(previous[id].limiter) || previous[id].limiter == null
              || fresh(previous[id].limiter)
    ensures forall k | 0 <= k < |b.made| :: fresh(b.made[k])
    ensures fresh(Footprint(g.registry + b.made) - old(Footprint(g.registry)))
  {
    ghost var was := Footprint(g.registry);
    WithinFootprint(g.registry);
    next, b := BuildNext(users, nodeSpeedLimit, now, previous, g);
    FootprintJoins(g.registry, b.made, g.clock, b.limiters, was);
  }

  /** The map that was built leads to states of before and to new ones, all of them sound. */
  lemma BuiltSound(users: seq<User>, nodeSpeedLimit: nat, served: map<int, nat>, registry: seq<UserState>,
                   previous: map<int, UserState>, next: map<int, UserState>, b: Build, clock: int, lastPush: int)
    requires Serving(served, previous, registry) && States(registry, clock) && Turns(registry, previous, lastPush)
    requires lastPush <= clock
    requires Building(users, nodeSpeedLimit, served, registry, next, b) && AllUnused(b.made, clock)
    ensures SoundWith(registry + b.made, next, clock, lastPush)
    ensures forall id | id in previous && id in next :: next[id] == previous[id]
    ensures Serves(next, Table(users, nodeSpeedLimit))
  {
    StatesJoin(registry, b.made, clock);
    var all := registry + b.made;
    forall id | id in next ensures TurnOk(all, next[id], lastPush) && (id in previous ==> next[id] == previous[id]) {
      if id in served {
        ServesKept(served, Ids(users), |registry|, id);
        assert all[served[id]] == registry[served[id]] == previous[id];
        assert TurnOk(registry, previous[id], lastPush);
      } else {
        ServesFresh(served, Ids(users), |registry|, id);
        assert all[b.leads[id]] == b.made[b.leads[id] - |registry|];
      }
    }
  }

  lemma BuiltKept(users: seq<User>, nodeSpeedLimit: nat, served: map<int, nat>, registry: seq<UserState>,
                  previous: map<int, UserState>, next: map<int, UserState>, b: Build, clock: int, lastPush: int)
    requires Serving(served, previous, registry) && States(registry, clock) && Turns(registry, previous, lastPush)
    requires lastPush <= clock
    requires Building(users, nodeSpeedLimit, served, registry, next, b) && AllUnused(b.made, clock)
    ensures Kept(registry + b.made, next, clock, lastPush)
    ensures forall id | id in previous && id in next :: next[id] == previous[id]
    ensures Serves(next, Table(users, nodeSpeedLimit))
  {
    BuiltSound(users, nodeSpeedLimit, served, registry, previous, next, b, clock, lastPush);
    OpenKept(registry + b.made, next, clock, lastPush);
  }

  /** The loop of update touches no connection. */
  method BuildApart(users: seq<User>, nodeSpeedLimit: nat, now: real, previous: map<int, UserState>, ghost g: Before,
                    ghost all: seq<UserState>, ghost lastPush: int)
    returns (next: map<int, UserState>, ghost b: Build)
    requires Serving(g.served, previous, g.registry) && Limiters(g.registry)
    requires g.limiters == (map id | id in previous :: previous[id].limiter)
    requires States(all, g.clock) && Turns(all, previous, lastPush)
    modifies g.registry`limiter, LimitersOf(g.registry)
    ensures Building(users, nodeSpeedLimit, g.served, g.registry, next, b) && AllUnused(b.made, g.clock)
    ensures KeepsLimiters(users, nodeSpeedLimit, previous, g.limiters)
    ensures forall id | id in previous ::
              previous[id].limiter == old(previous[id].limiter) || previous[id].limiter == null
              || fresh(previous[id].limiter)
    ensures forall k | 0 <= k < |b.made| :: fresh(b.made[k])
    ensures fresh(Footprint(g.registry + b.made) - old(Footprint(g.registry)))
    ensures States(all, g.clock) && Turns(all, previous, lastPush)
  {
    Allocated(all);
    next, b := BuildTracked(users, nodeSpeedLimit, now, previous, g);
  }

  /** The loop of update leaves all states sound and the map with the list's limits. */
  method BuildSound(users: seq<User>, nodeSpeedLimit: nat, now: real, previous: map<int, UserState>, ghost g: Before,
                    ghost lastPush: int)
    returns (next: map<int, UserState>, ghost b: Build)
    requires Serving(g.served, previous, g.registry) && Kept(g.registry, previous, g.clock, lastPush)
    requires g.limiters == (map id | id in previous :: previous[id].limiter)
    modifies g.registry`limiter, LimitersOf(g.registry)
    ensures Built(Serve(g.served, Ids(users), |g.registry|), FreshCells(g.served, Ids(users)), g.registry, next, b.made)
    ensures Kept(g.registry + b.made, next, g.clock, lastPush) && Serves(next, Table(users, nodeSpeedLimit))
    ensures KeepsLimiters(users, nodeSpeedLimit, previous, g.limiters)
    ensures forall id | id in previous ::
              previous[id].limiter == old(previous[id].limiter) || previous[id].limiter == null
              || fresh(previous[id].limiter)
    ensures forall k | 0 <= k < |b.made| :: fresh(b.made[k])
    ensures fresh(Footprint(g.registry + b.made) - old(Footprint(g.registry)))
    ensures forall id | id in previous && id in next :: next[id] == previous[id]
  {
    OpenKept(g.registry, previous, g.clock, lastPush);
    next, b := BuildApart(users, nodeSpeedLimit, now, previous, g, g.registry, lastPush);
    BuiltKept(users, nodeSpeedLimit, g.served, g.registry, previous, next, b, g.clock, lastPush);
  }

  lemma Slices(users: seq<User>, i: nat)
    requires i <= |users|
    ensures users[..0] == [] && users[..|users|] == users
    ensures i < |users| ==> users[..i + 1] == users[..i] + [users[i]]
  {
  }

  /** The states of `previous` that `next` does not serve, in an order Go chooses. */
  method Leaving(previous: map<int, UserState>, next: map<int, UserState>)
    returns (left: seq<UserState>, gone: seq<int>)
    ensures NoDup(gone) && forall id :: id in gone <==> id in previous && id !in next
    ensures |left| == |gone| && forall k | 0 <= k < |gone| :: gone[k] in previous && left[k] == previous[gone[k]]
  {
    var visit := GoMaps.RangeOrder(previous);
    left, gone := [], [];
    for k := 0 to |visit|
      invariant NoDup(gone) && (forall id :: id in gone <==> id in visit[..k] && id !in next)
      invariant |left| == |gone| && forall j | 0 <= j < |gone| :: gone[j] in previous && left[j] == previous[gone[j]]
    {
      var id := visit[k];
      assert id !in visit[..k] by {
        assert forall j | 0 <= j < k :: visit[..k][j] == visit[j];
      }
      assert visit[..k + 1] == visit[..k] + [id];
      if id !in next {
        left, gone := left + [previous[id]], gone + [id];
      }
    }
    assert visit[..|visit|] == visit;
  }

  ghost predicate AllMatch(registry: seq<UserState>, cells: seq<Cell>)
    reads registry`upload, registry`download, registry`active, registry`cancelled
  {
    |registry| == |cells| && forall i | 0 <= i < |registry| :: registry[i].handle == i && Matches(registry[i], cells[i])
  }

  lemma CancelSnoc(cells: seq<Cell>, order: seq<nat>, k: nat)
    requires k < |order| && order[k] < |cells|
    ensures Cancel(cells, order[..k + 1])
            == Cancel(cells, order[..k])[order[k] := Cancel(cells, order[..k])[order[k]].(cancelled := true)]
  {
    assert forall r :: r in order[..k + 1] <==> r in order[..k] || r == order[k];
  }

  /** Cancels and appends the states that leave. */
  method CancelAll(left: seq<UserState>, list: seq<UserState>, ghost registry: seq<UserState>, ghost cells: seq<Cell>,
                   ghost order: seq<nat>, ghost handles: seq<nat>)
    returns (list': seq<UserState>)
    requires AllMatch(registry, cells) && Objects(registry, left, order) && Objects(registry, list, handles)
    modifies registry`cancelled
    ensures AllMatch(registry, Cancel(cells, order)) && Objects(registry, list', handles + order)
    ensures list' == list + left
  {
    list' := list;
    ghost var now, names := cells, handles;
    assert Cancel(cells, order[..0]) == cells && handles + order[..0] == handles;
    for k := 0 to |left|
      invariant AllMatch(registry, now) && Objects(registry, list', names)
      invariant now == Cancel(cells, order[..k]) && names == handles + order[..k] && list' == list + left[..k]
    {
      list' := CancelOne(left[k], list', registry, now, names, order[k]);
      assert left[..k + 1] == left[..k] + [left[k]];
      CancelSnoc(cells, order, k);
      SliceSnoc(handles, order, k);
      now, names := now[order[k] := now[order[k]].(cancelled := true)], names + [order[k]];
    }
    assert order[..|left|] == order && left[..|left|] == left;
  }

  lemma SliceSnoc(handles: seq<nat>, order: seq<nat>, k: nat)
    requires k < |order|
    ensures handles + order[..k + 1] == (handles + order[..k]) + [order[k]]
  {
  }

  method CancelOne(state: UserState, list: seq<UserState>, ghost registry: seq<UserState>, ghost cells: seq<Cell>,
                   ghost handles: seq<nat>, ghost h: nat)
    returns (list': seq<UserState>)
    requires AllMatch(registry, cells) && Objects(registry, list, handles) && h < |registry| && registry[h] == state
    modifies state`cancelled
    ensures AllMatch(registry, cells[h := cells[h].(cancelled := true)]) && Objects(registry, list', handles + [h])
    ensures list' == list + [state]
  {
    state.cancelled := true;
    list' := list + [state];
  }

  /** Ranging over the IDs that leave is ranging over the states that leave. */
  lemma LeavingLists(w: World, ids: seq<int>, gone: seq<int>, order: seq<nat>)
    requires Reachable(w) && NoDup(gone) && (forall id :: id in gone <==> id in w.current && id !in ids)
    requires |order| == |gone| && forall k | 0 <= k < |gone| :: gone[k] in w.current && order[k] == w.current[gone[k]]
    ensures Lists(order, Removed(w.current, ids))
  {
    ReachableKeeps(w, 0, Up);
    forall i, j | 0 <= i < j < |order| ensures order[i] != order[j] {
      assert order[i] == w.current[gone[i]] && order[j] == w.current[gone[j]];
      assert w.cells[order[i]].id == gone[i] && w.cells[order[j]].id == gone[j];
    }
    forall k | 0 <= k < |order| ensures order[k] in Removed(w.current, ids) {
      var id := gone[k];
      assert id in gone && order[k] == w.current[id];
    }
    forall r | r in Removed(w.current, ids) ensures r in order {
      var id :| id in w.current && id !in ids && w.current[id] == r;
      var k :| 0 <= k < |gone| && gone[k] == id;
      assert order[k] == r;
    }
  }

  lemma ServeSnoc(previous: map<int, nat>, ids: seq<int>, id: int, base: nat)
    ensures FreshCells(previous, ids + [id])
            == FreshCells(previous, ids) + (if id in previous then [] else [Cell(id, 0, 0, 0, false)])
    ensures Serve(previous, ids + [id], base)
            == Serve(previous, ids, base)[id := if id in previous
              then previous[id] else base + |FreshCells(previous, ids)|]
  {
    var all := ids + [id];
    assert all[..|all| - 1] == ids;
    ServeLast(previous, all, ids, id, base);
  }

  lemma ServeLast(previous: map<int, nat>, all: seq<int>, ids: seq<int>, id: int, base: nat)
    requires all != [] && ids == all[..|all| - 1] && id == all[|all| - 1]
    ensures FreshCells(previous, all)
            == FreshCells(previous, ids) + (if id in previous then [] else [Cell(id, 0, 0, 0, false)])
    ensures Serve(previous, all, base)
            == Serve(previous, ids, base)[id := if id in previous
              then previous[id] else base + |FreshCells(previous, ids)|]
  {
  }

  // ---------------------------------------------------------------- connections, with their cells

  method OpenMatched(state: UserState, address: NetAddr.Addr, now: int, ghost all: seq<UserState>,
                     ghost served: map<int, UserState>, ghost clock: int, ghost lastPush: int,
                     ghost cells: seq<Cell>, ghost h: nat)
    returns (c: Connection)
    requires Kept(all, served, clock, lastPush) && clock <= now && AllMatch(all, cells) && h < |all| && all[h] == state
    modifies state`ips, state`active, state`view, state`conns, state.ips.Values`active, state.ips.Values`lastSeen
    ensures Kept(all, served, now, lastPush) && fresh(Footprint(all) - old(Footprint(all)))
    ensures AllMatch(all, cells[h := cells[h].(active := cells[h].active + 1)])
    ensures fresh(c) && state.conns == old(state.conns) + [c] && !c.finished
    ensures state.view == Online.Opened(old(state.view), NetAddr.Unmap(address), now)
    ensures c.address == NetAddr.Unmap(address)
  {
    OpenKept(all, served, clock, lastPush);
    assert forall i | 0 <= i < |all| && i != h :: all[i] != state;
    c := OpenSound(state, address, now, all, served, clock, lastPush);
    OpenKept(all, served, now, lastPush);
    ghost var cell := cells[h].(active := cells[h].active + 1);
    assert Matches(state, cell);
  }

  method DoneMatched(state: UserState, c: Connection, now: int, ghost all: seq<UserState>,
                     ghost served: map<int, UserState>, ghost clock: int, ghost lastPush: int,
                     ghost cells: seq<Cell>, ghost h: nat)
    requires Kept(all, served, clock, lastPush) && clock <= now && AllMatch(all, cells) && h < |all| && all[h] == state
    requires c in state.conns && !c.finished && cells[h].active > 0
    modifies state`active, state`view, c`finished, c.activity`active, c.activity`lastSeen
    ensures Kept(all, served, now, lastPush) && Footprint(all) == old(Footprint(all)) && c.finished
    ensures AllMatch(all, cells[h := cells[h].(active := cells[h].active - 1)])
    ensures state.view.log == old(state.view).log + [Online.Event(c.address, now)]
  {
    OpenKept(all, served, clock, lastPush);
    DoneSound(state, c, now, all, served, clock, lastPush);
    OpenKept(all, served, now, lastPush);
    forall i | 0 <= i < |all| && i != h ensures all[i] != state && Matches(all[i], cells[i]) {
      assert old(Matches(all[i], cells[i]));
    }
  }
}
