/** The part of pushOnce that lists the online addresses of the served users. */
module OnlineLists {
  import opened Common
  import opened NetAddr
  import opened Users
  import opened Registries
  import Online
  import GoMaps

  /** adapter.UserOnline. */
  datatype UserOnline = UserOnline(userId: int, address: Addr)

  /** What a push that asks for events since `since` lists of one user. */
  ghost predicate IsOnline(v: Online.View, since: int, a: Addr) {
    Online.OpenNow(v, a) || Online.EventSince(v, a, since)
  }

  /** A state the push can ask: its pushes are in turn. */
  ghost predicate Ready(state: UserState, since: int)
    reads state, state.ips.Values, state.conns
  {
    state.Valid() && Online.InTurn(state.view, since)
  }

  function Entries(id: int, addresses: seq<Addr>): (r: seq<UserOnline>)
    ensures |r| == |addresses| && forall k | 0 <= k < |r| :: r[k] == UserOnline(id, addresses[k])
  {
    seq(|addresses|, k requires 0 <= k < |addresses| => UserOnline(id, addresses[k]))
  }

  /** `online` lists exactly the online addresses of the users `ids`, once each. */
  ghost predicate Exact(online: seq<UserOnline>, ids: seq<int>, views: map<int, Online.View>, since: int)
    requires forall k | 0 <= k < |ids| :: ids[k] in views
  {
    && NoDup(online)
    && forall e ::
         e in online <==> exists k :: 0 <= k < |ids| && ids[k] == e.userId && IsOnline(views[ids[k]], since, e.address)
  }

  lemma ExactSnoc(online: seq<UserOnline>, ids: seq<int>, k: nat, addresses: seq<Addr>, views: map<int, Online.View>,
                  since: int)
    requires k < |ids| && NoDup(ids) && forall j | 0 <= j < |ids| :: ids[j] in views
    requires Exact(online, ids[..k], views, since)
    requires NoDup(addresses) && forall a :: a in addresses <==> IsOnline(views[ids[k]], since, a)
    ensures Exact(online + Entries(ids[k], addresses), ids[..k + 1], views, since)
  {
    var id, more := ids[k], Entries(ids[k], addresses);
    var front, front' := ids[..k], ids[..k + 1];
    assert forall j | 0 <= j < k :: front[j] == ids[j] && front'[j] == ids[j] && ids[j] != id;
    assert front'[k] == id;
    forall i, j | 0 <= i < |online| && 0 <= j < |more| ensures online[i] != more[j] {
      assert online[i] in online;
    }
    assert NoDup(online + more);
    forall e
      ensures e in online + more <==>
              exists j :: 0 <= j < |front'| && front'[j] == e.userId && IsOnline(views[front'[j]], since, e.address)
    {
      if e in online {
        var j :| 0 <= j < |front| && front[j] == e.userId && IsOnline(views[front[j]], since, e.address);
        assert front'[j] == e.userId;
      }
      if e in more {
        var j :| 0 <= j < |more| && more[j] == e;
        assert addresses[j] in addresses && front'[k] == e.userId;
      }
      if j :| 0 <= j < |front'| && front'[j] == e.userId && IsOnline(views[front'[j]], since, e.address) {
        if j < k {
          assert front[j] == e.userId;
        } else {
          var i :| 0 <= i < |addresses| && addresses[i] == e.address;
          assert more[i] == e;
        }
      }
    }
  }

  /** The served users' states and their views before the push. */
  ghost predicate Served(all: map<int, UserState>, ids: seq<int>, views: map<int, Online.View>) {
    NoDup(ids) && forall k | 0 <= k < |ids| :: ids[k] in all && ids[k] in views && all[ids[k]].id == ids[k]
  }

  /** The first `k` users were asked; the others are as they were. */
  ghost predicate Asked(all: map<int, UserState>, ids: seq<int>, views: map<int, Online.View>,
                        owned: map<int, set<IpActivity>>, since: int, k: nat)
    requires Served(all, ids, views) && k <= |ids|
    reads *
  {
    forall j | 0 <= j < |ids| ::
      && all[ids[j]].Valid() && ids[j] in owned && all[ids[j]].ips.Values <= owned[ids[j]]
      && all[ids[j]].view == (if j < k then Online.Pushed(views[ids[j]], since) else views[ids[j]])
  }

  /** Asks one user. */
  method Ask(id: int, state: UserState, since: int, online: seq<UserOnline>,
             ghost all: map<int, UserState>, ghost ids: seq<int>, ghost views: map<int, Online.View>,
             ghost owned: map<int, set<IpActivity>>, ghost k: nat)
    returns (online': seq<UserOnline>)
    requires k < |ids| && Served(all, ids, views) && Asked(all, ids, views, owned, since, k) && ids[k] == id
    requires all[id] == state
    requires Online.InTurn(views[ids[k]], since) && Exact(online, ids[..k], views, since)
    modifies state`ips, state`view
    ensures Asked(all, ids, views, owned, since, k + 1) && Exact(online', ids[..k + 1], views, since)
  {
    var addresses := state.OnlineIPs(since);
    ExactSnoc(online, ids, k, addresses, views, since);
    online' := online + Entries(id, addresses);
    forall j | 0 <= j < |ids| && j != k ensures all[ids[j]] != state {
      assert ids[j] != ids[k];
    }
  }

  /**
    Lists the online addresses of every served user.  `since` is when the previous
    push began, so every user's pushes are in turn (Online.NoGaps).
   */
  method ListOnline(all: map<int, UserState>, since: int, ghost views: map<int, Online.View>)
    returns (online: seq<UserOnline>)
    requires forall id | id in all ::
               all[id].id == id && id in views && all[id].view == views[id] && Ready(all[id], since)
    modifies all.Values`ips, all.Values`view
    ensures forall id | id in all :: all[id].Valid() && all[id].view == Online.Pushed(views[id], since)
    ensures forall id | id in all :: all[id].ips.Values <= old(all[id].ips.Values)
    ensures NoDup(online)
    ensures forall e :: e in online <==> e.userId in all && IsOnline(views[e.userId], since, e.address)
  {
    var ids := GoMaps.RangeOrder(all);
    ghost var owned := map id | id in all :: all[id].ips.Values;
    online := [];
    forall k | 0 <= k < |ids|
      ensures ids[k] in all && ids[k] in views && all[ids[k]].id == ids[k] && all[ids[k]].view == views[ids[k]]
      ensures Ready(all[ids[k]], since)
    {
      var id := ids[k];
      assert id in all;
    }
    for k := 0 to |ids|
      invariant Served(all, ids, views) && Asked(all, ids, views, owned, since, k)
      invariant Exact(online, ids[..k], views, since)
    {
      online := Ask(ids[k], all[ids[k]], since, online, all, ids, views, owned, k);
    }
    assert ids[..|ids|] == ids;
    forall id | id in all
      ensures all[id].Valid() && all[id].view == Online.Pushed(views[id], since) && all[id].ips.Values <= owned[id]
    {
      var k :| 0 <= k < |ids| && ids[k] == id;
    }
    forall e: UserOnline ensures e in online <==> e.userId in all && IsOnline(views[e.userId], since, e.address) {
      if e.userId in all {
        var k :| 0 <= k < |ids| && ids[k] == e.userId;
      }
    }
  }

  lemma AllReady(all: seq<UserState>, served: map<int, UserState>, clock: int, since: int)
    requires States(all, clock) && Turns(all, served, since)
    ensures forall id | id in served :: Ready(served[id], since)
  {
    forall id | id in served ensures Ready(served[id], since) {
      assert TurnOk(all, served[id], since);
      var k: nat :| k < |all| && all[k] == served[id];
      assert StateOk(all[k], k, clock);
    }
  }

  /** Listing keeps all states valid and what they own. */
  method ListStates(served: map<int, UserState>, since: int, ghost views: map<int, Online.View>,
                    ghost all: seq<UserState>, ghost clock: int, ghost now: int)
    returns (online: seq<UserOnline>)
    requires States(all, clock) && Turns(all, served, since) && clock <= now
    requires forall id | id in served :: served[id].id == id && id in views && served[id].view == views[id]
    modifies served.Values`ips, served.Values`view
    ensures States(all, now) && forall i | 0 <= i < |all| :: all[i].ips.Values <= old(all[i].ips.Values)
    ensures forall id | id in served :: served[id].view == Online.Pushed(views[id], since)
    ensures NoDup(online)
    ensures forall e :: e in online <==> e.userId in served && IsOnline(views[e.userId], since, e.address)
  {
    AllReady(all, served, clock, since);
    online := ListOnline(served, since, views);
    forall i: nat | i < |all| ensures StateOk(all[i], i, now) && all[i].ips.Values <= old(all[i].ips.Values) {
      assert old(StateOk(all[i], i, clock));
      if all[i] in served.Values {
        var id :| id in served && served[id] == all[i];
      }
    }
  }

  lemma PushedTurns(all: seq<UserState>, served: map<int, UserState>, views: map<int, Online.View>, since: int,
                    now: int)
    requires forall id | id in served ::
               id in views && served[id] in all && served[id].view == Online.Pushed(views[id], since)
    requires since <= now
    ensures Turns(all, served, now)
  {
  }

  method ListWith(served: map<int, UserState>, since: int, ghost views: map<int, Online.View>,
                   ghost all: seq<UserState>, ghost clock: int, ghost now: int)
    returns (online: seq<UserOnline>)
    requires SoundWith(all, served, clock, since) && clock <= now
    requires forall id | id in served :: served[id].id == id && id in views && served[id].view == views[id]
    modifies served.Values`ips, served.Values`view
    ensures SoundWith(all, served, now, now) && Footprint(all) <= old(Footprint(all))
    ensures NoDup(online)
    ensures forall e :: e in online <==> e.userId in served && IsOnline(views[e.userId], since, e.address)
  {
    Allocated(all);
    ghost var was := Footprint(all);
    InFootprint(all);
    forall id | id in served ensures served[id] in all {
      assert TurnOk(all, served[id], since);
    }
    online := ListStates(served, since, views, all, clock, now);
    PushedTurns(all, served, views, since, now);
    FootprintWithin(all, was);
  }

  /** Listing keeps all states sound and readies the served ones for the next push. */
  method ListSound(served: map<int, UserState>, since: int, ghost views: map<int, Online.View>,
                   ghost all: seq<UserState>, ghost clock: int, ghost now: int)
    returns (online: seq<UserOnline>)
    requires Kept(all, served, clock, since) && clock <= now
    requires forall id | id in served :: served[id].id == id && id in views && served[id].view == views[id]
    modifies served.Values`ips, served.Values`view
    ensures Kept(all, served, now, now) && Footprint(all) <= old(Footprint(all))
    ensures NoDup(online)
    ensures forall e :: e in online <==> e.userId in served && IsOnline(views[e.userId], since, e.address)
  {
    OpenKept(all, served, clock, since);
    online := ListWith(served, since, views, all, clock, now);
    OpenKept(all, served, now, now);
  }
}
