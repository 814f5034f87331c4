/**
  users.go, one user: connections, the addresses they come from, and the speed limit.

  The methods of UserState that touch `ips` and `active` run under userState.access.
  A Connection is the closure `open` returns: it keeps its own pointer to the
  activity of its address.
 */
module Users {
  import opened NetAddr
  import Limits
  import Online

  class IpActivity {
    ghost const address: Addr
    /** The handle of the state it belongs to. */
    ghost const owner: nat
    var active: int
    var lastSeen: int

    constructor (ghost address: Addr, ghost owner: nat)
      ensures active == 0 && this.address == address && this.owner == owner
    {
      active, lastSeen, this.address, this.owner := 0, 0, address, owner;
    }
  }

  /** The `done` closure of one connection; `finished` is its sync.Once. */
  class Connection {
    ghost const index: nat
    ghost const owner: nat
    const address: Addr
    const activity: IpActivity
    var finished: bool

    constructor (address: Addr, activity: IpActivity, ghost index: nat, ghost owner: nat)
      ensures this.address == address && this.activity == activity && this.index == index && this.owner == owner
      ensures !finished
    {
      this.address, this.activity, this.index, this.owner, finished := address, activity, index, owner, false;
    }
  }

  /** Online.Closed where `done` can first be called, which Online.OpenIsCounted shows it can. */
  ghost function CloseOf(v: Online.View, k: nat, now: int): Online.View
    requires Online.Inv(v) && k < |v.conns| && v.conns[k].open
  {
    Online.OpenIsCounted(v, k);
    Online.Closed(v, k, now)
  }

  class UserState {
    const id: int
    var cancelled: bool
    var upload: nat
    var download: nat
    var limiter: Limits.Limiter?
    var ips: map<Addr, IpActivity>
    var active: int

    /** Which cell of the ledger this object is. */
    ghost const handle: nat
    ghost var view: Online.View
    /** Every connection opened on this state. */
    ghost var conns: seq<Connection>

    /** The address table holds these activities, in one object per address. */
    ghost predicate Holds(table: map<Addr, Online.Activity>)
      reads this`ips, ips.Values`active, ips.Values`lastSeen
    {
      && (forall a :: a in ips <==> a in table)
      && (forall a | a in ips ::
            && ips[a].address == a && ips[a].owner == handle
            && ips[a].active == table[a].active && ips[a].lastSeen == table[a].lastSeen)
    }

    ghost predicate Tabled()
      reads this`ips, this`active, this`view, ips.Values`active, ips.Values`lastSeen
    {
      active == view.active && Holds(view.ips)
    }

    /** A live connection's activity is the very object its address maps to. */
    ghost predicate Anchored()
      reads this`ips, this`view, this`conns, conns`finished
    {
      && |conns| == |view.conns|
      && (forall k | 0 <= k < |conns| ::
            && conns[k].index == k && conns[k].owner == handle && conns[k].address == view.conns[k].address
            && conns[k].finished == !view.conns[k].open
            && (view.conns[k].open ==> conns[k].address in ips && ips[conns[k].address] == conns[k].activity))
    }

    ghost predicate Valid()
      reads this`ips, this`active, this`view, this`conns, ips.Values`active, ips.Values`lastSeen, conns`finished
    {
      Online.Inv(view) && Tabled() && Anchored()
    }

    /** The objects this state owns. */
    ghost function Owns(): set<object>
      reads this`limiter, this`ips, this`conns
    {
      var limiters: set<object> := if limiter == null then {} else {limiter};
      var activities: set<object> := ips.Values;
      var connections: set<object> := set c | c in conns;
      limiters + activities + connections
    }

    constructor (id: int, ghost handle: nat, ghost now: int)
      ensures Valid() && this.id == id && this.handle == handle && view == Online.Fresh(now)
      ensures upload == 0 && download == 0 && active == 0 && !cancelled && limiter == null && ips == map[]
      ensures conns == []
    {
      this.id, this.handle := id, handle;
      cancelled, upload, download, limiter := false, 0, 0, null;
      ips, active := map[], 0;
      view, conns := Online.Fresh(now), [];
    }

    /** Keeps the limiter object while the limit stays positive, so open connections see the new rate. */
    method SetSpeedLimit(bytesPerSecond: nat, now: real)
      requires limiter != null ==> limiter.Valid()
      modifies this`limiter, limiter
      ensures bytesPerSecond == 0 ==> limiter == null
      ensures bytesPerSecond > 0 ==> limiter != null && limiter.Valid() && limiter.limit == bytesPerSecond
      ensures bytesPerSecond > 0 && old(limiter) != null ==> limiter == old(limiter)
      ensures bytesPerSecond > 0 && old(limiter) == null ==> fresh(limiter) && limiter.owner == handle
      ensures bytesPerSecond == 0 && old(limiter) != null ==> unchanged(old(limiter))
    {
      var current := limiter;
      if bytesPerSecond == 0 {
        limiter := null;
      } else if current == null {
        limiter := new Limits.Limiter(bytesPerSecond, now, handle);
      } else {
        current.SetLimit(bytesPerSecond, now);
      }
    }

    /** The part of `open` about the address: find or make its activity, and count one more connection. */
    method Touch(a: Addr, now: int) returns (activity: IpActivity)
      requires Holds(view.ips)
      modifies this`ips, ips.Values`active, ips.Values`lastSeen
      ensures Holds(Online.Opened(view, a, now).ips)
      ensures ips == old(ips)[a := activity] && (a in old(ips) ==> activity == old(ips)[a])
      ensures fresh(ips.Values - old(ips.Values))
    {
      if a in ips {
        activity := ips[a];
        assert ips == ips[a := activity];
      } else {
        activity := new IpActivity(a, handle);
        ips := ips[a := activity];
      }
      activity.active := activity.active + 1;
      activity.lastSeen := now;
    }

    /** The locked section of `open`. */
    method Register(a: Addr, now: int) returns (c: Connection)
      requires Tabled() && Anchored()
      modifies this`ips, this`active, this`view, this`conns, ips.Values`active, ips.Values`lastSeen
      ensures Tabled() && Anchored() && fresh(c) && conns == old(conns) + [c] && fresh(ips.Values - old(ips.Values))
      ensures view == Online.Opened(old(view), a, now)
    {
      var activity := Touch(a, now);
      c := Note(a, activity, now);
    }

    /** The part of `open` that makes the closure. */
    method Note(a: Addr, activity: IpActivity, now: int) returns (c: Connection)
      requires active == view.active && Anchored() && Holds(Online.Opened(view, a, now).ips) && ips[a] == activity
      modifies this`active, this`view, this`conns
      ensures Tabled() && Anchored() && fresh(c) && conns == old(conns) + [c]
      ensures view == Online.Opened(old(view), a, now)
    {
      active := active + 1;
      c := new Connection(a, activity, |conns|, handle);
      conns, view := conns + [c], Online.Opened(view, a, now);
    }

    method Open(address: Addr, now: int) returns (c: Connection)
      requires Valid() && view.clock <= now
      modifies this`ips, this`active, this`view, this`conns, ips.Values`active, ips.Values`lastSeen
      ensures Valid() && fresh(c) && conns == old(conns) + [c] && active == old(active) + 1
      ensures fresh(Owns() - old(Owns()))
      ensures view == Online.Opened(old(view), Unmap(address), now)
      ensures view.log == old(view).log + [Online.Event(Unmap(address), now)]
      ensures view.conns == old(view).conns + [Online.Conn(Unmap(address), true)]
      ensures c.address == Unmap(address) && !c.finished && c.address in ips && c.activity == ips[c.address]
      ensures c.activity.lastSeen == now
      ensures c.activity.active == 1 + (if c.address in old(ips) then old(ips[Unmap(address)].active) else 0)
    {
      Online.OpenKeeps(view, Unmap(address), now);
      c := Register(Unmap(address), now);
    }

    /** The locked section of `done`. */
    method Release(c: Connection, now: int)
      requires Tabled() && Anchored() && c in conns && !c.finished
      requires c.address in view.ips && view.ips[c.address].active > 0 && view.active > 0
      modifies this`active, this`view, c`finished, c.activity`active, c.activity`lastSeen
      ensures Tabled() && Anchored() && c.finished
      ensures c.index < |old(view).conns| && old(view).conns[c.index].address == c.address
      ensures view == Online.Closed(old(view), c.index, now)
      ensures c.activity.active == old(c.activity.active) - 1 && c.activity.lastSeen == now
    {
      c.finished := true;
      c.activity.active := c.activity.active - 1;
      c.activity.lastSeen := now;
      active := active - 1;
      view := Online.Closed(view, c.index, now);
    }

    /** The closure `open` returned: the first call ends the connection, later ones do nothing. */
    method Done(c: Connection, now: int)
      requires Valid() && c in conns && view.clock <= now
      modifies this`active, this`view, c`finished, c.activity`active, c.activity`lastSeen
      ensures Valid() && c.finished
      ensures old(c.finished) ==> view == old(view) && unchanged(c.activity) && active == old(active)
      ensures !old(c.finished) ==> active == old(active) - 1 && view == CloseOf(old(view), c.index, now)
      ensures !old(c.finished) ==> view.log == old(view).log + [Online.Event(c.address, now)]
      ensures !old(c.finished) ==> c.activity.active == old(c.activity.active) - 1 && c.activity.lastSeen == now
    {
      if !c.finished {
        Online.OpenIsCounted(view, c.index);
        Online.CloseKeeps(view, c.index, now);
        Release(c, now);
      }
    }

    /** Lists what is online by the ghost history, once each, and deletes every other entry. */
    method OnlineIPs(since: int) returns (addresses: seq<Addr>)
      requires Valid() && Online.InTurn(view, since)
      modifies this`ips, this`view
      ensures Valid() && view == Online.Pushed(old(view), since)
      ensures forall i, j | 0 <= i < j < |addresses| :: addresses[i] != addresses[j]
      ensures forall a :: a in addresses <==> Online.OpenNow(old(view), a) || Online.EventSince(old(view), a, since)
      ensures forall a | a in ips :: a in old(ips) && ips[a] == old(ips)[a]
      ensures ips.Values <= old(ips.Values)
      ensures forall a :: a in ips <==> a in addresses
    {
      addresses := Forget(since);
      Online.PushKeeps(old(view), since);
      forall a ensures a in addresses <==> Online.OpenNow(old(view), a) || Online.EventSince(old(view), a, since) {
        Online.RecentIsOnline(old(view), since, a);
      }
      assert Anchored() by {
        forall k | 0 <= k < |conns| && view.conns[k].open ensures conns[k].address in ips {
          Online.OpenIsCounted(old(view), k);
        }
      }
    }

    method Forget(since: int) returns (addresses: seq<Addr>)
      requires Tabled()
      modifies this`ips, this`view
      ensures Tabled() && view == Online.Pushed(old(view), since)
      ensures forall i, j | 0 <= i < j < |addresses| :: addresses[i] != addresses[j]
      ensures forall a :: a in addresses <==> Online.Recent(old(view), a, since)
      ensures forall a | a in ips :: a in old(ips) && ips[a] == old(ips)[a]
      ensures forall a :: a in ips <==> a in addresses
    {
      addresses := [];
      var table, rest := ips, ips.Keys;
      while rest != {}
        invariant rest <= table.Keys
        invariant forall a | a in rest :: a !in addresses
        invariant forall i, j | 0 <= i < j < |addresses| :: addresses[i] != addresses[j]
        invariant forall a :: a in addresses <==> a in table && a !in rest && Online.Recent(view, a, since)
        invariant ips == map a | a in table && (a in rest || a in addresses) :: table[a]
        invariant view == old(view)
        decreases |rest|
      {
        var a :| a in rest;
        var activity := ips[a];
        if activity.active > 0 || since <= activity.lastSeen {
          addresses := addresses + [a];
        } else {
          ips := ips - {a};
        }
        rest := rest - {a};
      }
      view := Online.Pushed(view, since);
    }
  }

  /** The counts of an address table, as values. */
  ghost function CountsOf(ips: map<Addr, IpActivity>): map<Addr, Online.Activity>
    requires forall a | a in ips :: ips[a].active >= 0
    reads ips.Values`active, ips.Values`lastSeen
  {
    map a | a in ips :: Online.Activity(ips[a].active, ips[a].lastSeen)
  }

  /** A state's active count is the sum of the counts in its address table, and the number of its live connections. */
  lemma ActiveIsSum(u: UserState)
    requires u.Valid()
    ensures forall a | a in u.ips :: u.ips[a].active >= 0
    ensures u.active == Online.SumActive(CountsOf(u.ips))
    ensures u.active == |set k | 0 <= k < |u.conns| && !u.conns[k].finished|
  {
    assert CountsOf(u.ips) == u.view.ips;
    Online.ActiveIsSum(u.view.ips, u.view.conns);
    Online.OpenIsNumber(u.view.conns);
    assert (set k | 0 <= k < |u.conns| && !u.conns[k].finished) == Online.OpenOnes(u.view.conns);
  }
}
