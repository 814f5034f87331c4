/**
  Which addresses of a user are online: the specification of userState.open, its
  `done` closure and onlineIPs, on values.
 */
module Online {
  import opened NetAddr

  /** ipActivity. */
  datatype Activity = Activity(active: nat, lastSeen: int)

  datatype Conn = Conn(address: Addr, open: bool)

  /** A connection from `address` opened or ended at `time`. */
  datatype Event = Event(address: Addr, time: int)

  /**
    `conns` are the connections in the order they opened and `log` what happened to
    them; `listed` are the ones a push has listed the address of.  The last push saw
    `log[..pushed]` and asked for events since `horizon`.
   */
  datatype View = View(
    ips: map<Addr, Activity>,
    active: nat,
    conns: seq<Conn>,
    log: seq<Event>,
    clock: int,
    listed: set<nat>,
    pushed: nat,
    horizon: int)

  function Fresh(now: int): View {
    View(map[], 0, [], [], now, {}, 0, now)
  }

  /** How many of `conns` are open. */
  ghost function NumOpen(conns: seq<Conn>): nat {
    if conns == [] then 0
    else NumOpen(conns[..|conns| - 1]) + (if conns[|conns| - 1].open then 1 else 0)
  }

  /** How many of `conns` are open from `a`. */
  ghost function NumFrom(conns: seq<Conn>, a: Addr): nat {
    if conns == [] then 0
    else NumFrom(conns[..|conns| - 1], a) + (if conns[|conns| - 1] == Conn(a, true) then 1 else 0)
  }

  ghost predicate OpenNow(v: View, a: Addr) {
    exists k :: 0 <= k < |v.conns| && v.conns[k] == Conn(a, true)
  }

  ghost predicate EventSince(v: View, a: Addr, since: int) {
    exists i :: 0 <= i < |v.log| && v.log[i].address == a && since <= v.log[i].time
  }

  // ---------------------------------------------------------------- invariant

  /** The counts are the numbers of connections not yet done, in all and per address. */
  ghost predicate Counts(v: View) {
    && v.active == NumOpen(v.conns)
    && (forall a | a in v.ips :: v.ips[a].active == NumFrom(v.conns, a))
    && (forall k | 0 <= k < |v.conns| && v.conns[k].open :: v.conns[k].address in v.ips)
  }

  /** `lastSeen` is the time of an address's last event; a forgotten address has no event since the horizon. */
  ghost predicate Logged(v: View) {
    && v.pushed <= |v.log|
    && (forall i | 0 <= i < |v.log| :: v.log[i].time <= v.clock)
    && (forall i | 0 <= i < |v.log| && v.log[i].address in v.ips :: v.log[i].time <= v.ips[v.log[i].address].lastSeen)
    && (forall a | a in v.ips :: Event(a, v.ips[a].lastSeen) in v.log)
    && (forall i | 0 <= i < |v.log| && v.log[i].address !in v.ips :: i < v.pushed && v.log[i].time < v.horizon)
  }

  /** A connection no push has listed opened after the last push looked. */
  ghost predicate Unlisted(v: View)
  {
    forall k | 0 <= k < |v.conns| && k !in v.listed ::
      exists i :: v.pushed <= i < |v.log| && v.log[i].address == v.conns[k].address
  }

  ghost predicate Inv(v: View) {
    Counts(v) && Logged(v) && Unlisted(v)
  }

  // ---------------------------------------------------------------- operations

  function Opened(v: View, a: Addr, now: int): View {
    var before := if a in v.ips then v.ips[a].active else 0;
    v.(ips := v.ips[a := Activity(before + 1, now)],
       active := v.active + 1,
       conns := v.conns + [Conn(a, true)],
       log := v.log + [Event(a, now)],
       clock := now)
  }

  /** The first call of `done` for connection `k`. */
  function Closed(v: View, k: nat, now: int): View
    requires k < |v.conns| && v.conns[k].address in v.ips
    requires v.ips[v.conns[k].address].active > 0 && v.active > 0
  {
    var a := v.conns[k].address;
    v.(ips := v.ips[a := Activity(v.ips[a].active - 1, now)],
       active := v.active - 1,
       conns := v.conns[k := Conn(a, false)],
       log := v.log + [Event(a, now)],
       clock := now)
  }

  /** onlineIPs keeps, and returns, the addresses that are connected or were seen since `since`. */
  predicate Recent(v: View, a: Addr, since: int) {
    a in v.ips && (v.ips[a].active > 0 || since <= v.ips[a].lastSeen)
  }

  ghost function Pushed(v: View, since: int): View {
    v.(ips := map a | a in v.ips && Recent(v, a, since) :: v.ips[a],
       listed := v.listed + (set k | 0 <= k < |v.conns| && Recent(v, v.conns[k].address, since)),
       pushed := |v.log|,
       horizon := since)
  }

  /**
    How pushOnce calls onlineIPs: `since` is when the previous push began, so it is
    no earlier than that push's `since`, and no event after the previous call of
    onlineIPs is earlier than it.
   */
  ghost predicate InTurn(v: View, since: int) {
    && (v.pushed == 0 || v.horizon <= since)
    && (forall i | v.pushed <= i < |v.log| :: since <= v.log[i].time)
  }

  // ---------------------------------------------------------------- counting

  lemma {:induction false} NumUpdate(conns: seq<Conn>, k: nat, c: Conn, a: Addr)
    requires k < |conns|
    ensures NumFrom(conns[k := c], a) + (if conns[k] == Conn(a, true) then 1 else 0)
            == NumFrom(conns, a) + (if c == Conn(a, true) then 1 else 0)
    ensures NumOpen(conns[k := c]) + (if conns[k].open then 1 else 0) == NumOpen(conns) + (if c.open then 1 else 0)
  {
    var n := |conns| - 1;
    if k < n {
      assert conns[k := c][..n] == conns[..n][k := c];
      NumUpdate(conns[..n], k, c, a);
    } else {
      assert conns[k := c][..n] == conns[..n];
    }
  }

  lemma NumSnoc(conns: seq<Conn>, c: Conn, a: Addr)
    ensures NumFrom(conns + [c], a) == NumFrom(conns, a) + (if c == Conn(a, true) then 1 else 0)
    ensures NumOpen(conns + [c]) == NumOpen(conns) + (if c.open then 1 else 0)
  {
    assert (conns + [c])[..|conns|] == conns;
  }

  lemma {:induction false} NumZero(conns: seq<Conn>, a: Addr)
    ensures NumFrom(conns, a) == 0 <==> forall k | 0 <= k < |conns| :: conns[k] != Conn(a, true)
    ensures NumFrom(conns, a) <= NumOpen(conns)
  {
    if conns != [] {
      var n := |conns| - 1;
      NumZero(conns[..n], a);
      assert forall k | 0 <= k < n :: conns[..n][k] == conns[k];
    }
  }

  // ---------------------------------------------------------------- open and done

  lemma OpenKeeps(v: View, a: Addr, now: int)
    requires Inv(v) && v.clock <= now
    ensures Inv(Opened(v, a, now))
  {
    var v' := Opened(v, a, now);
    NumSnoc(v.conns, Conn(a, true), a);
    forall b | b in v'.ips ensures v'.ips[b].active == NumFrom(v'.conns, b) {
      NumSnoc(v.conns, Conn(a, true), b);
      NumZero(v.conns, a);
    }
    OpenLogs(v, a, now);
    assert Unlisted(v') by {
      forall k | 0 <= k < |v'.conns| && k !in v'.listed
        ensures exists i :: v'.pushed <= i < |v'.log| && v'.log[i].address == v'.conns[k].address
      {
        if k == |v.conns| {
          assert v'.log[|v.log|].address == v'.conns[k].address;
        } else {
          var i :| v.pushed <= i < |v.log| && v.log[i].address == v.conns[k].address;
          assert v'.log[i].address == v'.conns[k].address;
        }
      }
    }
  }

  lemma OpenLogs(v: View, a: Addr, now: int)
    requires Inv(v) && v.clock <= now
    ensures Logged(Opened(v, a, now))
  {
    var v' := Opened(v, a, now);
    assert v'.log[|v.log|] == Event(a, now);
    forall b | b in v'.ips ensures Event(b, v'.ips[b].lastSeen) in v'.log {
      if b != a {
        assert Event(b, v.ips[b].lastSeen) in v.log;
      }
    }
  }

  /** A live connection's address is never forgotten, so `done` finds its activity counted. */
  lemma OpenIsCounted(v: View, k: nat)
    requires Inv(v) && k < |v.conns| && v.conns[k].open
    ensures v.conns[k].address in v.ips && v.ips[v.conns[k].address].active > 0 && v.active > 0
  {
    assert v.conns[k] == Conn(v.conns[k].address, true);
    NumZero(v.conns, v.conns[k].address);
  }

  lemma CloseKeeps(v: View, k: nat, now: int)
    requires Inv(v) && v.clock <= now && k < |v.conns| && v.conns[k].open
    requires v.conns[k].address in v.ips && v.ips[v.conns[k].address].active > 0 && v.active > 0
    ensures Inv(Closed(v, k, now))
  {
    var v' := Closed(v, k, now);
    var a := v.conns[k].address;
    NumUpdate(v.conns, k, Conn(a, false), a);
    forall b | b in v'.ips ensures v'.ips[b].active == NumFrom(v'.conns, b) {
      NumUpdate(v.conns, k, Conn(a, false), b);
    }
    assert v'.log[|v.log|] == Event(a, now);
    forall b | b in v'.ips ensures Event(b, v'.ips[b].lastSeen) in v'.log {
      if b != a {
        assert Event(b, v.ips[b].lastSeen) in v.log;
      }
    }
    assert Unlisted(v') by {
      forall j | 0 <= j < |v'.conns| && j !in v'.listed
        ensures exists i :: v'.pushed <= i < |v'.log| && v'.log[i].address == v'.conns[j].address
      {
        var i :| v.pushed <= i < |v.log| && v.log[i].address == v.conns[j].address;
        assert v'.log[i].address == v'.conns[j].address;
      }
    }
  }

  // ---------------------------------------------------------------- pushes

  /**
    What a push lists is exactly the addresses with a connection open now or with an
    event at or after `since`.
   */
  lemma RecentIsOnline(v: View, since: int, a: Addr)
    requires Inv(v) && (v.pushed == 0 || v.horizon <= since)
    ensures Recent(v, a, since) <==> OpenNow(v, a) || EventSince(v, a, since)
  {
    NumZero(v.conns, a);
    if a in v.ips {
      assert Event(a, v.ips[a].lastSeen) in v.log;
    }
  }

  lemma PushKeeps(v: View, since: int)
    requires Inv(v) && InTurn(v, since)
    ensures Inv(Pushed(v, since))
  {
    var v' := Pushed(v, since);
    assert Counts(v') by {
      forall k | 0 <= k < |v'.conns| && v'.conns[k].open ensures v'.conns[k].address in v'.ips {
        OpenIsCounted(v, k);
      }
    }
    assert Logged(v');
    EveryConnectionListed(v, since);
  }

  /** No gaps: after a push, every connection opened before it has been listed by it or an earlier one. */
  lemma {:induction false} EveryConnectionListed(v: View, since: int)
    requires Inv(v) && InTurn(v, since)
    ensures forall k | 0 <= k < |v.conns| :: k in Pushed(v, since).listed
  {
    forall k | 0 <= k < |v.conns| ensures k in Pushed(v, since).listed {
      if k !in v.listed {
        var i :| v.pushed <= i < |v.log| && v.log[i].address == v.conns[k].address;
        assert since <= v.log[i].time;
        RecentIsOnline(v, since, v.conns[k].address);
        assert EventSince(v, v.conns[k].address, since);
      }
    }
  }

  // ---------------------------------------------------------------- the push loop

  /**
    One continuously served user beside the push loop.  `lastPush` is when the latest
    push began; `visiting` says that this push has still to ask this user, for what
    happened since `since`, when the push before it began.
   */
  datatype Session = Session(view: View, lastPush: int, since: int, visiting: bool)

  datatype Step =
    | OpenAt(address: Addr, now: int)
    | DoneAt(conn: nat, now: int)
    | BeginPush(now: int)
    | Visit

  /**
    A user served since `now`.  The latest push may know of it already: it sets its
    clock before it loads the table, so a user published in between is visited.
   */
  function Begin(now: int, lastPush: int, since: int, visiting: bool): Session {
    Session(Fresh(now), lastPush, since, visiting)
  }

  /** Steps come in the order of a clock that does not run backwards. */
  ghost predicate Enabled(s: Session, step: Step) {
    match step
    case OpenAt(_, now) => s.view.clock <= now
    case DoneAt(k, now) =>
      && s.view.clock <= now && k < |s.view.conns|
      && (s.view.conns[k].open ==>
            && s.view.conns[k].address in s.view.ips
            && s.view.ips[s.view.conns[k].address].active > 0 && s.view.active > 0)
    case BeginPush(now) => s.view.clock <= now && !s.visiting
    case Visit => s.visiting
  }

  ghost function Apply(s: Session, step: Step): Session
    requires Enabled(s, step)
  {
    match step
    case OpenAt(a, now) => s.(view := Opened(s.view, a, now))
    case DoneAt(k, now) => if s.view.conns[k].open then s.(view := Closed(s.view, k, now)) else s
    case BeginPush(now) => s.(view := s.view.(clock := now), since := s.lastPush, lastPush := now, visiting := true)
    case Visit => s.(view := Pushed(s.view, s.since), visiting := false)
  }

  ghost predicate IsRun(s: Session, steps: seq<Step>)
    decreases |steps|, 0
  {
    steps == [] || (IsRun(s, steps[..|steps| - 1]) && Enabled(Exec(s, steps[..|steps| - 1]), steps[|steps| - 1]))
  }

  ghost function Exec(s: Session, steps: seq<Step>): Session
    requires IsRun(s, steps)
    decreases |steps|, 1
  {
    if steps == [] then s else Apply(Exec(s, steps[..|steps| - 1]), steps[|steps| - 1])
  }

  /** The pushes stay in turn: what a visit will ask for reaches back to the previous visit. */
  ghost predicate InStep(s: Session) {
    && Inv(s.view) && s.since <= s.lastPush <= s.view.clock
    && InTurn(s.view, if s.visiting then s.since else s.lastPush)
  }

  lemma StepKeeps(s: Session, step: Step)
    requires InStep(s) && Enabled(s, step)
    ensures InStep(Apply(s, step))
  {
    match step
    case OpenAt(a, now) => OpenKeeps(s.view, a, now);
    case DoneAt(k, now) =>
      if s.view.conns[k].open {
        CloseKeeps(s.view, k, now);
      }
    case BeginPush(now) =>
    case Visit => PushKeeps(s.view, s.since);
  }

  lemma {:induction false} RunKeeps(s: Session, steps: seq<Step>)
    requires InStep(s) && IsRun(s, steps)
    ensures InStep(Exec(s, steps))
  {
    if steps != [] {
      var n := |steps| - 1;
      RunKeeps(s, steps[..n]);
      StepKeeps(Exec(s, steps[..n]), steps[n]);
    }
  }

  /**
    In every run of a served user: `done` always finds its address counted, a visit
    lists exactly the addresses open at that time or with an event since the previous
    push began, and after it every connection so far has been listed.
   */
  lemma {:induction false} NoGaps(start: Session, created: int, steps: seq<Step>)
    requires start == Begin(created, start.lastPush, start.since, start.visiting)
    requires start.since <= start.lastPush <= created
    requires IsRun(start, steps)
    ensures var s := Exec(start, steps);
            forall k | 0 <= k < |s.view.conns| && s.view.conns[k].open :: Enabled(s, DoneAt(k, s.view.clock))
    ensures var s := Exec(start, steps);
            s.visiting ==>
              && (forall a :: a in Apply(s, Visit).view.ips <==> OpenNow(s.view, a) || EventSince(s.view, a, s.since))
              && (forall k | 0 <= k < |s.view.conns| :: k in Apply(s, Visit).view.listed)
  {
    RunKeeps(start, steps);
    var s := Exec(start, steps);
    forall k | 0 <= k < |s.view.conns| && s.view.conns[k].open ensures Enabled(s, DoneAt(k, s.view.clock)) {
      OpenIsCounted(s.view, k);
    }
    if s.visiting {
      forall a ensures a in Apply(s, Visit).view.ips <==> OpenNow(s.view, a) || EventSince(s.view, a, s.since) {
        RecentIsOnline(s.view, s.since, a);
      }
      EveryConnectionListed(s.view, s.since);
    }
  }

  // ---------------------------------------------------------------- the sum over addresses

  ghost function SomeAddress(ips: map<Addr, Activity>): (a: Addr)
    requires ips != map[]
    ensures a in ips
  {
    var a :| a in ips;
    a
  }

  ghost function SumActive(ips: map<Addr, Activity>): nat {
    if ips == map[] then 0
    else
      var a := SomeAddress(ips);
      ips[a].active + SumActive(ips - {a})
  }

  ghost function Without(conns: seq<Conn>, a: Addr): (r: seq<Conn>)
    ensures |r| == |conns|
    ensures forall k | 0 <= k < |r| :: r[k] == if conns[k].address == a then Conn(a, false) else conns[k]
  {
    seq(|conns|, k requires 0 <= k < |conns| => if conns[k].address == a then Conn(a, false) else conns[k])
  }

  lemma {:induction false} CountWithout(conns: seq<Conn>, a: Addr, b: Addr)
    ensures NumOpen(conns) == NumOpen(Without(conns, a)) + NumFrom(conns, a)
    ensures b != a ==> NumFrom(Without(conns, a), b) == NumFrom(conns, b)
  {
    if conns != [] {
      var n := |conns| - 1;
      assert Without(conns, a)[..n] == Without(conns[..n], a);
      CountWithout(conns[..n], a, b);
    }
  }

  lemma CountsWithout(ips: map<Addr, Activity>, conns: seq<Conn>, a: Addr)
    requires forall b | b in ips :: ips[b].active == NumFrom(conns, b)
    ensures forall b | b in ips - {a} :: (ips - {a})[b].active == NumFrom(Without(conns, a), b)
  {
    forall b | b in ips - {a} ensures (ips - {a})[b].active == NumFrom(Without(conns, a), b) {
      CountWithout(conns, a, b);
    }
  }

  /** The user's active count is the sum of the per-address counts. */
  lemma {:induction false} ActiveIsSum(ips: map<Addr, Activity>, conns: seq<Conn>)
    requires forall a | a in ips :: ips[a].active == NumFrom(conns, a)
    requires forall k | 0 <= k < |conns| && conns[k].open :: conns[k].address in ips
    ensures NumOpen(conns) == SumActive(ips)
    decreases |ips|
  {
    if ips == map[] {
      NothingOpen(conns);
    } else {
      var a := SomeAddress(ips);
      CountsWithout(ips, conns, a);
      CountWithout(conns, a, a);
      ActiveIsSum(ips - {a}, Without(conns, a));
    }
  }

  lemma {:induction false} NothingOpen(conns: seq<Conn>)
    requires forall k | 0 <= k < |conns| :: !conns[k].open
    ensures NumOpen(conns) == 0
  {
    if conns != [] {
      NothingOpen(conns[..|conns| - 1]);
    }
  }

  ghost function OpenOnes(conns: seq<Conn>): set<int> {
    set k | 0 <= k < |conns| && conns[k].open
  }

  lemma {:induction false} OpenIsNumber(conns: seq<Conn>)
    ensures NumOpen(conns) == |OpenOnes(conns)|
  {
    if conns != [] {
      var n := |conns| - 1;
      OpenIsNumber(conns[..n]);
      assert OpenOnes(conns) == OpenOnes(conns[..n]) + (if conns[n].open then {n} else {});
    }
  }
}
