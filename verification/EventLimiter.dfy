/**
  common/reporter/limit.go: an error storm does not become an event storm.

  Times are nanoseconds.  The rate.Limiter is an exact bucket whose fill is kept as
  the time it took to accrue: a token is INTERVAL of it, and it holds BURST of them.
 */
module EventLimiter {
  import opened Common
  import MessageKey

  const SECOND: int := 1_000_000_000
  const WINDOW: int := 600 * SECOND
  const INTERVAL: int := 10 * SECOND
  const BURST: nat := 10
  const MAX_TRACKED: nat := 1000

  /** seenMessage. */
  datatype Seen = Seen(sent: int, suppressed: nat)

  /** One call of allow and its answer. */
  datatype Call = Call(key: string, now: int, sent: bool, reported: nat)

  /** `log` holds every call so far; no decision reads it. */
  datatype State = State(credit: int, last: int, seen: map<string, Seen>, clock: int, log: seq<Call>)

  datatype Request = Request(key: string, now: int)

  function Init(start: int): State {
    State(BURST * INTERVAL, start, map[], start, [])
  }

  // ---------------------------------------------------------------- allow

  /** The fill of the bucket at `now`. */
  function Credit(s: State, now: int): int {
    if BURST * INTERVAL < s.credit + (now - s.last) then BURST * INTERVAL else s.credit + (now - s.last)
  }

  predicate Expired(seen: Seen, now: int) {
    now - seen.sent >= WINDOW
  }

  function Unexpired(seen: map<string, Seen>, now: int): map<string, Seen> {
    map k | k in seen && !Expired(seen[k], now) :: seen[k]
  }

  /** What a denied call leaves: one more suppressed, if its key is tracked. */
  function Suppress(seen: map<string, Seen>, key: string): map<string, Seen> {
    if key in seen then seen[key := seen[key].(suppressed := seen[key].suppressed + 1)] else seen
  }

  /** What a call that is sent leaves: its key tracked from now, in a map that was purged if it was full. */
  function Track(seen: map<string, Seen>, key: string, now: int): map<string, Seen> {
    (if |seen| >= MAX_TRACKED then Unexpired(seen, now) else seen)[key := Seen(now, 0)]
  }

  predicate Sends(s: State, r: Request) {
    (r.key in s.seen ==> Expired(s.seen[r.key], r.now)) && Credit(s, r.now) >= INTERVAL
  }

  function Reported(s: State, r: Request): nat {
    if Sends(s, r) && r.key in s.seen then s.seen[r.key].suppressed else 0
  }

  function Next(s: State, r: Request): State {
    var log := s.log + [Call(r.key, r.now, Sends(s, r), Reported(s, r))];
    if Sends(s, r) then State(Credit(s, r.now) - INTERVAL, r.now, Track(s.seen, r.key, r.now), r.now, log)
    else s.(seen := Suppress(s.seen, r.key), clock := r.now, log := log)
  }

  // ---------------------------------------------------------------- runs

  /** Calls come in the order of a clock that does not run backwards. */
  ghost predicate Ordered(start: int, requests: seq<Request>) {
    && (forall i | 0 <= i < |requests| :: start <= requests[i].now)
    && (forall i, j | 0 <= i < j < |requests| :: requests[i].now <= requests[j].now)
  }

  function Exec(start: int, requests: seq<Request>): State {
    if requests == [] then Init(start)
    else Next(Exec(start, requests[..|requests| - 1]), requests[|requests| - 1])
  }

  // ---------------------------------------------------------------- the log

  /** Calls sent at or after `from`. */
  ghost function SentSince(log: seq<Call>, from: int): nat {
    if log == [] then 0
    else SentSince(log[..|log| - 1], from) + (if log[|log| - 1].sent && from <= log[|log| - 1].now then 1 else 0)
  }

  ghost function SentWithin(log: seq<Call>, from: int, to: int): nat {
    if log == [] then 0
    else
      SentWithin(log[..|log| - 1], from, to)
      + (if log[|log| - 1].sent && from <= log[|log| - 1].now <= to then 1 else 0)
  }

  /** When a message of this key was last sent. */
  ghost function LastSent(log: seq<Call>, key: string): Option<int> {
    if log == [] then None
    else
      var c := log[|log| - 1];
      if c.key == key && c.sent then Some(c.now) else LastSent(log[..|log| - 1], key)
  }

  /** How many messages of this key were denied since one was last sent. */
  ghost function DeniedSince(log: seq<Call>, key: string): nat {
    if log == [] then 0
    else
      var c := log[|log| - 1];
      if c.key == key && c.sent then 0
      else DeniedSince(log[..|log| - 1], key) + (if c.key == key then 1 else 0)
  }

  lemma LogSnoc(log: seq<Call>, c: Call, key: string, from: int, to: int)
    ensures SentSince(log + [c], from) == SentSince(log, from) + (if c.sent && from <= c.now then 1 else 0)
    ensures SentWithin(log + [c], from, to)
            == SentWithin(log, from, to) + (if c.sent && from <= c.now <= to then 1 else 0)
    ensures LastSent(log + [c], key) == if c.key == key && c.sent then Some(c.now) else LastSent(log, key)
    ensures DeniedSince(log + [c], key)
            == if c.key == key && c.sent then 0 else DeniedSince(log, key) + (if c.key == key then 1 else 0)
  {
    assert (log + [c])[..|log|] == log;
  }

  lemma {:induction false} NoneSentAfter(log: seq<Call>, from: int)
    requires forall i | 0 <= i < |log| && log[i].sent :: log[i].now < from
    ensures SentSince(log, from) == 0
  {
    if log != [] {
      NoneSentAfter(log[..|log| - 1], from);
    }
  }

  // ---------------------------------------------------------------- the rate

  /** What was sent since any time was paid by the burst and by the time since. */
  ghost predicate Paid(s: State) {
    && 0 <= s.credit <= BURST * INTERVAL && s.last <= s.clock
    && (forall i | 0 <= i < |s.log| && s.log[i].sent :: s.log[i].now <= s.last)
    && (forall from | from <= s.last ::
          SentSince(s.log, from) * INTERVAL + s.credit <= BURST * INTERVAL + s.last - from)
  }

  lemma NextPaid(s: State, r: Request)
    requires Paid(s) && s.clock <= r.now
    ensures Paid(Next(s, r))
  {
    var s' := Next(s, r);
    var c := s'.log[|s.log|];
    forall from | from <= s'.last
      ensures SentSince(s'.log, from) * INTERVAL + s'.credit <= BURST * INTERVAL + s'.last - from
    {
      LogSnoc(s.log, c, r.key, from, from);
      if from <= s.last {
        assert SentSince(s.log, from) * INTERVAL + s.credit <= BURST * INTERVAL + s.last - from;
      } else {
        NoneSentAfter(s.log, from);
      }
    }
  }

  // ---------------------------------------------------------------- the map

  /** A tracked key is tracked from when it was last sent; one that is not has not been sent for a window. */
  ghost predicate Tracks(s: State) {
    && (forall k | k in s.seen :: LastSent(s.log, k) == Some(s.seen[k].sent) && s.seen[k].sent <= s.clock)
    && (forall k | k in s.seen :: s.seen[k].suppressed == DeniedSince(s.log, k))
    && (forall k | k !in s.seen && LastSent(s.log, k).Some? :: LastSent(s.log, k).value + WINDOW <= s.clock)
  }

  lemma NextTracks(s: State, r: Request)
    requires Tracks(s) && s.clock <= r.now
    ensures Tracks(Next(s, r))
  {
    var s' := Next(s, r);
    var c := s'.log[|s.log|];
    forall k
      ensures k in s'.seen ==> LastSent(s'.log, k) == Some(s'.seen[k].sent) && s'.seen[k].sent <= s'.clock
      ensures k in s'.seen ==> s'.seen[k].suppressed == DeniedSince(s'.log, k)
      ensures k !in s'.seen && LastSent(s'.log, k).Some? ==> LastSent(s'.log, k).value + WINDOW <= s'.clock
    {
      LogSnoc(s.log, c, k, 0, 0);
    }
  }

  lemma {:induction false} LastSentIn(log: seq<Call>, key: string)
    requires LastSent(log, key).Some?
    ensures exists i :: 0 <= i < |log| && log[i] == Call(key, LastSent(log, key).value, true, log[i].reported)
  {
    var n := |log| - 1;
    if !(log[n].key == key && log[n].sent) {
      LastSentIn(log[..n], key);
      var i :| 0 <= i < n && log[..n][i] == Call(key, LastSent(log, key).value, true, log[..n][i].reported);
      assert log[i] == Call(key, LastSent(log, key).value, true, log[i].reported);
    }
  }

  ghost predicate SentSinceBy(log: seq<Call>, key: string, from: int) {
    exists i :: 0 <= i < |log| && log[i].key == key && log[i].sent && from <= log[i].now
  }

  /** Keys sent since `from` are no more than the calls sent since then. */
  lemma {:induction false} KeysAreSends(log: seq<Call>, keys: set<string>, from: int)
    requires forall k | k in keys :: SentSinceBy(log, k, from)
    ensures |keys| <= SentSince(log, from)
  {
    if log == [] {
      assert keys == {};
    } else {
      var n := |log| - 1;
      var rest := if log[n].sent && from <= log[n].now then keys - {log[n].key} else keys;
      forall k | k in rest ensures SentSinceBy(log[..n], k, from) {
        assert SentSinceBy(log, k, from);
        var i :| 0 <= i < |log| && log[i].key == k && log[i].sent && from <= log[i].now;
        assert log[..n][i] == log[i];
      }
      KeysAreSends(log[..n], rest, from);
      assert keys <= rest + {log[n].key};
    }
  }

  /** Fewer than seventy keys are unexpired at any time. */
  lemma FewUnexpired(s: State, now: int)
    requires Paid(s) && Tracks(s) && s.clock <= now
    ensures |Unexpired(s.seen, now)| < 70
  {
    var live, from := Unexpired(s.seen, now), now - WINDOW + 1;
    forall k | k in live.Keys ensures SentSinceBy(s.log, k, from) {
      LastSentIn(s.log, k);
    }
    KeysAreSends(s.log, live.Keys, from);
    if from <= s.last {
      assert SentSince(s.log, from) * INTERVAL + s.credit <= BURST * INTERVAL + s.last - from;
    } else {
      NoneSentAfter(s.log, from);
    }
    assert |live.Keys| == |live|;
  }

  /** A purge makes room, so the map never outgrows its limit. */
  lemma NextFits(s: State, r: Request)
    requires Paid(s) && Tracks(s) && s.clock <= r.now && |s.seen| <= MAX_TRACKED
    ensures |Next(s, r).seen| <= MAX_TRACKED
    ensures Sends(s, r) && |s.seen| >= MAX_TRACKED ==> |Next(s, r).seen| <= 70
  {
    if Sends(s, r) {
      FewUnexpired(s, r.now);
      var base := if |s.seen| >= MAX_TRACKED then Unexpired(s.seen, r.now) else s.seen;
      assert Next(s, r).seen.Keys == base.Keys + {r.key};
      assert |Next(s, r).seen.Keys| == |Next(s, r).seen| && |base.Keys| == |base|;
    } else {
      assert Next(s, r).seen.Keys == s.seen.Keys;
      assert |Next(s, r).seen.Keys| == |Next(s, r).seen| && |s.seen.Keys| == |s.seen|;
    }
  }

  // ---------------------------------------------------------------- repeats

  /** Two sends of one key are a window apart, and a call that is sent reports no more than was denied. */
  ghost predicate Spaced(log: seq<Call>) {
    forall i, j :: 0 <= i < j < |log| && log[i].sent && log[j].sent && log[i].key == log[j].key
      ==> log[i].now + WINDOW <= log[j].now
  }

  ghost predicate Dated(s: State) {
    forall i | 0 <= i < |s.log| && s.log[i].sent ::
      LastSent(s.log, s.log[i].key).Some? && s.log[i].now <= LastSent(s.log, s.log[i].key).value <= s.clock
  }

  lemma NextSpaced(s: State, r: Request)
    requires Tracks(s) && Dated(s) && Spaced(s.log) && s.clock <= r.now
    ensures Dated(Next(s, r)) && Spaced(Next(s, r).log)
  {
    var s' := Next(s, r);
    var c := s'.log[|s.log|];
    forall i | 0 <= i < |s'.log| && s'.log[i].sent
      ensures LastSent(s'.log, s'.log[i].key).Some?
      ensures s'.log[i].now <= LastSent(s'.log, s'.log[i].key).value <= s'.clock
    {
      LogSnoc(s.log, c, s'.log[i].key, 0, 0);
    }
  }

  // ---------------------------------------------------------------- every run

  ghost predicate Inv(s: State) {
    Paid(s) && Tracks(s) && Dated(s) && Spaced(s.log) && |s.seen| <= MAX_TRACKED
  }

  lemma NextKeeps(s: State, r: Request)
    requires Inv(s) && s.clock <= r.now
    ensures Inv(Next(s, r))
  {
    NextPaid(s, r);
    NextTracks(s, r);
    NextFits(s, r);
    NextSpaced(s, r);
  }

  lemma {:induction false} RunKeeps(start: int, requests: seq<Request>)
    requires Ordered(start, requests)
    ensures Inv(Exec(start, requests))
    ensures Exec(start, requests).clock == if requests == [] then start else requests[|requests| - 1].now
  {
    if requests != [] {
      var n := |requests| - 1;
      RunKeeps(start, requests[..n]);
      NextKeeps(Exec(start, requests[..n]), requests[n]);
    }
  }

  /** A window that reaches to the present. */
  lemma SentSoFar(s: State, from: int, to: int)
    requires Paid(s) && from <= to && s.last <= to
    ensures SentWithin(s.log, from, to) * INTERVAL <= BURST * INTERVAL + (to - from)
  {
    WithinIsSince(s.log, from, to);
    if from <= s.last {
      assert SentSince(s.log, from) * INTERVAL + s.credit <= BURST * INTERVAL + s.last - from;
    } else {
      NoneSentAfter(s.log, from);
    }
  }

  lemma NothingNew(s: State, r: Request, from: int, to: int)
    requires to < r.now
    ensures SentWithin(Next(s, r).log, from, to) == SentWithin(s.log, from, to)
  {
    LogSnoc(s.log, Next(s, r).log[|s.log|], r.key, from, to);
  }

  /** Within any window, what is sent is at most the burst and one more per interval. */
  lemma {:induction false} SentWithinBound(start: int, requests: seq<Request>, from: int, to: int)
    requires Ordered(start, requests) && from <= to
    ensures SentWithin(Exec(start, requests).log, from, to) * INTERVAL <= BURST * INTERVAL + (to - from)
  {
    RunKeeps(start, requests);
    if requests != [] && to < requests[|requests| - 1].now {
      var n := |requests| - 1;
      SentWithinBound(start, requests[..n], from, to);
      NothingNew(Exec(start, requests[..n]), requests[n], from, to);
    } else if requests != [] {
      SentSoFar(Exec(start, requests), from, to);
    }
  }

  lemma {:induction false} WithinIsSince(log: seq<Call>, from: int, to: int)
    requires forall i | 0 <= i < |log| && log[i].sent :: log[i].now <= to
    ensures SentWithin(log, from, to) == SentSince(log, from)
  {
    if log != [] {
      WithinIsSince(log[..|log| - 1], from, to);
    }
  }

  /** The map never holds more than its limit, and a purge that is due leaves it nearly empty. */
  lemma {:induction false} MapBound(start: int, requests: seq<Request>, r: Request)
    requires Ordered(start, requests) && Ordered(start, requests + [r])
    ensures var s := Exec(start, requests);
            && |s.seen| <= MAX_TRACKED && |Unexpired(s.seen, r.now)| < 70
            && (Sends(s, r) && |s.seen| >= MAX_TRACKED ==> |Next(s, r).seen| <= 70)
  {
    RunKeeps(start, requests);
    assert (requests + [r])[|requests|] == r;
    assert requests != [] ==> (requests + [r])[|requests| - 1] == requests[|requests| - 1];
    FewUnexpired(Exec(start, requests), r.now);
    NextFits(Exec(start, requests), r);
  }

  /** Whatever was evicted in between, two sends of one key are at least a window apart. */
  lemma {:induction false} RepeatsAreApart(start: int, requests: seq<Request>, i: nat, j: nat)
    requires Ordered(start, requests)
    requires var log := Exec(start, requests).log;
             i < j < |log| && log[i].sent && log[j].sent && log[i].key == log[j].key
    ensures var log := Exec(start, requests).log; log[i].now + WINDOW <= log[j].now
  {
    RunKeeps(start, requests);
  }

  /**
    What a call that is sent reports never exceeds the calls of its key denied since
    the last one sent, and equals it if and only if the key is still tracked or there
    were none.
   */
  lemma {:induction false} ReportedIsDenied(start: int, requests: seq<Request>, r: Request)
    requires Ordered(start, requests)
    requires Sends(Exec(start, requests), r)
    ensures var s := Exec(start, requests);
            && Reported(s, r) <= DeniedSince(s.log, r.key)
            && (Reported(s, r) == DeniedSince(s.log, r.key) <==> r.key in s.seen || DeniedSince(s.log, r.key) == 0)
  {
    RunKeeps(start, requests);
  }

  // ---------------------------------------------------------------- what must be sent

  /** Some time explains the fill exactly: the bucket was full then, and has only paid for sends since. */
  ghost predicate Tight(s: State, start: int) {
    exists from :: start <= from <= s.last && FillIs(s, from)
  }

  ghost predicate FillIs(s: State, from: int) {
    SentSince(s.log, from) * INTERVAL + s.credit == BURST * INTERVAL + s.last - from
  }

  lemma NextTight(s: State, r: Request, start: int)
    requires Paid(s) && Tight(s, start) && s.clock <= r.now
    ensures Tight(Next(s, r), start)
  {
    var from :| start <= from <= s.last && FillIs(s, from);
    if Sends(s, r) && BURST * INTERVAL < s.credit + (r.now - s.last) {
      FullThen(s, r);
      assert FillIs(Next(s, r), r.now);
    } else {
      StillIs(s, r, from);
      assert FillIs(Next(s, r), from);
    }
  }

  lemma FullThen(s: State, r: Request)
    requires Paid(s) && Sends(s, r) && BURST * INTERVAL < s.credit + (r.now - s.last)
    ensures FillIs(Next(s, r), r.now)
  {
    NoneSentAfter(s.log, r.now);
    LogSnoc(s.log, Call(r.key, r.now, true, Reported(s, r)), r.key, r.now, r.now);
  }

  lemma StillIs(s: State, r: Request, from: int)
    requires FillIs(s, from) && from <= s.last <= r.now
    requires !Sends(s, r) || s.credit + (r.now - s.last) <= BURST * INTERVAL
    ensures FillIs(Next(s, r), from)
  {
    LogSnoc(s.log, Call(r.key, r.now, Sends(s, r), Reported(s, r)), r.key, from, from);
  }

  lemma {:induction false} RunTight(start: int, requests: seq<Request>)
    requires Ordered(start, requests)
    ensures Tight(Exec(start, requests), start)
  {
    if requests == [] {
      assert FillIs(Init(start), start);
    } else {
      var n := |requests| - 1;
      RunTight(start, requests[..n]);
      RunKeeps(start, requests[..n]);
      NextTight(Exec(start, requests[..n]), requests[n], start);
    }
  }

  /** The bucket has a token at `now`: one more send would not break the bound of any window up to now. */
  ghost predicate RateAllows(log: seq<Call>, start: int, now: int) {
    forall from | start <= from <= now ::
      (SentSince(log, from) + 1) * 10_000_000_000 <= 10 * 10_000_000_000 + (now - from)
  }

  /** No message of this key was sent in the last ten minutes. */
  ghost predicate Quiet(log: seq<Call>, key: string, now: int) {
    forall i | 0 <= i < |log| && log[i].sent && log[i].key == key :: log[i].now + 600_000_000_000 <= now
  }

  lemma CreditAllows(s: State, start: int, now: int)
    requires Paid(s) && Tight(s, start) && s.clock <= now
    ensures Credit(s, now) >= INTERVAL <==> RateAllows(s.log, start, now)
  {
    if Credit(s, now) >= INTERVAL {
      forall from | start <= from <= now
        ensures (SentSince(s.log, from) + 1) * INTERVAL <= BURST * INTERVAL + (now - from)
      {
        if from <= s.last {
          assert SentSince(s.log, from) * INTERVAL + s.credit <= BURST * INTERVAL + s.last - from;
        } else {
          NoneSentAfter(s.log, from);
        }
      }
    } else {
      var from :| start <= from <= s.last && FillIs(s, from);
      assert (SentSince(s.log, from) + 1) * INTERVAL > BURST * INTERVAL + (now - from);
    }
  }

  lemma TrackedIsRecent(s: State, key: string, now: int)
    requires Tracks(s) && Dated(s) && s.clock <= now
    ensures (key in s.seen ==> Expired(s.seen[key], now)) <==> Quiet(s.log, key, now)
  {
    if key in s.seen {
      LastSentIn(s.log, key);
    }
  }

  /** On the log alone: a call is sent if and only if the rate and its key's window allow it. */
  lemma {:induction false} SendsExactlyWhen(start: int, requests: seq<Request>, r: Request)
    requires Ordered(start, requests) && Exec(start, requests).clock <= r.now
    ensures var log := Exec(start, requests).log;
            Sends(Exec(start, requests), r) <==> Quiet(log, r.key, r.now) && RateAllows(log, start, r.now)
  {
    RunKeeps(start, requests);
    RunTight(start, requests);
    var s := Exec(start, requests);
    CreditAllows(s, start, r.now);
    TrackedIsRecent(s, r.key, r.now);
  }

  /** Every call of a run is answered so: the log is determined by the requests. */
  lemma {:induction false} LogIsDetermined(start: int, requests: seq<Request>, i: nat)
    requires Ordered(start, requests) && i < |requests|
    ensures var log := Exec(start, requests).log;
            && |log| == |requests| && log[i].key == requests[i].key && log[i].now == requests[i].now
            && (log[i].sent <==>
                  Quiet(log[..i], requests[i].key, requests[i].now) && RateAllows(log[..i], start, requests[i].now))
  {
    var n := |requests| - 1;
    LogGrows(start, requests);
    if i == n {
      RunKeeps(start, requests[..n]);
      SendsExactlyWhen(start, requests[..n], requests[n]);
    } else {
      var log, front := Exec(start, requests).log, Exec(start, requests[..n]).log;
      LogIsDetermined(start, requests[..n], i);
      assert log[i] == front[i] && log[..i] == front[..i];
    }
  }

  /** A run's log is that of the run before its last call, and the call. */
  lemma LogGrows(start: int, requests: seq<Request>)
    requires requests != []
    ensures var n := |requests| - 1;
            var s, log := Exec(start, requests[..n]), Exec(start, requests).log;
            && |log| == |requests| && log[..n] == s.log
            && log[n] == Call(requests[n].key, requests[n].now, Sends(s, requests[n]), Reported(s, requests[n]))
  {
    LogLength(start, requests[..|requests| - 1]);
  }

  lemma {:induction false} LogLength(start: int, requests: seq<Request>)
    ensures |Exec(start, requests).log| == |requests|
  {
    if requests != [] {
      LogLength(start, requests[..|requests| - 1]);
    }
  }

  // ---------------------------------------------------------------- what must be reported

  ghost function SentKeys(log: seq<Call>): set<string> {
    set i | 0 <= i < |log| && log[i].sent :: log[i].key
  }

  lemma {:induction false} TracksAllSent(start: int, requests: seq<Request>)
    requires Ordered(start, requests) && |SentKeys(Exec(start, requests).log)| < MAX_TRACKED
    ensures Exec(start, requests).seen.Keys == SentKeys(Exec(start, requests).log)
  {
    if requests != [] {
      var n := |requests| - 1;
      var s, s' := Exec(start, requests[..n]), Exec(start, requests);
      KeysGrow(s.log, s'.log[|s.log|]);
      TracksAllSent(start, requests[..n]);
      assert |s.seen.Keys| == |s.seen|;
    }
  }

  lemma KeysGrow(log: seq<Call>, c: Call)
    ensures SentKeys(log + [c]) == SentKeys(log) + (if c.sent then {c.key} else {})
    ensures |SentKeys(log)| <= |SentKeys(log + [c])|
  {
    assert forall i | 0 <= i < |log| :: (log + [c])[i] == log[i];
    assert (log + [c])[|log|] == c;
    assert SentKeys(log) <= SentKeys(log + [c]);
    SubsetSize(SentKeys(log), SentKeys(log + [c]));
  }

  lemma {:induction false} SubsetSize(a: set<string>, b: set<string>)
    requires a <= b
    ensures |a| <= |b|
  {
    if a != {} {
      var x := Element(a);
      SubsetSize(a - {x}, b - {x});
    }
  }

  /**
    As long as fewer than a thousand different messages were sent, a message that was
    sent before reports every call of its key denied since.
   */
  lemma {:induction false} ReportsAllWhileRoomy(start: int, requests: seq<Request>, r: Request)
    requires Ordered(start, requests) && Sends(Exec(start, requests), r)
    requires |SentKeys(Exec(start, requests).log)| < 1000
    ensures var s := Exec(start, requests);
            Reported(s, r) == if r.key in SentKeys(s.log) then DeniedSince(s.log, r.key) else 0
  {
    RunKeeps(start, requests);
    TracksAllSent(start, requests);
  }

  // ---------------------------------------------------------------- a call that reports too little

  function Letters(n: nat): (s: string)
    ensures |s| == n && forall i | 0 <= i < n :: s[i] == 'x'
  {
    seq(n, i => 'x')
  }

  /** `n` different messages at once. */
  function Storm(n: nat): (r: seq<Request>)
    ensures |r| == n && forall i | 0 <= i < n :: r[i] == Request(Letters(i), 0)
  {
    seq(n, i requires 0 <= i < n => Request(Letters(i), 0))
  }

  /** `n` different messages were sent, and no '#'. */
  ghost predicate Stormed(s: State, n: nat) {
    && s.credit == (BURST - n) * INTERVAL && s.last == 0 && DeniedSince(s.log, "#") == 0
    && "#" !in s.seen && (forall k | k in s.seen :: |k| < n)
  }

  lemma StormSends(s: State, n: nat, r: Request)
    requires n < BURST && Stormed(s, n) && |r.key| == n && r.now == 0
    ensures r.key !in s.seen && Credit(s, r.now) == s.credit && Sends(s, r)
  {
    assert s.credit >= INTERVAL;
  }

  lemma StormDenies(s: State, r: Request)
    requires DeniedSince(s.log, "#") == 0 && r.key != "#"
    ensures DeniedSince(Next(s, r).log, "#") == 0
  {
    LogSnoc(s.log, Call(r.key, r.now, Sends(s, r), Reported(s, r)), "#", 0, 0);
  }

  lemma StormSees(s: State, n: nat, r: Request)
    requires Stormed(s, n) && |r.key| == n && r.key != "#"
    ensures var seen := Track(s.seen, r.key, r.now); "#" !in seen && forall k | k in seen :: |k| < n + 1
  {
    assert Track(s.seen, r.key, r.now).Keys <= s.seen.Keys + {r.key};
  }

  lemma StormStep(s: State, n: nat, r: Request)
    requires n < BURST && Stormed(s, n) && |r.key| == n && r.key != "#" && r.now == 0
    ensures Stormed(Next(s, r), n + 1)
  {
    StormSends(s, n, r);
    StormDenies(s, r);
    StormSees(s, n, r);
  }

  lemma LettersOnly(n: nat)
    ensures Letters(n) != "#"
  {
    if n == 1 {
      assert Letters(n)[0] == 'x';
    }
  }

  lemma {:induction false} StormEmpties(n: nat)
    requires n <= BURST
    ensures Stormed(Exec(0, Storm(n)), n)
  {
    if n > 0 {
      StormEmpties(n - 1);
      LettersOnly(n - 1);
      StormStep(Exec(0, Storm(n - 1)), n - 1, Storm(n)[n - 1]);
      assert Storm(n)[..n - 1] == Storm(n - 1);
    }
  }

  lemma DeniedThenSent(s: State)
    requires Stormed(s, BURST)
    ensures var s', r := Next(s, Request("#", 0)), Request("#", INTERVAL);
            Sends(s', r) && Reported(s', r) == 0 && DeniedSince(s'.log, "#") == 1
  {
    LogSnoc(s.log, Next(s, Request("#", 0)).log[|s.log|], "#", 0, 0);
  }

  /** A message first denied for the rate is not tracked: when it is sent, it reports nothing held back. */
  lemma FirstDenialsForgotten(requests: seq<Request>)
    requires requests == Storm(BURST) + [Request("#", 0)]
    ensures var s, r := Exec(0, requests), Request("#", INTERVAL);
            Sends(s, r) && Reported(s, r) == 0 && DeniedSince(s.log, "#") == 1
  {
    var storm := Storm(BURST);
    StormEmpties(BURST);
    DeniedThenSent(Exec(0, storm));
    assert requests[..|requests| - 1] == storm;
  }

  // ---------------------------------------------------------------- the limiter

  class Limiter {
    var credit: int
    var last: int
    var seen: map<string, Seen>
    ghost var start: int
    ghost var requests: seq<Request>

    ghost function Model(): State
      reads this
    {
      Exec(start, requests)
    }

    ghost predicate Valid()
      reads this
    {
      Ordered(start, requests) && credit == Model().credit && last == Model().last && seen == Model().seen
    }

    constructor (now: int)
      ensures Valid() && start == now && requests == []
    {
      credit, last, seen := BURST * INTERVAL, now, map[];
      start, requests := now, [];
    }

    /** rate.Limiter.AllowN(now, 1). */
    method AllowOne(now: int) returns (ok: bool)
      modifies this`credit, this`last
      ensures ok == (old(Filled(now)) >= INTERVAL)
      ensures ok ==> credit == old(Filled(now)) - INTERVAL && last == now
      ensures !ok ==> credit == old(credit) && last == old(last)
    {
      var filled := Filled(now);
      ok := filled >= INTERVAL;
      if ok {
        credit, last := filled - INTERVAL, now;
      }
    }

    function Filled(now: int): int
      reads this`credit, this`last
    {
      var filled := credit + (now - last);
      if BURST * INTERVAL < filled then BURST * INTERVAL else filled
    }

    /** Deletes the entries older than a window, in an order Go chooses. */
    method Purge(now: int)
      modifies this`seen
      ensures seen == Unexpired(old(seen), now)
    {
      var all, rest := seen, seen.Keys;
      while rest != {}
        invariant rest <= all.Keys
        invariant seen == map k | k in all && (k in rest || !Expired(all[k], now)) :: all[k]
        decreases |rest|
      {
        ghost var some := Element(rest);
        var key :| key in rest;
        if now - seen[key].sent >= WINDOW {
          seen := seen - {key};
        }
        rest := rest - {key};
      }
    }

    /** One call is one Next of the machine on the message's key, whose answer it gives. */
    method Allow(message: string, now: int) returns (ok: bool, suppressed: nat)
      requires Valid() && Model().clock <= now
      modifies this
      ensures Valid() && start == old(start) && requests == old(requests) + [Request(MessageKey.Key(message), now)]
      ensures ok == Sends(old(Model()), Request(MessageKey.Key(message), now))
      ensures suppressed == Reported(old(Model()), Request(MessageKey.Key(message), now))
    {
      MessageKey.ReplaceIsKey(message);
      var key := MessageKey.Replace(message);
      ok, suppressed := Decide(key, now);
      RunSnoc(start, requests, Request(key, now));
      requests := requests + [Request(key, now)];
    }

    /** allow, once the key is known. */
    method Decide(key: string, now: int) returns (ok: bool, suppressed: nat)
      requires Valid()
      modifies this`credit, this`last, this`seen
      ensures var r := Request(key, now);
              && ok == Sends(Model(), r) && suppressed == Reported(Model(), r)
              && credit == Next(Model(), r).credit && last == Next(Model(), r).last && seen == Next(Model(), r).seen
    {
      if key in seen && now - seen[key].sent < WINDOW {
        seen := seen[key := seen[key].(suppressed := seen[key].suppressed + 1)];
        return false, 0;
      }
      var granted := AllowOne(now);
      if !granted {
        if key in seen {
          seen := seen[key := seen[key].(suppressed := seen[key].suppressed + 1)];
        }
        return false, 0;
      }
      suppressed := if key in seen then seen[key].suppressed else 0;
      if |seen| >= MAX_TRACKED {
        Purge(now);
      }
      seen := seen[key := Seen(now, 0)];
      ok := true;
    }
  }

  lemma RunSnoc(start: int, requests: seq<Request>, r: Request)
    requires Ordered(start, requests) && Exec(start, requests).clock <= r.now
    ensures Ordered(start, requests + [r]) && Exec(start, requests + [r]) == Next(Exec(start, requests), r)
  {
    assert (requests + [r])[..|requests|] == requests;
    RunKeeps(start, requests);
    if requests != [] {
      assert forall i | 0 <= i < |requests| :: requests[i].now <= requests[|requests| - 1].now;
    }
  }
}
