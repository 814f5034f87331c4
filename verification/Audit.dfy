/**
  audit.go: what a detect rule matches, and the hits kept until they are reported.
 */

/** The delivery of hits as a machine over its steps, with the events so far. */
module HitDelivery {
  import opened Common

  /** adapter.DetectLog. */
  datatype Hit = Hit(userId: int, ruleId: int)

  datatype Event =
    | Recorded(hit: Hit)
    | Collected(batch: seq<Hit>)
    | Acknowledged
    | Restored

  datatype Push = Idle | Reporting(batch: seq<Hit>)

  datatype State = State(hits: set<Hit>, push: Push, log: seq<Event>)

  const Init: State := State({}, Idle, [])

  /** `e` can happen next: record at any time, the rest in turn on the push goroutine. */
  ghost predicate Enabled(s: State, e: Event) {
    match e
    case Recorded(_) => true
    case Collected(batch) => s.push.Idle? && batch != [] && NoDup(batch) && forall h :: h in batch <==> h in s.hits
    case Acknowledged => s.push.Reporting?
    case Restored => s.push.Reporting?
  }

  ghost function Apply(s: State, e: Event): State
    requires Enabled(s, e)
  {
    var log := s.log + [e];
    match e
    case Recorded(h) => State(s.hits + {h}, s.push, log)
    case Collected(batch) => State({}, Reporting(batch), log)
    case Acknowledged => State(s.hits, Idle, log)
    case Restored => State(s.hits + (set h | h in s.push.batch), Idle, log)
  }

  ghost predicate IsRun(events: seq<Event>)
    decreases |events|, 0
  {
    events == [] || (IsRun(events[..|events| - 1]) && Enabled(Exec(events[..|events| - 1]), events[|events| - 1]))
  }

  ghost function Exec(events: seq<Event>): State
    requires IsRun(events)
    decreases |events|, 1
  {
    if events == [] then Init else Apply(Exec(events[..|events| - 1]), events[|events| - 1])
  }

  // ---------------------------------------------------------------- what the events say

  /** The batch collected at `j` was acknowledged: that is the first thing the push goroutine did after. */
  ghost predicate Delivered(log: seq<Event>, j: nat) {
    exists k :: j < k < |log| && log[k].Acknowledged? && forall m | j < m < k :: log[m].Recorded?
  }

  /** The record at `i` has not reached the panel: no later batch with that hit was acknowledged. */
  ghost predicate Outstanding(log: seq<Event>, i: nat, h: Hit) {
    && i < |log| && log[i] == Recorded(h)
    && forall j | i < j < |log| && log[j].Collected? && h in log[j].batch :: !Delivered(log, j)
  }

  /** The panel is still owed the hit. */
  ghost predicate Owed(log: seq<Event>, h: Hit) {
    exists i: nat :: Outstanding(log, i, h)
  }

  /** The node still knows the hit. */
  ghost predicate Kept(s: State, h: Hit) {
    h in s.hits || (s.push.Reporting? && h in s.push.batch)
  }

  // ---------------------------------------------------------------- invariant

  /** The push goroutine reports the batch it collected at `j`; what is pending was recorded since. */
  ghost predicate ReportingSince(s: State, j: nat) {
    && s.push.Reporting? && j < |s.log| && s.log[j] == Collected(s.push.batch)
    && (forall m | j < m < |s.log| :: s.log[m].Recorded?)
    && (forall h | h in s.hits :: exists m :: j < m < |s.log| && s.log[m] == Recorded(h))
    && (forall m | j < m < |s.log| :: s.log[m].hit in s.hits)
  }

  ghost predicate Inv(s: State) {
    && (forall h :: Kept(s, h) <==> Owed(s.log, h))
    && (s.push.Reporting? ==> exists j: nat :: ReportingSince(s, j))
    && (forall j | 0 <= j < |s.log| && s.log[j].Collected? ::
          NoDup(s.log[j].batch) && forall h :: h in s.log[j].batch <==> Owed(s.log[..j], h))
  }

  /** Only an acknowledgement delivers anything. */
  lemma DeliveredSnoc(log: seq<Event>, e: Event, j: nat)
    requires j < |log|
    ensures Delivered(log + [e], j) <==>
              Delivered(log, j) || (e.Acknowledged? && forall m | j < m < |log| :: log[m].Recorded?)
  {
    var log' := log + [e];
    if Delivered(log, j) {
      var k :| j < k < |log| && log[k].Acknowledged? && forall m | j < m < k :: log[m].Recorded?;
      assert log'[k].Acknowledged?;
    }
    if e.Acknowledged? && forall m | j < m < |log| :: log[m].Recorded? {
      assert log'[|log|].Acknowledged?;
    }
    if Delivered(log', j) {
      var k :| j < k < |log'| && log'[k].Acknowledged? && forall m | j < m < k :: log'[m].Recorded?;
      if k < |log| {
        assert log[k].Acknowledged? && forall m | j < m < k :: log[m] == log'[m];
      } else {
        assert forall m | j < m < |log| :: log[m] == log'[m];
      }
    }
  }

  /** A step other than an acknowledgement owes what was owed, and what it records. */
  lemma OwedSnoc(log: seq<Event>, e: Event, h: Hit)
    requires !e.Acknowledged?
    ensures Owed(log + [e], h) <==> Owed(log, h) || e == Recorded(h)
  {
    var log' := log + [e];
    if i: nat :| Outstanding(log, i, h) {
      forall j | i < j < |log'| && log'[j].Collected? && h in log'[j].batch ensures !Delivered(log', j) {
        if j < |log| {
          DeliveredSnoc(log, e, j);
        }
      }
      assert Outstanding(log', i, h);
    }
    if e == Recorded(h) {
      assert Outstanding(log', |log|, h);
    }
    if i: nat :| Outstanding(log', i, h) {
      if i < |log| {
        forall j | i < j < |log| && log[j].Collected? && h in log[j].batch ensures !Delivered(log, j) {
          assert log'[j] == log[j];
          DeliveredSnoc(log, e, j);
        }
        assert Outstanding(log, i, h);
      }
    }
  }

  /** A record from before the acknowledged batch was collected is still owed only if the batch lacks the hit. */
  lemma AckedBefore(s: State, c: nat, i: nat, h: Hit)
    requires ReportingSince(s, c) && i < c && Outstanding(s.log + [Acknowledged], i, h)
    ensures h !in s.push.batch && Outstanding(s.log, i, h)
  {
    var log, log' := s.log, s.log + [Acknowledged];
    assert Delivered(log', c) by {
      DeliveredSnoc(log, Acknowledged, c);
    }
    assert log'[c] == log[c] && log'[i] == log[i];
    forall j | i < j < |log| && log[j].Collected? && h in log[j].batch ensures !Delivered(log, j) {
      assert log'[j] == log[j];
      DeliveredSnoc(log, Acknowledged, j);
    }
  }

  lemma AckedOwed(s: State, h: Hit)
    requires Inv(s) && s.push.Reporting?
    ensures h in s.hits <==> Owed(s.log + [Acknowledged], h)
  {
    var log, log' := s.log, s.log + [Acknowledged];
    var c: nat :| ReportingSince(s, c);
    if h in s.hits {
      var i :| c < i < |log| && log[i] == Recorded(h);
      assert Outstanding(log', i, h);
    }
    if i: nat :| Outstanding(log', i, h) {
      assert i < |log| && log'[i] == log[i];
      if i < c {
        AckedBefore(s, c, i, h);
        assert Kept(s, h);
      } else {
        assert c < i && log[i].hit in s.hits;
      }
    }
  }

  /** What was said of the batches so far stays true. */
  lemma BatchesSnoc(s: State, e: Event)
    requires Inv(s) && Enabled(s, e)
    ensures var log := s.log + [e];
            forall j | 0 <= j < |log| && log[j].Collected? ::
              NoDup(log[j].batch) && forall h :: h in log[j].batch <==> Owed(log[..j], h)
  {
    var log := s.log + [e];
    forall j | 0 <= j < |log| && log[j].Collected?
      ensures NoDup(log[j].batch) && forall h :: h in log[j].batch <==> Owed(log[..j], h)
    {
      if j < |s.log| {
        assert log[j] == s.log[j] && log[..j] == s.log[..j];
      } else {
        assert log[..j] == s.log;
        assert forall h :: h in e.batch <==> Kept(s, h);
      }
    }
  }

  lemma StepKeeps(s: State, e: Event)
    requires Inv(s) && Enabled(s, e)
    ensures Inv(Apply(s, e))
  {
    var s' := Apply(s, e);
    BatchesSnoc(s, e);
    forall h ensures Kept(s', h) <==> Owed(s'.log, h) {
      if e.Acknowledged? {
        AckedOwed(s, h);
      } else {
        OwedSnoc(s.log, e, h);
      }
    }
    if e.Recorded? && s.push.Reporting? {
      var j: nat :| ReportingSince(s, j);
      RecordedSince(s, e.hit, j);
    } else if e.Collected? {
      assert ReportingSince(s', |s.log|);
    }
  }

  lemma RecordedSince(s: State, h: Hit, j: nat)
    requires ReportingSince(s, j)
    ensures ReportingSince(Apply(s, Recorded(h)), j)
  {
    var s' := Apply(s, Recorded(h));
    assert s'.log[|s.log|] == Recorded(h);
    forall g | g in s'.hits ensures exists m :: j < m < |s'.log| && s'.log[m] == Recorded(g) {
      if g in s.hits {
        var m :| j < m < |s.log| && s.log[m] == Recorded(g);
        assert s'.log[m] == Recorded(g);
      }
    }
  }

  lemma {:induction false} RunKeeps(events: seq<Event>)
    requires IsRun(events)
    ensures Inv(Exec(events)) && Exec(events).log == events
    decreases |events|
  {
    if events != [] {
      var n := |events| - 1;
      RunKeeps(events[..n]);
      StepKeeps(Exec(events[..n]), events[n]);
      assert events[..n] + [events[n]] == events;
    }
  }

  // ---------------------------------------------------------------- every run

  /** The node keeps a hit, pending or in flight, if and only if the panel is owed it. */
  lemma {:induction false} NoHitIsLost(events: seq<Event>, h: Hit)
    requires IsRun(events)
    ensures Kept(Exec(events), h) <==> Owed(events, h)
  {
    RunKeeps(events);
  }

  /** A batch reports, once each, exactly the hits owed when it was collected; so each was recorded. */
  lemma {:induction false} BatchIsOwed(events: seq<Event>, j: nat, h: Hit)
    requires IsRun(events) && j < |events| && events[j].Collected?
    ensures NoDup(events[j].batch)
    ensures h in events[j].batch <==> Owed(events[..j], h)
    ensures h in events[j].batch ==> exists i :: 0 <= i < j && events[i] == Recorded(h)
  {
    RunKeeps(events);
    if h in events[j].batch {
      var i: nat :| Outstanding(events[..j], i, h);
      assert events[i] == Recorded(h);
    }
  }

  /** A batch is acknowledged before the next one is collected, or never. */
  lemma DeliveredBefore(events: seq<Event>, j: nat, j': nat)
    requires j < j' < |events| && events[j'].Collected? && Delivered(events, j)
    ensures Delivered(events[..j'], j)
  {
    var k :| j < k < |events| && events[k].Acknowledged? && forall m | j < m < k :: events[m].Recorded?;
    assert k < j';
    assert events[..j'][k].Acknowledged?;
  }

  /** A hit that was acknowledged is reported again only if it was recorded again since it was collected. */
  lemma {:induction false} ReportedAgainOnlyIfRecorded(events: seq<Event>, j: nat, j': nat, h: Hit)
    requires IsRun(events) && j < j' < |events| && events[j].Collected? && events[j'].Collected?
    requires h in events[j].batch && h in events[j'].batch && Delivered(events, j)
    ensures exists i :: j < i < j' && events[i] == Recorded(h)
  {
    BatchIsOwed(events, j', h);
    DeliveredBefore(events, j, j');
    var front := events[..j'];
    var i: nat :| Outstanding(front, i, h);
    assert front[i] == events[i] && front[j] == events[j];
    assert i > j;
  }
}

/** What a detect rule matches. */
module DetectRules {

  /** Go strings and payloads are bytes. */
  newtype u8 = x: int | 0 <= x < 256

  type Bytes = seq<u8>

  const HEX: int := 2

  /** adapter.DetectRule; `matches` is its compiled expression. */
  datatype Rule = Rule(id: int, kind: int, matches: Bytes -> bool)

  function HexDigit(n: u8): u8
    requires n < 16
  {
    if n < 10 then n + 48 else n + 87
  }

  /** hex.EncodeToString. */
  function HexEncode(payload: Bytes): (r: Bytes)
    ensures |r| == 2 * |payload|
    ensures forall i | 0 <= i < |payload| ::
              r[2 * i] == HexDigit(payload[i] / 16) && r[2 * i + 1] == HexDigit(payload[i] % 16)
  {
    if payload == [] then []
    else
      var n := |payload| - 1;
      HexEncode(payload[..n]) + [HexDigit(payload[n] / 16), HexDigit(payload[n] % 16)]
  }

  /**
    A hex rule is tried on the encoded payload, any other rule on the host, then on the
    domain, then on the payload itself.  Empty text is never matched.
   */
  predicate Matches(rule: Rule, host: Bytes, domain: Bytes, payload: Bytes) {
    if rule.kind == HEX then payload != [] && rule.matches(HexEncode(payload))
    else
      || (host != [] && rule.matches(host))
      || (domain != [] && rule.matches(domain))
      || (payload != [] && rule.matches(payload))
  }

  ghost predicate LowerHex(c: u8) {
    48 <= c <= 57 || 97 <= c <= 102
  }

  /** The byte that two hex digits stand for. */
  ghost function HexPair(a: u8, b: u8): int {
    HexValue(a) * 16 + HexValue(b)
  }

  ghost function HexValue(c: u8): int {
    if c < 58 then c as int - 48 else c as int - 87
  }

  /** The encoding has two lower-case digits per byte, and can be undone. */
  lemma HexRoundTrip(payload: Bytes, i: nat)
    requires i < |payload|
    ensures var text := HexEncode(payload);
            && LowerHex(text[2 * i]) && LowerHex(text[2 * i + 1])
            && HexPair(text[2 * i], text[2 * i + 1]) == payload[i] as int
  {
  }

  lemma HexIsInjective(a: Bytes, b: Bytes)
    requires HexEncode(a) == HexEncode(b)
    ensures a == b
  {
    forall i | 0 <= i < |a| ensures a[i] == b[i] {
      HexRoundTrip(a, i);
      HexRoundTrip(b, i);
    }
  }

  /** The texts a rule is tried on: kind 2 sees the payload in hex, any other kind the names and the payload. */
  ghost function Texts(rule: Rule, host: Bytes, domain: Bytes, payload: Bytes): seq<Bytes> {
    if rule.kind == 2 then [HexEncode(payload)] else [host, domain, payload]
  }

  lemma MatchesOneOf(rule: Rule, host: Bytes, domain: Bytes, payload: Bytes)
    ensures var texts := Texts(rule, host, domain, payload);
            Matches(rule, host, domain, payload) <==>
            exists k | 0 <= k < |texts| :: texts[k] != [] && rule.matches(texts[k])
  {
    var texts := Texts(rule, host, domain, payload);
    if rule.kind == 2 {
      assert texts[0] == HexEncode(payload);
    } else {
      assert texts[0] == host && texts[1] == domain && texts[2] == payload;
    }
  }

  datatype Verdict = NoMatch | Match(rule: Rule)

  /** No rule before the result matches, and the result does. */
  ghost predicate IsFirstMatch(rules: seq<Rule>, host: Bytes, domain: Bytes, payload: Bytes, v: Verdict) {
    match v
    case NoMatch => forall i | 0 <= i < |rules| :: !Matches(rules[i], host, domain, payload)
    case Match(rule) =>
      exists i :: 0 <= i < |rules| && rules[i] == rule && Matches(rule, host, domain, payload)
                  && forall j | 0 <= j < i :: !Matches(rules[j], host, domain, payload)
  }

  /** match, where the payload is encoded at most once and only if a hex rule asks. */
  method FirstMatch(rules: seq<Rule>, host: Bytes, domain: Bytes, payload: Bytes) returns (v: Verdict)
    ensures IsFirstMatch(rules, host, domain, payload, v)
  {
    var hexPayload: Bytes := [];
    for i := 0 to |rules|
      invariant hexPayload == [] || hexPayload == HexEncode(payload)
      invariant forall j | 0 <= j < i :: !Matches(rules[j], host, domain, payload)
    {
      var rule := rules[i];
      if rule.kind == HEX {
        if payload != [] {
          if hexPayload == [] {
            hexPayload := HexEncode(payload);
          }
          if rule.matches(hexPayload) {
            return Match(rule);
          }
        }
      } else if (host != [] && rule.matches(host))
             || (domain != [] && domain != host && rule.matches(domain))
             || (payload != [] && rule.matches(payload)) {
        return Match(rule);
      }
    }
    v := NoMatch;
  }
}

module Audit {
  import opened Common
  import opened HitDelivery
  import opened DetectRules

  datatype Rules = Unset | Rules(list: seq<Rule>)

  class Auditor {
    var rules: Rules
    var hits: set<Hit>
    ghost var events: seq<Event>

    /** The hits are those of the delivery machine after the events so far. */
    ghost predicate Valid()
      reads this
    {
      IsRun(events) && hits == Exec(events).hits
    }

    constructor ()
      ensures Valid() && rules == Unset && events == []
    {
      rules, hits, events := Unset, {}, [];
    }

    method SetRules(list: seq<Rule>)
      modifies this`rules
      ensures rules == Rules(list)
    {
      rules := Rules(list);
    }

    /** Whether connections have to be looked at. */
    method Enabled() returns (enabled: bool)
      ensures enabled <==> rules.Rules? && rules.list != []
    {
      enabled := rules.Rules? && |rules.list| > 0;
    }

    method Match(host: Bytes, domain: Bytes, payload: Bytes) returns (v: Verdict)
      ensures IsFirstMatch(if rules.Unset? then [] else rules.list, host, domain, payload, v)
    {
      if rules.Unset? {
        return NoMatch;
      }
      v := FirstMatch(rules.list, host, domain, payload);
    }

    method Record(userId: int, ruleId: int)
      requires Valid()
      modifies this`hits, this`events
      ensures Valid() && events == old(events) + [Recorded(Hit(userId, ruleId))]
    {
      RunSnoc(events, Recorded(Hit(userId, ruleId)));
      hits := hits + {Hit(userId, ruleId)};
      events := events + [Recorded(Hit(userId, ruleId))];
    }

    /** Takes every pending hit, in an order Go chooses. */
    method Collect() returns (logs: seq<Hit>)
      requires Valid() && Exec(events).push.Idle?
      modifies this`hits, this`events
      ensures Valid() && hits == {} && NoDup(logs) && (forall h :: h in logs <==> h in old(hits))
      ensures events == if logs == [] then old(events) else old(events) + [Collected(logs)]
      ensures Exec(events).push == if logs == [] then Idle else Reporting(logs)
    {
      logs := [];
      if |hits| == 0 {
        return;
      }
      var rest := hits;
      while rest != {}
        invariant rest <= hits && NoDup(logs) && (forall h | h in rest :: h !in logs)
        invariant forall h :: h in logs <==> h in hits && h !in rest
        decreases |rest|
      {
        var hit :| hit in rest;
        logs, rest := logs + [hit], rest - {hit};
      }
      SomeLogged(hits, logs);
      RunSnoc(events, Collected(logs));
      hits := {};
      events := events + [Collected(logs)];
    }

    /** The panel took the batch. */
    ghost method Acknowledge()
      requires Valid() && Exec(events).push.Reporting?
      modifies this`events
      ensures Valid() && events == old(events) + [Acknowledged] && Exec(events).push.Idle?
    {
      RunSnoc(events, Acknowledged);
      events := events + [Acknowledged];
    }

    /** A batch whose report failed is owed again. */
    method Restore(logs: seq<Hit>)
      requires Valid() && Exec(events).push == Reporting(logs)
      modifies this`hits, this`events
      ensures Valid() && events == old(events) + [Restored] && Exec(events).push.Idle?
      ensures hits == old(hits) + (set h | h in logs)
    {
      for k := 0 to |logs|
        invariant events == old(events) && hits == old(hits) + (set h | h in logs[..k])
      {
        assert logs[..k + 1] == logs[..k] + [logs[k]];
        hits := hits + {logs[k]};
      }
      assert logs[..|logs|] == logs;
      RunSnoc(events, Restored);
      events := events + [Restored];
    }

    /** The detect part of pushOnce; `delivered` is what became of the report. */
    method PushDetectLogs(delivered: bool) returns (logs: seq<Hit>)
      requires Valid() && Exec(events).push.Idle?
      modifies this`hits, this`events
      ensures Valid() && Exec(events).push.Idle?
      ensures forall h :: h in logs <==> Owed(old(events), h)
      ensures forall h :: Owed(events, h) <==> Owed(old(events), h) && !delivered
    {
      ghost var before := events;
      logs := Collect();
      if logs != [] {
        if delivered {
          Acknowledge();
        } else {
          Restore(logs);
        }
      }
      forall h ensures h in logs <==> Owed(before, h) {
        NoHitIsLost(before, h);
      }
      forall h ensures Owed(events, h) <==> Owed(before, h) && !delivered {
        NoHitIsLost(events, h);
      }
    }
  }

  lemma SomeLogged(hits: set<Hit>, logs: seq<Hit>)
    requires |hits| > 0 && forall h :: h in logs <==> h in hits
    ensures logs != []
  {
    var h :| h in hits;
    assert h in logs;
  }

  lemma RunSnoc(events: seq<Event>, e: Event)
    requires IsRun(events) && HitDelivery.Enabled(Exec(events), e)
    ensures IsRun(events + [e]) && Exec(events + [e]) == Apply(Exec(events), e)
  {
    assert (events + [e])[..|events|] == events;
  }
}
