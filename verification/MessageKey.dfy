/**
  common/reporter/limit.go: what makes two messages reports of one problem.

  `Replace` follows the regular expression engine through the pattern
  [0-9a-fA-F]*[0-9][0-9a-fA-F]*, leftmost match first, each star greedy and giving
  back one character at a time.  `Key` is what that is meant to compute: the message
  with every maximal run of hex digits that holds a decimal digit replaced by '#'.
 */
module MessageKey {

  predicate Decimal(c: char) {
    '0' <= c <= '9'
  }

  predicate Hex(c: char) {
    Decimal(c) || 'a' <= c <= 'f' || 'A' <= c <= 'F'
  }

  lemma DigitsAre(c: char)
    ensures Decimal(c) <==> c in "0123456789"
    ensures Hex(c) <==> c in "0123456789abcdefABCDEF"
  {
  }

  /** One of the first `n` characters is a decimal digit. */
  predicate HasDecimal(s: string, n: nat)
    requires n <= |s|
  {
    exists i :: 0 <= i < n && Decimal(s[i])
  }

  /** The first `n` characters are hex digits. */
  predicate AllHex(s: string, n: nat)
    requires n <= |s|
  {
    forall i | 0 <= i < n :: Hex(s[i])
  }

  /** The first `n` characters are a string the pattern describes. */
  ghost predicate InLanguage(s: string, n: nat)
    requires n <= |s|
  {
    exists i :: 0 <= i < n && AllHex(s, i) && Decimal(s[i]) && forall j | i < j < n :: Hex(s[j])
  }

  // ---------------------------------------------------------------- the engine

  /** A greedy star over hex digits takes this many characters. */
  function Run(s: string): (n: nat)
    ensures n <= |s| && AllHex(s, n)
    ensures n < |s| ==> !Hex(s[n])
  {
    if s != "" && Hex(s[0]) then
      assert forall i | 0 < i <= Run(s[1..]) :: s[i] == s[1..][i - 1];
      1 + Run(s[1..])
    else 0
  }

  /** Where a decimal digit can follow the star, giving back characters from `n` on. */
  function GiveBack(s: string, n: nat): (r: int)
    requires n <= |s|
    ensures -1 <= r <= n && r < |s|
    ensures r >= 0 ==> Decimal(s[r])
    ensures forall i | r < i <= n && i < |s| :: !Decimal(s[i])
  {
    if n < |s| && Decimal(s[n]) then n
    else if n == 0 then -1
    else GiveBack(s, n - 1)
  }

  /** The end of the match that starts at the beginning of `s`, or 0 if there is none. */
  function MatchEnd(s: string): (end: nat)
    ensures end <= |s|
  {
    var i := GiveBack(s, Run(s));
    if i < 0 then 0 else i + 1 + Run(s[i + 1..])
  }

  /** ReplaceAllString with "#". */
  function Replace(s: string): string
    decreases |s|
  {
    if s == "" then ""
    else if MatchEnd(s) > 0 then "#" + Replace(s[MatchEnd(s)..])
    else [s[0]] + Replace(s[1..])
  }

  // ---------------------------------------------------------------- the key

  /** A maximal run of hex digits is one part of the message, any other character is one by itself. */
  function Width(s: string): (n: nat)
    requires s != ""
    ensures 0 < n <= |s|
  {
    if Run(s) == 0 then 1 else Run(s)
  }

  function Part(s: string): string
    requires s != ""
  {
    if HasDecimal(s, Width(s)) then "#" else s[..Width(s)]
  }

  function Key(s: string): string
    decreases |s|
  {
    if s == "" then "" else Part(s) + Key(s[Width(s)..])
  }

  lemma RunIs(s: string, n: nat)
    requires n <= |s| && AllHex(s, n) && (n < |s| ==> !Hex(s[n]))
    ensures Run(s) == n
  {
    var r := Run(s);
    assert !(r < n) && !(n < r);
  }

  /** A match takes the whole run, and there is one exactly if the run holds a decimal digit. */
  lemma MatchIsRun(s: string)
    ensures MatchEnd(s) == if HasDecimal(s, Run(s)) then Run(s) else 0
  {
    var n := Run(s);
    var i := GiveBack(s, n);
    if i >= 0 {
      var rest := s[i + 1..];
      assert i < n;
      assert forall j | 0 <= j < |rest| :: rest[j] == s[i + 1 + j];
      RunIs(rest, n - (i + 1));
    }
  }

  /** Every match is the longest string of the language that starts there, and none is missed. */
  lemma MatchIsLongest(s: string, n: nat)
    requires n <= |s|
    ensures InLanguage(s, n) ==> n <= MatchEnd(s)
    ensures MatchEnd(s) > 0 ==> InLanguage(s, MatchEnd(s))
  {
    MatchIsRun(s);
  }

  lemma PlainStep(s: string)
    requires Run(s) > 0 && !HasDecimal(s, Run(s))
    ensures Run(s[1..]) == Run(s) - 1 && !HasDecimal(s[1..], Run(s) - 1)
    ensures Replace(s) == [s[0]] + Replace(s[1..])
  {
    MatchIsRun(s);
  }

  lemma {:induction false} ReplacePlain(s: string, n: nat)
    requires n <= Run(s) && !HasDecimal(s, Run(s))
    ensures Replace(s) == s[..n] + Replace(s[n..])
  {
    if n == 0 {
      assert s[..0] == "" && s[0..] == s;
    } else {
      PlainStep(s);
      ReplacePlain(s[1..], n - 1);
      PlainSlices(s, n, Replace(s[n..]));
    }
  }

  lemma PlainSlices(s: string, n: nat, rest: string)
    requires 0 < n <= |s|
    ensures s[1..][n - 1..] == s[n..] && [s[0]] + (s[1..][..n - 1] + rest) == s[..n] + rest
  {
  }

  lemma Regroup(a: string, b: string, c: string)
    ensures a + (b + c) == (a + b) + c
  {
  }

  /** The engine computes the key. */
  lemma {:induction false} ReplaceIsKey(s: string)
    ensures Replace(s) == Key(s)
    decreases |s|
  {
    if s != "" {
      MatchIsRun(s);
      ReplaceIsKey(s[Width(s)..]);
      if MatchEnd(s) == 0 && Run(s) > 0 {
        ReplacePlain(s, Run(s));
      }
    }
  }

  // ---------------------------------------------------------------- what the key is good for

  /** No run of hex digits reaches from `a` into `b`. */
  ghost predicate Boundary(a: string, b: string) {
    a == "" || b == "" || !Hex(a[|a| - 1]) || !Hex(b[0])
  }

  lemma {:induction false} KeyConcat(a: string, b: string)
    requires Boundary(a, b)
    ensures Key(a + b) == Key(a) + Key(b)
    decreases |a|
  {
    if a == "" {
      assert a + b == b;
    } else {
      var rest := a[Width(a)..];
      PartStays(a, b);
      KeyConcat(rest, b);
      Regroup(Part(a), Key(rest), Key(b));
    }
  }

  lemma PartStays(a: string, b: string)
    requires Boundary(a, b) && a != ""
    ensures Width(a + b) == Width(a) && Part(a + b) == Part(a)
    ensures (a + b)[Width(a)..] == a[Width(a)..] + b && Boundary(a[Width(a)..], b)
  {
    RunStopsAt(a, b);
    var n := Width(a);
    assert forall i | 0 <= i < n :: (a + b)[i] == a[i];
    assert (a + b)[..n] == a[..n];
  }

  lemma RunStopsAt(a: string, b: string)
    requires Boundary(a, b) && a != ""
    ensures Run(a + b) == Run(a)
  {
    var n := Run(a);
    assert forall i | 0 <= i < |a| :: (a + b)[i] == a[i];
    RunIs(a + b, n);
  }

  lemma PartHasNone(s: string)
    requires s != ""
    ensures !HasDecimal(Part(s), |Part(s)|)
    ensures !HasDecimal(s, |s|) ==> Part(s) == s[..Width(s)] && !HasDecimal(s[Width(s)..], |s| - Width(s))
  {
  }

  lemma {:induction false} DigitFree(s: string)
    ensures !HasDecimal(Key(s), |Key(s)|)
    decreases |s|
  {
    if s != "" {
      PartHasNone(s);
      DigitFree(s[Width(s)..]);
    }
  }

  lemma {:induction false} DigitFreeStays(s: string)
    requires !HasDecimal(s, |s|)
    ensures Key(s) == s
    decreases |s|
  {
    if s != "" {
      PartHasNone(s);
      DigitFreeStays(s[Width(s)..]);
      assert s == s[..Width(s)] + s[Width(s)..];
    }
  }

  lemma Idempotent(s: string)
    ensures Key(Key(s)) == Key(s)
  {
    DigitFree(s);
    DigitFreeStays(Key(s));
  }

  /** A number, port, count or address: hex digits, one of them decimal. */
  ghost predicate Variable(s: string) {
    AllHex(s, |s|) && HasDecimal(s, |s|)
  }

  lemma VariableKey(s: string)
    requires Variable(s)
    ensures Key(s) == "#"
  {
    RunIs(s, |s|);
  }

  /** One variable part for another leaves the key as it is. */
  lemma {:induction false} SwapKeepsKey(a: string, x: string, y: string, b: string)
    requires Variable(x) && Variable(y)
    requires a == "" || !Hex(a[|a| - 1])
    requires b == "" || !Hex(b[0])
    ensures Key(a + x + b) == Key(a + y + b) == Key(a) + "#" + Key(b)
  {
    VariableParts(a, x, b);
    VariableParts(a, y, b);
  }

  lemma VariableParts(a: string, x: string, b: string)
    requires Variable(x) && (a == "" || !Hex(a[|a| - 1])) && (b == "" || !Hex(b[0]))
    ensures Key(a + x + b) == Key(a) + "#" + Key(b)
  {
    assert (a + x)[|a + x| - 1] == x[|x| - 1];
    KeyConcat(a + x, b);
    KeyConcat(a, x);
    VariableKey(x);
  }
}
