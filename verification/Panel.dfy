/**
  api/serverv1: fetching the three resources of the panel, with and without ETags.

  An ETag names a version of a resource (section 8.8.3 of RFC 9110).  The panel
  answers If-None-Match with 304 only for the version it has now (sections 13.1.2 and
  15.4.5), and may send that version in full all the same.
 */
module Panel {
  import opened Accounts
  import opened Common

  /** adapter.NodeConfig; `listener` stands for everything but the speed limit. */
  datatype NodeConfig = NodeConfig(listener: string, speedLimit: nat)

  /** The body of /info: parseNodeConfig makes a config of it or fails. */
  datatype Info = Parsable(config: NodeConfig) | Unparsable(reason: string)

  /** An entry of /users as sent. */
  datatype Entry = Entry(id: int, speedLimit: nat, credential: string)

  /** An entry of /detect_rules; `compiles` says whether its expression is valid. */
  datatype RuleEntry = RuleEntry(id: int, kind: int, regex: string, compiles: bool)

  /** adapter.DetectRule. */
  datatype Rule = Rule(id: int, kind: int, regex: string)

  /** What becomes of one GET: the version the panel has, or how it goes wrong. */
  datatype Answer<T> =
    | Served(body: T, tag: string, full: bool)
    | Garbled(tag: string)
    | Unavailable
    | Failed

  datatype Got<T> = NotModified | Modified(body: T, tag: string) | Error(unavailable: bool)

  /** Client.get with `etag` for If-None-Match; an empty one is not sent. */
  function Get<T>(etag: string, answer: Answer<T>): Got<T> {
    match answer
    case Served(body, tag, full) => if etag != "" && etag == tag && !full then NotModified else Modified(body, tag)
    case Garbled(tag) => if etag != "" && etag == tag then NotModified else Error(false)
    case Unavailable => Error(true)
    case Failed => Error(false)
  }

  /** What a fetch leaves: the ETag for the next one, and what there is to apply. */
  datatype Fetched<T> = Fetched(etag: string, result: Option<T>)

  function InfoFetch(etag: string, answer: Answer<Info>): Fetched<NodeConfig> {
    match Get(etag, answer)
    case Modified(info, tag) => if info.Parsable? then Fetched(tag, Some(info.config)) else Fetched("", None)
    case _ => Fetched(etag, None)
  }

  /** The users of a list: entries without a positive ID are left out. */
  function Accepted(entries: seq<Entry>): seq<User> {
    if entries == [] then []
    else
      var e := entries[|entries| - 1];
      Accepted(entries[..|entries| - 1]) + (if e.id <= 0 then [] else [User(e.id, e.speedLimit, e.credential)])
  }

  /** A panel that will not serve this node asks for the empty list. */
  function UsersFetch(etag: string, answer: Answer<seq<Entry>>): Fetched<seq<User>> {
    match Get(etag, answer)
    case Modified(entries, tag) => Fetched(tag, Some(Accepted(entries)))
    case Error(unavailable) => if unavailable then Fetched("", Some([])) else Fetched(etag, None)
    case NotModified => Fetched(etag, None)
  }

  /** The rules of a list: entries that do not compile are left out. */
  function Compiled(entries: seq<RuleEntry>): seq<Rule> {
    if entries == [] then []
    else
      var e := entries[|entries| - 1];
      Compiled(entries[..|entries| - 1]) + (if e.compiles then [Rule(e.id, e.kind, e.regex)] else [])
  }

  function RulesFetch(etag: string, answer: Answer<seq<RuleEntry>>): Fetched<seq<Rule>> {
    match Get(etag, answer)
    case Modified(entries, tag) => Fetched(tag, Some(Compiled(entries)))
    case _ => Fetched(etag, None)
  }

  // ---------------------------------------------------------------- the lists

  /** Exactly the entries with a positive ID are served. */
  lemma {:induction false} AcceptedAre(entries: seq<Entry>, u: User)
    ensures u in Accepted(entries) <==> u.id > 0 && Entry(u.id, u.speedLimit, u.credential) in entries
  {
    if entries != [] {
      var n := |entries| - 1;
      AcceptedAre(entries[..n], u);
      assert entries == entries[..n] + [entries[n]];
    }
  }

  lemma {:induction false} CompiledAre(entries: seq<RuleEntry>, r: Rule)
    ensures r in Compiled(entries) <==> RuleEntry(r.id, r.kind, r.regex, true) in entries
  {
    if entries != [] {
      var n := |entries| - 1;
      CompiledAre(entries[..n], r);
      assert entries == entries[..n] + [entries[n]];
    }
  }

  /** Each entry makes one user or none. */
  lemma AcceptedOne(e: Entry)
    ensures Accepted([e]) == if e.id > 0 then [User(e.id, e.speedLimit, e.credential)] else []
  {
    assert [e][..0] == [];
  }

  lemma CompiledOne(e: RuleEntry)
    ensures Compiled([e]) == if e.compiles then [Rule(e.id, e.kind, e.regex)] else []
  {
    assert [e][..0] == [];
  }

  /** Filtering keeps the panel's order. */
  lemma {:induction false} AcceptedConcat(a: seq<Entry>, b: seq<Entry>)
    ensures Accepted(a + b) == Accepted(a) + Accepted(b)
  {
    if b == [] {
      assert a + b == a;
    } else {
      assert (a + b)[..|a + b| - 1] == a + b[..|b| - 1];
      AcceptedConcat(a, b[..|b| - 1]);
    }
  }

  lemma {:induction false} CompiledConcat(a: seq<RuleEntry>, b: seq<RuleEntry>)
    ensures Compiled(a + b) == Compiled(a) + Compiled(b)
  {
    if b == [] {
      assert a + b == a;
    } else {
      assert (a + b)[..|a + b| - 1] == a + b[..|b| - 1];
      CompiledConcat(a, b[..|b| - 1]);
    }
  }

  // ---------------------------------------------------------------- ETags

  /** Equal ETags mean equal content: the content is a function of the tag. */
  ghost predicate Honest<T>(book: string -> T, answer: Answer<T>) {
    answer.Served? && answer.tag != "" ==> answer.body == book(answer.tag)
  }

  /** A non-empty ETag names the version that is applied. */
  ghost predicate Names<T, U>(book: string -> T, etag: string, applied: Option<U>, content: T -> Option<U>) {
    etag != "" ==> applied.Some? && content(book(etag)) == applied
  }

  /** What a body is worth to the node. */
  function ConfigOf(info: Info): Option<NodeConfig> {
    if info.Parsable? then Some(info.config) else None
  }

  function UsersOf(entries: seq<Entry>): Option<seq<User>> {
    Some(Accepted(entries))
  }

  function RulesOf(entries: seq<RuleEntry>): Option<seq<Rule>> {
    Some(Compiled(entries))
  }

  /** What is applied after a fetch. */
  function Now<T>(applied: Option<T>, f: Fetched<T>): Option<T> {
    if f.result.Some? then f.result else applied
  }

  /** A conditional fetch leaves applied what a full one would, and the ETag names it. */
  lemma InfoRefines(book: string -> Info, etag: string, answer: Answer<Info>, applied: Option<NodeConfig>)
    requires Honest(book, answer) && Names(book, etag, applied, ConfigOf)
    ensures Now(applied, InfoFetch(etag, answer)) == Now(applied, InfoFetch("", answer))
    ensures Names(book, InfoFetch(etag, answer).etag, Now(applied, InfoFetch(etag, answer)), ConfigOf)
  {
  }

  lemma UsersRefine(book: string -> seq<Entry>, etag: string, answer: Answer<seq<Entry>>, applied: Option<seq<User>>)
    requires Honest(book, answer) && Names(book, etag, applied, UsersOf)
    ensures Now(applied, UsersFetch(etag, answer)) == Now(applied, UsersFetch("", answer))
    ensures Names(book, UsersFetch(etag, answer).etag, Now(applied, UsersFetch(etag, answer)), UsersOf)
  {
  }

  lemma RulesRefine(book: string -> seq<RuleEntry>, etag: string, answer: Answer<seq<RuleEntry>>,
                    applied: Option<seq<Rule>>)
    requires Honest(book, answer) && Names(book, etag, applied, RulesOf)
    ensures Now(applied, RulesFetch(etag, answer)) == Now(applied, RulesFetch("", answer))
    ensures Names(book, RulesFetch(etag, answer).etag, Now(applied, RulesFetch(etag, answer)), RulesOf)
  {
  }

  // ---------------------------------------------------------------- the client

  /** The three ETags, which one goroutine reads and writes. */
  class Client {
    var infoETag: string
    var usersETag: string
    var rulesETag: string

    constructor ()
      ensures infoETag == "" && usersETag == "" && rulesETag == ""
    {
      infoETag, usersETag, rulesETag := "", "", "";
    }

    method FetchNodeConfig(answer: Answer<Info>) returns (config: Option<NodeConfig>)
      modifies this`infoETag
      ensures Fetched(infoETag, config) == InfoFetch(old(infoETag), answer)
      ensures !answer.Served? ==> config.None? && infoETag == old(infoETag)
    {
      var got := Get(infoETag, answer);
      if !got.Modified? {
        return None;
      }
      infoETag := got.tag;
      if got.body.Unparsable? {
        infoETag := "";
        return None;
      }
      config := Some(got.body.config);
    }

    /** `unavailable` is ErrNodeUnavailable. */
    method FetchUsers(answer: Answer<seq<Entry>>) returns (users: Option<seq<User>>, unavailable: bool)
      modifies this`usersETag
      ensures Fetched(usersETag, if unavailable then Some([]) else users) == UsersFetch(old(usersETag), answer)
      ensures unavailable <==> answer.Unavailable?
      ensures !answer.Served? ==> users.None? && usersETag == if unavailable then "" else old(usersETag)
    {
      var got := Get(usersETag, answer);
      if got.Error? {
        if got.unavailable {
          usersETag := "";
        }
        return None, got.unavailable;
      }
      unavailable := false;
      if got.NotModified? {
        return None, false;
      }
      usersETag := got.tag;
      var list: seq<User> := [];
      for i := 0 to |got.body|
        invariant list == Accepted(got.body[..i])
      {
        var it := got.body[i];
        assert got.body[..i + 1][..i] == got.body[..i];
        if it.id > 0 {
          list := list + [User(it.id, it.speedLimit, it.credential)];
        }
      }
      assert got.body[..|got.body|] == got.body;
      users := Some(list);
    }

    method FetchDetectRules(answer: Answer<seq<RuleEntry>>) returns (rules: Option<seq<Rule>>)
      modifies this`rulesETag
      ensures Fetched(rulesETag, rules) == RulesFetch(old(rulesETag), answer)
      ensures !answer.Served? ==> rules.None? && rulesETag == old(rulesETag)
    {
      var got := Get(rulesETag, answer);
      if !got.Modified? {
        return None;
      }
      rulesETag := got.tag;
      var list: seq<Rule> := [];
      for i := 0 to |got.body|
        invariant list == Compiled(got.body[..i])
      {
        var it := got.body[i];
        assert got.body[..i + 1][..i] == got.body[..i];
        if it.compiles {
          list := list + [Rule(it.id, it.kind, it.regex)];
        }
      }
      assert got.body[..|got.body|] == got.body;
      rules := Some(list);
    }
  }
}
