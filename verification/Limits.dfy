/**
  common/limit: two buckets per user, one for each direction, which all its connections draw on.

  golang.org/x/time/rate is modelled exactly over the reals: a reservation takes its
  tokens at once, possibly leaving the bucket in debt, and is granted when the debt
  is paid off.
 */
module Limits {

  const MIN_BURST: nat := 65536
  const MAX_INT32: nat := 0x7fff_ffff

  /** The burst that goes with a rate. */
  function Burst(bytesPerSecond: nat): (burst: nat)
    ensures bytesPerSecond <= 65536 ==> burst == 65536
    ensures 65536 <= bytesPerSecond <= 0x7fff_ffff ==> burst == bytesPerSecond
    ensures bytesPerSecond >= 0x7fff_ffff ==> burst == 0x7fff_ffff
  {
    var atLeast := if bytesPerSecond < MIN_BURST then MIN_BURST else bytesPerSecond;
    if atLeast > MAX_INT32 then MAX_INT32 else atLeast
  }

  /** The fill of a rate.Limiter when it was last touched; negative while reservations wait. */
  datatype Bucket = Bucket(tokens: real, last: real)

  /** A request that may pass at `at`. */
  datatype Grant = Grant(at: real, bytes: nat)

  function Min(a: real, b: real): real {
    if a < b then a else b
  }

  function Debt(tokens: real): real {
    if tokens < 0.0 then -tokens else 0.0
  }

  /** The tokens a time is worth. */
  function Accrued(rate: nat, time: real): real {
    rate as real * time
  }

  /** rate.Limiter.advance: the tokens at `now`, never more than the burst. */
  function Advance(b: Bucket, rate: nat, burst: nat, now: real): real {
    Min(burst as real, b.tokens + Accrued(rate, now - b.last))
  }

  /** rate.Limiter.reserveN for a request of at most one burst. */
  function Reserve(b: Bucket, rate: nat, burst: nat, now: real, n: nat): (Bucket, Grant)
    requires rate > 0
  {
    var tokens := Advance(b, rate, burst, now) - n as real;
    (Bucket(tokens, now), Grant(now + Debt(tokens) / rate as real, n))
  }

  datatype Request = Request(now: real, bytes: nat)

  /** Requests of all connections of a user in one direction, in the order the bucket sees them. */
  ghost predicate Ordered(from: real, requests: seq<Request>) {
    && (forall i | 0 <= i < |requests| :: from <= requests[i].now)
    && (forall i, j | 0 <= i < j < |requests| :: requests[i].now <= requests[j].now)
  }

  ghost function Serve(b: Bucket, rate: nat, burst: nat, requests: seq<Request>): (grants: seq<Grant>)
    requires rate > 0
    ensures |grants| == |requests|
    ensures forall i | 0 <= i < |grants| :: grants[i].bytes == requests[i].bytes
    decreases |requests|
  {
    if requests == [] then []
    else
      var (b', g) := Reserve(b, rate, burst, requests[0].now, requests[0].bytes);
      [g] + Serve(b', rate, burst, requests[1..])
  }

  ghost function Sum(grants: seq<Grant>): nat {
    if grants == [] then 0 else grants[0].bytes + Sum(grants[1..])
  }

  /** The tokens left at the moment the last reservation is granted. */
  ghost function Left(b: Bucket): real {
    if b.tokens < 0.0 then 0.0 else b.tokens
  }

  ghost function GrantedAt(b: Bucket, rate: nat): real
    requires rate > 0
  {
    b.last + Debt(b.tokens) / rate as real
  }

  lemma AccruedSplits(rate: nat, x: real, y: real, z: real)
    ensures Accrued(rate, x + y - z) == Accrued(rate, x) + Accrued(rate, y) - Accrued(rate, z)
  {
  }

  lemma AccruedPays(rate: nat, debt: real)
    requires rate > 0
    ensures Accrued(rate, debt / rate as real) == debt
  {
  }

  lemma AccruedSign(rate: nat, time: real)
    requires rate > 0
    ensures time >= 0.0 <==> Accrued(rate, time) >= 0.0
  {
    if time < 0.0 {
      PositiveProduct(rate as real, -time);
      assert Accrued(rate, time) == -(rate as real * -time);
    } else if time > 0.0 {
      PositiveProduct(rate as real, time);
    }
  }

  lemma PositiveProduct(x: real, y: real)
    requires x > 0.0 && y > 0.0
    ensures x * y > 0.0
  {
  }

  /** The time between two grants, in tokens. */
  lemma BetweenGrants(b: Bucket, b': Bucket, rate: nat)
    requires rate > 0
    ensures Accrued(rate, GrantedAt(b', rate) - GrantedAt(b, rate))
            == Accrued(rate, b'.last - b.last) + Debt(b'.tokens) - Debt(b.tokens)
  {
    var x, y, z := b'.last - b.last, Debt(b'.tokens) / rate as real, Debt(b.tokens) / rate as real;
    assert GrantedAt(b', rate) - GrantedAt(b, rate) == x + y - z;
    AccruedSplits(rate, x, y, z);
    AccruedPays(rate, Debt(b.tokens));
    AccruedPays(rate, Debt(b'.tokens));
  }

  /** Tokens accrue at the rate from one grant to the next, and each grant spends its own. */
  lemma ReserveStep(b: Bucket, rate: nat, burst: nat, now: real, n: nat)
    requires rate > 0 && b.last <= now && n <= burst
    ensures var (b', g) := Reserve(b, rate, burst, now, n);
            && g.at == GrantedAt(b', rate)
            && Left(b') + n as real <= Left(b) + Accrued(rate, g.at - GrantedAt(b, rate))
            && Left(b') + n as real <= burst as real
            && GrantedAt(b, rate) <= g.at
            && b'.tokens <= burst as real
  {
    var b' := Reserve(b, rate, burst, now, n).0;
    BetweenGrants(b, b', rate);
    AccruedSign(rate, now - b.last);
    AccruedSign(rate, GrantedAt(b', rate) - GrantedAt(b, rate));
  }

  // ---------------------------------------------------------------- what the bucket holds

  /** A request the fill covers passes at once; any other one when the rate has made up for what is missing. */
  lemma GrantIs(b: Bucket, rate: nat, burst: nat, now: real, n: nat)
    requires rate > 0 && n <= burst
    ensures var (b', g) := Reserve(b, rate, burst, now, n);
            var fill := Min(burst as real, b.tokens + Accrued(rate, now - b.last));
            && b' == Bucket(fill - n as real, now) && g.bytes == n
            && (fill >= n as real ==> g.at == now)
            && (fill < n as real ==> Accrued(rate, g.at - now) == n as real - fill)
  {
    var debt := Debt(Advance(b, rate, burst, now) - n as real);
    AccruedPays(rate, debt);
    assert Reserve(b, rate, burst, now, n).1.at - now == debt / rate as real;
  }

  /** What the requests from the `j`-th on ask for. */
  ghost function Asked(requests: seq<Request>, j: nat): nat {
    if |requests| <= j then 0 else Asked(requests[..|requests| - 1], j) + requests[|requests| - 1].bytes
  }

  /** The fill after `requests`, had the bucket been full at the `j`-th of them and never since. */
  ghost function SinceFull(rate: nat, burst: nat, requests: seq<Request>, j: nat): real
    requires j < |requests|
  {
    burst as real + Accrued(rate, requests[|requests| - 1].now - requests[j].now) - Asked(requests, j) as real
  }

  /** The fill after `requests`, had the bucket never been full. */
  ghost function NeverFull(b: Bucket, rate: nat, requests: seq<Request>): real
    requires requests != []
  {
    b.tokens + Accrued(rate, requests[|requests| - 1].now - b.last) - Asked(requests, 0) as real
  }

  lemma AskedSnoc(requests: seq<Request>, r: Request, j: nat)
    ensures j <= |requests| ==> Asked(requests + [r], j) == Asked(requests, j) + r.bytes
  {
    assert (requests + [r])[..|requests|] == requests;
  }

  lemma SinceFullSnoc(rate: nat, burst: nat, requests: seq<Request>, r: Request, j: nat)
    requires j < |requests|
    ensures SinceFull(rate, burst, requests + [r], j)
            == SinceFull(rate, burst, requests, j) + Accrued(rate, r.now - requests[|requests| - 1].now)
               - r.bytes as real
  {
    AskedSnoc(requests, r, j);
    var last := requests[|requests| - 1].now;
    AccruedSplits(rate, r.now - last, last - requests[j].now, 0.0);
  }

  lemma NeverFullSnoc(b: Bucket, rate: nat, requests: seq<Request>, r: Request)
    requires requests != []
    ensures NeverFull(b, rate, requests + [r])
            == NeverFull(b, rate, requests) + Accrued(rate, r.now - requests[|requests| - 1].now) - r.bytes as real
  {
    AskedSnoc(requests, r, 0);
    var last := requests[|requests| - 1].now;
    AccruedSplits(rate, r.now - last, last - b.last, 0.0);
  }

  /** `tokens` is the least of the fills above. */
  ghost predicate Least(b: Bucket, rate: nat, burst: nat, requests: seq<Request>, tokens: real)
    requires requests != []
  {
    && tokens <= NeverFull(b, rate, requests)
    && (forall j | 0 <= j < |requests| :: tokens <= SinceFull(rate, burst, requests, j))
    && (|| tokens == NeverFull(b, rate, requests)
        || exists j | 0 <= j < |requests| :: tokens == SinceFull(rate, burst, requests, j))
  }

  lemma LeastOfOne(b: Bucket, rate: nat, burst: nat, r: Request)
    ensures Least(b, rate, burst, [r], Advance(b, rate, burst, r.now) - r.bytes as real)
  {
    AskedSnoc([], r, 0);
    assert [] + [r] == [r];
    assert SinceFull(rate, burst, [r], 0) == burst as real - r.bytes as real;
  }

  lemma LeastSnoc(b: Bucket, rate: nat, burst: nat, front: seq<Request>, r: Request, tokens: real)
    requires front != [] && Least(b, rate, burst, front, tokens)
    ensures var more := Accrued(rate, r.now - front[|front| - 1].now);
            Least(b, rate, burst, front + [r], Min(burst as real, tokens + more) - r.bytes as real)
  {
    var n, requests := |front|, front + [r];
    NeverFullSnoc(b, rate, front, r);
    AskedSnoc(front, r, n);
    assert SinceFull(rate, burst, requests, n) == burst as real - r.bytes as real;
    forall j | 0 <= j < n
      ensures SinceFull(rate, burst, requests, j)
              == SinceFull(rate, burst, front, j) + Accrued(rate, r.now - front[n - 1].now) - r.bytes as real
    {
      SinceFullSnoc(rate, burst, front, r, j);
    }
    if tokens != NeverFull(b, rate, front) {
      var j :| 0 <= j < n && tokens == SinceFull(rate, burst, front, j);
      assert j < |requests|;
    }
  }

  /**
    What any requests leave in a bucket is the least of what they leave in one that was
    full at one of them, and of what they leave in one that was never full.
   */
  lemma {:induction false} FillIsLeast(b: Bucket, rate: nat, burst: nat, requests: seq<Request>)
    requires rate > 0 && requests != []
    ensures Fill(b, rate, burst, requests).last == requests[|requests| - 1].now
    ensures Least(b, rate, burst, requests, Fill(b, rate, burst, requests).tokens)
    decreases |requests|
  {
    var n := |requests| - 1;
    var front, r := requests[..n], requests[n];
    assert requests == front + [r];
    ServeSnoc(b, rate, burst, front, r);
    if n == 0 {
      assert front == [] && requests == [r];
      LeastOfOne(b, rate, burst, r);
    } else {
      FillIsLeast(b, rate, burst, front);
      LeastSnoc(b, rate, burst, front, r, Fill(b, rate, burst, front).tokens);
    }
  }

  // ---------------------------------------------------------------- any window

  /** Bytes granted at a time in [from, to]. */
  ghost function InWindow(grants: seq<Grant>, from: real, to: real): nat {
    if grants == [] then 0
    else (if from <= grants[0].at <= to then grants[0].bytes else 0) + InWindow(grants[1..], from, to)
  }

  ghost predicate Requested(b: Bucket, burst: nat, requests: seq<Request>) {
    && Ordered(b.last, requests)
    && (forall i | 0 <= i < |requests| :: requests[i].bytes <= burst)
  }

  lemma AccruedOrder(rate: nat, a: real, b: real)
    requires rate > 0
    ensures a <= b <==> Accrued(rate, a) <= Accrued(rate, b)
    ensures Accrued(rate, b - a) == Accrued(rate, b) - Accrued(rate, a)
  {
    AccruedSplits(rate, b, 0.0, a);
    AccruedSign(rate, b - a);
  }

  /** A grant: what it left in the bucket, when it came in tokens accrued by then, and its size. */
  datatype Mark = Mark(left: real, credit: real, bytes: nat)

  /** `m'` may follow `m`: it comes no earlier and is paid by what was left and what accrued since. */
  ghost predicate Follows(m: Mark, m': Mark, burst: nat) {
    && m.credit <= m'.credit && 0.0 <= m'.left
    && m'.left + m'.bytes as real <= m.left + m'.credit - m.credit
    && m'.left + m'.bytes as real <= burst as real
  }

  ghost predicate Paced(m: Mark, marks: seq<Mark>, burst: nat)
    decreases |marks|
  {
    if marks == [] then true else Follows(m, marks[0], burst) && Paced(marks[0], marks[1..], burst)
  }

  ghost function Passed(marks: seq<Mark>, from: real, to: real): nat {
    if marks == [] then 0
    else (if from <= marks[0].credit <= to then marks[0].bytes else 0) + Passed(marks[1..], from, to)
  }

  /** After a grant, what later grants pass by `to` is what was left plus what accrued. */
  lemma {:induction false} AfterGrant(m: Mark, marks: seq<Mark>, burst: nat, from: real, to: real)
    requires Paced(m, marks, burst) && from <= m.credit && 0.0 <= m.left
    ensures if m.credit <= to then Passed(marks, from, to) as real <= m.left + to - m.credit
            else Passed(marks, from, to) == 0
    decreases |marks|
  {
    if marks != [] {
      AfterGrant(marks[0], marks[1..], burst, from, to);
    }
  }

  lemma {:induction false} PacedWindow(m: Mark, marks: seq<Mark>, burst: nat, from: real, to: real)
    requires Paced(m, marks, burst) && from <= to
    ensures Passed(marks, from, to) as real <= burst as real + to - from
    decreases |marks|
  {
    if marks != [] {
      if from <= marks[0].credit <= to {
        AfterGrant(marks[0], marks[1..], burst, from, to);
      } else {
        PacedWindow(marks[0], marks[1..], burst, from, to);
      }
    }
  }

  ghost function MarkOf(b: Bucket, rate: nat, bytes: nat): Mark
    requires rate > 0
  {
    Mark(Left(b), Accrued(rate, GrantedAt(b, rate)), bytes)
  }

  ghost function Marks(b: Bucket, rate: nat, burst: nat, requests: seq<Request>): seq<Mark>
    requires rate > 0
    decreases |requests|
  {
    if requests == [] then []
    else
      var b' := Reserve(b, rate, burst, requests[0].now, requests[0].bytes).0;
      [MarkOf(b', rate, requests[0].bytes)] + Marks(b', rate, burst, requests[1..])
  }

  lemma ReserveFollows(b: Bucket, rate: nat, burst: nat, now: real, n: nat, before: nat)
    requires rate > 0 && b.last <= now && n <= burst
    ensures var b' := Reserve(b, rate, burst, now, n).0;
            Follows(MarkOf(b, rate, before), MarkOf(b', rate, n), burst) && b'.last == now
  {
    var b' := Reserve(b, rate, burst, now, n).0;
    ReserveStep(b, rate, burst, now, n);
    AccruedOrder(rate, GrantedAt(b, rate), GrantedAt(b', rate));
  }

  lemma {:induction false} BucketPaces(b: Bucket, rate: nat, burst: nat, requests: seq<Request>, before: nat)
    requires rate > 0 && Requested(b, burst, requests)
    ensures Paced(MarkOf(b, rate, before), Marks(b, rate, burst, requests), burst)
    decreases |requests|
  {
    if requests != [] {
      var n := requests[0].bytes;
      var b' := Reserve(b, rate, burst, requests[0].now, n).0;
      ReserveFollows(b, rate, burst, requests[0].now, n, before);
      BucketPaces(b', rate, burst, requests[1..], n);
      assert Marks(b, rate, burst, requests)[1..] == Marks(b', rate, burst, requests[1..]);
    }
  }

  lemma {:induction false} SamePassed(b: Bucket, rate: nat, burst: nat, requests: seq<Request>, from: real, to: real)
    requires rate > 0
    ensures InWindow(Serve(b, rate, burst, requests), from, to)
            == Passed(Marks(b, rate, burst, requests), Accrued(rate, from), Accrued(rate, to))
    decreases |requests|
  {
    if requests != [] {
      var (b', g) := Reserve(b, rate, burst, requests[0].now, requests[0].bytes);
      assert g.at == GrantedAt(b', rate);
      AccruedOrder(rate, from, g.at);
      AccruedOrder(rate, g.at, to);
      SamePassed(b', rate, burst, requests[1..], from, to);
      assert Serve(b, rate, burst, requests)[1..] == Serve(b', rate, burst, requests[1..]);
      assert Marks(b, rate, burst, requests)[1..] == Marks(b', rate, burst, requests[1..]);
    }
  }

  /**
    At a fixed rate, what all connections of a user pass in one direction within any
    window is at most the burst plus the rate times the length of the window.
   */
  lemma {:induction false} WindowBound(b: Bucket, rate: nat, burst: nat, requests: seq<Request>, from: real, to: real)
    requires rate > 0 && Requested(b, burst, requests) && from <= to
    ensures InWindow(Serve(b, rate, burst, requests), from, to) as real <= burst as real + Accrued(rate, to - from)
  {
    BucketPaces(b, rate, burst, requests, 0);
    SamePassed(b, rate, burst, requests, from, to);
    AccruedOrder(rate, from, to);
    PacedWindow(MarkOf(b, rate, 0), Marks(b, rate, burst, requests), burst, Accrued(rate, from), Accrued(rate, to));
  }

  // ---------------------------------------------------------------- the limiter

  datatype Direction = Upload | Download

  /**
    What a connection's context does to one WaitN: lets it through, refuses it, or
    ends while it waits and leaves the bucket with what it gives back.
   */
  datatype Context = Live | Done | Ends(left: Bucket)

  /** Whole bursts, but for the chunk after which nothing is left. */
  ghost predicate Chunked(grants: seq<Grant>, burst: nat, left: int) {
    forall k | 0 <= k < |grants| && (left > 0 || k < |grants| - 1) :: grants[k].bytes == burst
  }

  lemma ChunkedSnoc(grants: seq<Grant>, g: Grant, burst: nat, left: nat, chunk: nat)
    requires Chunked(grants, burst, left) && 0 < left && chunk == (if left < burst then left else burst)
    requires g.bytes == chunk
    ensures Chunked(grants + [g], burst, left - chunk)
  {
  }

  lemma {:induction false} SumSnoc(grants: seq<Grant>, g: Grant)
    ensures Sum(grants + [g]) == Sum(grants) + g.bytes
  {
    if grants != [] {
      assert (grants + [g])[1..] == grants[1..] + [g];
      SumSnoc(grants[1..], g);
    }
  }

  /**
    limit.Limiter.  Its two rate.Limiters are always given the same limit and burst,
    kept once here; what is left in each is separate.
   */
  class Limiter {
    var limit: nat
    var burst: nat
    var upload: Bucket
    var download: Bucket
    /** Which user state it was made for. */
    ghost const owner: nat

    ghost predicate Valid()
      reads this`limit, this`burst
    {
      limit > 0 && burst == Burst(limit)
    }

    constructor (bytesPerSecond: nat, now: real, ghost owner: nat)
      requires bytesPerSecond > 0
      ensures Valid() && limit == bytesPerSecond && this.owner == owner
      ensures upload == Bucket(Burst(bytesPerSecond) as real, now) && download == upload
    {
      limit, this.owner := bytesPerSecond, owner;
      burst := Burst(bytesPerSecond);
      upload := Bucket(Burst(bytesPerSecond) as real, now);
      download := Bucket(Burst(bytesPerSecond) as real, now);
    }

    /** Both buckets are brought up to `now` at the old rate, and go on from there at the new one. */
    method SetLimit(bytesPerSecond: nat, now: real)
      requires Valid() && bytesPerSecond > 0
      modifies this
      ensures Valid() && limit == bytesPerSecond
      ensures upload == Bucket(Advance(old(upload), old(limit), old(burst), now), now)
      ensures download == Bucket(Advance(old(download), old(limit), old(burst), now), now)
    {
      upload := Bucket(Advance(upload, limit, burst, now), now);
      download := Bucket(Advance(download, limit, burst, now), now);
      limit, burst := bytesPerSecond, Burst(bytesPerSecond);
    }

    function Of(direction: Direction): Bucket
      reads this
    {
      if direction.Upload? then upload else download
    }

    method SetBucket(direction: Direction, bucket: Bucket)
      modifies this`upload, this`download
      ensures Of(direction) == bucket && Other(direction) == old(Other(direction))
    {
      if direction.Upload? {
        upload := bucket;
      } else {
        download := bucket;
      }
    }

    function Other(direction: Direction): Bucket
      reads this
    {
      if direction.Upload? then download else upload
    }

    /**
      rate.Limiter.WaitN on one direction, for at most one burst.  A context that is
      done takes nothing; one that ends during the wait gives its tokens back.
     */
    method WaitN(direction: Direction, n: nat, now: real, context: Context) returns (ok: bool, grant: Grant)
      requires Valid() && n <= burst
      modifies this`upload, this`download
      ensures ok == context.Live? && Other(direction) == old(Other(direction))
      ensures ok ==> (Of(direction), grant) == Reserve(old(Of(direction)), limit, burst, now, n)
      ensures context.Done? ==> Of(direction) == old(Of(direction))
      ensures context.Ends? ==> Of(direction) == context.left
    {
      var (bucket, g) := Reserve(Of(direction), limit, burst, now, n);
      ok, grant := context.Live?, g;
      if ok {
        SetBucket(direction, bucket);
      } else if context.Ends? {
        SetBucket(direction, context.left);
      }
    }

    /** `requests`, all granted, took the bucket from `start` to where it is. */
    ghost predicate Waited(direction: Direction, start: Bucket, requests: seq<Request>, grants: seq<Grant>,
                           clock: nat -> real)
      requires limit > 0
      reads this
    {
      && |requests| == |grants| && grants == Serve(start, limit, burst, requests)
      && Of(direction) == Fill(start, limit, burst, requests)
      && (forall k | 0 <= k < |grants| :: 1 <= grants[k].bytes <= burst)
      && (forall k | 0 <= k < |requests| :: requests[k].now == clock(k))
    }

    /** One turn of the loop: waits for one chunk. */
    method WaitChunk(direction: Direction, chunk: nat, clock: nat -> real, context: Context,
                     ghost start: Bucket, ghost requests: seq<Request>, grants: seq<Grant>)
      returns (ok: bool, g: Grant, ghost requests': seq<Request>, grants': seq<Grant>)
      requires Valid() && 1 <= chunk <= burst && Waited(direction, start, requests, grants, clock)
      modifies this`upload, this`download
      ensures ok == context.Live? && Other(direction) == old(Other(direction))
      ensures ok ==> Waited(direction, start, requests', grants', clock)
      ensures ok ==> grants' == grants + [g] && g.bytes == chunk
      ensures !ok ==> requests' == requests && grants' == grants
    {
      var now := clock(|grants|);
      ok, g := WaitN(direction, chunk, now, context);
      requests', grants' := requests, grants;
      if ok {
        ServeSnoc(start, limit, burst, requests, Request(now, chunk));
        requests', grants' := requests + [Request(now, chunk)], grants + [g];
      }
    }

    /**
      Takes `n` bytes out of a bucket in chunks.  `clock(k)` is the time of the k-th WaitN and
      `context(k)` what the connection's context does to it.
     */
    method Wait(direction: Direction, n: nat, clock: nat -> real, context: nat -> Context)
      returns (ok: bool, ghost requests: seq<Request>, grants: seq<Grant>)
      requires Valid()
      modifies this`upload, this`download
      ensures Other(direction) == old(Other(direction))
      ensures forall k | 0 <= k < |grants| :: 1 <= grants[k].bytes <= burst
      ensures ok ==> Sum(grants) == n && Of(direction) == Fill(old(Of(direction)), limit, burst, requests)
      ensures !ok ==> Sum(grants) < n && !context(|grants|).Live?
      ensures grants == Serve(old(Of(direction)), limit, burst, requests)
      ensures forall k | 0 <= k < |requests| :: requests[k].now == clock(k)
      ensures Chunked(grants, burst, n - Sum(grants))
    {
      var left := n;
      grants, requests := [], [];
      ok := true;
      ghost var start := Of(direction);
      while left > 0
        invariant 0 <= left <= n && Sum(grants) == n - left && Other(direction) == old(Other(direction))
        invariant Waited(direction, start, requests, grants, clock)
        invariant Chunked(grants, burst, left)
        decreases left
      {
        var chunk := if left < burst then left else burst;
        ghost var before := grants;
        var g;
        ok, g, requests, grants := WaitChunk(direction, chunk, clock, context(|grants|), start, requests, grants);
        if !ok {
          return;
        }
        SumSnoc(before, g);
        ChunkedSnoc(before, g, burst, left, chunk);
        left := left - chunk;
      }
    }
  }

  /** The bucket after `requests`. */
  ghost function Fill(b: Bucket, rate: nat, burst: nat, requests: seq<Request>): Bucket
    requires rate > 0
    decreases |requests|
  {
    if requests == [] then b
    else Fill(Reserve(b, rate, burst, requests[0].now, requests[0].bytes).0, rate, burst, requests[1..])
  }

  lemma {:induction false} ServeSnoc(b: Bucket, rate: nat, burst: nat, requests: seq<Request>, r: Request)
    requires rate > 0
    ensures var (b', g) := Reserve(Fill(b, rate, burst, requests), rate, burst, r.now, r.bytes);
            && Serve(b, rate, burst, requests + [r]) == Serve(b, rate, burst, requests) + [g]
            && Fill(b, rate, burst, requests + [r]) == b'
    decreases |requests|
  {
    if requests == [] {
      assert requests + [r] == [r];
    } else {
      assert (requests + [r])[1..] == requests[1..] + [r];
      ServeSnoc(Reserve(b, rate, burst, requests[0].now, requests[0].bytes).0, rate, burst, requests[1..], r);
    }
  }

  /** Each request passes as soon as what it and the requests before it overdrew is made up for. */
  lemma {:induction false} ServesWhenPaid(b: Bucket, rate: nat, burst: nat, requests: seq<Request>, k: nat)
    requires rate > 0 && k < |requests|
    ensures var g, end := Serve(b, rate, burst, requests)[k], Fill(b, rate, burst, requests[..k + 1]);
            && g.bytes == requests[k].bytes
            && (end.tokens >= 0.0 ==> g.at == requests[k].now)
            && (end.tokens < 0.0 ==> Accrued(rate, g.at - requests[k].now) == -end.tokens)
  {
    var n := |requests| - 1;
    var front, r := requests[..n], requests[n];
    assert requests == front + [r];
    ServeSnoc(b, rate, burst, front, r);
    if k == n {
      assert requests[..k + 1] == requests;
      PaidAt(Fill(b, rate, burst, front), rate, burst, r);
    } else {
      assert requests[..k + 1] == front[..k + 1];
      ServesWhenPaid(b, rate, burst, front, k);
    }
  }

  lemma PaidAt(b: Bucket, rate: nat, burst: nat, r: Request)
    requires rate > 0
    ensures var (b', g) := Reserve(b, rate, burst, r.now, r.bytes);
            && (b'.tokens >= 0.0 ==> g.at == r.now)
            && (b'.tokens < 0.0 ==> Accrued(rate, g.at - r.now) == -b'.tokens)
  {
    var (b', g) := Reserve(b, rate, burst, r.now, r.bytes);
    AccruedPays(rate, Debt(b'.tokens));
    assert g.at - r.now == Debt(b'.tokens) / rate as real;
  }
}
