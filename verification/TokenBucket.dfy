/** The token-bucket rate limiter: a Lua script on one Redis key per caller, and its
in-memory copy.

Token counts and times are exact reals.  The script writes its bucket only when it
accepts, and Redis may drop a bucket once it is older than its TTL; the in-memory copy
never drops one.  A request therefore carries a flag saying whether a bucket that may
have been dropped has been.
*/
module TokenBucket {
  import opened Wrappers

  datatype Bucket = Bucket(tokens: real, last: real)

  datatype Request = Request(at: real, dropped: bool)

  function Min(a: real, b: real): real {
    if a <= b then a else b
  }

  function Ceil(x: real): int {
    -((-x).Floor)
  }

  /** The limits a limiter can be built with; the source takes positive integers. */
  predicate Limits(burst: real, rate: real) {
    burst >= 1.0 && rate > 0.0
  }

  /** The EX argument of the script, in seconds. */
  function Ttl(burst: real, rate: real): int
    requires rate > 0.0
  {
    Ceil(burst / rate) * 2
  }

  function Visible(burst: real, rate: real, b: Option<Bucket>, r: Request): Option<Bucket>
    requires rate > 0.0
  {
    if b.Some? && r.dropped && r.at >= b.value.last + Ttl(burst, rate) as real then None else b
  }

  /** The tokens the script works with. */
  function Refilled(burst: real, rate: real, b: Option<Bucket>, at: real): real {
    if b.None? then burst
    else
      var elapsed := if at > b.value.last then at - b.value.last else 0.0;
      Min(burst, b.value.tokens + elapsed * rate)
  }

  function Tokens(burst: real, rate: real, b: Option<Bucket>, r: Request): real
    requires rate > 0.0
  {
    Refilled(burst, rate, Visible(burst, rate, b, r), r.at)
  }

  function Accepts(burst: real, rate: real, b: Option<Bucket>, r: Request): bool
    requires rate > 0.0
  {
    Tokens(burst, rate, b, r) >= 1.0
  }

  function WaitSecs(burst: real, rate: real, b: Option<Bucket>, r: Request): int
    requires rate > 0.0
  {
    Ceil((1.0 - Tokens(burst, rate, b, r)) / rate)
  }

  function Stored(burst: real, rate: real, b: Option<Bucket>, r: Request): Option<Bucket>
    requires rate > 0.0
  {
    if Accepts(burst, rate, b, r) then Some(Bucket(Tokens(burst, rate, b, r) - 1.0, r.at))
    else Visible(burst, rate, b, r)
  }

  class RateLimiter {
    const burst: nat
    const rate: nat
    var buckets: map<int, Bucket>

    constructor (burst: nat, rate: nat)
      ensures this.burst == burst && this.rate == rate && buckets == map[]
    {
      this.burst, this.rate := burst, rate;
      buckets := map[];
    }

    /** A limiter with a zero limit is refused. */
    static method New(burst: nat, rate: nat) returns (limiter: RateLimiter?)
      ensures limiter == null <==> burst == 0 || rate == 0
      ensures limiter != null ==> fresh(limiter) && limiter.burst == burst && limiter.rate == rate && limiter.buckets == map[]
    {
      if burst == 0 || rate == 0 {
        return null;
      }
      limiter := new RateLimiter(burst, rate);
    }

    function Find(key: int): Option<Bucket>
      reads this
    {
      if key in buckets then Some(buckets[key]) else None
    }

    method Check(key: int, r: Request) returns (accepted: bool, wait: int)
      requires burst > 0 && rate > 0
      modifies this
      ensures accepted == Accepts(burst as real, rate as real, old(Find(key)), r)
      ensures !accepted ==> wait == WaitSecs(burst as real, rate as real, old(Find(key)), r)
      ensures Find(key) == Stored(burst as real, rate as real, old(Find(key)), r)
      ensures forall other | other != key :: Find(other) == old(Find(other))
    {
      var full, perSec := burst as real, rate as real;
      if key in buckets && r.dropped && r.at >= buckets[key].last + Ttl(full, perSec) as real {
        buckets := buckets - {key};
      }
      var tokens, lastRefill := full, r.at;
      if key in buckets {
        tokens, lastRefill := buckets[key].tokens, buckets[key].last;
      }
      var elapsed := if r.at - lastRefill > 0.0 then r.at - lastRefill else 0.0;
      tokens := Min(full, tokens + elapsed * perSec);
      FullStaysFull(full, perSec);
      assert tokens == Tokens(full, perSec, old(Find(key)), r);
      if tokens >= 1.0 {
        tokens := tokens - 1.0;
        buckets := buckets[key := Bucket(tokens, r.at)];
        return true, 0;
      }
      return false, Ceil((1.0 - tokens) / perSec);
    }
  }

  lemma FullStaysFull(full: real, perSec: real)
    ensures Min(full, full + 0.0 * perSec) == full
  {
  }

  // ---- traces ------------------------------------------------------------

  predicate Ordered(trace: seq<Request>) {
    forall i, j | 0 <= i < j < |trace| :: trace[i].at <= trace[j].at
  }

  function Decisions(burst: real, rate: real, b: Option<Bucket>, trace: seq<Request>): (d: seq<bool>)
    requires rate > 0.0
    ensures |d| == |trace|
    decreases |trace|
  {
    if trace == [] then []
    else [Accepts(burst, rate, b, trace[0])] + Decisions(burst, rate, Stored(burst, rate, b, trace[0]), trace[1..])
  }

  /** The reference: a level that is refilled all the time and kept forever. */
  datatype Eager = Eager(level: real, at: real)

  function Level(burst: real, rate: real, e: Eager, at: real): real {
    Min(burst, e.level + (at - e.at) * rate)
  }

  function EagerNext(burst: real, rate: real, e: Eager, at: real): Eager {
    var level := Level(burst, rate, e, at);
    Eager(if level >= 1.0 then level - 1.0 else level, at)
  }

  function EagerDecisions(burst: real, rate: real, e: Eager, trace: seq<Request>): (d: seq<bool>)
    ensures |d| == |trace|
    decreases |trace|
  {
    if trace == [] then []
    else [Level(burst, rate, e, trace[0].at) >= 1.0] + EagerDecisions(burst, rate, EagerNext(burst, rate, e, trace[0].at), trace[1..])
  }

  /** The stored bucket stands for this level. */
  predicate Represents(burst: real, rate: real, b: Option<Bucket>, e: Eager) {
    && 0.0 <= e.level <= burst
    && (b.None? ==> e.level == burst)
    && (b.Some? ==>
      && 0.0 <= b.value.tokens <= burst && b.value.last <= e.at
      && e.level == Min(burst, b.value.tokens + (e.at - b.value.last) * rate))
  }

  lemma CeilBounds(x: real)
    ensures Ceil(x) as real - 1.0 < x <= Ceil(x) as real
  {
  }

  /** A bucket older than its TTL would have been full anyway. */
  lemma TtlFillsBucket(burst: real, rate: real, elapsed: real)
    requires Limits(burst, rate) && elapsed >= Ttl(burst, rate) as real
    ensures elapsed * rate >= burst
  {
    var x := burst / rate;
    CeilBounds(x);
    assert x * rate == burst;
    assert elapsed >= x by {
      assert x > 0.0;
      assert Ttl(burst, rate) as real == Ceil(x) as real * 2.0;
    }
    MulMono(x, elapsed, rate);
  }

  lemma MulSum(x: real, y: real, z: real)
    ensures (x + y) * z == x * z + y * z
  {
  }

  lemma NonNegativeProduct(x: real, y: real)
    requires x >= 0.0 && y >= 0.0
    ensures x * y >= 0.0
  {
  }

  lemma MulLess(x: real, y: real, z: real)
    requires x < y && z > 0.0
    ensures x * z < y * z
  {
  }

  lemma MulMono(x: real, y: real, z: real)
    requires x <= y && z >= 0.0
    ensures x * z <= y * z
  {
  }

  /** Capping a refill half way does not change the capped total. */
  lemma CapTwice(burst: real, tokens: real, early: real, late: real, rate: real)
    requires rate > 0.0 && late >= 0.0
    ensures Min(burst, Min(burst, tokens + early * rate) + late * rate) == Min(burst, tokens + (early + late) * rate)
  {
    MulMono(0.0, late, rate);
    MulSum(early, late, rate);
  }

  lemma KeptBucketRefills(burst: real, rate: real, b: Bucket, e: Eager, at: real)
    requires Limits(burst, rate) && Represents(burst, rate, Some(b), e) && e.at <= at
    ensures Refilled(burst, rate, Some(b), at) == Level(burst, rate, e, at) == Min(burst, b.tokens + (at - b.last) * rate)
  {
    CapTwice(burst, b.tokens, e.at - b.last, at - e.at, rate);
    assert (e.at - b.last) + (at - e.at) == at - b.last;
  }

  lemma TokensAreLevel(burst: real, rate: real, b: Option<Bucket>, e: Eager, r: Request)
    requires Limits(burst, rate) && Represents(burst, rate, b, e) && e.at <= r.at
    ensures Tokens(burst, rate, b, r) == Level(burst, rate, e, r.at)
  {
    if b.None? {
      MulMono(0.0, r.at - e.at, rate);
    } else {
      KeptBucketRefills(burst, rate, b.value, e, r.at);
      if Visible(burst, rate, b, r).None? {
        TtlFillsBucket(burst, rate, r.at - b.value.last);
      }
    }
  }

  lemma LevelGrows(burst: real, rate: real, e: Eager, at: real)
    requires Limits(burst, rate) && e.level >= 0.0 && e.at <= at
    ensures 0.0 <= Level(burst, rate, e, at) <= burst
    ensures EagerNext(burst, rate, e, at).level >= 0.0
  {
    MulMono(0.0, at - e.at, rate);
  }

  lemma StepRepresents(burst: real, rate: real, b: Option<Bucket>, e: Eager, r: Request)
    requires Limits(burst, rate) && Represents(burst, rate, b, e) && e.at <= r.at
    ensures Represents(burst, rate, Stored(burst, rate, b, r), EagerNext(burst, rate, e, r.at))
  {
    TokensAreLevel(burst, rate, b, e, r);
    LevelGrows(burst, rate, e, r.at);
    if Accepts(burst, rate, b, r) {
      assert (r.at - r.at) * rate == 0.0;
    } else {
      assert Visible(burst, rate, b, r) == b && b.Some?;
    }
  }

  /** The lazily written, expiring bucket decides every trace as the eager one does. */
  lemma {:induction false} SameDecisions(burst: real, rate: real, b: Option<Bucket>, e: Eager, trace: seq<Request>)
    requires Limits(burst, rate) && Represents(burst, rate, b, e) && Ordered(trace)
    requires trace != [] ==> e.at <= trace[0].at
    ensures Decisions(burst, rate, b, trace) == EagerDecisions(burst, rate, e, trace)
    decreases |trace|
  {
    if trace != [] {
      TokensAreLevel(burst, rate, b, e, trace[0]);
      StepRepresents(burst, rate, b, e, trace[0]);
      SameDecisions(burst, rate, Stored(burst, rate, b, trace[0]), EagerNext(burst, rate, e, trace[0].at), trace[1..]);
    }
  }

  // ---- the bound ---------------------------------------------------------

  function Count(d: seq<bool>): nat {
    if d == [] then 0 else (if d[0] then 1 else 0) + Count(d[1..])
  }

  lemma CountOneMore(burst: real, rate: real, e: Eager, trace: seq<Request>)
    requires trace != []
    ensures Count(EagerDecisions(burst, rate, e, trace)) ==
      (if Level(burst, rate, e, trace[0].at) >= 1.0 then 1 else 0)
      + Count(EagerDecisions(burst, rate, EagerNext(burst, rate, e, trace[0].at), trace[1..]))
  {
    var rest := EagerDecisions(burst, rate, EagerNext(burst, rate, e, trace[0].at), trace[1..]);
    assert EagerDecisions(burst, rate, e, trace)[1..] == rest;
  }

  /** What two neighbouring requests pay together, as a statement about numbers. */
  lemma PayForOneMore(level: real, nextLevel: real, gap: real, tail: real, span: real, rate: real, count: int)
    requires span == gap + tail
    requires count as real <= nextLevel + tail * rate
    requires nextLevel <= (if level >= 1.0 then level - 1.0 else level) + gap * rate
    ensures ((if level >= 1.0 then 1 else 0) + count) as real <= level + span * rate
  {
    MulSum(gap, tail, rate);
  }

  lemma NextLevel(burst: real, rate: real, e: Eager, at: real, later: real)
    requires Limits(burst, rate) && e.level >= 0.0 && e.at <= at <= later
    ensures var level := Level(burst, rate, e, at);
      Level(burst, rate, EagerNext(burst, rate, e, at), later) <= (if level >= 1.0 then level - 1.0 else level) + (later - at) * rate
  {
  }

  lemma {:induction false} SegmentBoundFrom(burst: real, rate: real, e: Eager, trace: seq<Request>, level: real, span: real)
    requires Limits(burst, rate) && 0.0 <= e.level && Ordered(trace) && trace != [] && e.at <= trace[0].at
    requires level == Level(burst, rate, e, trace[0].at) && span == trace[|trace| - 1].at - trace[0].at
    ensures Count(EagerDecisions(burst, rate, e, trace)) as real <= level + span * rate
    decreases |trace|
  {
    var e', rest := EagerNext(burst, rate, e, trace[0].at), trace[1..];
    var count, first := Count(EagerDecisions(burst, rate, e', rest)), trace[0].at;
    assert Count(EagerDecisions(burst, rate, e, trace)) == (if level >= 1.0 then 1 else 0) + count by {
      CountOneMore(burst, rate, e, trace);
    }
    assert e'.level >= 0.0 && e'.at == first by { LevelGrows(burst, rate, e, first); }
    if rest == [] {
      assert level >= 0.0 by { LevelGrows(burst, rate, e, first); }
      assert span * rate == 0.0;
    } else {
      var gap, tail, next := rest[0].at - first, rest[|rest| - 1].at - rest[0].at, Level(burst, rate, e', rest[0].at);
      assert count as real <= next + tail * rate by { SegmentBoundFrom(burst, rate, e', rest, next, tail); }
      assert next <= (if level >= 1.0 then level - 1.0 else level) + gap * rate by { NextLevel(burst, rate, e, first, rest[0].at); }
      PayForOneMore(level, next, gap, tail, span, rate, count);
    }
  }

  lemma Widen(count: int, level: real, burst: real, span: real, T: real, rate: real)
    requires count as real <= level + span * rate && level <= burst && span <= T && rate > 0.0
    ensures count as real <= burst + T * rate
  {
    MulMono(span, T, rate);
  }

  /** Accepted requests are paid from a full bucket at the start and the refill on the way. */
  lemma SegmentWithin(burst: real, rate: real, e: Eager, trace: seq<Request>, T: real)
    requires Limits(burst, rate) && 0.0 <= e.level && Ordered(trace) && trace != [] && e.at <= trace[0].at
    requires trace[|trace| - 1].at - trace[0].at <= T
    ensures Count(EagerDecisions(burst, rate, e, trace)) as real <= burst + T * rate
  {
    var span := trace[|trace| - 1].at - trace[0].at;
    var level := Level(burst, rate, e, trace[0].at);
    SegmentBoundFrom(burst, rate, e, trace, level, span);
    LevelGrows(burst, rate, e, trace[0].at);
    Widen(Count(EagerDecisions(burst, rate, e, trace)), level, burst, span, T, rate);
  }

  function EagerAfter(burst: real, rate: real, e: Eager, trace: seq<Request>): Eager
    decreases |trace|
  {
    if trace == [] then e else EagerAfter(burst, rate, EagerNext(burst, rate, e, trace[0].at), trace[1..])
  }

  lemma {:induction false} DecisionsFrom(burst: real, rate: real, e: Eager, trace: seq<Request>, i: nat)
    requires Limits(burst, rate) && i <= |trace| && Ordered(trace) && 0.0 <= e.level
    requires trace != [] ==> e.at <= trace[0].at
    ensures var f := EagerAfter(burst, rate, e, trace[..i]);
      && EagerDecisions(burst, rate, e, trace)[i..] == EagerDecisions(burst, rate, f, trace[i..])
      && 0.0 <= f.level && (i < |trace| ==> f.at <= trace[i].at)
    decreases i
  {
    if i > 0 {
      LevelGrows(burst, rate, e, trace[0].at);
      var e' := EagerNext(burst, rate, e, trace[0].at);
      DecisionsFrom(burst, rate, e', trace[1..], i - 1);
      assert trace[1..][..i - 1] == trace[..i][1..];
      assert trace[1..][i - 1..] == trace[i..];
      assert EagerDecisions(burst, rate, e, trace)[i..] == EagerDecisions(burst, rate, e', trace[1..])[i - 1..];
    } else {
      assert trace[..0] == [] && trace[0..] == trace;
    }
  }

  lemma {:induction false} DecisionsPrefix(burst: real, rate: real, e: Eager, trace: seq<Request>, n: nat)
    requires n <= |trace|
    ensures EagerDecisions(burst, rate, e, trace[..n]) == EagerDecisions(burst, rate, e, trace)[..n]
    decreases n
  {
    if n > 0 {
      DecisionsPrefix(burst, rate, EagerNext(burst, rate, e, trace[0].at), trace[1..], n - 1);
      assert trace[..n][1..] == trace[1..][..n - 1];
    }
  }

  /** A slice of the decisions is what the eager limiter decides on that slice of the
  requests, started from some level no later than its first request. */
  lemma SliceOfDecisions(burst: real, rate: real, trace: seq<Request>, i: nat, j: nat) returns (f: Eager)
    requires Limits(burst, rate) && Ordered(trace) && i < j <= |trace|
    ensures Decisions(burst, rate, None, trace)[i..j] == EagerDecisions(burst, rate, f, trace[i..j])
    ensures 0.0 <= f.level && f.at <= trace[i].at
  {
    var e := Eager(burst, trace[0].at);
    SameDecisions(burst, rate, None, e, trace);
    DecisionsFrom(burst, rate, e, trace, i);
    f := EagerAfter(burst, rate, e, trace[..i]);
    DecisionsPrefix(burst, rate, f, trace[i..], j - i);
    assert trace[i..][..j - i] == trace[i..j];
    var d := EagerDecisions(burst, rate, e, trace);
    assert d[i..][..j - i] == d[i..j];
  }

  /** For every trace with a non-decreasing clock, whatever buckets Redis drops: the
  requests i..j that fall into a window of length T are accepted at most
  burst + T * rate times. */
  lemma WindowBound(burst: real, rate: real, trace: seq<Request>, i: nat, j: nat, T: real)
    requires Limits(burst, rate) && Ordered(trace) && i < j <= |trace|
    requires trace[j - 1].at - trace[i].at <= T
    ensures Count(Decisions(burst, rate, None, trace)[i..j]) as real <= burst + T * rate
  {
    var f := SliceOfDecisions(burst, rate, trace, i, j);
    var window := trace[i..j];
    assert window[0] == trace[i] && window[|window| - 1] == trace[j - 1];
    assert Ordered(window) by {
      forall a, b | 0 <= a < b < |window| ensures window[a].at <= window[b].at {
        assert window[a] == trace[i + a] && window[b] == trace[i + b];
      }
    }
    SegmentWithin(burst, rate, f, window, T);
  }

  // ---- clocks that step back ---------------------------------------------

  /** The accepted requests with times from `from` to `to`. */
  function CountWithin(trace: seq<Request>, d: seq<bool>, from: real, to: real): nat
    requires |d| == |trace|
    decreases |trace|
  {
    if trace == [] then 0
    else (if d[0] && from <= trace[0].at <= to then 1 else 0) + CountWithin(trace[1..], d[1..], from, to)
  }

  function Repeated(r: Request, n: nat): (s: seq<Request>)
    ensures |s| == n
  {
    if n == 0 then [] else [r] + Repeated(r, n - 1)
  }

  /** n requests at one time, as long as there are tokens for them. */
  lemma {:induction false} BurstAccepted(burst: real, rate: real, tokens: real, at: real, n: nat, rest: seq<Request>)
    requires Limits(burst, rate) && n as real <= tokens <= burst
    ensures var trace := Repeated(Request(at, false), n) + rest;
      CountWithin(trace, Decisions(burst, rate, Some(Bucket(tokens, at)), trace), at, at)
      == n + CountWithin(rest, Decisions(burst, rate, Some(Bucket(tokens - n as real, at)), rest), at, at)
    decreases n
  {
    var r, b := Request(at, false), Some(Bucket(tokens, at));
    var trace := Repeated(r, n) + rest;
    if n == 0 {
      assert trace == rest;
    } else {
      assert Stored(burst, rate, b, r) == Some(Bucket(tokens - 1.0, at)) && Accepts(burst, rate, b, r) by {
        assert 0.0 * rate == 0.0;
      }
      assert trace[0] == r && trace[1..] == Repeated(r, n - 1) + rest;
      BurstAccepted(burst, rate, tokens - 1.0, at, n - 1, rest);
      assert tokens - 1.0 - (n - 1) as real == tokens - n as real;
    }
  }

  lemma FirstAccepted(burst: real, rate: real, b: Option<Bucket>, r: Request, rest: seq<Request>, from: real, to: real)
    requires Limits(burst, rate) && Accepts(burst, rate, b, r)
    ensures CountWithin([r] + rest, Decisions(burst, rate, b, [r] + rest), from, to)
      == (if from <= r.at <= to then 1 else 0) + CountWithin(rest, Decisions(burst, rate, Stored(burst, rate, b, r), rest), from, to)
  {
    assert ([r] + rest)[1..] == rest;
  }

  /** With at least one token left at time h, a request at time 0 moves the bucket there, and
  at h it counts as full again. */
  lemma RefillByStepBack(burst: real, rate: real, left: real, h: real, n: nat)
    requires Limits(burst, rate) && 1.0 <= left <= burst && h > 0.0 && h * rate == burst && n > 0 && n as real <= burst
    ensures var trace := [Request(0.0, false)] + ([Request(h, false)] + (Repeated(Request(h, false), n - 1) + []));
      CountWithin(trace, Decisions(burst, rate, Some(Bucket(left, h)), trace), h, h) == n
  {
    var at, early, b1, b2 := Request(h, false), Request(0.0, false), Some(Bucket(left, h)), Some(Bucket(left - 1.0, 0.0));
    var last := Repeated(at, n - 1) + [];
    assert Accepts(burst, rate, b1, early) && Stored(burst, rate, b1, early) == b2 by {
      assert 0.0 * rate == 0.0;
    }
    FirstAccepted(burst, rate, b1, early, [at] + last, h, h);
    assert Accepts(burst, rate, b2, at) && Stored(burst, rate, b2, at) == Some(Bucket(burst - 1.0, h)) by {
      assert (h - 0.0) * rate == burst;
    }
    FirstAccepted(burst, rate, b2, at, last, h, h);
    BurstAccepted(burst, rate, burst - 1.0, h, n - 1, []);
  }

  lemma TimeToFill(burst: real, rate: real) returns (h: real)
    requires Limits(burst, rate)
    ensures h > 0.0 && h * rate == burst
  {
    h := burst / rate;
    DivThenMul(burst, rate);
  }

  /** With a burst of two or more: all but one token taken at time h, the last one at time 0,
  and at h again a full bucket.  All those at h lie in a window of length 0. */
  lemma SteppingBackRefills(burst: real, rate: real) returns (trace: seq<Request>, h: real)
    requires Limits(burst, rate) && burst >= 2.0
    ensures CountWithin(trace, Decisions(burst, rate, None, trace), h, h) as real > burst
  {
    var n: nat := burst.Floor;
    assert 2 <= n && n as real <= burst < n as real + 1.0;
    h := TimeToFill(burst, rate);
    var at, left := Request(h, false), burst - 1.0 - (n - 2) as real;
    var late := [Request(0.0, false)] + ([at] + (Repeated(at, n - 1) + []));
    trace := [at] + (Repeated(at, n - 2) + late);
    assert Accepts(burst, rate, None, at) && Stored(burst, rate, None, at) == Some(Bucket(burst - 1.0, h));
    FirstAccepted(burst, rate, None, at, Repeated(at, n - 2) + late, h, h);
    BurstAccepted(burst, rate, burst - 1.0, h, n - 2, late);
    RefillByStepBack(burst, rate, left, h, n);
  }

  /** What requests from here on may still be granted in the window from a to e. */
  function Allowance(burst: real, rate: real, b: Option<Bucket>, a: real, e: real): real {
    if b.None? then burst + (e - a) * rate else Remains(burst, rate, b.value.tokens, b.value.last, a, e)
  }

  function Remains(burst: real, rate: real, tokens: real, last: real, a: real, e: real): real {
    if last < a then burst + (e - a) * rate else if last > e then 0.0 else tokens + (e - last) * rate
  }

  lemma RemainsNonNegative(burst: real, rate: real, tokens: real, last: real, a: real, e: real)
    requires Limits(burst, rate) && a <= e && 0.0 <= tokens
    ensures Remains(burst, rate, tokens, last, a, e) >= 0.0
  {
    if last < a {
      NonNegativeProduct(e - a, rate);
    } else if last <= e {
      var refill := (e - last) * rate;
      assert refill >= 0.0 by { NonNegativeProduct(e - last, rate); }
      assert Remains(burst, rate, tokens, last, a, e) == tokens + refill;
    }
  }

  /** A grant inside the window is paid from what remained of it. */
  lemma PayInside(burst: real, rate: real, tokens: real, last: real, left: real, at: real, a: real, e: real)
    requires Limits(burst, rate) && a <= at <= e && left <= burst - 1.0
    requires last >= a ==> last < at && left + 1.0 <= tokens + (at - last) * rate
    ensures 1.0 + Remains(burst, rate, left, at, a, e) <= Remains(burst, rate, tokens, last, a, e)
  {
    if last < a {
      MulMono(e - at, e - a, rate);
    } else {
      MulSum(at - last, e - at, rate);
      assert (at - last) + (e - at) == e - last;
    }
  }

  /** With a burst below two a bucket just drawn from holds less than a token, so the next
  grant comes strictly later and pays out of the refill since. */
  lemma GrantIsLater(burst: real, rate: real, b: Bucket, r: Request)
    requires Limits(burst, rate) && burst < 2.0 && 0.0 <= b.tokens <= burst - 1.0 && Accepts(burst, rate, Some(b), r)
    ensures r.at > b.last && Tokens(burst, rate, Some(b), r) <= b.tokens + (r.at - b.last) * rate
  {
    if Visible(burst, rate, Some(b), r).None? {
      TtlFillsBucket(burst, rate, r.at - b.last);
      TtlPositive(burst, rate);
    }
  }

  lemma TtlPositive(burst: real, rate: real)
    requires Limits(burst, rate)
    ensures Ttl(burst, rate) > 0
  {
    CeilBounds(burst / rate);
    assert burst / rate > 0.0;
  }

  lemma GrantPays(burst: real, rate: real, b: Option<Bucket>, r: Request, a: real, e: real)
    requires Limits(burst, rate) && burst < 2.0 && a <= e && (b.Some? ==> 0.0 <= b.value.tokens <= burst - 1.0)
    requires Accepts(burst, rate, b, r)
    ensures var left := Tokens(burst, rate, b, r) - 1.0;
      && Stored(burst, rate, b, r) == Some(Bucket(left, r.at)) && 0.0 <= left <= burst - 1.0
      && (if a <= r.at <= e then 1.0 else 0.0) + Remains(burst, rate, left, r.at, a, e) <= Allowance(burst, rate, b, a, e)
  {
    var left := Tokens(burst, rate, b, r) - 1.0;
    var tokens, last := if b.Some? then b.value.tokens else 0.0, if b.Some? then b.value.last else a - 1.0;
    assert 0.0 <= left <= burst - 1.0;
    assert Allowance(burst, rate, b, a, e) == Remains(burst, rate, tokens, last, a, e);
    if b.Some? {
      GrantIsLater(burst, rate, b.value, r);
    }
    if a <= r.at <= e {
      PayInside(burst, rate, tokens, last, left, r.at, a, e);
    } else {
      RemainsNonNegative(burst, rate, tokens, last, a, e);
    }
  }

  lemma {:induction false} SmallBurstBound(burst: real, rate: real, b: Option<Bucket>, trace: seq<Request>, a: real, e: real)
    requires Limits(burst, rate) && burst < 2.0 && a <= e && (b.Some? ==> 0.0 <= b.value.tokens <= burst - 1.0)
    ensures CountWithin(trace, Decisions(burst, rate, b, trace), a, e) as real <= Allowance(burst, rate, b, a, e)
    decreases |trace|
  {
    if trace == [] {
      if b.Some? {
        RemainsNonNegative(burst, rate, b.value.tokens, b.value.last, a, e);
      } else {
        NonNegativeProduct(e - a, rate);
      }
    } else {
      var b' := Stored(burst, rate, b, trace[0]);
      if Accepts(burst, rate, b, trace[0]) {
        GrantPays(burst, rate, b, trace[0], a, e);
      } else {
        assert b' == b by { assert Visible(burst, rate, b, trace[0]).Some?; }
      }
      SmallBurstBound(burst, rate, b', trace[1..], a, e);
    }
  }

  predicate WindowKept(burst: real, rate: real, trace: seq<Request>, a: real, e: real)
    requires rate > 0.0
  {
    CountWithin(trace, Decisions(burst, rate, None, trace), a, e) as real <= burst + (e - a) * rate
  }

  /** Every window from a to e keeps to burst + (e - a) * rate on every trace, whatever the
  clock does, if and only if the burst is less than two. */
  lemma AnyClockExactlyWhen(burst: real, rate: real)
    requires Limits(burst, rate)
    ensures (forall trace, a, e | a <= e :: WindowKept(burst, rate, trace, a, e)) <==> burst < 2.0
  {
    if burst < 2.0 {
      forall trace, a, e | a <= e ensures WindowKept(burst, rate, trace, a, e) {
        SmallBurstBound(burst, rate, None, trace, a, e);
      }
    } else {
      var trace, h := SteppingBackRefills(burst, rate);
      assert 0.0 * rate == 0.0 && h - h == 0.0;
      assert !WindowKept(burst, rate, trace, h, h);
    }
  }

  // ---- the advice --------------------------------------------------------

  lemma DivThenMul(x: real, y: real)
    requires y > 0.0
    ensures (x / y) * y == x
  {
  }

  /** Waiting k seconds covers a need exactly when k is at least the need rounded up. */
  lemma NeedCovered(rate: real, missing: real, need: real, k: int)
    requires rate > 0.0 && missing > 0.0 && need * rate == missing
    ensures Ceil(need) >= 1
    ensures k as real * rate >= missing <==> k >= Ceil(need)
  {
    CeilBounds(need);
    if need <= 0.0 {
      MulMono(need, 0.0, rate);
    }
    if k >= Ceil(need) {
      MulMono(need, k as real, rate);
    } else {
      MulLess(k as real, need, rate);
    }
  }

  lemma LevelLater(burst: real, rate: real, e: Eager, at: real, more: real)
    requires Limits(burst, rate) && e.at <= at && 0.0 <= more
    ensures Level(burst, rate, e, at + more) == Min(burst, Level(burst, rate, e, at) + more * rate)
  {
    CapTwice(burst, e.level, at - e.at, more, rate);
    assert (at + more) - e.at == (at - e.at) + more;
  }

  lemma AcceptsLater(burst: real, rate: real, b: Option<Bucket>, e: Eager, at: real, more: real, dropped: bool)
    requires Limits(burst, rate) && Represents(burst, rate, b, e) && e.at <= at && more >= 0.0
    ensures Accepts(burst, rate, b, Request(at + more, dropped)) <==> more * rate >= 1.0 - Level(burst, rate, e, at)
  {
    TokensAreLevel(burst, rate, b, e, Request(at + more, dropped));
    LevelLater(burst, rate, e, at, more);
  }

  lemma WaitFromLevel(burst: real, rate: real, b: Option<Bucket>, e: Eager, r: Request) returns (missing: real, need: real)
    requires Limits(burst, rate) && Represents(burst, rate, b, e) && e.at <= r.at && !Accepts(burst, rate, b, r)
    ensures missing == 1.0 - Level(burst, rate, e, r.at) && missing > 0.0
    ensures need * rate == missing && WaitSecs(burst, rate, b, r) == Ceil(need)
  {
    TokensAreLevel(burst, rate, b, e, r);
    missing := 1.0 - Level(burst, rate, e, r.at);
    need := missing / rate;
    DivThenMul(missing, rate);
  }

  /** `wait_secs` is the least whole number of seconds after which an undisturbed retry
  is accepted; it is never less than one. */
  lemma WaitIsLeast(burst: real, rate: real, b: Option<Bucket>, e: Eager, r: Request, k: nat, dropped: bool)
    requires Limits(burst, rate) && Represents(burst, rate, b, e) && e.at <= r.at && !Accepts(burst, rate, b, r)
    ensures WaitSecs(burst, rate, b, r) >= 1
    ensures Accepts(burst, rate, b, Request(r.at + k as real, dropped)) <==> k >= WaitSecs(burst, rate, b, r)
  {
    var missing, need := WaitFromLevel(burst, rate, b, e, r);
    AcceptsLater(burst, rate, b, e, r.at, k as real, dropped);
    NeedCovered(rate, missing, need, k);
  }
}
