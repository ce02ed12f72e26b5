/** The fixed-window limiter: a counter per user that INCR creates and that expires sixty
seconds after its first increment.  INCR and EXPIRE are taken as one step.
*/
module FixedWindow {
  import opened Wrappers

  type User = int

  const WINDOW_MS := 60_000

  type Positive = n: nat | n > 0 witness 1

  datatype Counter = Counter(count: Positive, until: nat)

  predicate Live(c: Option<Counter>, now: nat) {
    c.Some? && now < c.value.until
  }

  function Incremented(c: Option<Counter>, now: nat): Counter {
    if Live(c, now) then Counter(c.value.count + 1, c.value.until) else Counter(1, now + WINDOW_MS)
  }

  class Limiter {
    var counters: map<User, Counter>

    constructor ()
      ensures counters == map[]
    {
      counters := map[];
    }

    function Find(user: User): Option<Counter>
      reads this
    {
      if user in counters then Some(counters[user]) else None
    }

    /** With an open circuit everybody passes and nothing is counted. */
    method CheckRateLimit(user: User, max: nat, now: nat, circuitOpen: bool) returns (allowed: bool, remaining: nat)
      modifies this
      ensures circuitOpen ==> allowed && remaining == max && counters == old(counters)
      ensures !circuitOpen ==>
        && Find(user) == Some(Incremented(old(Find(user)), now))
        && (allowed <==> Find(user).value.count <= max)
        && remaining == if allowed then max - Find(user).value.count else 0
      ensures forall other | other != user :: Find(other) == old(Find(other))
    {
      if circuitOpen {
        return true, max;
      }
      if user in counters && now >= counters[user].until {
        counters := counters - {user};
      }
      var count: Positive := (if user in counters then counters[user].count else 0) + 1;
      var until := if count == 1 then now + WINDOW_MS else counters[user].until;
      counters := counters[user := Counter(count, until)];
      allowed := count <= max;
      remaining := if max > count then max - count else 0;
    }
  }

  // ---- traces of one user's calls, the circuit closed --------------------

  predicate Ordered(times: seq<nat>) {
    forall i, j | 0 <= i < j < |times| :: times[i] <= times[j]
  }

  function Accepted(c: Option<Counter>, max: nat, times: seq<nat>): (d: seq<bool>)
    ensures |d| == |times|
    decreases |times|
  {
    if times == [] then []
    else
      var c' := Incremented(c, times[0]);
      [c'.count <= max] + Accepted(Some(c'), max, times[1..])
  }

  function After(c: Option<Counter>, times: seq<nat>): Option<Counter>
    decreases |times|
  {
    if times == [] then c else After(Some(Incremented(c, times[0])), times[1..])
  }

  function Count(d: seq<bool>): nat
    decreases |d|
  {
    if d == [] then 0 else (if d[0] then 1 else 0) + Count(d[1..])
  }

  function Left(count: nat, max: nat): nat {
    if count < max then max - count else 0
  }

  /** What calls from `at` until before `end` can still use: the rest of the current
  window, and one more window if the current one ends first. */
  function Budget(c: Option<Counter>, max: nat, at: nat, end: nat): nat {
    if !Live(c, at) then max
    else Left(c.value.count, max) + if c.value.until >= end then 0 else max
  }

  lemma {:induction false} WithinBudget(c: Option<Counter>, max: nat, times: seq<nat>, end: nat)
    requires times != [] && Ordered(times) && times[|times| - 1] < end <= times[0] + WINDOW_MS
    ensures Count(Accepted(c, max, times)) <= Budget(c, max, times[0], end)
    decreases |times|
  {
    var c', rest := Incremented(c, times[0]), times[1..];
    assert Accepted(c, max, times)[1..] == Accepted(Some(c'), max, rest);
    if rest != [] {
      assert rest[|rest| - 1] == times[|times| - 1];
      WithinBudget(Some(c'), max, rest, end);
    }
  }

  lemma {:induction false} AcceptedSplit(c: Option<Counter>, max: nat, a: seq<nat>, b: seq<nat>)
    ensures Accepted(c, max, a + b) == Accepted(c, max, a) + Accepted(After(c, a), max, b)
    decreases |a|
  {
    if a == [] {
      assert a + b == b;
    } else {
      assert (a + b)[1..] == a[1..] + b;
      AcceptedSplit(Some(Incremented(c, a[0])), max, a[1..], b);
    }
  }

  lemma MiddleOf(a: seq<bool>, b: seq<bool>, c: seq<bool>)
    ensures (a + (b + c))[|a|..|a| + |b|] == b
  {
  }

  /** A slice of the decisions is what is decided on that slice from the state before it. */
  lemma SliceOfAccepted(c: Option<Counter>, max: nat, times: seq<nat>, i: nat, j: nat)
    requires i <= j <= |times|
    ensures Accepted(c, max, times)[i..j] == Accepted(After(c, times[..i]), max, times[i..j])
  {
    var before, span, after := times[..i], times[i..j], times[j..];
    assert times == before + (span + after);
    var c1 := After(c, before);
    AcceptedSplit(c, max, before, span + after);
    AcceptedSplit(c1, max, span, after);
    MiddleOf(Accepted(c, max, before), Accepted(c1, max, span), Accepted(After(c1, span), max, after));
  }

  /** In every trace, the calls i..j that fall into a half-open span of sixty seconds are
  accepted fewer than 2 * max times: a span that reaches into a second window has lost
  the call that opened the first one. */
  lemma SpanBound(max: nat, times: seq<nat>, i: nat, j: nat)
    requires Ordered(times) && i < j <= |times| && times[j - 1] < times[i] + 60_000
    ensures Count(Accepted(None, max, times)[i..j]) <= if max == 0 then 0 else 2 * max - 1
  {
    SliceOfAccepted(None, max, times, i, j);
    var span := times[i..j];
    assert span[0] == times[i] && span[|span| - 1] == times[j - 1];
    assert Ordered(span) by {
      forall a, b | 0 <= a < b < |span| ensures span[a] <= span[b] {
        assert span[a] == times[i + a] && span[b] == times[i + b];
      }
    }
    WithinBudget(After(None, times[..i]), max, span, times[i] + WINDOW_MS);
  }

  // ---- the bound is reached ----------------------------------------------

  function Repeat(at: nat, n: nat): (s: seq<nat>)
    ensures |s| == n && forall k | 0 <= k < n :: s[k] == at
  {
    if n == 0 then [] else [at] + Repeat(at, n - 1)
  }

  lemma {:induction false} CountSplit(a: seq<bool>, b: seq<bool>)
    ensures Count(a + b) == Count(a) + Count(b)
    decreases |a|
  {
    if a == [] {
      assert a + b == b;
    } else {
      assert (a + b)[1..] == a[1..] + b;
      CountSplit(a[1..], b);
    }
  }

  /** n calls at one moment inside a window. */
  lemma {:induction false} Burst(c: Counter, max: nat, at: nat, n: nat)
    requires at < c.until && c.count + n <= max
    ensures Count(Accepted(Some(c), max, Repeat(at, n))) == n
    ensures After(Some(c), Repeat(at, n)) == Some(Counter(c.count + n, c.until))
    decreases n
  {
    if n > 0 {
      var c' := Counter(c.count + 1, c.until);
      var times := Repeat(at, n);
      assert times[1..] == Repeat(at, n - 1);
      assert Accepted(Some(c), max, times)[1..] == Accepted(Some(c'), max, times[1..]);
      Burst(c', max, at, n - 1);
    }
  }

  /** A whole window's calls at the moment it opens. */
  lemma NewWindow(c: Option<Counter>, max: nat, at: nat)
    requires max > 0 && !Live(c, at)
    ensures Count(Accepted(c, max, Repeat(at, max))) == max
  {
    var times, c' := Repeat(at, max), Counter(1, at + WINDOW_MS);
    assert times[1..] == Repeat(at, max - 1);
    assert Accepted(c, max, times)[1..] == Accepted(Some(c'), max, times[1..]);
    Burst(c', max, at, max - 1);
  }

  /** One early call, the rest of its window's calls at its end, and a full window right
  after: 2 * max - 1 accepted calls within two milliseconds. */
  lemma BoundIsReached(max: nat)
    requires max > 0
    ensures var times := [0] + (Repeat(WINDOW_MS - 1, max - 1) + Repeat(WINDOW_MS, max));
      && Ordered(times) && |times| == 2 * max && times[|times| - 1] < times[1] + WINDOW_MS
      && Count(Accepted(None, max, times)[1..]) == 2 * max - 1
  {
    var first, second := Repeat(WINDOW_MS - 1, max - 1), Repeat(WINDOW_MS, max);
    var times := [0] + (first + second);
    var c := Counter(1, WINDOW_MS);
    assert times[1..] == first + second;
    assert Accepted(None, max, times)[1..] == Accepted(Some(c), max, first + second);
    AcceptedSplit(Some(c), max, first, second);
    Burst(c, max, WINDOW_MS - 1, max - 1);
    var full := Some(Counter(max, WINDOW_MS));
    NewWindow(full, max, WINDOW_MS);
    CountSplit(Accepted(Some(c), max, first), Accepted(full, max, second));
  }
}
