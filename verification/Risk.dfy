/** The risk engine: signals, score and action for a request, and the per-user context it
compares with and then replaces.

Distances between two positions come in with the request; speeds are exact reals.
*/
module Risk {
  import opened Wrappers

  type User = int
  type Ip = int
  type Device = int
  type Country = int

  datatype Request = Request(user: User, ip: Ip, country: Option<Country>, device: Option<Device>)

  datatype Context = Context(
    lastIp: Ip, lastCountry: Option<Country>, device: Option<Device>, lastSeen: nat,
    failedAttempts: nat, knownIps: seq<Ip>, knownDevices: seq<Device>)

  datatype Signal =
    | IpChange | ImpossibleTravel | GeoChange | CountryChange | DeviceMismatch
    | FailedAttempts | NewDevice | NewIp | NoHistory

  datatype Level = Low | Medium | High | Critical

  datatype RiskAction = Allow | LogAndMonitor | RequireStepUp | BlockAndInvalidate

  datatype Assessment = Assessment(score: nat, level: Level, signals: seq<Signal>, action: RiskAction)

  const MAX_IPS := 20
  const MAX_DEVICES := 10
  const U32_MAX := 0xffff_ffff

  /** Where and when a request is seen: the clock, and how far it is from the last one. */
  datatype Circumstance = Circumstance(now: nat, km: real)

  function Weight(s: Signal): nat {
    match s
    case IpChange => 30
    case ImpossibleTravel => 50
    case GeoChange => 15
    case CountryChange => 20
    case DeviceMismatch => 25
    case FailedAttempts => 20
    case NewDevice => 15
    case NewIp => 10
    case NoHistory => 10
  }

  function LevelOf(score: nat): Level {
    if score <= 25 then Low else if score <= 50 then Medium else if score <= 75 then High else Critical
  }

  function ActionOf(level: Level): RiskAction {
    match level
    case Low => Allow
    case Medium => LogAndMonitor
    case High => RequireStepUp
    case Critical => BlockAndInvalidate
  }

  /** Hours since the last request, never less than a minute. */
  function Hours(lastSeen: nat, now: nat): (h: real)
    ensures h > 0.0
  {
    var h := (if now > lastSeen then now - lastSeen else 0) as real / 3600.0;
    if h >= 1.0 / 60.0 then h else 1.0 / 60.0
  }

  predicate BothLocated(p: Context, r: Request) {
    p.lastCountry.Some? && r.country.Some?
  }

  /** Moved more than 100 km, faster than this. */
  predicate Faster(p: Context, c: Circumstance, kmh: real) {
    c.km > 100.0 && c.km / Hours(p.lastSeen, c.now) > kmh
  }

  /** When a signal is raised against a stored context. */
  predicate Raised(p: Context, r: Request, c: Circumstance, s: Signal) {
    match s
    case IpChange => p.lastIp != r.ip
    case ImpossibleTravel => BothLocated(p, r) && Faster(p, c, 950.0)
    case GeoChange => BothLocated(p, r) && !Faster(p, c, 950.0) && Faster(p, c, 500.0)
    case CountryChange => BothLocated(p, r) && p.lastCountry != r.country && r.ip !in p.knownIps && !Faster(p, c, 500.0)
    case DeviceMismatch => p.device.Some? && r.device.Some? && p.device != r.device
    case FailedAttempts => p.failedAttempts >= 3
    case NewDevice => r.device.Some? && r.device.value !in p.knownDevices
    case NewIp => r.ip !in p.knownIps
    case NoHistory => false
  }

  function Total(signals: seq<Signal>): nat
    decreases |signals|
  {
    if signals == [] then 0 else Weight(signals[0]) + Total(signals[1..])
  }

  /** Signals are looked for in this order. */
  function Rank(s: Signal): nat {
    match s
    case IpChange => 0
    case ImpossibleTravel => 1
    case GeoChange => 2
    case CountryChange => 3
    case DeviceMismatch => 4
    case FailedAttempts => 5
    case NewDevice => 6
    case NewIp => 7
    case NoHistory => 8
  }

  const ORDER: seq<Signal> := [IpChange, ImpossibleTravel, GeoChange, CountryChange, DeviceMismatch, FailedAttempts, NewDevice, NewIp]

  function RaisedAmong(p: Context, r: Request, c: Circumstance, k: nat): seq<Signal>
    requires k <= |ORDER|
  {
    if k == 0 then []
    else RaisedAmong(p, r, c, k - 1) + if Raised(p, r, c, ORDER[k - 1]) then [ORDER[k - 1]] else []
  }

  function Signals(p: Option<Context>, r: Request, c: Circumstance): seq<Signal> {
    if p.None? then [NoHistory] else RaisedAmong(p.value, r, c, |ORDER|)
  }

  lemma {:induction false} AmongExactly(p: Context, r: Request, c: Circumstance, k: nat)
    requires k <= |ORDER|
    ensures forall s: Signal :: s in RaisedAmong(p, r, c, k) <==> Rank(s) < k && Raised(p, r, c, s)
    ensures NoDuplicates(RaisedAmong(p, r, c, k))
  {
    if k > 0 {
      AmongExactly(p, r, c, k - 1);
      var before, s := RaisedAmong(p, r, c, k - 1), ORDER[k - 1];
      assert Rank(s) == k - 1 && forall t: Signal :: Rank(t) == k - 1 ==> t == s;
      assert s !in before;
    }
  }

  /** The signals listed are exactly those raised, each once. */
  lemma SignalsExactly(p: Option<Context>, r: Request, c: Circumstance)
    ensures forall s: Signal :: s in Signals(p, r, c) <==> if p.None? then s == NoHistory else Raised(p.value, r, c, s)
    ensures NoDuplicates(Signals(p, r, c))
  {
    if p.Some? {
      AmongExactly(p.value, r, c, |ORDER|);
    }
  }

  function Capped(n: nat): nat {
    if n < 100 then n else 100
  }

  // ---- lists that remember the latest ------------------------------------

  function Remembered<T(==)>(known: seq<T>, x: T, max: nat): seq<T> {
    if x in known then known
    else if |known| + 1 > max then (known + [x])[1..]
    else known + [x]
  }

  ghost predicate NoDuplicates<T>(s: seq<T>) {
    forall i, j | 0 <= i < j < |s| :: s[i] != s[j]
  }

  lemma RememberedKeeps<T>(known: seq<T>, x: T, max: nat)
    requires NoDuplicates(known) && |known| <= max && max > 0
    ensures var after := Remembered(known, x, max);
      NoDuplicates(after) && |after| <= max && x in after
    ensures forall y | y in Remembered(known, x, max) :: y == x || y in known
  {
    if x !in known {
      var all := known + [x];
      assert all[|known|] == x;
      assert NoDuplicates(all);
      if |all| > max {
        assert all[1..][|known| - 1] == x;
      }
    }
  }

  function Updated(p: Option<Context>, r: Request, now: nat): Context {
    var ips := if p.Some? then p.value.knownIps else [];
    var devices := if p.Some? then p.value.knownDevices else [];
    Context(r.ip, r.country, r.device, now, 0, Remembered(ips, r.ip, MAX_IPS),
            if r.device.Some? then Remembered(devices, r.device.value, MAX_DEVICES) else devices)
  }

  class RiskEngine {
    var contexts: map<User, Context>

    constructor ()
      ensures contexts == map[]
    {
      contexts := map[];
    }

    function Find(user: User): Option<Context>
      reads this
    {
      if user in contexts then Some(contexts[user]) else None
    }

    /** None: a Redis read or write failed; after a failed write nothing is stored. */
    method Evaluate(r: Request, c: Circumstance, readOk: bool, writeOk: bool) returns (a: Option<Assessment>)
      modifies this
      ensures a.Some? <==> readOk && writeOk
      ensures a.Some? ==>
        && a.value.signals == Signals(old(Find(r.user)), r, c)
        && a.value.score == Capped(Total(a.value.signals))
        && a.value.level == LevelOf(a.value.score) && a.value.action == ActionOf(a.value.level)
      ensures contexts == if a.Some? then old(contexts)[r.user := Updated(old(Find(r.user)), r, c.now)] else old(contexts)
    {
      if !readOk {
        return None;
      }
      var prev := Find(r.user);
      var signals, total := Collect(prev, r, c);
      var score := if total < 100 then total else 100;
      if !writeOk {
        return None;
      }
      UpdateSessionContext(r, prev, c.now);
      a := Some(Assessment(score, LevelOf(score), signals, ActionOf(LevelOf(score))));
    }

    static method Collect(prev: Option<Context>, r: Request, c: Circumstance) returns (signals: seq<Signal>, total: nat)
      ensures signals == Signals(prev, r, c) && total == Total(signals)
    {
      signals, total := [], 0;
      if prev.None? {
        signals, total := Push(signals, total, NoHistory);
        return;
      }
      var p := prev.value;
      signals, total := CollectMoves(p, r, c);
      if p.device.Some? && r.device.Some? && p.device.value != r.device.value {
        signals, total := Push(signals, total, DeviceMismatch);
      }
      assert signals == RaisedAmong(p, r, c, 5);
      if p.failedAttempts >= 3 {
        signals, total := Push(signals, total, FailedAttempts);
      }
      assert signals == RaisedAmong(p, r, c, 6);
      if r.device.Some? && r.device.value !in p.knownDevices {
        signals, total := Push(signals, total, NewDevice);
      }
      assert signals == RaisedAmong(p, r, c, 7);
      if r.ip !in p.knownIps {
        signals, total := Push(signals, total, NewIp);
      }
    }

    /** Address and position, the first four signals. */
    static method CollectMoves(p: Context, r: Request, c: Circumstance) returns (signals: seq<Signal>, total: nat)
      ensures signals == RaisedAmong(p, r, c, 4) && total == Total(signals)
    {
      signals, total := [], 0;
      if p.lastIp != r.ip {
        signals, total := Push(signals, total, IpChange);
      }
      assert signals == RaisedAmong(p, r, c, 1);
      if p.lastCountry.Some? && r.country.Some? {
        var kmh := c.km / Hours(p.lastSeen, c.now);
        if c.km > 100.0 && kmh > 950.0 {
          signals, total := Push(signals, total, ImpossibleTravel);
          assert signals == RaisedAmong(p, r, c, 2);
        } else if c.km > 100.0 && kmh > 500.0 {
          signals, total := Push(signals, total, GeoChange);
        }
        assert signals == RaisedAmong(p, r, c, 3);
        AmongExactly(p, r, c, 3);
        assert Rank(ImpossibleTravel) == 1 && Rank(GeoChange) == 2;
        if p.lastCountry.value != r.country.value && r.ip !in p.knownIps && ImpossibleTravel !in signals && GeoChange !in signals {
          signals, total := Push(signals, total, CountryChange);
        }
      } else {
        assert signals == RaisedAmong(p, r, c, 2);
        assert signals == RaisedAmong(p, r, c, 3);
      }
    }

    static method Push(signals: seq<Signal>, total: nat, s: Signal) returns (signals': seq<Signal>, total': nat)
      requires total == Total(signals)
      ensures signals' == signals + [s] && total' == Total(signals')
    {
      TotalPush(signals, s);
      signals', total' := signals + [s], total + Weight(s);
    }

    method UpdateSessionContext(r: Request, prev: Option<Context>, now: nat)
      modifies this
      ensures contexts == old(contexts)[r.user := Updated(prev, r, now)]
    {
      var ips := if prev.Some? then prev.value.knownIps else [];
      if r.ip !in ips {
        ips := ips + [r.ip];
        if |ips| > MAX_IPS {
          ips := ips[1..];
        }
      }
      var devices := if prev.Some? then prev.value.knownDevices else [];
      if r.device.Some? && r.device.value !in devices {
        devices := devices + [r.device.value];
        if |devices| > MAX_DEVICES {
          devices := devices[1..];
        }
      }
      contexts := contexts[r.user := Context(r.ip, r.country, r.device, now, 0, ips, devices)];
    }

    method RecordFailedAttempt(user: User)
      modifies this
      ensures contexts == Failed(old(contexts), user)
    {
      if user in contexts {
        var ctx := contexts[user];
        contexts := contexts[user := ctx.(failedAttempts := if ctx.failedAttempts < U32_MAX then ctx.failedAttempts + 1 else U32_MAX)];
      }
    }
  }

  lemma TotalPush(signals: seq<Signal>, s: Signal)
    ensures Total(signals + [s]) == Total(signals) + Weight(s)
    decreases |signals|
  {
    if signals == [] {
      assert [s][1..] == [];
    } else {
      assert (signals + [s])[1..] == signals[1..] + [s];
      TotalPush(signals[1..], s);
    }
  }

  function OneMoreFailure(p: Context): Context {
    p.(failedAttempts := if p.failedAttempts < U32_MAX then p.failedAttempts + 1 else U32_MAX)
  }

  function Failed(contexts: map<User, Context>, user: User): map<User, Context> {
    if user !in contexts then contexts else contexts[user := OneMoreFailure(contexts[user])]
  }

  // ---- whole runs --------------------------------------------------------

  type Id = int

  /** A call between its read of a context and its write: an evaluation or the counting of
  a failed attempt. */
  datatype Call = Evaluating(r: Request, c: Circumstance, prev: Option<Context>) | Counting(user: User, found: Context)

  datatype World = World(contexts: map<User, Context>, calls: map<Id, Call>)

  datatype Event =
    | Read(id: Id, r: Request, c: Circumstance)
    | ReadToCount(id: Id, user: User)
    | Write(id: Id, ok: bool)     // a failed write stores nothing
    | Drop(id: Id)                // a call that goes no further
    | Expire(user: User)

  const START := World(map[], map[])

  function Find(contexts: map<User, Context>, user: User): Option<Context> {
    if user in contexts then Some(contexts[user]) else None
  }

  function Written(contexts: map<User, Context>, call: Call): map<User, Context> {
    match call
    case Evaluating(r, c, prev) => contexts[r.user := Updated(prev, r, c.now)]
    case Counting(user, prev) => contexts[user := OneMoreFailure(prev)]
  }

  /** Calls overlap: what one writes is based on what it read, not on what is there by then. */
  function After(w: World, e: Event): World {
    match e
    case Read(id, r, c) => w.(calls := w.calls[id := Evaluating(r, c, Find(w.contexts, r.user))])
    case ReadToCount(id, user) =>
      if user in w.contexts then w.(calls := w.calls[id := Counting(user, w.contexts[user])]) else w
    case Write(id, ok) =>
      if id !in w.calls then w
      else World(if ok then Written(w.contexts, w.calls[id]) else w.contexts, w.calls - {id})
    case Drop(id) => w.(calls := w.calls - {id})
    case Expire(user) => w.(contexts := w.contexts - {user})
  }

  function Run(w: World, events: seq<Event>): World
    decreases |events|
  {
    if events == [] then w else Run(After(w, events[0]), events[1..])
  }

  /** The lists are free of duplicates, bounded, and contain the latest address and device. */
  ghost predicate Sane(p: Context) {
    && NoDuplicates(p.knownIps) && |p.knownIps| <= MAX_IPS && p.lastIp in p.knownIps
    && NoDuplicates(p.knownDevices) && |p.knownDevices| <= MAX_DEVICES
    && (p.device.Some? ==> p.device.value in p.knownDevices)
  }

  ghost predicate SaneCall(call: Call) {
    match call
    case Evaluating(_, _, prev) => prev.Some? ==> Sane(prev.value)
    case Counting(_, prev) => Sane(prev)
  }

  ghost predicate AllSane(w: World) {
    (forall user | user in w.contexts :: Sane(w.contexts[user])) && (forall id | id in w.calls :: SaneCall(w.calls[id]))
  }

  lemma UpdatedIsSane(p: Option<Context>, r: Request, now: nat)
    requires p.Some? ==> Sane(p.value)
    ensures Sane(Updated(p, r, now))
  {
    RememberedKeeps(if p.Some? then p.value.knownIps else [], r.ip, MAX_IPS);
    if r.device.Some? {
      RememberedKeeps(if p.Some? then p.value.knownDevices else [], r.device.value, MAX_DEVICES);
    }
  }

  lemma StepStaysSane(w: World, e: Event)
    requires AllSane(w)
    ensures AllSane(After(w, e))
  {
    if e.Write? && e.id in w.calls && w.calls[e.id].Evaluating? {
      assert SaneCall(w.calls[e.id]);
      UpdatedIsSane(w.calls[e.id].prev, w.calls[e.id].r, w.calls[e.id].c.now);
    }
  }

  /** However evaluations and failures overlap between their reads and writes, every stored
  context and every one a call has read is sane. */
  lemma {:induction false} RunsStaySane(w: World, events: seq<Event>)
    requires AllSane(w)
    ensures AllSane(Run(w, events))
    decreases |events|
  {
    if events != [] {
      StepStaysSane(w, events[0]);
      RunsStaySane(After(w, events[0]), events[1..]);
    }
  }

  function Sum(p: Context, r: Request, c: Circumstance, s: Signal): nat {
    if Raised(p, r, c, s) then Weight(s) else 0
  }

  function SumAmong(p: Context, r: Request, c: Circumstance, k: nat): nat
    requires k <= |ORDER|
  {
    if k == 0 then 0 else SumAmong(p, r, c, k - 1) + Sum(p, r, c, ORDER[k - 1])
  }

  lemma {:induction false} TotalIsSum(p: Context, r: Request, c: Circumstance, k: nat)
    requires k <= |ORDER|
    ensures Total(RaisedAmong(p, r, c, k)) == SumAmong(p, r, c, k)
  {
    if k > 0 {
      TotalIsSum(p, r, c, k - 1);
      var before := RaisedAmong(p, r, c, k - 1);
      TotalPush(before, ORDER[k - 1]);
      assert before + [] == before;
    }
  }

  lemma SumSteps(p: Context, r: Request, c: Circumstance, half: nat, all: nat)
    requires half == 4 && all == 8
    ensures SumAmong(p, r, c, half) ==
      Sum(p, r, c, IpChange) + Sum(p, r, c, ImpossibleTravel) + Sum(p, r, c, GeoChange) + Sum(p, r, c, CountryChange)
    ensures SumAmong(p, r, c, all) == SumAmong(p, r, c, half)
      + Sum(p, r, c, DeviceMismatch) + Sum(p, r, c, FailedAttempts) + Sum(p, r, c, NewDevice) + Sum(p, r, c, NewIp)
  {
    assert SumAmong(p, r, c, half - 3) == Sum(p, r, c, IpChange) by { assert SumAmong(p, r, c, half - 4) == 0; }
    assert SumAmong(p, r, c, half - 2) == Sum(p, r, c, IpChange) + Sum(p, r, c, ImpossibleTravel);
    assert SumAmong(p, r, c, all - 2) == SumAmong(p, r, c, half) + Sum(p, r, c, DeviceMismatch) + Sum(p, r, c, FailedAttempts);
  }

  function When(raised: bool, points: nat): nat {
    if raised then points else 0
  }

  /** The total is the sum of the points of the eight signals that are raised; without a
  context it is ten. */
  lemma TotalOfSignals(p: Context, r: Request, c: Circumstance)
    ensures Total(Signals(Some(p), r, c)) ==
      When(Raised(p, r, c, IpChange), 30) + When(Raised(p, r, c, ImpossibleTravel), 50)
      + When(Raised(p, r, c, GeoChange), 15) + When(Raised(p, r, c, CountryChange), 20)
      + When(Raised(p, r, c, DeviceMismatch), 25) + When(Raised(p, r, c, FailedAttempts), 20)
      + When(Raised(p, r, c, NewDevice), 15) + When(Raised(p, r, c, NewIp), 10)
    ensures Total(Signals(None, r, c)) == 10
  {
    TotalIsSum(p, r, c, |ORDER|);
    SumSteps(p, r, c, 4, 8);
    assert Signals(None, r, c)[1..] == [];
  }

  /** What is done about the total, in points. */
  lemma ActionsByTotal(p: Option<Context>, r: Request, c: Circumstance)
    ensures var total := Total(Signals(p, r, c)); var action := ActionOf(LevelOf(Capped(total)));
      && (action == Allow <==> total <= 25)
      && (action == LogAndMonitor <==> 26 <= total <= 50)
      && (action == RequireStepUp <==> 51 <= total <= 75)
      && (action == BlockAndInvalidate <==> total >= 76)
  {
  }

  /** In every run, for every evaluation that has read a context: an unknown address is a
  changed address; a request that raises a country change scores at least 60, so it is
  never plainly let through; and a request is blocked only with a changed address or
  impossible travel. */
  lemma ReachableScores(events: seq<Event>, id: Id)
    requires var w := Run(START, events); id in w.calls && w.calls[id].Evaluating? && w.calls[id].prev.Some?
    ensures var call := Run(START, events).calls[id];
      var p, r, c := call.prev.value, call.r, call.c;
      var score := Capped(Total(Signals(Some(p), r, c)));
      && (Raised(p, r, c, NewIp) ==> Raised(p, r, c, IpChange))
      && (Raised(p, r, c, NewDevice) ==> Raised(p, r, c, DeviceMismatch) || p.device.None?)
      && (Raised(p, r, c, CountryChange) ==> score >= 60 && ActionOf(LevelOf(score)) in {RequireStepUp, BlockAndInvalidate})
      && (ActionOf(LevelOf(score)) == BlockAndInvalidate ==> Raised(p, r, c, IpChange) || Raised(p, r, c, ImpossibleTravel))
  {
    RunsStaySane(START, events);
    var call := Run(START, events).calls[id];
    assert SaneCall(call);
    ScoresOfSane(call.prev.value, call.r, call.c);
  }

  lemma ScoresOfSane(p: Context, r: Request, c: Circumstance)
    requires Sane(p)
    ensures var score := Capped(Total(Signals(Some(p), r, c)));
      && (Raised(p, r, c, NewIp) ==> Raised(p, r, c, IpChange))
      && (Raised(p, r, c, NewDevice) ==> Raised(p, r, c, DeviceMismatch) || p.device.None?)
      && (Raised(p, r, c, CountryChange) ==> score >= 60 && ActionOf(LevelOf(score)) in {RequireStepUp, BlockAndInvalidate})
      && (ActionOf(LevelOf(score)) == BlockAndInvalidate ==> Raised(p, r, c, IpChange) || Raised(p, r, c, ImpossibleTravel))
  {
    TotalOfSignals(p, r, c);
  }

  lemma HasMember(signals: seq<Signal>)
    ensures signals != [] ==> exists s :: s in signals
  {
    if signals != [] {
      assert signals[0] in signals;
    }
  }

  /** The context is replaced whatever the action: the same request seen again at once,
  from the same place, raises nothing, even after a block or failed attempts. */
  lemma SecondLookIsClean(prev: Option<Context>, r: Request, c: Circumstance, again: Circumstance)
    requires again.km <= 100.0
    requires prev.Some? ==> Sane(prev.value)
    ensures Signals(Some(Updated(prev, r, c.now)), r, again) == []
  {
    UpdatedIsSane(prev, r, c.now);
    var p := Some(Updated(prev, r, c.now));
    SignalsExactly(p, r, again);
    assert forall s: Signal :: !Raised(p.value, r, again, s);
    HasMember(Signals(p, r, again));
  }

  lemma Speed(km: real, h: real, v: real)
    requires h > 0.0
    ensures km / h > v <==> km > v * h
  {
    var q := km / h;
    assert q * h == km;
    if q > v {
      assert (q - v) * h > 0.0;
    } else {
      assert (v - q) * h >= 0.0;
    }
  }

  /** Between the two moments the user went more than 100 km, and faster than this: a pause
  of less than a minute counts as a minute. */
  predicate Outran(km: real, from: nat, to: nat, kmh: real) {
    var secs := if to > from + 60 then to - from else 60;
    km > 100.0 && km * 3600.0 > kmh * secs as real
  }

  lemma FasterIsOutran(p: Context, c: Circumstance, kmh: real)
    requires kmh > 0.0
    ensures Faster(p, c, kmh) <==> Outran(c.km, p.lastSeen, c.now, kmh)
  {
    var secs := if c.now > p.lastSeen + 60 then c.now - p.lastSeen else 60;
    var h := Hours(p.lastSeen, c.now);
    assert h == secs as real / 3600.0;
    Speed(c.km, h, kmh);
    assert kmh * h * 3600.0 == kmh * secs as real by {
      assert h * 3600.0 == secs as real;
    }
  }

  /** A request is judged by the one before it and the failures since: what an evaluation
  stores makes the next one list exactly these signals. */
  lemma JudgedByTheLast(prev: Option<Context>, r: Request, c: Circumstance, next: Request, soon: Circumstance, s: Signal)
    ensures var p := Updated(prev, r, c.now); var located := r.country.Some? && next.country.Some?;
      s in Signals(Some(p), next, soon) <==> match s
        case IpChange => next.ip != r.ip
        case ImpossibleTravel => located && Outran(soon.km, c.now, soon.now, 950.0)
        case GeoChange => located && Outran(soon.km, c.now, soon.now, 500.0) && !Outran(soon.km, c.now, soon.now, 950.0)
        case CountryChange => located && next.country != r.country && next.ip !in p.knownIps && !Outran(soon.km, c.now, soon.now, 500.0)
        case DeviceMismatch => r.device.Some? && next.device.Some? && next.device != r.device
        case FailedAttempts => false
        case NewDevice => next.device.Some? && next.device.value !in p.knownDevices
        case NewIp => next.ip !in p.knownIps
        case NoHistory => false
  {
    var p := Updated(prev, r, c.now);
    SignalsExactly(Some(p), next, soon);
    FasterIsOutran(p, soon, 950.0);
    FasterIsOutran(p, soon, 500.0);
  }

  /** n failed attempts one after another. */
  function Failures(p: Context, n: nat): Context {
    if n == 0 then p else OneMoreFailure(Failures(p, n - 1))
  }

  lemma {:induction false} FailuresCount(p: Context, n: nat)
    requires p.failedAttempts == 0 && n <= U32_MAX
    ensures Failures(p, n) == p.(failedAttempts := n)
  {
    if n > 0 {
      FailuresCount(p, n - 1);
    }
  }

  /** Three failures since the last evaluation raise the signal, fewer do not, and they
  change nothing else. */
  lemma ThirdFailureCounts(prev: Option<Context>, r: Request, now: nat, n: nat, next: Request, c: Circumstance)
    requires n <= U32_MAX
    ensures var p := Updated(prev, r, now);
      && (FailedAttempts in Signals(Some(Failures(p, n)), next, c) <==> n >= 3)
      && (forall s | s != FailedAttempts :: s in Signals(Some(Failures(p, n)), next, c) <==> s in Signals(Some(p), next, c))
  {
    var p := Updated(prev, r, now);
    FailuresCount(p, n);
    SignalsExactly(Some(p), next, c);
    SignalsExactly(Some(Failures(p, n)), next, c);
  }

  /** An overlapping write loses the other's address: two evaluations that read the same
  context store only the list of the one that writes last. */
  lemma OverlapForgets(w: World, i: Id, j: Id, r: Request, r': Request, c: Circumstance)
    requires i != j && r.user == r'.user && r.ip != r'.ip
    requires r.user in w.contexts ==> r.ip !in w.contexts[r.user].knownIps
    ensures var w' := After(After(After(After(w, Read(i, r, c)), Read(j, r', c)), Write(i, true)), Write(j, true));
      r.user in w'.contexts && r.ip !in w'.contexts[r.user].knownIps
  {
    var prev := Find(w.contexts, r.user);
    assert forall y | y in Remembered(if prev.Some? then prev.value.knownIps else [], r'.ip, MAX_IPS) :: y == r'.ip || (prev.Some? && y in prev.value.knownIps);
  }
}
