/** The in-memory stand-in for Redis: one locked map whose entries carry an expiry, and
which drops an expired entry only when its own key is touched. */
module MemoryRedis {
  import opened Wrappers
  import opened Decimal

  type Key = int

  datatype Entry = Entry(value: string, expiresAt: Option<nat>)

  /** `now` counts milliseconds on a clock that never goes back. */
  datatype Memory = Memory(now: nat, entries: map<Key, Entry>)

  datatype Op =
    | Get(key: Key)
    | GetDel(key: Key)
    | Exists(key: Key)
    | Set(key: Key, value: string, ttl: nat)
    | SetNx(key: Key, value: string, ttl: nat)
    | Incr(key: Key, ttl: nat)
    | Decr(key: Key)
    | Delete(key: Key)
    | Sleep(ms: nat)

  datatype Reply = Value(value: Option<string>) | Flag(flag: bool) | Number(n: int) | Nothing

  // ---- numbers in strings ------------------------------------------------

  const I64_MAX := 0x7fff_ffff_ffff_ffff

  function Wrapped(n: int): (r: int)
    ensures -I64_MAX - 1 <= r <= I64_MAX
    ensures -I64_MAX - 1 <= n <= I64_MAX ==> r == n
  {
    (n + I64_MAX + 1) % U64 - I64_MAX - 1
  }

  function Printed(n: int): string {
    if n < 0 then "-" + Digits(-n) else Digits(n)
  }

  /** An optional sign, at least one digit, and a value that fits. */
  function Parsed(s: string): Option<int> {
    if s == [] then None
    else
      var signed := s[0] == '-' || s[0] == '+';
      var digits := if signed then s[1..] else s;
      var magnitude := ParsedDigits(digits);
      if digits == [] || magnitude.None? then None
      else
        var n: int := if s[0] == '-' then 0 - magnitude.value else magnitude.value;
        if -I64_MAX - 1 <= n <= I64_MAX then Some(n) else None
  }

  /** Every counter that is written reads back as itself. */
  lemma PrintedParses(n: int)
    requires -I64_MAX - 1 <= n <= I64_MAX
    ensures Parsed(Printed(n)) == Some(n)
  {
    if n < 0 {
      DigitsParse(-n);
      assert Printed(n)[1..] == Digits(-n);
    } else {
      DigitsParse(n);
      assert Digits(n)[0] in Digits(n);
    }
  }

  function CounterOf(value: string): int {
    if Parsed(value).Some? then Parsed(value).value else 0
  }

  // ---- the commands on a plain map ---------------------------------------

  function Deadline(m: Memory, ttl: nat): Option<nat> {
    Some(m.now + ttl * 1000)
  }

  /** What the command does to a map in which nothing is expired. */
  function Plain(m: Memory, op: Op): (Memory, Reply) {
    match op
    case Get(key) => (m, Value(if key in m.entries then Some(m.entries[key].value) else None))
    case GetDel(key) =>
      (m.(entries := m.entries - {key}), Value(if key in m.entries then Some(m.entries[key].value) else None))
    case Exists(key) => (m, Flag(key in m.entries))
    case Set(key, value, ttl) => (m.(entries := m.entries[key := Entry(value, Deadline(m, ttl))]), Nothing)
    case SetNx(key, value, ttl) =>
      if key in m.entries then (m, Flag(false))
      else (m.(entries := m.entries[key := Entry(value, Deadline(m, ttl))]), Flag(true))
    case Incr(key, ttl) =>
      var next := Wrapped((if key in m.entries then CounterOf(m.entries[key].value) else 0) + 1);
      (m.(entries := m.entries[key := Entry(Printed(next), Deadline(m, ttl))]), Number(next % U64))
    case Decr(key) =>
      var below := Wrapped((if key in m.entries then CounterOf(m.entries[key].value) else 0) - 1);
      var next := if below > 0 then below else 0;
      var expiry := if key in m.entries then m.entries[key].expiresAt else None;
      (m.(entries := m.entries[key := Entry(Printed(next), expiry)]), Number(next))
    case Delete(key) => (m.(entries := m.entries - {key}), Number(if key in m.entries then 1 else 0))
    case Sleep(ms) => (m.(now := m.now + ms), Nothing)
  }

  predicate Expired(e: Entry, now: nat) {
    e.expiresAt.Some? && now >= e.expiresAt.value
  }

  // ---- dropping entries: one key at a time, or all at once ---------------

  function Pruned(m: Memory, key: Key): Memory {
    if key in m.entries && Expired(m.entries[key], m.now) then m.(entries := m.entries - {key}) else m
  }

  /** The store as it is: SET and DEL do not look whether the old entry has expired. */
  function Lazy(m: Memory, op: Op): (Memory, Reply) {
    match op
    case Set(_, _, _) => Plain(m, op)
    case Delete(_) => Plain(m, op)
    case Sleep(_) => Plain(m, op)
    case Get(key) => Plain(Pruned(m, key), op)
    case GetDel(key) => Plain(Pruned(m, key), op)
    case Exists(key) => Plain(Pruned(m, key), op)
    case SetNx(key, _, _) => Plain(Pruned(m, key), op)
    case Incr(key, _) => Plain(Pruned(m, key), op)
    case Decr(key) => Plain(Pruned(m, key), op)
  }

  function Live(m: Memory): Memory {
    m.(entries := map k | k in m.entries && !Expired(m.entries[k], m.now) :: m.entries[k])
  }

  /** The store as one would like it: what has expired is gone at once. */
  function Eager(m: Memory, op: Op): (Memory, Reply) {
    var (m', reply) := Plain(m, op);
    (Live(m'), reply)
  }

  /** One command: the same answer and, looking only at what is alive, the same store. */
  lemma StepRefines(m: Memory, op: Op)
    ensures Live(Lazy(m, op).0) == Eager(Live(m), op).0
    ensures !op.Delete? ==> Lazy(m, op).1 == Eager(Live(m), op).1
    ensures op.Delete? ==> (Lazy(m, op).1 != Eager(Live(m), op).1 <==> op.key in m.entries && Expired(m.entries[op.key], m.now))
  {
    match op {
      case Get(key) => PrunedIsInvisible(m, key);
      case GetDel(key) =>
        PrunedIsInvisible(m, key);
        LiveRemoves(Pruned(m, key), key);
        LiveRemoves(Live(m), key);
      case Exists(key) => PrunedIsInvisible(m, key);
      case Set(key, value, ttl) => LivePuts(m, key, Entry(value, Deadline(m, ttl)));
      case SetNx(key, value, ttl) =>
        PrunedIsInvisible(m, key);
        LivePuts(Pruned(m, key), key, Entry(value, Deadline(m, ttl)));
      case Incr(_, _) => CountersRefine(m, op);
      case Decr(_) => CountersRefine(m, op);
      case Delete(key) =>
        LiveRemoves(m, key);
        LiveRemoves(Live(m), key);
      case Sleep(ms) => LiveLater(m, ms);
    }
  }

  lemma CountersRefine(m: Memory, op: Op)
    requires op.Incr? || op.Decr?
    ensures Live(Lazy(m, op).0) == Eager(Live(m), op).0 && Lazy(m, op).1 == Eager(Live(m), op).1
  {
    var p := Pruned(m, op.key);
    PrunedIsInvisible(m, op.key);
    SameEntry(p, Live(m), op);
    LivePuts(p, op.key, Plain(p, op).0.entries[op.key]);
  }

  /** A counter command looks at its own key only. */
  lemma SameEntry(m: Memory, n: Memory, op: Op)
    requires (op.Incr? || op.Decr?) && m.now == n.now && (op.key in m.entries <==> op.key in n.entries)
    requires op.key in m.entries ==> m.entries[op.key] == n.entries[op.key]
    ensures var (m', r) := Plain(m, op); var (n', q) := Plain(n, op);
      && r == q && op.key in m'.entries
      && m' == m.(entries := m.entries[op.key := m'.entries[op.key]])
      && n' == n.(entries := n.entries[op.key := m'.entries[op.key]])
  {
  }

  lemma PrunedIsInvisible(m: Memory, key: Key)
    ensures Live(Pruned(m, key)) == Live(m) == Live(Live(m))
    ensures key in Pruned(m, key).entries <==> key in Live(m).entries
    ensures key in Live(m).entries ==> Pruned(m, key).entries[key] == Live(m).entries[key]
  {
    assert Live(Pruned(m, key)).entries == Live(m).entries == Live(Live(m)).entries;
  }

  lemma LivePuts(m: Memory, key: Key, e: Entry)
    ensures Live(m.(entries := m.entries[key := e])) == Live(Live(m).(entries := Live(m).entries[key := e]))
  {
    assert Live(m.(entries := m.entries[key := e])).entries == Live(Live(m).(entries := Live(m).entries[key := e])).entries;
  }

  lemma LiveRemoves(m: Memory, key: Key)
    ensures Live(m.(entries := m.entries - {key})) == Live(Live(m).(entries := Live(m).entries - {key}))
  {
    assert Live(m.(entries := m.entries - {key})).entries == Live(Live(m).(entries := Live(m).entries - {key})).entries;
  }

  lemma LiveLater(m: Memory, ms: nat)
    ensures Live(m.(now := m.now + ms)) == Live(Live(m).(now := m.now + ms))
  {
    assert forall e: Entry | Expired(e, m.now) :: Expired(e, m.now + ms);
    assert Live(m.(now := m.now + ms)).entries == Live(Live(m).(now := m.now + ms)).entries;
  }

  // ---- whole runs --------------------------------------------------------

  function LazyReplies(m: Memory, ops: seq<Op>): (r: seq<Reply>)
    ensures |r| == |ops|
    decreases |ops|
  {
    if ops == [] then [] else [Lazy(m, ops[0]).1] + LazyReplies(Lazy(m, ops[0]).0, ops[1..])
  }

  function EagerReplies(m: Memory, ops: seq<Op>): (r: seq<Reply>)
    ensures |r| == |ops|
    decreases |ops|
  {
    if ops == [] then [] else [Eager(m, ops[0]).1] + EagerReplies(Eager(m, ops[0]).0, ops[1..])
  }

  /** No sequence of commands and pauses tells the two stores apart, but for the count
  DEL returns. */
  lemma {:induction false} RunRefines(m: Memory, ops: seq<Op>)
    ensures forall i | 0 <= i < |ops| :: !ops[i].Delete? ==> LazyReplies(m, ops)[i] == EagerReplies(Live(m), ops)[i]
    decreases |ops|
  {
    if ops != [] {
      StepRefines(m, ops[0]);
      var m' := Lazy(m, ops[0]).0;
      RunRefines(m', ops[1..]);
      forall i | 0 <= i < |ops| && !ops[i].Delete? ensures LazyReplies(m, ops)[i] == EagerReplies(Live(m), ops)[i] {
        if i > 0 {
          assert ops[i] == ops[1..][i - 1];
          assert LazyReplies(m, ops)[i] == LazyReplies(m', ops[1..])[i - 1];
          assert EagerReplies(Live(m), ops)[i] == EagerReplies(Live(m'), ops[1..])[i - 1];
        }
      }
    }
  }

  // ---- counters ----------------------------------------------------------

  function Count(m: Memory, key: Key): int {
    if key in Live(m).entries then CounterOf(Live(m).entries[key].value) else 0
  }

  /** The count seen after writing a live entry is the number written. */
  lemma WrittenCounts(m: Memory, key: Key, n: int, deadline: Option<nat>)
    requires -I64_MAX - 1 <= n <= I64_MAX && (deadline.Some? ==> m.now < deadline.value)
    ensures Count(m.(entries := m.entries[key := Entry(Printed(n), deadline)]), key) == n
  {
    PrintedParses(n);
  }

  lemma SmallNumbers(n: int)
    requires 0 <= n <= I64_MAX
    ensures Wrapped(n) == n && n % U64 == n
  {
  }

  /** INCR adds one and reports it. */
  lemma IncrCounts(m: Memory, key: Key, ttl: nat)
    requires 0 <= Count(m, key) < I64_MAX && ttl > 0
    ensures Count(Lazy(m, Incr(key, ttl)).0, key) == Count(m, key) + 1
    ensures Lazy(m, Incr(key, ttl)).1 == Number(Count(m, key) + 1)
  {
    var p, next := Pruned(m, key), Count(m, key) + 1;
    PrunedIsInvisible(m, key);
    SmallNumbers(next);
    assert Lazy(m, Incr(key, ttl)) == (p.(entries := p.entries[key := Entry(Printed(next), Deadline(m, ttl))]), Number(next));
    WrittenCounts(p, key, next, Deadline(m, ttl));
  }

  /** DECR takes one off a positive counter and reports what is left. */
  lemma DecrCounts(m: Memory, key: Key)
    requires 0 <= Count(m, key) <= I64_MAX
    ensures var left := if Count(m, key) > 0 then Count(m, key) - 1 else 0;
      Lazy(m, Decr(key)).1 == Number(left) && Count(Lazy(m, Decr(key)).0, key) == left
  {
    PrunedIsInvisible(m, key);
    var left := if Count(m, key) > 0 then Count(m, key) - 1 else 0;
    var p := Pruned(m, key);
    WrittenCounts(p, key, left, if key in p.entries then p.entries[key].expiresAt else None);
  }

  lemma IncrThenDecr(m: Memory, key: Key, ttl: nat)
    requires 0 <= Count(m, key) < I64_MAX && ttl > 0
    ensures Count(Lazy(Lazy(m, Incr(key, ttl)).0, Decr(key)).0, key) == Count(m, key)
  {
    IncrCounts(m, key, ttl);
    DecrCounts(Lazy(m, Incr(key, ttl)).0, key);
  }

  // ---- values ------------------------------------------------------------

  /** What a reader of the key is told. */
  function Seen(m: Memory, key: Key): Option<string> {
    if key in m.entries && (m.entries[key].expiresAt.None? || m.now < m.entries[key].expiresAt.value)
    then Some(m.entries[key].value) else None
  }

  lemma GetTells(m: Memory, key: Key)
    ensures Lazy(m, Get(key)).1 == Value(Seen(m, key)) && Seen(Lazy(m, Get(key)).0, key) == Seen(m, key)
    ensures Lazy(m, Exists(key)).1 == Flag(Seen(m, key).Some?) && Seen(Lazy(m, Exists(key)).0, key) == Seen(m, key)
  {
  }

  /** What SET writes is read for exactly its lifetime. */
  lemma SetLasts(m: Memory, key: Key, value: string, ttl: nat, ms: nat)
    ensures Seen(Lazy(Lazy(m, Set(key, value, ttl)).0, Sleep(ms)).0, key) == if ms < ttl * 1000 then Some(value) else None
  {
  }

  /** SET NX writes exactly where a reader would find nothing, and says so. */
  lemma SetNxWrites(m: Memory, key: Key, value: string, ttl: nat, ms: nat)
    ensures Lazy(m, SetNx(key, value, ttl)).1 == Flag(Seen(m, key).None?)
    ensures var m' := Lazy(Lazy(m, SetNx(key, value, ttl)).0, Sleep(ms)).0;
      if Seen(m, key).None? then Seen(m', key) == if ms < ttl * 1000 then Some(value) else None
      else Seen(m', key) == Seen(Lazy(m, Sleep(ms)).0, key)
  {
  }

  /** GETDEL answers what a reader would have been told, once: a second one, like a reader
  after it, finds nothing. */
  lemma GetDelTakes(m: Memory, key: Key)
    ensures Lazy(m, GetDel(key)).1 == Value(Seen(m, key))
    ensures var m' := Lazy(m, GetDel(key)).0; Seen(m', key) == None && Lazy(m', GetDel(key)).1 == Value(None)
    ensures Seen(Lazy(m, Delete(key)).0, key) == None
  {
  }

  /** No command but a pause changes what is read of another key. */
  lemma OtherKeysStay(m: Memory, op: Op, other: Key)
    requires !op.Sleep? && other != op.key
    ensures Seen(Lazy(m, op).0, other) == Seen(m, other)
  {
  }

  // ---- the object --------------------------------------------------------

  class InMemoryRedis {
    const available: bool
    var now: nat
    var state: map<Key, Entry>

    constructor (available: bool)
      ensures this.available == available && Contents() == Memory(0, map[])
    {
      this.available := available;
      now, state := 0, map[];
    }

    function Contents(): Memory
      reads this
    {
      Memory(now, state)
    }

    method PruneExpired(key: Key)
      modifies this`state
      ensures Contents() == Pruned(old(Contents()), key)
    {
      if key in state {
        var e := state[key];
        if e.expiresAt.Some? && now >= e.expiresAt.value {
          state := state - {key};
        }
      }
    }

    method GetString(key: Key) returns (r: Option<Reply>)
      modifies this`state
      ensures !available ==> r == None && Contents() == old(Contents())
      ensures available ==> r.Some? && (Contents(), r.value) == Lazy(old(Contents()), Get(key))
    {
      if !available {
        return None;
      }
      PruneExpired(key);
      return Some(Value(if key in state then Some(state[key].value) else None));
    }

    method GetAndDelete(key: Key) returns (r: Option<Reply>)
      modifies this`state
      ensures !available ==> r == None && Contents() == old(Contents())
      ensures available ==> r.Some? && (Contents(), r.value) == Lazy(old(Contents()), GetDel(key))
    {
      if !available {
        return None;
      }
      PruneExpired(key);
      r := Some(Value(if key in state then Some(state[key].value) else None));
      state := state - {key};
    }

    method SetStringEx(key: Key, value: string, ttl: nat) returns (r: Option<Reply>)
      modifies this`state
      ensures !available ==> r == None && Contents() == old(Contents())
      ensures available ==> r.Some? && (Contents(), r.value) == Lazy(old(Contents()), Set(key, value, ttl))
    {
      if !available {
        return None;
      }
      state := state[key := Entry(value, Some(now + ttl * 1000))];
      return Some(Nothing);
    }

    method SetStringNxEx(key: Key, value: string, ttl: nat) returns (r: Option<Reply>)
      modifies this`state
      ensures !available ==> r == None && Contents() == old(Contents())
      ensures available ==> r.Some? && (Contents(), r.value) == Lazy(old(Contents()), SetNx(key, value, ttl))
    {
      if !available {
        return None;
      }
      PruneExpired(key);
      if key in state {
        return Some(Flag(false));
      }
      state := state[key := Entry(value, Some(now + ttl * 1000))];
      return Some(Flag(true));
    }

    method AtomicIncrEx(key: Key, ttl: nat) returns (r: Option<Reply>)
      modifies this`state
      ensures !available ==> r == None && Contents() == old(Contents())
      ensures available ==> r.Some? && (Contents(), r.value) == Lazy(old(Contents()), Incr(key, ttl))
    {
      if !available {
        return None;
      }
      PruneExpired(key);
      var deadline := Some(now + ttl * 1000);
      var entry := if key in state then state[key] else Entry("0", deadline);
      ZeroCounts();
      var next := Wrapped(CounterOf(entry.value) + 1);
      state := state[key := Entry(Printed(next), deadline)];
      return Some(Number(next % U64));
    }

    method AtomicDecr(key: Key) returns (r: Option<Reply>)
      modifies this`state
      ensures !available ==> r == None && Contents() == old(Contents())
      ensures available ==> r.Some? && (Contents(), r.value) == Lazy(old(Contents()), Decr(key))
    {
      if !available {
        return None;
      }
      PruneExpired(key);
      var next := DecrPruned(key);
      return Some(Number(next));
    }

    /** The decrement proper, once an expired entry is out of the way. */
    method DecrPruned(key: Key) returns (next: int)
      modifies this`state
      ensures (Contents(), Number(next)) == Plain(old(Contents()), Decr(key))
    {
      var entry := if key in state then state[key] else Entry("0", None);
      ZeroCounts();
      var below := Wrapped(CounterOf(entry.value) - 1);
      next := if below > 0 then below else 0;
      state := state[key := entry.(value := Printed(next))];
    }

    method KeyExists(key: Key) returns (r: Option<Reply>)
      modifies this`state
      ensures !available ==> r == None && Contents() == old(Contents())
      ensures available ==> r.Some? && (Contents(), r.value) == Lazy(old(Contents()), Exists(key))
    {
      if !available {
        return None;
      }
      PruneExpired(key);
      return Some(Flag(key in state));
    }

    method Remove(key: Key) returns (r: Option<Reply>)
      modifies this`state
      ensures !available ==> r == None && Contents() == old(Contents())
      ensures available ==> r.Some? && (Contents(), r.value) == Lazy(old(Contents()), Delete(key))
    {
      if !available {
        return None;
      }
      r := Some(Number(if key in state then 1 else 0));
      state := state - {key};
    }

    method Wait(ms: nat)
      modifies this`now
      ensures Contents() == Lazy(old(Contents()), Sleep(ms)).0
    {
      now := now + ms;
    }
  }

  lemma ZeroCounts()
    ensures CounterOf("0") == 0
  {
    PrintedParses(0);
    assert Printed(0) == "0";
  }
}
