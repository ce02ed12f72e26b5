/** Decimal digits, as counters in Redis and indexes in HTML attributes carry them. */
module Decimal {
  import opened Wrappers

  function Digits(n: nat): (s: string)
    ensures s != []
  {
    var last := [('0' as int + n % 10) as char];
    if n < 10 then last else Digits(n / 10) + last
  }

  function ParsedDigits(s: string): Option<nat>
    decreases |s|
  {
    if s == [] then Some(0)
    else
      var c := s[|s| - 1];
      var front := ParsedDigits(s[..|s| - 1]);
      if front.None? || !('0' <= c <= '9') then None else Some(front.value * 10 + (c as int - '0' as int))
  }

  const U64 := 0x1_0000_0000_0000_0000

  /** What `parse::<u64>` accepts: an optional plus sign, digits, and a value that fits. */
  function ParsedU64(s: string): Option<nat> {
    var digits := if s != [] && s[0] == '+' then s[1..] else s;
    var n := ParsedDigits(digits);
    if digits == [] || n.None? || n.value >= U64 then None else n
  }

  /** Reading back what was printed. */
  lemma {:induction false} DigitsParse(n: nat)
    ensures ParsedDigits(Digits(n)) == Some(n)
    ensures forall c | c in Digits(n) :: '0' <= c <= '9'
  {
    var s := Digits(n);
    if n < 10 {
      assert s[..|s| - 1] == [];
    } else {
      DigitsParse(n / 10);
      assert s[..|s| - 1] == Digits(n / 10);
    }
  }
}
