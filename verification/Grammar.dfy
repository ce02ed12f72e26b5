/** Collecting grammar issues: matches come rule by rule, a range already reported is not
reported again, and the list is sorted by start at the end.  The regular expressions are
taken as given lists of matches.
*/
module Grammar {
  datatype Kind = Grammar | Style | Passive | IndianEnglish | Wordy

  datatype Issue = Issue(start: nat, end: nat, kind: Kind, original: string, suggestion: string)

  predicate SameRange(a: Issue, b: Issue) {
    a.start == b.start && a.end == b.end
  }

  predicate HasRange(issues: seq<Issue>, m: Issue) {
    exists k | 0 <= k < |issues| :: SameRange(issues[k], m)
  }

  ghost predicate RangesDiffer(issues: seq<Issue>) {
    forall i, j | 0 <= i < j < |issues| :: !SameRange(issues[i], issues[j])
  }

  predicate Ordered(issues: seq<Issue>) {
    forall i, j | 0 <= i < j < |issues| :: issues[i].start <= issues[j].start
  }

  // ---- the sort ----------------------------------------------------------

  /** Into a sorted list, after everything that starts no later. */
  function Inserted(sorted: seq<Issue>, x: Issue): seq<Issue>
    decreases |sorted|
  {
    if sorted == [] then [x]
    else if sorted[|sorted| - 1].start <= x.start then sorted + [x]
    else Inserted(sorted[..|sorted| - 1], x) + [sorted[|sorted| - 1]]
  }

  /** A stable sort by start. */
  function Sorted(issues: seq<Issue>): seq<Issue>
    decreases |issues|
  {
    if issues == [] then [] else Inserted(Sorted(issues[..|issues| - 1]), issues[|issues| - 1])
  }

  lemma {:induction false} InsertedOrdered(sorted: seq<Issue>, x: Issue)
    requires Ordered(sorted)
    ensures Ordered(Inserted(sorted, x)) && multiset(Inserted(sorted, x)) == multiset(sorted) + multiset{x}
    ensures forall y | y in Inserted(sorted, x) :: y == x || y in sorted
    decreases |sorted|
  {
    if sorted != [] {
      var front, last := sorted[..|sorted| - 1], sorted[|sorted| - 1];
      assert sorted == front + [last];
      if last.start > x.start {
        InsertedOrdered(front, x);
        assert forall y | y in Inserted(front, x) :: y.start <= last.start;
      }
    }
  }

  /** Sorting orders and keeps every issue. */
  lemma {:induction false} SortedOrders(issues: seq<Issue>)
    ensures Ordered(Sorted(issues)) && multiset(Sorted(issues)) == multiset(issues)
    decreases |issues|
  {
    if issues != [] {
      var front, last := issues[..|issues| - 1], issues[|issues| - 1];
      assert issues == front + [last];
      SortedOrders(front);
      InsertedOrdered(Sorted(front), last);
    }
  }

  /** Sorting a sorted list moves nothing, equal starts included. */
  lemma {:induction false} SortedTwice(issues: seq<Issue>)
    requires Ordered(issues)
    ensures Sorted(issues) == issues
    decreases |issues|
  {
    if issues != [] {
      var front, last := issues[..|issues| - 1], issues[|issues| - 1];
      assert issues == front + [last];
      SortedTwice(front);
    }
  }

  /** Issues with one start keep their order. */
  function WithStart(issues: seq<Issue>, start: nat): seq<Issue>
    decreases |issues|
  {
    if issues == [] then []
    else WithStart(issues[..|issues| - 1], start) + if issues[|issues| - 1].start == start then [issues[|issues| - 1]] else []
  }

  lemma {:induction false} InsertedStable(sorted: seq<Issue>, x: Issue, start: nat)
    requires Ordered(sorted)
    ensures WithStart(Inserted(sorted, x), start) == WithStart(sorted + [x], start)
    decreases |sorted|
  {
    assert (sorted + [x])[..|sorted|] == sorted;
    if sorted == [] {
      assert sorted + [x] == [x];
    } else if sorted[|sorted| - 1].start > x.start {
      var front, last := sorted[..|sorted| - 1], sorted[|sorted| - 1];
      InsertedStable(front, x, start);
      assert (front + [x])[..|front|] == front;
      assert (Inserted(front, x) + [last])[..|Inserted(front, x)|] == Inserted(front, x);
    }
  }

  lemma {:induction false} SortIsStable(issues: seq<Issue>, start: nat)
    ensures WithStart(Sorted(issues), start) == WithStart(issues, start)
    decreases |issues|
  {
    if issues != [] {
      var front, last := issues[..|issues| - 1], issues[|issues| - 1];
      assert issues == front + [last];
      SortedOrders(front);
      SortIsStable(front, start);
      InsertedStable(Sorted(front), last, start);
      assert (Sorted(front) + [last])[..|Sorted(front)|] == Sorted(front);
    }
  }

  // ---- collecting --------------------------------------------------------

  /** The matches whose range no earlier match had. */
  function FirstOfRange(matches: seq<Issue>): seq<Issue>
    decreases |matches|
  {
    if matches == [] then []
    else
      var before := FirstOfRange(matches[..|matches| - 1]);
      if HasRange(before, matches[|matches| - 1]) then before else before + [matches[|matches| - 1]]
  }

  /** No range twice, no range lost, and only matches. */
  lemma {:induction false} CollectsRanges(matches: seq<Issue>)
    ensures RangesDiffer(FirstOfRange(matches))
    ensures forall m | m in matches :: HasRange(FirstOfRange(matches), m)
    ensures forall m | m in FirstOfRange(matches) :: m in matches
    decreases |matches|
  {
    if matches != [] {
      var front, last := matches[..|matches| - 1], matches[|matches| - 1];
      var before, after := FirstOfRange(front), FirstOfRange(matches);
      CollectsRanges(front);
      assert matches == front + [last];
      forall m | m in matches ensures HasRange(after, m) {
        if m in front {
          var k :| 0 <= k < |before| && SameRange(before[k], m);
          assert after[k] == before[k];
        } else if !HasRange(before, last) {
          assert SameRange(after[|before|], m);
        }
      }
      forall i, j | 0 <= i < j < |after| ensures !SameRange(after[i], after[j]) {
        if j == |before| {
          assert !HasRange(before, last);
          assert after[i] == before[i];
        }
      }
    }
  }

  /** `blank` is whether the text is empty or only white space. */
  method CheckGrammar(blank: bool, matches: seq<Issue>) returns (issues: seq<Issue>)
    ensures issues == if blank then [] else Sorted(FirstOfRange(matches))
    ensures Ordered(issues)
    ensures !blank ==> multiset(issues) == multiset(FirstOfRange(matches))
  {
    if blank {
      return [];
    }
    issues := [];
    for i := 0 to |matches|
      invariant issues == FirstOfRange(matches[..i])
    {
      assert matches[..i + 1][..i] == matches[..i];
      issues := AddIssue(issues, matches[i]);
    }
    assert matches[..|matches|] == matches;
    SortedOrders(issues);
    issues := Sorted(issues);
  }

  method AddIssue(issues: seq<Issue>, m: Issue) returns (after: seq<Issue>)
    ensures after == if HasRange(issues, m) then issues else issues + [m]
  {
    for i := 0 to |issues|
      invariant forall k | 0 <= k < i :: !SameRange(issues[k], m)
    {
      if SameRange(issues[i], m) {
        return issues;
      }
    }
    return issues + [m];
  }

  // ---- ignoring ----------------------------------------------------------

  type Key = (nat, nat, string)

  function KeyOf(issue: Issue): Key {
    (issue.start, issue.end, issue.original)
  }

  function Active(issues: seq<Issue>, ignored: set<Key>): seq<Issue>
    decreases |issues|
  {
    if issues == [] then []
    else (if KeyOf(issues[0]) in ignored then [] else [issues[0]]) + Active(issues[1..], ignored)
  }

  lemma {:induction false} ActiveAreIssues(issues: seq<Issue>, ignored: set<Key>)
    ensures forall y | y in Active(issues, ignored) :: y in issues && KeyOf(y) !in ignored
    decreases |issues|
  {
    if issues != [] {
      ActiveAreIssues(issues[1..], ignored);
    }
  }

  /** Filtering keeps the order, so the overlay's own sort moves nothing. */
  lemma {:induction false} ActiveOrdered(issues: seq<Issue>, ignored: set<Key>)
    requires Ordered(issues)
    ensures Ordered(Active(issues, ignored))
    decreases |issues|
  {
    if issues != [] {
      var rest := Active(issues[1..], ignored);
      ActiveOrdered(issues[1..], ignored);
      ActiveAreIssues(issues[1..], ignored);
      forall j | 0 <= j < |rest| ensures issues[0].start <= rest[j].start {
        assert rest[j] in issues[1..];
      }
    }
  }

  /** What the overlay draws from is in order and unchanged by sorting. */
  lemma ActiveIssuesStay(matches: seq<Issue>, ignored: set<Key>)
    ensures var active := Active(Sorted(FirstOfRange(matches)), ignored);
      Ordered(active) && Sorted(active) == active
  {
    SortedOrders(FirstOfRange(matches));
    ActiveOrdered(Sorted(FirstOfRange(matches)), ignored);
    SortedTwice(Active(Sorted(FirstOfRange(matches)), ignored));
  }
}
