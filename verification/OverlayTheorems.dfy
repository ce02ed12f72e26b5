/** The overlay shows the text it was given, and every mark leads to the issue it shows. */
module OverlayTheorems {
  import opened Wrappers
  import opened Decimal
  import opened Grammar
  import opened Overlay

  // ---- the text ----------------------------------------------------------

  function CharOf(t: Token): string {
    if t.Text? then [t.c] else []
  }

  /** What is left when the tags are deleted. */
  function TextOf(tokens: seq<Token>): string
    decreases |tokens|
  {
    if tokens == [] then [] else CharOf(tokens[0]) + TextOf(tokens[1..])
  }

  lemma {:induction false} TextConcat(a: seq<Token>, b: seq<Token>)
    ensures TextOf(a + b) == TextOf(a) + TextOf(b)
    decreases |a|
  {
    if a == [] {
      assert a + b == b;
    } else {
      assert (a + b)[1..] == a[1..] + b;
      TextConcat(a[1..], b);
    }
  }

  lemma {:induction false} TextOfChars(s: string)
    ensures TextOf(Chars(s)) == s
    decreases |s|
  {
    if s != [] {
      TextOfChars(s[1..]);
      assert [s[0]] + s[1..] == s;
    }
  }

  /** The text of the first k issues. */
  function Written(text: string, issues: seq<Issue>, k: nat): string
    requires k <= |issues|
  {
    if k == 0 then []
    else if !Shown(issues, k - 1) then Written(text, issues, k - 1)
    else Written(text, issues, k - 1) + Slice(text, Drawn(issues, k - 1), issues[k - 1].start) + issues[k - 1].original
  }

  lemma LayoutStep(text: string, issues: seq<Issue>, k: nat) returns (gap: string, tag: string)
    requires 0 < k <= |issues| && Shown(issues, k - 1)
    ensures gap == Slice(text, Drawn(issues, k - 1), issues[k - 1].start)
    ensures Layout(text, issues, k)
      == Layout(text, issues, k - 1) + Chars(gap) + [Tag(tag)] + Chars(issues[k - 1].original) + [Tag(CLOSE_TAG)]
  {
    gap, tag := Slice(text, Drawn(issues, k - 1), issues[k - 1].start), OpenTag(issues[k - 1].kind, k - 1);
  }

  lemma {:induction false} TextOfLayout(text: string, issues: seq<Issue>, k: nat)
    requires k <= |issues|
    ensures TextOf(Layout(text, issues, k)) == Written(text, issues, k)
  {
    if k == 0 {
      return;
    }
    TextOfLayout(text, issues, k - 1);
    if Shown(issues, k - 1) {
      var gap, tag := LayoutStep(text, issues, k);
      TextOfMark(Layout(text, issues, k - 1), gap, tag, issues[k - 1].original);
      return;
    }
  }

  lemma TextOfFive(a: seq<Token>, b: seq<Token>, c: seq<Token>, d: seq<Token>, e: seq<Token>)
    requires TextOf(c) == [] && TextOf(e) == []
    ensures TextOf(a + b + c + d + e) == TextOf(a) + TextOf(b) + TextOf(d)
  {
    TextConcat(a, b);
    TextConcat(a + b, c);
    TextConcat(a + b + c, d);
    TextConcat(a + b + c + d, e);
  }

  lemma TextOfMark(before: seq<Token>, gap: string, tag: string, original: string)
    ensures TextOf(before + Chars(gap) + [Tag(tag)] + Chars(original) + [Tag(CLOSE_TAG)]) == TextOf(before) + gap + original
  {
    TextOfChars(gap);
    TextOfChars(original);
    TextOfTag(tag);
    TextOfTag(CLOSE_TAG);
    TextOfFive(before, Chars(gap), [Tag(tag)], Chars(original), [Tag(CLOSE_TAG)]);
  }

  lemma TextOfTag(tag: string)
    ensures TextOf([Tag(tag)]) == []
  {
    assert [Tag(tag)][1..] == [];
  }

  /** An issue quotes the text it points at. */
  predicate Quotes(text: string, m: Issue) {
    m.original == Slice(text, m.start, m.end)
  }

  /** What every rule guarantees for its own text: a match ends after it starts, and its
  quotation is at most as long as its range; rules 5 and 9 trim, so it may be shorter. */
  predicate NotLonger(text: string, issues: seq<Issue>) {
    forall k | 0 <= k < |issues| :: Fits(text, issues[k])
  }

  predicate Fits(text: string, m: Issue) {
    m.start <= m.end && |m.original| <= |Slice(text, m.start, m.end)|
  }

  /** The first k issues fit. */
  predicate AllFit(text: string, issues: seq<Issue>, k: nat)
    requires k <= |issues|
  {
    k == 0 || (AllFit(text, issues, k - 1) && Fits(text, issues[k - 1]))
  }

  lemma {:induction false} AllFitMeans(text: string, issues: seq<Issue>, k: nat)
    requires k <= |issues| && NotLonger(text, issues)
    ensures AllFit(text, issues, k)
  {
    if k > 0 {
      AllFitMeans(text, issues, k - 1);
    }
  }

  lemma ThreePieces(text: string, a: nat, b: nat, c: nat)
    requires a <= b <= c
    ensures text[..Clip(text, a)] + Slice(text, a, b) + Slice(text, b, c) == text[..Clip(text, c)]
  {
  }

  /** Of the first k issues, those drawn quote their ranges. */
  predicate AllQuote(text: string, issues: seq<Issue>, k: nat)
    requires k <= |issues|
  {
    k == 0 || (AllQuote(text, issues, k - 1) && (Shown(issues, k - 1) ==> Quotes(text, issues[k - 1])))
  }

  lemma {:induction false} AllQuoteMeans(text: string, issues: seq<Issue>, k: nat)
    requires k <= |issues|
    ensures AllQuote(text, issues, k) <==> forall j | 0 <= j < k && Shown(issues, j) :: Quotes(text, issues[j])
  {
    if k > 0 {
      AllQuoteMeans(text, issues, k - 1);
    }
  }

  /** What drawing issue m adds. */
  function Drawing(text: string, w: string, d: nat, m: Issue): string {
    w + Slice(text, d, m.start) + m.original
  }

  lemma WrittenStep(text: string, issues: seq<Issue>, k: nat)
    requires 0 < k <= |issues|
    ensures var before := Written(text, issues, k - 1);
      Written(text, issues, k) == if Shown(issues, k - 1) then Drawing(text, before, Drawn(issues, k - 1), issues[k - 1]) else before
    ensures Drawn(issues, k) == if Shown(issues, k - 1) then issues[k - 1].end else Drawn(issues, k - 1)
    ensures Shown(issues, k - 1) <==> Drawn(issues, k - 1) <= issues[k - 1].start
  {
  }

  lemma QuoteFits(text: string, w: string, d: nat, m: Issue)
    requires w == text[..Clip(text, d)] && d <= m.start && Fits(text, m) && Quotes(text, m)
    ensures Drawing(text, w, d, m) == text[..Clip(text, m.end)]
  {
    ThreePieces(text, d, m.start, m.end);
  }

  lemma {:induction false} QuotedIsWritten(text: string, issues: seq<Issue>, k: nat)
    requires k <= |issues| && AllFit(text, issues, k)
    requires AllQuote(text, issues, k)
    ensures Written(text, issues, k) == text[..Clip(text, Drawn(issues, k))]
  {
    if k > 0 {
      QuotedIsWritten(text, issues, k - 1);
      WrittenStep(text, issues, k);
      if Shown(issues, k - 1) {
        QuoteFits(text, Written(text, issues, k - 1), Drawn(issues, k - 1), issues[k - 1]);
      }
    }
  }

  lemma DrawingIsShort(text: string, w: string, d: nat, m: Issue)
    requires |w| <= Clip(text, d) && d <= m.start && Fits(text, m)
    ensures |Drawing(text, w, d, m)| <= Clip(text, m.end)
  {
    assert |Slice(text, d, m.start)| == Clip(text, m.start) - Clip(text, d);
    assert |Slice(text, m.start, m.end)| == Clip(text, m.end) - Clip(text, m.start);
  }

  lemma {:induction false} WrittenIsShort(text: string, issues: seq<Issue>, k: nat)
    requires k <= |issues| && AllFit(text, issues, k)
    ensures |Written(text, issues, k)| <= Clip(text, Drawn(issues, k))
  {
    if k > 0 {
      WrittenIsShort(text, issues, k - 1);
      WrittenStep(text, issues, k);
      if Shown(issues, k - 1) {
        DrawingIsShort(text, Written(text, issues, k - 1), Drawn(issues, k - 1), issues[k - 1]);
      }
    }
  }

  lemma {:induction false} WrittenIsQuoted(text: string, issues: seq<Issue>, k: nat)
    requires k <= |issues| && AllFit(text, issues, k)
    requires Written(text, issues, k) == text[..Clip(text, Drawn(issues, k))]
    ensures AllQuote(text, issues, k)
  {
    if k > 0 {
      WrittenIsShort(text, issues, k - 1);
      WrittenStep(text, issues, k);
      if Shown(issues, k - 1) {
        LastQuote(text, Written(text, issues, k - 1), Drawn(issues, k - 1), issues[k - 1]);
      }
      WrittenIsQuoted(text, issues, k - 1);
    }
  }

  /** Lengths leave no slack, so the pieces match one by one. */
  lemma LastQuote(text: string, w: string, d: nat, m: Issue)
    requires |w| <= Clip(text, d) && d <= m.start && Fits(text, m)
    requires Drawing(text, w, d, m) == text[..Clip(text, m.end)]
    ensures w == text[..Clip(text, d)] && Quotes(text, m)
  {
    var a, b, c := Clip(text, d), Clip(text, m.start), Clip(text, m.end);
    var whole := Drawing(text, w, d, m);
    assert |w| + (b - a) + |m.original| == c;
    assert whole[..a] == w && text[..c][..a] == text[..a];
    assert whole[b..] == m.original && text[..c][b..] == text[b..c];
  }

  /** Deleting the tags and undoing the escapes gives the text back exactly when every
  issue that is drawn quotes the text it points at. */
  lemma TextKeptExactlyWhen(text: string, issues: seq<Issue>)
    requires NotLonger(text, issues)
    ensures TextOf(Page(text, issues)) == text
      <==> forall k | 0 <= k < |issues| && Shown(issues, k) :: Quotes(text, issues[k])
  {
    var n := |issues|;
    var d, w := Clip(text, Drawn(issues, n)), Written(text, issues, n);
    TextConcat(Layout(text, issues, n), Chars(Slice(text, Drawn(issues, n), |text|)));
    TextOfLayout(text, issues, n);
    TextOfChars(Slice(text, Drawn(issues, n), |text|));
    assert Slice(text, Drawn(issues, n), |text|) == text[d..];
    assert TextOf(Page(text, issues)) == w + text[d..];
    AllQuoteMeans(text, issues, n);
    KeptExactlyWhen(text, issues, w, d);
  }

  lemma KeptExactlyWhen(text: string, issues: seq<Issue>, w: string, d: nat)
    requires NotLonger(text, issues) && w == Written(text, issues, |issues|) && d == Clip(text, Drawn(issues, |issues|))
    ensures w + text[d..] == text <==> AllQuote(text, issues, |issues|)
  {
    var n := |issues|;
    AllFitMeans(text, issues, n);
    assert text[..d] + text[d..] == text;
    if AllQuote(text, issues, n) {
      QuotedIsWritten(text, issues, n);
    }
    if w + text[d..] == text {
      WrittenIsShort(text, issues, n);
      assert |w| == d;
      assert (w + text[d..])[..d] == w;
      WrittenIsQuoted(text, issues, n);
    }
  }

  /** The same of the string `GetHighlightedHtml` returns: read as HTML, it shows the text
  exactly when every issue drawn, in sorted order, quotes its range. */
  lemma HtmlKeepsTextExactlyWhen(text: string, issues: seq<Issue>, html: string)
    requires NotLonger(text, issues) && Tokens(html) == Page(text, Sorted(issues))
    ensures TextOf(Tokens(html)) == text
      <==> forall k | 0 <= k < |Sorted(issues)| && Shown(Sorted(issues), k) :: Quotes(text, Sorted(issues)[k])
  {
    SortedOrders(issues);
    forall k | 0 <= k < |Sorted(issues)|
      ensures Fits(text, Sorted(issues)[k])
    {
      assert Sorted(issues)[k] in multiset(Sorted(issues));
      assert Sorted(issues)[k] in issues;
    }
    TextKeptExactlyWhen(text, Sorted(issues));
  }

  /** What trimming does: an issue whose range starts with a space and whose quotation does
  not, once drawn, loses the text. */
  lemma TrimmedQuoteLosesText(text: string, issues: seq<Issue>, k: nat)
    requires NotLonger(text, issues) && k < |issues| && Shown(issues, k)
    requires var s := Slice(text, issues[k].start, issues[k].end); s != [] && s[0] == ' '
    requires issues[k].original != [] ==> issues[k].original[0] != ' '
    ensures TextOf(Page(text, issues)) != text
  {
    TextKeptExactlyWhen(text, issues);
    assert !Quotes(text, issues[k]);
  }

  /** Rule 9 on two short sentences: the second starts with the space after the first, its
  quotation is the word without it, and the space is gone from the overlay. */
  lemma RuleNineLosesTheSpace(text: string, m: Issue)
    requires text == "I go. I eat." && m == Issue(5, 6, Style, "I", "I")
    ensures TextOf(Page(text, [m])) != text
  {
    assert Slice(text, 5, 6) == " ";
    assert Drawn([m], 0) == 0 && Shown([m], 0);
    TrimmedQuoteLosesText(text, [m], 0);
  }

  // ---- the marks ---------------------------------------------------------

  /** A mark: its opening tag and the text inside. */
  datatype Mark = Mark(tag: string, content: string)

  function Leading(tokens: seq<Token>): string
    decreases |tokens|
  {
    if tokens == [] || tokens[0].Tag? then [] else [tokens[0].c] + Leading(tokens[1..])
  }

  function Marks(tokens: seq<Token>): seq<Mark>
    decreases |tokens|
  {
    if tokens == [] then []
    else if tokens[0].Tag? && tokens[0].text != CLOSE_TAG then [Mark(tokens[0].text, Leading(tokens[1..]))] + Marks(tokens[1..])
    else Marks(tokens[1..])
  }

  lemma {:induction false} CharsCarryNoMark(s: string, rest: seq<Token>)
    ensures Marks(Chars(s) + rest) == Marks(rest)
    ensures rest != [] && rest[0].Tag? ==> Leading(Chars(s) + rest) == s
    decreases |s|
  {
    if s == [] {
      assert Chars(s) + rest == rest;
    } else {
      assert (Chars(s) + rest)[1..] == Chars(s[1..]) + rest;
      CharsCarryNoMark(s[1..], rest);
      assert [s[0]] + s[1..] == s;
    }
  }

  function MarkAt(issues: seq<Issue>, k: nat): Mark
    requires k < |issues|
  {
    Mark(OpenTag(issues[k].kind, k), issues[k].original)
  }

  /** Drawing stands at the end of an issue drawn before, none of which reaches further. */
  lemma {:induction false} DrawnIsLatest(issues: seq<Issue>, k: nat)
    requires k <= |issues| && forall j | 0 <= j < |issues| :: issues[j].start <= issues[j].end
    ensures forall j | 0 <= j < k && Shown(issues, j) :: issues[j].end <= Drawn(issues, k)
    ensures Drawn(issues, k) == 0 || exists j :: 0 <= j < k && Shown(issues, j) && issues[j].end == Drawn(issues, k)
    decreases k
  {
    if k > 0 {
      DrawnIsLatest(issues, k - 1);
    }
  }

  /** An issue is drawn if and only if it overlaps none that was drawn before it. */
  lemma ShownExactlyWhen(issues: seq<Issue>, k: nat)
    requires k < |issues| && forall j | 0 <= j < |issues| :: issues[j].start <= issues[j].end
    ensures Shown(issues, k) <==> forall j | 0 <= j < k && Shown(issues, j) :: issues[j].end <= issues[k].start
  {
    DrawnIsLatest(issues, k);
  }

  function ShownMarks(issues: seq<Issue>, k: nat): seq<Mark>
    requires k <= |issues|
  {
    if k == 0 then []
    else ShownMarks(issues, k - 1) + if Shown(issues, k - 1) then [MarkAt(issues, k - 1)] else []
  }

  lemma OneMark(gap: string, tag: string, original: string, rest: seq<Token>)
    requires tag != CLOSE_TAG
    ensures Marks(Chars(gap) + ([Tag(tag)] + (Chars(original) + ([Tag(CLOSE_TAG)] + rest)))) == [Mark(tag, original)] + Marks(rest)
  {
    var closing := [Tag(CLOSE_TAG)] + rest;
    var inner := Chars(original) + closing;
    CharsCarryNoMark(gap, [Tag(tag)] + inner);
    CharsCarryNoMark(original, closing);
    assert ([Tag(tag)] + inner)[1..] == inner;
    assert closing[1..] == rest;
  }

  lemma Regroup(a: seq<Token>, b: seq<Token>, c: seq<Token>, d: seq<Token>, e: seq<Token>, rest: seq<Token>)
    ensures (a + b + c + d + e) + rest == a + (b + (c + (d + (e + rest))))
  {
  }

  function MarkTokens(gap: string, tag: string, original: string, rest: seq<Token>): seq<Token> {
    Chars(gap) + ([Tag(tag)] + (Chars(original) + ([Tag(CLOSE_TAG)] + rest)))
  }

  lemma MarksOfOneMore(before: seq<Token>, marks: seq<Mark>, gap: string, tag: string, original: string, rest: seq<Token>)
    requires tag != CLOSE_TAG
    requires Marks(before + MarkTokens(gap, tag, original, rest)) == marks + Marks(MarkTokens(gap, tag, original, rest))
    ensures Marks((before + Chars(gap) + [Tag(tag)] + Chars(original) + [Tag(CLOSE_TAG)]) + rest)
         == (marks + [Mark(tag, original)]) + Marks(rest)
  {
    Regroup(before, Chars(gap), [Tag(tag)], Chars(original), [Tag(CLOSE_TAG)], rest);
    OneMark(gap, tag, original, rest);
    assert marks + ([Mark(tag, original)] + Marks(rest)) == (marks + [Mark(tag, original)]) + Marks(rest);
  }

  lemma {:induction false} MarksOfLayout(text: string, issues: seq<Issue>, k: nat, rest: seq<Token>)
    requires k <= |issues|
    ensures Marks(Layout(text, issues, k) + rest) == ShownMarks(issues, k) + Marks(rest)
  {
    if k == 0 {
      assert Layout(text, issues, k) + rest == rest;
    } else if !Shown(issues, k - 1) {
      MarksOfLayout(text, issues, k - 1, rest);
    } else {
      var m := issues[k - 1];
      var gap, tag := Slice(text, Drawn(issues, k - 1), m.start), OpenTag(m.kind, k - 1);
      assert tag[0] == 'm';
      MarksOfLayout(text, issues, k - 1, MarkTokens(gap, tag, m.original, rest));
      MarksOfOneMore(Layout(text, issues, k - 1), ShownMarks(issues, k - 1), gap, tag, m.original, rest);
    }
  }

  // ---- the click ---------------------------------------------------------

  function AfterLast(s: string, c: char): string
    decreases |s|
  {
    if s == [] || s[|s| - 1] == c then [] else AfterLast(s[..|s| - 1], c) + [s[|s| - 1]]
  }

  /** The number in the tag's last attribute. */
  function IndexOf(tag: string): Option<nat> {
    if tag == [] then None else ParsedDigits(AfterLast(tag[..|tag| - 1], '"'))
  }

  lemma {:induction false} AfterLastFound(front: string, c: char, s: string)
    requires c !in s
    ensures AfterLast(front + [c] + s, c) == s
    decreases |s|
  {
    var whole := front + [c] + s;
    if s == [] {
      assert whole[|whole| - 1] == c;
    } else {
      AfterLastFound(front, c, s[..|s| - 1]);
      assert whole[..|whole| - 1] == front + [c] + s[..|s| - 1];
      assert whole[|whole| - 1] == s[|s| - 1];
      assert s[..|s| - 1] + [s[|s| - 1]] == s;
    }
  }

  lemma IndexRead(kind: Kind, k: nat)
    ensures IndexOf(OpenTag(kind, k)) == Some(k)
  {
    DigitsParse(k);
    assert '"' !in Digits(k);
    var front := "mark class=\"wr-grammar-" + KindName(kind) + "\" data-issue-index=";
    var tag := OpenTag(kind, k);
    assert tag == front + ['"'] + Digits(k) + ['"'];
    assert tag[..|tag| - 1] == front + ['"'] + Digits(k);
    AfterLastFound(front, '"', Digits(k));
  }

  /** The issue a click on this mark selects. */
  predicate Selects(issues: seq<Issue>, mark: Mark, k: nat) {
    IndexOf(mark.tag) == Some(k) && k < |issues| && Shown(issues, k) && issues[k].original == mark.content
  }

  ghost predicate SelectsOne(issues: seq<Issue>, mark: Mark) {
    exists k :: Selects(issues, mark, k)
  }

  ghost predicate HasMark(issues: seq<Issue>, marks: seq<Mark>, k: nat) {
    exists i | 0 <= i < |marks| :: Selects(issues, marks[i], k)
  }

  lemma MarkSelects(issues: seq<Issue>, k: nat)
    requires k < |issues| && Shown(issues, k)
    ensures Selects(issues, MarkAt(issues, k), k)
  {
    IndexRead(issues[k].kind, k);
  }

  /** The numbers of the issues drawn. */
  function ShownIndexes(issues: seq<Issue>, n: nat): (r: seq<nat>)
    requires n <= |issues|
    ensures forall i | 0 <= i < |r| :: r[i] < n && Shown(issues, r[i])
  {
    if n == 0 then [] else ShownIndexes(issues, n - 1) + if Shown(issues, n - 1) then [n - 1] else []
  }

  lemma {:induction false} ShownIndexesAll(issues: seq<Issue>, n: nat, k: nat)
    requires k < n <= |issues| && Shown(issues, k)
    ensures k in ShownIndexes(issues, n)
    decreases n
  {
    if k < n - 1 {
      ShownIndexesAll(issues, n - 1, k);
    }
  }

  lemma {:induction false} MarksAtIndexes(issues: seq<Issue>, n: nat)
    requires n <= |issues|
    ensures |ShownMarks(issues, n)| == |ShownIndexes(issues, n)|
    ensures forall i | 0 <= i < |ShownMarks(issues, n)| :: ShownMarks(issues, n)[i] == MarkAt(issues, ShownIndexes(issues, n)[i])
  {
    if n > 0 {
      MarksAtIndexes(issues, n - 1);
    }
  }

  lemma ShownMarksSelect(issues: seq<Issue>)
    ensures forall i | 0 <= i < |ShownMarks(issues, |issues|)| :: SelectsOne(issues, ShownMarks(issues, |issues|)[i])
    ensures forall k | 0 <= k < |issues| && Shown(issues, k) :: HasMark(issues, ShownMarks(issues, |issues|), k)
  {
    var marks, indexes := ShownMarks(issues, |issues|), ShownIndexes(issues, |issues|);
    MarksAtIndexes(issues, |issues|);
    forall i | 0 <= i < |marks| ensures SelectsOne(issues, marks[i]) {
      MarkSelects(issues, indexes[i]);
    }
    forall k | 0 <= k < |issues| && Shown(issues, k) ensures HasMark(issues, marks, k) {
      ShownIndexesAll(issues, |issues|, k);
      var i :| 0 <= i < |indexes| && indexes[i] == k;
      MarkSelects(issues, k);
      assert Selects(issues, marks[i], k);
    }
  }

  lemma MarksOfPage(text: string, issues: seq<Issue>)
    ensures Marks(Page(text, issues)) == ShownMarks(issues, |issues|)
  {
    var slice := Slice(text, Drawn(issues, |issues|), |text|);
    MarksOfLayout(text, issues, |issues|, Chars(slice));
    CharsCarryNoMark(slice, []);
    assert Chars(slice) + [] == Chars(slice);
  }

  /** In the overlay of the issues still active, every mark's index finds, in the very list
  the click handler looks into, the issue whose text the mark shows; and every issue
  drawn has its mark. */
  lemma MarksFindTheirIssues(text: string, matches: seq<Issue>, ignored: set<Key>)
    ensures var issues := Active(Sorted(FirstOfRange(matches)), ignored);
      var marks := Marks(Page(text, Sorted(issues)));
      && (forall i | 0 <= i < |marks| :: SelectsOne(issues, marks[i]))
      && (forall k | 0 <= k < |issues| && Shown(issues, k) :: HasMark(issues, marks, k))
  {
    var issues := Active(Sorted(FirstOfRange(matches)), ignored);
    ActiveIssuesStay(matches, ignored);
    MarksOfPage(text, issues);
    ShownMarksSelect(issues);
  }
}
