/** The grammar overlay: text and issues become HTML with a mark per issue, and a click on
a mark leads back to its issue.

A small reader stands for the browser: it turns HTML into tags and characters and
resolves the five entities the escaping uses.
*/
module Overlay {
  import opened Wrappers
  import opened Decimal
  import opened Grammar

  // ---- escaping ----------------------------------------------------------

  /** String.replace with a global pattern of one character. */
  function Replaced(s: string, c: char, by': string): string
    decreases |s|
  {
    if s == [] then [] else (if s[0] == c then by' else [s[0]]) + Replaced(s[1..], c, by')
  }

  function EscapeHtml(s: string): string {
    Replaced(Replaced(Replaced(Replaced(Replaced(s, '&', "&amp;"), '<', "&lt;"), '>', "&gt;"), '"', "&quot;"), '\'', "&#039;")
  }

  /** The escape of one character. */
  function Entity(c: char): string {
    if c == '&' then "&amp;" else if c == '<' then "&lt;" else if c == '>' then "&gt;"
    else if c == '"' then "&quot;" else if c == '\'' then "&#039;" else [c]
  }

  function Escaped(s: string): string
    decreases |s|
  {
    if s == [] then [] else Entity(s[0]) + Escaped(s[1..])
  }

  lemma {:induction false} ReplacedConcat(a: string, b: string, c: char, r: string)
    ensures Replaced(a + b, c, r) == Replaced(a, c, r) + Replaced(b, c, r)
    decreases |a|
  {
    if a == [] {
      assert a + b == b;
    } else {
      assert (a + b)[1..] == a[1..] + b;
      ReplacedConcat(a[1..], b, c, r);
    }
  }

  lemma {:induction false} ReplacedAbsent(s: string, c: char, r: string)
    requires c !in s
    ensures Replaced(s, c, r) == s
    decreases |s|
  {
    if s != [] {
      ReplacedAbsent(s[1..], c, r);
    }
  }

  lemma ReplacedOne(x: char, c: char, r: string)
    ensures Replaced([x], c, r) == if x == c then r else [x]
  {
    assert [x][1..] == [];
    assert Replaced([x][1..], c, r) == [];
  }

  /** One pass over a character that earlier passes have escaped already, or not yet. */
  lemma Pass(x: char, done: bool, c: char)
    requires done ==> c !in Entity(x)
    ensures Replaced(if done then Entity(x) else [x], c, Entity(c)) == if done || x == c then Entity(x) else [x]
  {
    if done {
      ReplacedAbsent(Entity(x), c, Entity(c));
    } else {
      ReplacedOne(x, c, Entity(c));
    }
  }

  predicate Special(c: char) {
    c == '&' || c == '<' || c == '>' || c == '"' || c == '\''
  }

  lemma EntitiesArePlain(x: char, c: char)
    requires Special(x) && Special(c) && c != '&'
    ensures c !in Entity(x)
  {
  }

  /** The five passes one after another escape a single character once. */
  lemma EscapeOne(x: char)
    ensures EscapeHtml([x]) == Entity(x)
  {
    if Special(x) {
      EntitiesArePlain(x, '<');
      EntitiesArePlain(x, '>');
      EntitiesArePlain(x, '"');
      EntitiesArePlain(x, '\'');
    }
    Pass(x, false, '&');
    Pass(x, x == '&', '<');
    Pass(x, x == '&' || x == '<', '>');
    Pass(x, x == '&' || x == '<' || x == '>', '"');
    Pass(x, x == '&' || x == '<' || x == '>' || x == '"', '\'');
  }

  lemma EscapeConcat(a: string, b: string)
    ensures EscapeHtml(a + b) == EscapeHtml(a) + EscapeHtml(b)
  {
    var a1, b1 := Replaced(a, '&', "&amp;"), Replaced(b, '&', "&amp;");
    var a2, b2 := Replaced(a1, '<', "&lt;"), Replaced(b1, '<', "&lt;");
    var a3, b3 := Replaced(a2, '>', "&gt;"), Replaced(b2, '>', "&gt;");
    var a4, b4 := Replaced(a3, '"', "&quot;"), Replaced(b3, '"', "&quot;");
    ReplacedConcat(a, b, '&', "&amp;");
    ReplacedConcat(a1, b1, '<', "&lt;");
    ReplacedConcat(a2, b2, '>', "&gt;");
    ReplacedConcat(a3, b3, '"', "&quot;");
    ReplacedConcat(a4, b4, '\'', "&#039;");
  }

  /** Five sequential replacements are one escape per character: because `&` goes first,
  no pass touches what an earlier one wrote. */
  lemma {:induction false} EscapeIsPerCharacter(s: string)
    ensures EscapeHtml(s) == Escaped(s)
    decreases |s|
  {
    if s != [] {
      assert s == [s[0]] + s[1..];
      EscapeConcat([s[0]], s[1..]);
      EscapeOne(s[0]);
      EscapeIsPerCharacter(s[1..]);
    }
  }

  // ---- the reader --------------------------------------------------------

  datatype Token = Tag(text: string) | Text(c: char)

  /** Up to and without the first occurrence of c. */
  function Until(s: string, c: char): (r: string)
    ensures |r| <= |s|
    decreases |s|
  {
    if s == [] || s[0] == c then [] else [s[0]] + Until(s[1..], c)
  }

  /** The character an entity at the front of s stands for, if there is one. */
  function EntityAt(s: string): Option<char> {
    if "&amp;" <= s then Some('&') else if "&lt;" <= s then Some('<') else if "&gt;" <= s then Some('>')
    else if "&quot;" <= s then Some('"') else if "&#039;" <= s then Some('\'') else None
  }

  function Tokens(s: string): seq<Token>
    decreases |s|
  {
    if s == [] then []
    else if s[0] == '<' then
      var tag := Until(s[1..], '>');
      [Tag(tag)] + if |s| > |tag| + 2 then Tokens(s[|tag| + 2..]) else []
    else if EntityAt(s).Some? then
      var c := EntityAt(s).value;
      EntityFront(s);
      [Text(c)] + Tokens(s[|Entity(c)|..])
    else [Text(s[0])] + Tokens(s[1..])
  }

  lemma EntityFront(s: string)
    requires EntityAt(s).Some?
    ensures Entity(EntityAt(s).value) <= s && |Entity(EntityAt(s).value)| > 0
  {
  }

  function Chars(s: string): seq<Token>
    decreases |s|
  {
    if s == [] then [] else [Text(s[0])] + Chars(s[1..])
  }

  /** A piece of HTML reads as these tokens whatever follows it. */
  ghost predicate Reads(html: string, tokens: seq<Token>) {
    forall rest :: Tokens(html + rest) == tokens + Tokens(rest)
  }

  lemma ReadsOn(a: string, ta: seq<Token>, b: string, tb: seq<Token>, rest: string)
    requires Tokens(a + (b + rest)) == ta + Tokens(b + rest) && Tokens(b + rest) == tb + Tokens(rest)
    ensures Tokens(a + b + rest) == ta + tb + Tokens(rest)
  {
    assert a + b + rest == a + (b + rest);
    assert ta + (tb + Tokens(rest)) == ta + tb + Tokens(rest);
  }

  lemma ReadsConcat(a: string, ta: seq<Token>, b: string, tb: seq<Token>)
    requires Reads(a, ta) && Reads(b, tb)
    ensures Reads(a + b, ta + tb)
  {
    forall rest ensures Tokens(a + b + rest) == ta + tb + Tokens(rest) {
      ReadsOn(a, ta, b, tb, rest);
    }
  }

  lemma EntityReads(c: char, rest: string)
    ensures Tokens(Entity(c) + rest) == [Text(c)] + Tokens(rest)
  {
    var s := Entity(c) + rest;
    assert s[|Entity(c)|..] == rest;
    if c in "&<>\"'" {
      assert Entity(c) <= s && s[0] == '&';
      assert s[1] == Entity(c)[1] && s[2] == Entity(c)[2];
      assert EntityAt(s) == Some(c);
    } else {
      assert s[0] == c && EntityAt(s).None?;
    }
  }

  lemma {:induction false} EscapedReads(s: string)
    ensures Reads(Escaped(s), Chars(s))
    decreases |s|
  {
    if s == [] {
      forall rest ensures Tokens(Escaped(s) + rest) == Chars(s) + Tokens(rest) {
        assert Escaped(s) + rest == rest;
        assert Chars(s) + Tokens(rest) == Tokens(rest);
      }
    } else {
      EscapedReads(s[1..]);
      forall rest ensures Tokens(Entity(s[0]) + rest) == [Text(s[0])] + Tokens(rest) {
        EntityReads(s[0], rest);
      }
      ReadsConcat(Entity(s[0]), [Text(s[0])], Escaped(s[1..]), Chars(s[1..]));
    }
  }

  lemma {:induction false} UntilFound(tag: string, c: char, rest: string)
    requires c !in tag
    ensures Until(tag + [c] + rest, c) == tag
    decreases |tag|
  {
    if tag != [] {
      assert (tag + [c] + rest)[1..] == tag[1..] + [c] + rest;
      UntilFound(tag[1..], c, rest);
      assert [tag[0]] + tag[1..] == tag;
    }
  }

  lemma TagReads(tag: string)
    requires '>' !in tag
    ensures Reads("<" + tag + ">", [Tag(tag)])
  {
    forall rest ensures Tokens("<" + tag + ">" + rest) == [Tag(tag)] + Tokens(rest) {
      var s := "<" + tag + ">" + rest;
      assert s[1..] == tag + ['>'] + rest;
      UntilFound(tag, '>', rest);
      assert s[|tag| + 2..] == rest;
    }
  }

  // ---- the page ----------------------------------------------------------

  function KindName(kind: Kind): string {
    match kind
    case Grammar => "grammar"
    case Style => "style"
    case Passive => "passive"
    case IndianEnglish => "indian_english"
    case Wordy => "wordy"
  }

  function OpenTag(kind: Kind, index: nat): string {
    "mark class=\"wr-grammar-" + KindName(kind) + "\" data-issue-index=\"" + Digits(index) + "\""
  }

  const CLOSE_TAG := "/mark"

  /** Where drawing stands after the first k issues: issues that start earlier are skipped. */
  function Drawn(issues: seq<Issue>, k: nat): nat
    requires k <= |issues|
  {
    if k == 0 then 0
    else if issues[k - 1].start < Drawn(issues, k - 1) then Drawn(issues, k - 1)
    else issues[k - 1].end
  }

  predicate Shown(issues: seq<Issue>, k: nat)
    requires k < |issues|
  {
    issues[k].start >= Drawn(issues, k)
  }

  function Clip(text: string, n: nat): nat {
    if n < |text| then n else |text|
  }

  /** String.slice: both ends are clipped to the text, which may be newer than the issues. */
  function Slice(text: string, from: nat, to: nat): string {
    if Clip(text, from) < Clip(text, to) then text[Clip(text, from)..Clip(text, to)] else []
  }

  /** What the reader should see of the first k issues. */
  function Layout(text: string, issues: seq<Issue>, k: nat): seq<Token>
    requires k <= |issues|
  {
    if k == 0 then []
    else
      var before, m := Layout(text, issues, k - 1), issues[k - 1];
      if !Shown(issues, k - 1) then before
      else before + Chars(Slice(text, Drawn(issues, k - 1), m.start)) + [Tag(OpenTag(m.kind, k - 1))] + Chars(m.original) + [Tag(CLOSE_TAG)]
  }

  function Page(text: string, issues: seq<Issue>): seq<Token> {
    Layout(text, issues, |issues|) + Chars(Slice(text, Drawn(issues, |issues|), |text|))
  }

  lemma MarkReads(kind: Kind, index: nat, original: string)
    ensures Reads("<" + OpenTag(kind, index) + ">" + Escaped(original) + "</mark>",
                  [Tag(OpenTag(kind, index))] + Chars(original) + [Tag(CLOSE_TAG)])
  {
    DigitsParse(index);
    assert '>' !in Digits(index);
    assert '>' !in KindName(kind);
    TagReads(OpenTag(kind, index));
    EscapedReads(original);
    TagReads(CLOSE_TAG);
    assert "<" + CLOSE_TAG + ">" == "</mark>";
    ReadsConcat("<" + OpenTag(kind, index) + ">", [Tag(OpenTag(kind, index))], Escaped(original), Chars(original));
    ReadsConcat("<" + OpenTag(kind, index) + ">" + Escaped(original), [Tag(OpenTag(kind, index))] + Chars(original), "</mark>", [Tag(CLOSE_TAG)]);
  }

  lemma NothingReads()
    ensures Reads("", [])
  {
    forall rest ensures Tokens("" + rest) == [] + Tokens(rest) {
      assert "" + rest == rest;
    }
  }

  lemma LastPiece(html: string, tokens: seq<Token>, tail: string)
    requires Reads(html, tokens)
    ensures Tokens(html + EscapeHtml(tail)) == tokens + Chars(tail)
  {
    EscapeIsPerCharacter(tail);
    EscapedReads(tail);
    assert Escaped(tail) + "" == Escaped(tail);
    assert Tokens(Escaped(tail) + "") == Chars(tail) + Tokens("");
    assert Tokens(html + EscapeHtml(tail)) == tokens + Tokens(EscapeHtml(tail));
  }

  /** The HTML reads as the page for the sorted issues, whatever text they were found in. */
  method GetHighlightedHtml(text: string, issues: seq<Issue>) returns (html: string)
    ensures Tokens(html) == Page(text, Sorted(issues))
  {
    html := "";
    var lastIndex := 0;
    var sorted := Sorted(issues);
    NothingReads();
    for i := 0 to |sorted|
      invariant lastIndex == Drawn(sorted, i)
      invariant Reads(html, Layout(text, sorted, i))
    {
      var issue := sorted[i];
      if issue.start >= lastIndex {
        html := AddMark(html, text, sorted, i);
        lastIndex := issue.end;
      }
    }
    LastPiece(html, Layout(text, sorted, |sorted|), Slice(text, lastIndex, |text|));
    html := html + EscapeHtml(Slice(text, lastIndex, |text|));
  }

  method AddMark(html: string, text: string, sorted: seq<Issue>, i: nat) returns (more: string)
    requires i < |sorted| && Shown(sorted, i)
    requires Reads(html, Layout(text, sorted, i))
    ensures Reads(more, Layout(text, sorted, i + 1))
  {
    var issue := sorted[i];
    var slice := Slice(text, Drawn(sorted, i), issue.start);
    var gap := EscapeHtml(slice);
    EscapeIsPerCharacter(slice);
    EscapedReads(slice);
    ReadsConcat(html, Layout(text, sorted, i), gap, Chars(slice));
    var mark := "<" + OpenTag(issue.kind, i) + ">" + EscapeHtml(issue.original) + "</mark>";
    EscapeIsPerCharacter(issue.original);
    MarkReads(issue.kind, i, issue.original);
    ReadsConcat(html + gap, Layout(text, sorted, i) + Chars(slice),
                mark, [Tag(OpenTag(issue.kind, i))] + Chars(issue.original) + [Tag(CLOSE_TAG)]);
    assert Layout(text, sorted, i + 1) == Layout(text, sorted, i) + Chars(slice)
      + ([Tag(OpenTag(issue.kind, i))] + Chars(issue.original) + [Tag(CLOSE_TAG)]);
    more := html + gap + mark;
  }
}
