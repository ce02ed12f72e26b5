/** The stream loop of smart compose: text arrives in chunks, complete lines are handled
as they appear, and the rest waits in a buffer.  Chunks are decoded text.
*/
module LineBuffer {
  type Line = seq<char>

  /** String.split('\n'): one part more than there are newlines. */
  function Split(s: string): (parts: seq<Line>)
    ensures |parts| > 0
    decreases |s|
  {
    if s == [] then [[]]
    else
      var rest := Split(s[1..]);
      if s[0] == '\n' then [[]] + rest else [[s[0]] + rest[0]] + rest[1..]
  }

  function Flatten(chunks: seq<string>): string
    decreases |chunks|
  {
    if chunks == [] then "" else chunks[0] + Flatten(chunks[1..])
  }

  /** The newline-terminated lines of a text. */
  function Lines(s: string): seq<Line> {
    var parts := Split(s);
    parts[..|parts| - 1]
  }

  function Rest(s: string): Line {
    var parts := Split(s);
    parts[|parts| - 1]
  }

  function Unlines(lines: seq<Line>): string
    decreases |lines|
  {
    if lines == [] then "" else lines[0] + "\n" + Unlines(lines[1..])
  }

  /** Splitting loses nothing: terminated lines and rest spell the text, and none of them
  holds a newline. */
  lemma {:induction false} SplitSpells(s: string)
    ensures Unlines(Lines(s)) + Rest(s) == s
    ensures forall k | 0 <= k < |Split(s)| :: '\n' !in Split(s)[k]
    decreases |s|
  {
    if s != [] {
      var rest, parts := Split(s[1..]), Split(s);
      SplitSpells(s[1..]);
      if s[0] == '\n' {
        assert Lines(s)[1..] == Lines(s[1..]);
      } else if |rest| == 1 {
        assert Lines(s) == [];
      } else {
        assert Lines(s)[1..] == Lines(s[1..])[1..];
        assert Lines(s)[0] == [s[0]] + Lines(s[1..])[0];
      }
    }
  }

  lemma {:induction false} SplitPlain(r: string)
    requires '\n' !in r
    ensures Split(r) == [r]
    decreases |r|
  {
    if r != [] {
      SplitPlain(r[1..]);
      assert [r[0]] + r[1..] == r;
    }
  }

  lemma {:induction false} SplitLine(line: string, rest: string)
    requires '\n' !in line
    ensures Split(line + "\n" + rest) == [line] + Split(rest)
    decreases |line|
  {
    var s := line + "\n" + rest;
    if line == [] {
      assert s[1..] == rest;
    } else {
      SplitLine(line[1..], rest);
      assert s[1..] == line[1..] + "\n" + rest;
      assert [line[0]] + line[1..] == line;
    }
  }

  /** The only way to read a text as terminated lines and a rest without newlines. */
  lemma {:induction false} SplitUnique(lines: seq<Line>, r: string)
    requires '\n' !in r && forall k | 0 <= k < |lines| :: '\n' !in lines[k]
    ensures Lines(Unlines(lines) + r) == lines && Rest(Unlines(lines) + r) == r
    decreases |lines|
  {
    if lines == [] {
      assert Unlines(lines) + r == r;
      SplitPlain(r);
    } else {
      var tail := Unlines(lines[1..]) + r;
      SplitUnique(lines[1..], r);
      assert Unlines(lines) + r == lines[0] + "\n" + tail;
      SplitLine(lines[0], tail);
    }
  }

  lemma {:induction false} UnlinesConcat(a: seq<Line>, b: seq<Line>)
    ensures Unlines(a + b) == Unlines(a) + Unlines(b)
    decreases |a|
  {
    if a == [] {
      assert a + b == b;
    } else {
      assert (a + b)[1..] == a[1..] + b;
      UnlinesConcat(a[1..], b);
    }
  }

  lemma Regroup(a: string, b: string, front: string, left: string, more: string, rest: string)
    requires front + left == a && more + rest == left + b
    ensures (front + more) + rest == a + b
  {
    assert (front + more) + rest == front + (more + rest);
    assert front + (left + b) == (front + left) + b;
  }

  /** Splitting a text at any point: the rest of the front starts the first line of what
  follows. */
  lemma LinesConcat(a: string, b: string)
    ensures Lines(a + b) == Lines(a) + Lines(Rest(a) + b)
    ensures Rest(a + b) == Rest(Rest(a) + b)
  {
    var more := Rest(a) + b;
    SplitSpells(a);
    SplitSpells(more);
    UnlinesConcat(Lines(a), Lines(more));
    Regroup(a, b, Unlines(Lines(a)), Rest(a), Unlines(Lines(more)), Rest(more));
    SplitUnique(Lines(a) + Lines(more), Rest(more));
  }

  lemma {:induction false} FlattenPush(chunks: seq<string>, c: string)
    ensures Flatten(chunks + [c]) == Flatten(chunks) + c
    decreases |chunks|
  {
    if chunks == [] {
      assert [c][1..] == [];
      assert Flatten([c]) == c + "";
    } else {
      assert (chunks + [c])[1..] == chunks[1..] + [c];
      FlattenPush(chunks[1..], c);
    }
  }

  function Trimmed(s: Line, white: set<char>): Line
    decreases |s|
  {
    if s == [] then s
    else if s[0] in white then Trimmed(s[1..], white)
    else if s[|s| - 1] in white then Trimmed(s[..|s| - 1], white)
    else s
  }

  const PREFIX := "data: "

  /** What a line hands on to the JSON parser. */
  function Payload(line: Line, white: set<char>): seq<string> {
    var clean := Trimmed(line, white);
    if PREFIX <= clean then [clean[|PREFIX|..]] else []
  }

  function Payloads(lines: seq<Line>, white: set<char>): seq<string>
    decreases |lines|
  {
    if lines == [] then [] else Payload(lines[0], white) + Payloads(lines[1..], white)
  }

  lemma {:induction false} PayloadsConcat(a: seq<Line>, b: seq<Line>, white: set<char>)
    ensures Payloads(a + b, white) == Payloads(a, white) + Payloads(b, white)
    decreases |a|
  {
    if a == [] {
      assert a + b == b;
    } else {
      assert (a + b)[1..] == a[1..] + b;
      PayloadsConcat(a[1..], b, white);
    }
  }

  lemma PayloadsPush(lines: seq<Line>, i: nat, white: set<char>)
    requires i < |lines|
    ensures Payloads(lines[..i + 1], white) == Payloads(lines[..i], white) + Payload(lines[i], white)
  {
    assert lines[..i + 1] == lines[..i] + [lines[i]];
    PayloadsConcat(lines[..i], [lines[i]], white);
    assert [lines[i]][1..] == [];
    assert Payloads([lines[i]], white) == Payload(lines[i], white) + [];
  }

  method HandleLines(lines: seq<Line>, white: set<char>, before: seq<string>) returns (payloads: seq<string>)
    ensures payloads == before + Payloads(lines, white)
  {
    payloads := before;
    for i := 0 to |lines|
      invariant payloads == before + Payloads(lines[..i], white)
    {
      PayloadsPush(lines, i, white);
      var clean := Trimmed(lines[i], white);
      if PREFIX <= clean {
        payloads := payloads + [clean[|PREFIX|..]];
      }
    }
    assert lines[..|lines|] == lines;
  }

  /** Whatever the chunking, what is handed on comes from the newline-terminated lines of
  the whole stream, in order; what never got its newline stays in the buffer. */
  method Consume(chunks: seq<string>, white: set<char>) returns (payloads: seq<string>, buffer: string)
    ensures payloads == Payloads(Lines(Flatten(chunks)), white) && buffer == Rest(Flatten(chunks))
  {
    payloads, buffer := [], "";
    var i := 0;
    assert chunks[..0] == [];
    while i < |chunks|
      invariant 0 <= i <= |chunks|
      invariant payloads == Payloads(Lines(Flatten(chunks[..i])), white) && buffer == Rest(Flatten(chunks[..i]))
    {
      assert chunks[..i + 1] == chunks[..i] + [chunks[i]];
      FlattenPush(chunks[..i], chunks[i]);
      LinesConcat(Flatten(chunks[..i]), chunks[i]);
      PayloadsConcat(Lines(Flatten(chunks[..i])), Lines(buffer + chunks[i]), white);
      var lines := Split(buffer + chunks[i]);
      buffer := lines[|lines| - 1];
      payloads := HandleLines(lines[..|lines| - 1], white, payloads);
      i := i + 1;
    }
    assert chunks[..|chunks|] == chunks;
  }
}
