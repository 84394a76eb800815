/** The fields of the machine-readable task block: written by the dashboard (dashboard/lib/taskYaml.ts), read back
    by the pulse (src/lib/taskYaml.js). */
module TaskYaml {
  import opened Text

  // ------------------------------------------------------------------ quoted scalars

  /** `replace(/c/g, "\\c")` */
  function Escaped(s: string, c: char): string {
    if s == "" then "" else (if s[0] == c then ['\\', c] else [s[0]]) + Escaped(s[1..], c)
  }

  /** Replacing, left to right, every backslash followed by `c` by `c`. */
  function Unescaped(s: string, c: char): string {
    if |s| < 2 then s
    else if s[0] == '\\' && s[1] == c then [c] + Unescaped(s[2..], c)
    else [s[0]] + Unescaped(s[1..], c)
  }

  function QuoteScalar(value: string): string {
    "\"" + Escaped(Escaped(value, '\\'), '"') + "\""
  }

  function UnquoteScalar(raw: string): string {
    var t := Trim(raw);
    if |t| >= 2 && t[0] == '"' && t[|t| - 1] == '"' then Unescaped(Unescaped(t[1..|t| - 1], '"'), '\\') else t
  }

  /** Undoing one escape, in any text: a backslash of the text itself never becomes part of an escaped character. */
  lemma {:induction false} UnescapedEscaped(s: string, c: char)
    ensures Unescaped(Escaped(s, c), c) == s
  {
    if s != "" {
      var e, rest := Escaped(s, c), Escaped(s[1..], c);
      UnescapedEscaped(s[1..], c);
      if s[0] == c {
        assert e == ['\\', c] + rest && e[2..] == rest;
      } else {
        assert e == [s[0]] + rest && e[1..] == rest;
        assert rest == "" || rest[0] == '\\' || rest[0] != c;
      }
    }
  }

  /** The quoted form of any text reads back as that text, although the two unescapings run one after the other. */
  lemma QuoteRoundTrip(value: string)
    ensures UnquoteScalar(QuoteScalar(value)) == value
  {
    var escaped := Escaped(value, '\\');
    QuotesComeOff(Escaped(escaped, '"'));
    UnescapedEscaped(escaped, '"');
    UnescapedEscaped(value, '\\');
    hide Unescaped, Escaped;
  }

  lemma QuotesComeOff(inner: string)
    ensures UnquoteScalar("\"" + inner + "\"") == Unescaped(Unescaped(inner, '"'), '\\')
  {
    hide Unescaped, IsSpace;
    var q := "\"" + inner + "\"";
    assert !IsSpace('"') by { QuoteIsNotSpace(); }
    assert q[0] == '"' && q[|q| - 1] == '"';
    assert q[1..|q| - 1] == inner;
    TrimTrimmed(q);
    hide Trim;
  }

  lemma QuoteIsNotSpace()
    ensures !IsSpace('"')
  {
  }

  // ------------------------------------------------------------------ block scalars

  /** `replace(/\r\n/g, "\n")` */
  function NormalBreaks(s: string): string {
    if |s| < 2 then s
    else if s[0] == '\r' && s[1] == '\n' then "\n" + NormalBreaks(s[2..])
    else [s[0]] + NormalBreaks(s[1..])
  }

  function Indented(line: string): string {
    if |line| > 0 then "  " + line else ""
  }

  function AllIndented(lines: seq<string>): (r: seq<string>)
    ensures |r| == |lines| && forall i | 0 <= i < |lines| :: r[i] == Indented(lines[i])
  {
    seq(|lines|, i requires 0 <= i < |lines| => Indented(lines[i]))
  }

  function BlockScalar(value: string): string {
    JoinLines(AllIndented(Lines(NormalBreaks(value))))
  }

  /** The dedented lines up to the first that is neither empty nor indented. */
  function BlockLines(lines: seq<string>): seq<string> {
    if lines == [] then []
    else if lines[0] == "" then [""] + BlockLines(lines[1..])
    else if "  " <= lines[0] then [lines[0][2..]] + BlockLines(lines[1..])
    else []
  }

  function Chomped(lines: seq<string>): seq<string> {
    if lines != [] && lines[|lines| - 1] == "" then Chomped(lines[..|lines| - 1]) else lines
  }

  function ReadBlock(lines: seq<string>): string {
    JoinLines(Chomped(BlockLines(lines)))
  }

  function WithoutFinalBreaks(s: string): string {
    if s != "" && s[|s| - 1] == '\n' then WithoutFinalBreaks(s[..|s| - 1]) else s
  }

  lemma {:induction false} LinesHaveNoBreaks(s: string)
    ensures forall l | l in Lines(s) :: '\n' !in l
  {
    if s != "" {
      LinesHaveNoBreaks(s[1..]);
      var r := Lines(s[1..]);
      assert r[0] in r && forall l | l in r[1..] :: l in r;
    }
  }

  lemma {:induction false} LinesOfPrefixed(a: string, b: string)
    requires '\n' !in a
    ensures Lines(a + "\n" + b) == [a] + Lines(b)
    decreases |a|
  {
    var s := a + "\n" + b;
    if a == "" {
      assert s[0] == '\n' && s[1..] == b;
    } else {
      assert a[0] in a;
      assert s[0] == a[0] && s[1..] == a[1..] + "\n" + b;
      LinesOfPrefixed(a[1..], b);
      assert [a[0]] + a[1..] == a;
    }
  }

  lemma {:induction false} LinesOfJoined(lines: seq<string>)
    requires lines != [] && forall l | l in lines :: '\n' !in l
    ensures Lines(JoinLines(lines)) == lines
  {
    assert lines[0] in lines;
    if |lines| == 1 {
      OneLine(lines[0]);
    } else {
      assert forall l | l in lines[1..] :: l in lines;
      LinesOfJoined(lines[1..]);
      LinesOfPrefixed(lines[0], JoinLines(lines[1..]));
      assert lines == [lines[0]] + lines[1..];
    }
  }

  lemma {:induction false} JoinedLines(s: string)
    ensures JoinLines(Lines(s)) == s
  {
    if s != "" {
      JoinedLines(s[1..]);
      var r := Lines(s[1..]);
      if s[0] == '\n' {
        assert Lines(s)[1..] == r;
        assert s == "\n" + s[1..];
      } else {
        assert Lines(s)[1..] == r[1..];
        assert s == [s[0]] + s[1..];
      }
    }
  }

  lemma {:induction false} LinesOfFinalBreak(s: string)
    ensures Lines(s + "\n") == Lines(s) + [""]
  {
    if s == "" {
      assert Lines("\n") == [""] + Lines("\n"[1..]) && "\n"[1..] == "";
      assert "" + "\n" == "\n";
    } else {
      var t := s + "\n";
      assert t[0] == s[0] && t[1..] == s[1..] + "\n";
      LinesOfFinalBreak(s[1..]);
    }
  }

  lemma {:induction false} LastLineNotEmpty(s: string)
    requires s != "" && s[|s| - 1] != '\n'
    ensures var r := Lines(s); r[|r| - 1] != ""
  {
    if |s| > 1 {
      LastLineNotEmpty(s[1..]);
    } else {
      assert s[1..] == "";
    }
  }

  /** Dropping final empty lines is dropping final line breaks. */
  lemma {:induction false} ChompedText(s: string)
    ensures JoinLines(Chomped(Lines(s))) == WithoutFinalBreaks(s)
    decreases |s|
  {
    if s == "" {
      assert Lines(s) == [""] && [""][..0] == [];
    } else if s[|s| - 1] == '\n' {
      var init := s[..|s| - 1];
      assert s == init + "\n";
      LinesOfFinalBreak(init);
      assert (Lines(init) + [""])[..|Lines(init)|] == Lines(init);
      ChompedText(init);
    } else {
      LastLineNotEmpty(s);
      JoinedLines(s);
    }
  }

  lemma {:induction false} DedentUndoesIndent(lines: seq<string>)
    ensures BlockLines(AllIndented(lines) + [""]) == lines + [""]
  {
    var ls := AllIndented(lines) + [""];
    if lines == [] {
      assert ls == [""] && [""][1..] == [];
    } else {
      DedentUndoesIndent(lines[1..]);
      assert ls[1..] == AllIndented(lines[1..]) + [""];
      assert ls[0] == Indented(lines[0]);
      hide AllIndented;
      if lines[0] != "" {
        assert ls[0][..2] == "  " && ls[0][2..] == lines[0];
      }
      assert BlockLines(ls) == [lines[0]] + BlockLines(ls[1..]);
      hide BlockLines, Indented;
      assert lines == [lines[0]] + lines[1..];
    }
  }

  /** A description written as a block and read back is the description with its line breaks normalised and the
      final ones dropped. */
  lemma BlockRoundTrip(value: string)
    ensures ReadBlock(Lines(BlockScalar(value) + "\n")) == WithoutFinalBreaks(NormalBreaks(value))
  {
    var text := NormalBreaks(value);
    var lines := Lines(text);
    var indented := AllIndented(lines);
    LinesHaveNoBreaks(text);
    forall l | l in indented ensures '\n' !in l {
      var i :| 0 <= i < |indented| && indented[i] == l;
      assert lines[i] in lines;
      assert '\n' !in lines[i];
    }
    LinesOfJoined(indented);
    LinesOfFinalBreak(BlockScalar(value));
    DedentUndoesIndent(lines);
    hide NormalBreaks, Lines, JoinLines, BlockLines;
    assert (lines + [""])[..|lines|] == lines;
    ChompedText(text);
  }

  // ------------------------------------------------------------------ the program

  /** The block that starts at line `from`, and the line after it. */
  method ReadBlockAt(lines: seq<string>, from: nat) returns (description: string, next: nat)
    requires from <= |lines|
    ensures description == ReadBlock(lines[from..])
    ensures from <= next <= |lines| && (next < |lines| ==> lines[next] != "" && !("  " <= lines[next]))
    ensures forall i | from <= i < next :: lines[i] == "" || "  " <= lines[i]
  {
    var blockLines: seq<string> := [];
    next := from;
    while next < |lines| && (lines[next] == "" || "  " <= lines[next])
      invariant from <= next <= |lines|
      invariant BlockLines(lines[from..]) == blockLines + BlockLines(lines[next..])
      invariant forall i | from <= i < next :: lines[i] == "" || "  " <= lines[i]
    {
      var l := lines[next];
      assert lines[next..][0] == l && lines[next..][1..] == lines[next + 1..];
      ghost var more := BlockLines(lines[next + 1..]);
      if l == "" {
        assert blockLines + ([""] + more) == blockLines + [""] + more;
        blockLines := blockLines + [""];
      } else {
        assert blockLines + ([l[2..]] + more) == blockLines + [l[2..]] + more;
        blockLines := blockLines + [l[2..]];
      }
      next := next + 1;
    }
    assert BlockLines(lines[next..]) == [];
    assert BlockLines(lines[from..]) == blockLines;
    while |blockLines| > 0 && blockLines[|blockLines| - 1] == ""
      invariant Chomped(blockLines) == Chomped(BlockLines(lines[from..]))
    {
      blockLines := blockLines[..|blockLines| - 1];
    }
    description := JoinLines(blockLines);
  }
}
