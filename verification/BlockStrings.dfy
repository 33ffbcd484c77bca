/** What normalizing a block string leaves: its lines can be read back, and neither end is blank. */
module BlockStrings {
  import opened Outcome
  import opened Lexer

  ghost predicate AllLineText(lines: seq<string>) {
    forall i, k :: 0 <= i < |lines| && 0 <= k < |lines[i]| ==> LineText(lines[i][k])
  }

  lemma {:induction false} LinesAreText(s: string)
    ensures AllLineText(Lines(s))
    decreases |s|
  {
    if s == [] {
    } else if s[0] == '\r' && |s| > 1 && s[1] == '\n' {
      LinesAreText(s[2..]);
    } else {
      LinesAreText(s[1..]);
    }
  }

  /** The common indentation is that of the least indented line that is not blank. */
  lemma {:induction false} CommonIndentIsLeast(lines: seq<string>)
    ensures var r := CommonIndent(lines);
      if r.None? then forall i :: 0 <= i < |lines| ==> Blank(lines[i])
      else (forall i :: 0 <= i < |lines| && !Blank(lines[i]) ==> r.value <= Indentation(lines[i]))
           && exists i :: 0 <= i < |lines| && !Blank(lines[i]) && r.value == Indentation(lines[i])
  {
    if lines != [] {
      CommonIndentIsLeast(lines[1..]);
      assert lines == [lines[0]] + lines[1..];
      assert forall i :: 0 < i < |lines| ==> lines[i] == lines[1..][i - 1];
      var rest := CommonIndent(lines[1..]);
      if CommonIndent(lines) == rest && rest.Some? {
        var i :| 0 <= i < |lines[1..]| && !Blank(lines[1..][i]) && rest.value == Indentation(lines[1..][i]);
        assert lines[i + 1] == lines[1..][i];
      }
    }
  }

  lemma {:induction false} TailIsDropped(lines: seq<string>)
    ensures var r := DropBlankTail(lines); r <= lines && (r != [] ==> !Blank(r[|r| - 1]))
  {
    if lines != [] && Blank(lines[|lines| - 1]) { TailIsDropped(lines[..|lines| - 1]); }
  }

  lemma {:induction false} HeadIsDropped(lines: seq<string>)
    ensures var r := DropBlankHead(lines); |r| <= |lines| && r == lines[|lines| - |r|..] && (r != [] ==> !Blank(r[0]))
  {
    if lines != [] && Blank(lines[0]) { HeadIsDropped(lines[1..]); }
  }

  lemma {:induction false} LinesOfLine(line: string, rest: string)
    requires forall k :: 0 <= k < |line| ==> LineText(line[k])
    ensures Lines(line) == [line]
    ensures Lines(line + "\n" + rest) == [line] + Lines(rest)
  {
    if line == [] {
      assert (line + "\n" + rest)[1..] == rest;
      assert line + "\n" + rest == "\n" + rest;
    } else {
      LinesOfLine(line[1..], rest);
      var s := line + "\n" + rest;
      assert s[1..] == line[1..] + "\n" + rest && s[0] == line[0];
      assert [line[0]] + line[1..] == line;
      assert ([line[1..]] + Lines(rest))[1..] == Lines(rest);
    }
  }

  /** Splitting undoes joining. */
  lemma {:induction false} LinesOfJoined(lines: seq<string>)
    requires lines != [] && AllLineText(lines)
    ensures Lines(JoinLines(lines)) == lines
  {
    if |lines| == 1 {
      LinesOfLine(lines[0], "");
    } else {
      LinesOfJoined(lines[1..]);
      LinesOfLine(lines[0], JoinLines(lines[1..]));
      assert lines == [lines[0]] + lines[1..];
    }
  }

  lemma {:induction false} DedentKeepsLines(lines: seq<string>, n: nat)
    requires AllLineText(lines)
    ensures AllLineText(Dedent(lines, n))
    ensures forall i :: 0 <= i < |lines| ==> Dedent(lines, n)[i] == lines[i][Least(n, Indentation(lines[i]))..]
  {
    if lines != [] { DedentKeepsLines(lines[1..], n); }
  }

  lemma {:induction false} DroppedEnds(all: seq<string>)
    requires AllLineText(all)
    ensures var kept := DropBlankHead(DropBlankTail(all));
      AllLineText(kept) && (kept != [] ==> !Blank(kept[0]) && !Blank(kept[|kept| - 1]))
  {
    var front := DropBlankTail(all);
    var kept := DropBlankHead(front);
    TailIsDropped(all);
    HeadIsDropped(front);
    forall i, k | 0 <= i < |kept| && 0 <= k < |kept[i]| ensures LineText(kept[i][k]) {
      assert kept[i] == front[|front| - |kept| + i] == all[|front| - |kept| + i];
    }
    if kept != [] { assert kept[|kept| - 1] == front[|front| - 1]; }
  }

  lemma {:induction false} DedentedLines(s: string, n: nat)
    ensures var lines := Lines(s); AllLineText([lines[0]] + Dedent(lines[1..], n))
  {
    var lines := Lines(s);
    LinesAreText(s);
    DedentKeepsLines(lines[1..], n);
  }

  /** The lines after the first lose their common indentation, and nothing but indentation; then blank lines at
      both ends go. */
  lemma {:induction false} NormalizedLines(s: string)
    ensures var kept := BlockLines(s);
      if kept == [] then NormalizeBlock(s) == ""
      else Lines(NormalizeBlock(s)) == kept && !Blank(kept[0]) && !Blank(kept[|kept| - 1])
  {
    var lines := Lines(s);
    var indent := CommonIndent(lines[1..]);
    var n := if indent.Some? then indent.value else 0;
    DedentedLines(s, n);
    DroppedEnds([lines[0]] + Dedent(lines[1..], n));
    if BlockLines(s) != [] { LinesOfJoined(BlockLines(s)); }
  }
}
