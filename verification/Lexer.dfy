/** The GraphQL lexer (`lex`, `read_string`, `read_unicode`, `normalize_block`).
    A source text is a sequence of Unicode scalars; error messages become an enumeration. */
module Lexer {
  import opened Outcome

  const MAX_TOKENS: nat := 8192

  datatype Token =
    | Name(text: string)
    | Number(text: string)
    | Text(value: string)
    | Punct(c: char)
    | Spread

  datatype LexError =
    | ExpectedNumber | FractionDigits | ExponentDigits | NumberBoundary
    | BadEscape | BadUnicodeEscape | ControlCharacter | Unterminated
    | UnexpectedToken | TooManyTokens

  /** A reader returns a value and the text it left unread. */
  datatype Read<+T> = Got(value: T, rest: string) | Bad(error: LexError)

  predicate Suffix(rest: string, s: string) {
    |rest| <= |s| && rest == s[|s| - |rest|..]
  }

  // ---------------------------------------------------------------- characters

  predicate Letter(c: char) { 'a' <= c <= 'z' || 'A' <= c <= 'Z' }
  predicate Digit(c: char) { '0' <= c <= '9' }
  predicate NameStart(c: char) { Letter(c) || c == '_' }
  predicate NameChar(c: char) { Letter(c) || Digit(c) || c == '_' }
  predicate HexDigit(c: char) { Digit(c) || 'a' <= c <= 'f' || 'A' <= c <= 'F' }
  predicate LineText(c: char) { c != '\r' && c != '\n' }
  predicate Indent(c: char) { c == ' ' || c == '\t' }
  predicate Ignored(c: char) {
    c == ' ' || c == '\t' || c == '\r' || c == '\n' || c == ',' || c == '\U{FEFF}'
  }
  predicate Punctuator(c: char) {
    c == '!' || c == '$' || c == '(' || c == ')' || c == ':' || c == '=' || c == '@'
    || c == '[' || c == ']' || c == '{' || c == '}'
  }

  function HexValue(c: char): (n: nat)
    requires HexDigit(c)
    ensures n < 16
  {
    if Digit(c) then c as nat - '0' as nat
    else if 'a' <= c then c as nat - 'a' as nat + 10
    else c as nat - 'A' as nat + 10
  }

  /** The end of the longest run of `p` characters that starts at `i`. */
  function RunEnd(s: string, i: nat, p: char -> bool): (j: nat)
    requires i <= |s|
    ensures i <= j <= |s|
    decreases |s| - i
  {
    if i < |s| && p(s[i]) then RunEnd(s, i + 1, p) else i
  }

  lemma {:induction false} RunIsLongest(s: string, i: nat, p: char -> bool)
    requires i <= |s|
    ensures var j := RunEnd(s, i, p); (forall k :: i <= k < j ==> p(s[k])) && (j < |s| ==> !p(s[j]))
    decreases |s| - i
  {
    if i < |s| && p(s[i]) { RunIsLongest(s, i + 1, p); }
  }

  // ---------------------------------------------------------------- numbers

  /** The end of an optional part that is introduced by one character, then a sign if allowed,
      then at least one digit. */
  function FractionEnd(s: string, i: nat): (r: Result<nat, LexError>)
    requires i <= |s|
    ensures r.Ok? ==> i <= r.value <= |s|
  {
    if i < |s| && s[i] == '.' then
      var j := RunEnd(s, i + 1, Digit);
      if j == i + 1 then Err(FractionDigits) else Ok(j)
    else Ok(i)
  }

  function ExponentEnd(s: string, i: nat): (r: Result<nat, LexError>)
    requires i <= |s|
    ensures r.Ok? ==> i <= r.value <= |s|
  {
    if i < |s| && (s[i] == 'e' || s[i] == 'E') then
      var d := if i + 1 < |s| && (s[i + 1] == '+' || s[i + 1] == '-') then i + 2 else i + 1;
      var j := RunEnd(s, d, Digit);
      if j == d then Err(ExponentDigits) else Ok(j)
    else Ok(i)
  }

  function IntegerEnd(s: string): (r: Result<nat, LexError>)
    ensures r.Ok? ==> 0 < r.value <= |s|
  {
    var i := if |s| > 0 && s[0] == '-' then 1 else 0;
    if i >= |s| || !Digit(s[i]) then Err(ExpectedNumber)
    else if s[i] == '0' then Ok(i + 1)
    else Ok(RunEnd(s, i, Digit))
  }

  predicate GluesToNumber(c: char) { NameChar(c) || c == '.' }

  function NumberEnd(s: string): (r: Result<nat, LexError>)
    ensures r.Ok? ==> 0 < r.value <= |s|
  {
    var i :- IntegerEnd(s);
    var j :- FractionEnd(s, i);
    var k :- ExponentEnd(s, j);
    if k < |s| && GluesToNumber(s[k]) then Err(NumberBoundary) else Ok(k)
  }

  // ---------------------------------------------------------------- strings

  function HexNumber(s: string): nat
    requires forall i :: 0 <= i < |s| ==> HexDigit(s[i])
  {
    if s == [] then 0 else 16 * HexNumber(s[..|s| - 1]) + HexValue(s[|s| - 1])
  }

  predicate HexAt(s: string, n: nat) {
    n <= |s| && forall i :: 0 <= i < n ==> HexDigit(s[i])
  }

  function Scalar(n: nat, rest: string): Read<char> {
    if n < 0xD800 || 0xE000 <= n < 0x11_0000 then Got(n as char, rest) else Bad(BadUnicodeEscape)
  }

  /** The scalar after `\u`: braced, four digits, or a surrogate pair. */
  function ReadUnicode(s: string): (r: Read<char>)
    ensures r.Got? ==> |r.rest| < |s|
  {
    if s != [] && s[0] == '{' then
      var j := RunEnd(s, 1, HexDigit);
      RunIsLongest(s, 1, HexDigit);
      if j == 1 || j - 1 > 6 || j >= |s| || s[j] != '}' then Bad(BadUnicodeEscape)
      else Scalar(HexNumber(s[1..j]), s[j + 1..])
    else if !HexAt(s, 4) then Bad(BadUnicodeEscape)
    else
      var first := HexNumber(s[..4]);
      if 0xD800 <= first <= 0xDBFF then
        if |s| < 6 || s[4..6] != "\\u" || !HexAt(s[6..], 4) then Bad(BadUnicodeEscape)
        else
          var low := HexNumber(s[6..][..4]);
          if low < 0xDC00 || low > 0xDFFF then Bad(BadUnicodeEscape)
          else Scalar(0x1_0000 + (first - 0xD800) * 1024 + (low - 0xDC00), s[10..])
      else Scalar(first, s[4..])
  }

  function ReadEscape(s: string): (r: Read<char>)
    ensures r.Got? ==> |r.rest| < |s|
  {
    if s == [] then Bad(BadEscape)
    else match s[0]
      case '"' => Got('"', s[1..])
      case '\\' => Got('\\', s[1..])
      case '/' => Got('/', s[1..])
      case 'b' => Got('\U{0008}', s[1..])
      case 'f' => Got('\U{000C}', s[1..])
      case 'n' => Got('\n', s[1..])
      case 'r' => Got('\r', s[1..])
      case 't' => Got('\t', s[1..])
      case 'u' => ReadUnicode(s[1..])
      case _ => Bad(BadEscape)
  }

  function Push(c: char, r: Read<string>): Read<string> {
    if r.Got? then Got([c] + r.value, r.rest) else r
  }

  /** A quoted string after its opening quote. */
  function ReadQuoted(s: string): (r: Read<string>)
    ensures r.Got? ==> |r.rest| < |s|
    decreases |s|
  {
    if s == [] then Bad(Unterminated)
    else if s[0] == '"' then Got("", s[1..])
    else if s[0] == '\\' then
      var e := ReadEscape(s[1..]);
      if e.Bad? then Bad(e.error) else Push(e.value, ReadQuoted(e.rest))
    else if s[0] < ' ' then Bad(ControlCharacter)
    else Push(s[0], ReadQuoted(s[1..]))
  }

  /** What a block string does next. */
  datatype BlockStep = Quotes | End | Control | Plain

  function NextInBlock(s: string): (r: BlockStep)
    requires s != []
    ensures r.Quotes? ==> |s| >= 4
    ensures r.End? ==> |s| >= 3
  {
    if "\\\"\"\"" <= s then Quotes
    else if "\"\"\"" <= s then End
    else if s[0] < ' ' && s[0] != '\n' && s[0] != '\r' && s[0] != '\t' then Control
    else Plain
  }

  const QUOTES: string := "\"\"\""

  /** The raw text of a block string after its opening quotes. */
  function ReadBlock(s: string): (r: Read<string>)
    ensures r.Got? ==> |r.rest| < |s|
    decreases |s|
  {
    if s == [] then Bad(Unterminated)
    else
      match NextInBlock(s)
      case Quotes =>
        var r := ReadBlock(s[4..]);
        if r.Got? then Got(QUOTES + r.value, r.rest) else r
      case End => Got("", s[3..])
      case Control => Bad(ControlCharacter)
      case Plain => Push(s[0], ReadBlock(s[1..]))
  }

  function ReadString(s: string): (r: Read<string>)
    requires s != [] && s[0] == '"'
    ensures r.Got? ==> |r.rest| < |s|
  {
    if "\"\"\"" <= s then
      var r := ReadBlock(s[3..]);
      if r.Got? then Got(NormalizeBlock(r.value), r.rest) else r
    else ReadQuoted(s[1..])
  }

  // ---------------------------------------------------------------- block strings

  /** Lines of a block string; CRLF and lone CR both end a line. */
  function Lines(s: string): (r: seq<string>)
    ensures |r| > 0
    decreases |s|
  {
    if s == [] then [""]
    else if s[0] == '\r' && |s| > 1 && s[1] == '\n' then [""] + Lines(s[2..])
    else if s[0] == '\r' || s[0] == '\n' then [""] + Lines(s[1..])
    else
      var r := Lines(s[1..]);
      [[s[0]] + r[0]] + r[1..]
  }

  function Indentation(line: string): (n: nat)
    ensures n <= |line|
  {
    RunEnd(line, 0, Indent)
  }

  predicate Blank(line: string) { Indentation(line) == |line| }

  /** The smallest indentation of the non-blank lines, if there is one. */
  function CommonIndent(lines: seq<string>): Option<nat> {
    if lines == [] then None
    else
      var rest := CommonIndent(lines[1..]);
      if Blank(lines[0]) then rest
      else if rest.None? || Indentation(lines[0]) < rest.value then Some(Indentation(lines[0]))
      else rest
  }

  function Least(a: nat, b: nat): nat { if a <= b then a else b }

  function Dedent(lines: seq<string>, n: nat): (r: seq<string>)
    ensures |r| == |lines|
  {
    if lines == [] then [] else [lines[0][Least(n, Indentation(lines[0]))..]] + Dedent(lines[1..], n)
  }

  function DropBlankTail(lines: seq<string>): seq<string> {
    if lines != [] && Blank(lines[|lines| - 1]) then DropBlankTail(lines[..|lines| - 1]) else lines
  }

  function DropBlankHead(lines: seq<string>): seq<string> {
    if lines != [] && Blank(lines[0]) then DropBlankHead(lines[1..]) else lines
  }

  function JoinLines(lines: seq<string>): string {
    if lines == [] then "" else if |lines| == 1 then lines[0] else lines[0] + "\n" + JoinLines(lines[1..])
  }

  /** The lines a block string keeps: dedented, without blank first and last lines. */
  function BlockLines(s: string): seq<string> {
    var lines := Lines(s);
    var indent := CommonIndent(lines[1..]);
    var n := if indent.Some? then indent.value else 0;
    DropBlankHead(DropBlankTail([lines[0]] + Dedent(lines[1..], n)))
  }

  function NormalizeBlock(s: string): string {
    JoinLines(BlockLines(s))
  }

  // ---------------------------------------------------------------- tokens

  function ReadToken(s: string): (r: Read<Token>)
    requires s != []
    ensures r.Got? ==> |r.rest| < |s|
  {
    if NameStart(s[0]) then
      var j := RunEnd(s, 1, NameChar);
      Got(Name(s[..j]), s[j..])
    else if s[0] == '-' || Digit(s[0]) then
      var end := NumberEnd(s);
      if end.Err? then Bad(end.error) else Got(Number(s[..end.value]), s[end.value..])
    else if s[0] == '"' then
      var text := ReadString(s);
      if text.Bad? then Bad(text.error) else Got(Text(text.value), text.rest)
    else if "..." <= s then Got(Spread, s[3..])
    else if Punctuator(s[0]) then Got(Punct(s[0]), s[1..])
    else Bad(UnexpectedToken)
  }

  function Prepend(ts: seq<Token>, r: Result<seq<Token>, LexError>): Result<seq<Token>, LexError> {
    if r.Ok? then Ok(ts + r.value) else r
  }

  /** All tokens of `s`, without the token limit. */
  function Tokens(s: string): Result<seq<Token>, LexError>
    decreases |s|
  {
    if s == [] then Ok([])
    else if Ignored(s[0]) then Tokens(s[1..])
    else if s[0] == '#' then Tokens(s[RunEnd(s, 1, LineText)..])
    else
      var r := ReadToken(s);
      if r.Bad? then Err(r.error) else Prepend([r.value], Tokens(r.rest))
  }

  /** What `lex` returns: the limit is checked as each token is pushed, so it wins over later errors. */
  function LexFrom(s: string, count: nat): (r: Result<seq<Token>, LexError>)
    decreases |s|
  {
    if s == [] then Ok([])
    else if Ignored(s[0]) then LexFrom(s[1..], count)
    else if s[0] == '#' then LexFrom(s[RunEnd(s, 1, LineText)..], count)
    else
      var r := ReadToken(s);
      if r.Bad? then Err(r.error)
      else if count + 1 > MAX_TOKENS then Err(TooManyTokens)
      else Prepend([r.value], LexFrom(r.rest, count + 1))
  }

  function Lex(s: string): Result<seq<Token>, LexError> { LexFrom(s, 0) }

  /** The limited lexer is the unlimited one, cut off at the token limit. */
  lemma {:induction false} LexIsLimitedTokens(s: string, count: nat)
    requires count <= MAX_TOKENS
    ensures LexFrom(s, count).Ok? <==> Tokens(s).Ok? && count + |Tokens(s).value| <= MAX_TOKENS
    ensures LexFrom(s, count).Ok? ==> LexFrom(s, count) == Tokens(s)
    decreases |s|
  {
    if s == [] {
    } else if Ignored(s[0]) {
      LexIsLimitedTokens(s[1..], count);
    } else if s[0] == '#' {
      LexIsLimitedTokens(s[RunEnd(s, 1, LineText)..], count);
    } else {
      var r := ReadToken(s);
      if r.Got? && count + 1 <= MAX_TOKENS {
        LexIsLimitedTokens(r.rest, count + 1);
      }
    }
  }

  // ---------------------------------------------------------------- the loops of `lex`

  /** The digit loop that the number scan uses three times. */
  method ScanDigits(source: string, start: nat, first: nat) returns (pos: nat)
    requires start <= first <= |source|
    ensures pos == start + RunEnd(source[start..], first - start, Digit)
  {
    ghost var s := source[start..];
    pos := first;
    while pos < |source| && Digit(source[pos])
      invariant first <= pos <= |source|
      invariant RunEnd(s, first - start, Digit) == RunEnd(s, pos - start, Digit)
    { pos := pos + 1; }
  }

  function ShiftEnd(r: Result<nat, LexError>, start: nat): Result<nat, LexError> {
    if r.Ok? then Ok(start + r.value) else r
  }

  method ScanInteger(source: string, start: nat) returns (r: Result<nat, LexError>)
    requires start < |source|
    ensures r == ShiftEnd(IntegerEnd(source[start..]), start)
  {
    var pos := start;
    if source[pos] == '-' { pos := pos + 1; }
    if pos >= |source| || !Digit(source[pos]) { return Err(ExpectedNumber); }
    if source[pos] == '0' { pos := pos + 1; } else { pos := ScanDigits(source, start, pos); }
    r := Ok(pos);
  }

  method ScanFraction(source: string, start: nat, from: nat) returns (r: Result<nat, LexError>)
    requires start <= from <= |source|
    ensures r == ShiftEnd(FractionEnd(source[start..], from - start), start)
  {
    var pos := from;
    if pos < |source| && source[pos] == '.' {
      var digits := pos + 1;
      pos := ScanDigits(source, start, digits);
      if digits == pos { return Err(FractionDigits); }
    }
    r := Ok(pos);
  }

  method ScanExponent(source: string, start: nat, from: nat) returns (r: Result<nat, LexError>)
    requires start <= from <= |source|
    ensures r == ShiftEnd(ExponentEnd(source[start..], from - start), start)
  {
    var pos := from;
    if pos < |source| && (source[pos] == 'e' || source[pos] == 'E') {
      var digits := pos + 1;
      if digits < |source| && (source[digits] == '+' || source[digits] == '-') { digits := digits + 1; }
      pos := ScanDigits(source, start, digits);
      if digits == pos { return Err(ExponentDigits); }
    }
    r := Ok(pos);
  }

  /** The number scan of `lex`. */
  method ScanNumber(source: string, start: nat) returns (r: Result<nat, LexError>)
    requires start < |source|
    ensures r == ShiftEnd(NumberEnd(source[start..]), start)
  {
    r := ScanInteger(source, start);
    if r.Err? { return; }
    r := ScanFraction(source, start, r.value);
    if r.Err? { return; }
    r := ScanExponent(source, start, r.value);
    if r.Err? { return; }
    if r.value < |source| && GluesToNumber(source[r.value]) { return Err(NumberBoundary); }
  }

  function PushAll(value: string, r: Read<string>): Read<string> {
    if r.Got? then Got(value + r.value, r.rest) else r
  }

  lemma {:induction false} EscapeLeavesSuffix(s: string)
    ensures ReadEscape(s).Got? ==> Suffix(ReadEscape(s).rest, s)
  {
  }

  lemma {:induction false} PushAllSteps(value: string, c: char, r: Read<string>)
    ensures PushAll(value, Push(c, r)) == PushAll(value + [c], r)
  {
    if r.Got? { assert value + ([c] + r.value) == value + [c] + r.value; }
  }

  /** The loop of `read_string` for a quoted string. */
  method ScanQuoted(source: string, start: nat) returns (r: Result<string, LexError>, end: nat)
    requires start <= |source|
    ensures var spec := ReadQuoted(source[start..]);
      if r.Ok? then start < end <= |source| && spec == Got(r.value, source[end..]) else spec == Bad(r.error)
  {
    end := start;
    var value := "";
    ghost var spec := ReadQuoted(source[start..]);
    assert spec.Got? ==> "" + spec.value == spec.value;
    while end < |source|
      invariant start <= end <= |source|
      invariant spec == PushAll(value, ReadQuoted(source[end..]))
      decreases |source| - end
    {
      var c := source[end];
      if c == '"' {
        assert value + "" == value;
        return Ok(value), end + 1;
      } else if c == '\\' {
        var e := ReadEscape(source[end + 1..]);
        if e.Bad? { return Err(e.error), end; }
        EscapeLeavesSuffix(source[end + 1..]);
        PushAllSteps(value, e.value, ReadQuoted(e.rest));
        value := value + [e.value];
        end := |source| - |e.rest|;
        assert source[end..] == e.rest;
      } else if c < ' ' {
        return Err(ControlCharacter), end;
      } else {
        PushAllSteps(value, c, ReadQuoted(source[end + 1..]));
        value := value + [c];
        end := end + 1;
      }
    }
    r := Err(Unterminated);
  }

  lemma {:induction false} BlockQuotes(value: string, here: string)
    requires here != [] && NextInBlock(here).Quotes?
    ensures PushAll(value, ReadBlock(here)) == PushAll(value + QUOTES, ReadBlock(here[4..]))
  {
    var tail := ReadBlock(here[4..]);
    if tail.Got? { assert value + (QUOTES + tail.value) == value + QUOTES + tail.value; }
  }

  lemma {:induction false} BlockEnds(value: string, here: string)
    requires here != [] && NextInBlock(here).End?
    ensures PushAll(value, ReadBlock(here)) == Got(value, here[3..])
  {
    assert value + "" == value;
  }

  lemma {:induction false} BlockPlain(value: string, here: string)
    requires here != [] && NextInBlock(here).Plain?
    ensures PushAll(value, ReadBlock(here)) == PushAll(value + [here[0]], ReadBlock(here[1..]))
  {
    PushAllSteps(value, here[0], ReadBlock(here[1..]));
  }

  /** The loop of `read_string` for a block string. */
  method ScanBlock(source: string, start: nat) returns (r: Result<string, LexError>, end: nat)
    requires start <= |source|
    ensures var spec := ReadBlock(source[start..]);
      if r.Ok? then start < end <= |source| && spec == Got(r.value, source[end..]) else spec == Bad(r.error)
  {
    end := start;
    var value := "";
    ghost var spec := ReadBlock(source[start..]);
    assert spec == PushAll(value, spec) by { if spec.Got? { assert "" + spec.value == spec.value; } }
    while end < |source|
      invariant start <= end <= |source|
      invariant spec == PushAll(value, ReadBlock(source[end..]))
      decreases |source| - end
    {
      var here := source[end..];
      var step := NextInBlock(here);
      if step.Quotes? {
        BlockQuotes(value, here);
        assert here[4..] == source[end + 4..];
        value := value + QUOTES;
        end := end + 4;
      } else if step.End? {
        BlockEnds(value, here);
        assert here[3..] == source[end + 3..];
        return Ok(value), end + 3;
      } else if step.Control? {
        return Err(ControlCharacter), end;
      } else {
        BlockPlain(value, here);
        assert here[1..] == source[end + 1..];
        value := value + [here[0]];
        end := end + 1;
      }
    }
    r := Err(Unterminated);
  }

  /** `read_string` on either form. */
  method ScanString(source: string, start: nat) returns (r: Result<string, LexError>, end: nat)
    requires start < |source| && source[start] == '"'
    ensures var spec := ReadString(source[start..]);
      if r.Ok? then start < end <= |source| && spec == Got(r.value, source[end..]) else spec == Bad(r.error)
  {
    if "\"\"\"" <= source[start..] {
      r, end := ScanBlock(source, start + 3);
      if r.Ok? { r := Ok(NormalizeBlock(r.value)); }
    } else {
      r, end := ScanQuoted(source, start + 1);
    }
  }

  method ScanName(source: string, start: nat) returns (end: nat)
    requires start < |source|
    ensures start < end <= |source|
    ensures var here := source[start..];
      end == start + RunEnd(here, 1, NameChar) && here[..end - start] == source[start..end]
        && here[end - start..] == source[end..]
  {
    ghost var here := source[start..];
    end := start + 1;
    while end < |source| && NameChar(source[end])
      invariant start < end <= |source|
      invariant RunEnd(here, 1, NameChar) == RunEnd(here, end - start, NameChar)
    { end := end + 1; }
    assert here[..end - start] == source[start..end] && here[end - start..] == source[end..];
  }

  /** One token of `lex`, starting at a character that is not skipped. */
  method ScanToken(source: string, start: nat) returns (r: Result<Token, LexError>, end: nat)
    requires start < |source|
    ensures var spec := ReadToken(source[start..]);
      if r.Ok? then start < end <= |source| && spec == Got(r.value, source[end..]) else spec == Bad(r.error)
  {
    ghost var here := source[start..];
    end := start;
    if NameStart(source[start]) {
      end := ScanName(source, start);
      r := Ok(Name(source[start..end]));
    } else if source[start] == '-' || Digit(source[start]) {
      var scanned := ScanNumber(source, start);
      if scanned.Err? { return Err(scanned.error), end; }
      end := scanned.value;
      assert here[..end - start] == source[start..end] && here[end - start..] == source[end..];
      r := Ok(Number(source[start..end]));
    } else if source[start] == '"' {
      var text;
      text, end := ScanString(source, start);
      r := if text.Ok? then Ok(Text(text.value)) else Err(text.error);
    } else if "..." <= source[start..] {
      r, end := Ok(Spread), start + 3;
    } else if Punctuator(source[start]) {
      r, end := Ok(Punct(source[start])), start + 1;
    } else {
      r := Err(UnexpectedToken);
    }
  }

  method SkipComment(source: string, start: nat) returns (pos: nat)
    requires start < |source|
    ensures start < pos <= |source|
    ensures source[pos..] == source[start..][RunEnd(source[start..], 1, LineText)..]
  {
    ghost var here := source[start..];
    pos := start + 1;
    while pos < |source| && LineText(source[pos])
      invariant start < pos <= |source|
      invariant RunEnd(here, 1, LineText) == RunEnd(here, pos - start, LineText)
    { pos := pos + 1; }
    assert here[pos - start..] == source[pos..];
  }

  lemma {:induction false} PrependAll(tokens: seq<Token>, token: Token, r: Result<seq<Token>, LexError>)
    ensures Prepend(tokens, Prepend([token], r)) == Prepend(tokens + [token], r)
  {
    if r.Ok? { assert tokens + ([token] + r.value) == tokens + [token] + r.value; }
  }

  lemma {:induction false} LexSkips(s: string, count: nat)
    requires s != [] && (Ignored(s[0]) || s[0] == '#')
    ensures LexFrom(s, count) == LexFrom(if Ignored(s[0]) then s[1..] else s[RunEnd(s, 1, LineText)..], count)
  {
  }

  lemma {:induction false} LexTakes(s: string, count: nat, token: Token, rest: string, tokens: seq<Token>)
    requires s != [] && !Ignored(s[0]) && s[0] != '#' && ReadToken(s) == Got(token, rest) && count + 1 <= MAX_TOKENS
    ensures Prepend(tokens, LexFrom(s, count)) == Prepend(tokens + [token], LexFrom(rest, count + 1))
  {
    PrependAll(tokens, token, LexFrom(rest, count + 1));
  }

  /** `lex`: the token loop. */
  method LexLoop(source: string) returns (r: Result<seq<Token>, LexError>)
    ensures r == Lex(source)
  {
    hide ReadToken;
    var tokens: seq<Token> := [];
    var pos := 0;
    assert source[0..] == source && (Lex(source).Ok? ==> [] + Lex(source).value == Lex(source).value);
    while pos < |source|
      invariant 0 <= pos <= |source|
      invariant |tokens| <= MAX_TOKENS
      invariant Lex(source) == Prepend(tokens, LexFrom(source[pos..], |tokens|))
      decreases |source| - pos
    {
      ghost var here := source[pos..];
      assert here[0] == source[pos] && here[1..] == source[pos + 1..];
      if Ignored(source[pos]) {
        LexSkips(here, |tokens|);
        pos := pos + 1;
        continue;
      }
      if source[pos] == '#' {
        LexSkips(here, |tokens|);
        pos := SkipComment(source, pos);
        continue;
      }
      var token, end := ScanToken(source, pos);
      if token.Err? { return Err(token.error); }
      if |tokens| + 1 > MAX_TOKENS { return Err(TooManyTokens); }
      LexTakes(here, |tokens|, token.value, source[end..], tokens);
      tokens := tokens + [token.value];
      pos := end;
    }
    assert tokens + [] == tokens;
    r := Ok(tokens);
  }
}
