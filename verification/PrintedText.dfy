/** The text that the printer writes lexes to the tokens that it denotes. */
module PrintedText {
  import opened Outcome
  import opened OrderedMap
  import opened Syntax
  import opened Printer
  import L = Lexer

  /** What may follow a printed name, number or string without joining it. */
  predicate Boundary(tail: string) {
    tail == [] || (!L.GluesToNumber(tail[0]) && tail[0] != '"')
  }

  predicate Lexes(text: string, ts: Tokens) { L.Tokens(text) == Ok(ts) }

  // ---------------------------------------------------------------- single tokens

  lemma {:induction false} LexIgnored(c: char, tail: string, ts: Tokens)
    requires L.Ignored(c) && Lexes(tail, ts)
    ensures Lexes([c] + tail, ts)
  {
    assert ([c] + tail)[1..] == tail;
  }

  lemma {:induction false} LexPunct(c: char, tail: string, ts: Tokens)
    requires L.Punctuator(c) && Lexes(tail, ts)
    ensures Lexes([c] + tail, [L.Punct(c)] + ts)
  {
    var s := [c] + tail;
    assert s[1..] == tail && s[0] == c;
    assert !("..." <= s);
  }

  lemma {:induction false} RunEndIs(s: string, i: nat, p: char -> bool, j: nat)
    requires i <= j <= |s|
    requires forall k :: i <= k < j ==> p(s[k])
    requires j < |s| ==> !p(s[j])
    ensures L.RunEnd(s, i, p) == j
    decreases j - i
  {
    if i < j { RunEndIs(s, i + 1, p, j); }
  }

  lemma {:induction false} LexName(name: string, tail: string, ts: Tokens)
    requires IsName(name) && Boundary(tail) && Lexes(tail, ts)
    ensures Lexes(name + tail, [L.Name(name)] + ts)
  {
    var s := name + tail;
    RunEndIs(s, 1, L.NameChar, |name|);
    assert s[..|name|] == name && s[|name|..] == tail;
  }

  lemma {:induction false} LexSpread(tail: string, ts: Tokens)
    requires Lexes(tail, ts)
    ensures Lexes("..." + tail, [L.Spread] + ts)
  {
    var s := "..." + tail;
    assert s[3..] == tail && "..." <= s && s[0] == '.';
  }

  // ---------------------------------------------------------------- numbers

  /** A number keeps its end when the text after it is replaced. */
  lemma {:induction false} NumberStable(s: string, n: nat, tail: string)
    requires L.NumberEnd(s) == Ok(n) && Boundary(tail)
    ensures L.NumberEnd(s[..n] + tail) == Ok(n)
  {
    var t := s[..n] + tail;
    var i := L.IntegerEnd(s).value;
    var j := L.FractionEnd(s, i).value;
    assert forall k :: 0 <= k < n ==> t[k] == s[k];
    IntegerStable(s, t, n);
    FractionStable(s, t, i, n);
    ExponentStable(s, t, j, n);
  }

  ghost predicate SameUpTo(s: string, t: string, n: nat) {
    n <= |s| && n <= |t| && s[..n] == t[..n] && (n < |t| ==> !L.GluesToNumber(t[n]))
  }

  lemma {:induction false} RunStable(s: string, t: string, i: nat, n: nat)
    requires SameUpTo(s, t, n) && i <= n && L.RunEnd(s, i, L.Digit) <= n
    ensures L.RunEnd(t, i, L.Digit) == L.RunEnd(s, i, L.Digit)
  {
    var j := L.RunEnd(s, i, L.Digit);
    L.RunIsLongest(s, i, L.Digit);
    assert forall k :: 0 <= k < n ==> s[..n][k] == s[k] && t[..n][k] == t[k];
    RunEndIs(t, i, L.Digit, j);
  }

  lemma {:induction false} IntegerStable(s: string, t: string, n: nat)
    requires SameUpTo(s, t, n) && L.IntegerEnd(s).Ok? && L.IntegerEnd(s).value <= n
    ensures L.IntegerEnd(t) == L.IntegerEnd(s)
  {
    assert forall k :: 0 <= k < n ==> s[..n][k] == s[k] && t[..n][k] == t[k];
    var i := if s[0] == '-' then 1 else 0;
    if s[i] != '0' { RunStable(s, t, i, n); }
  }

  lemma {:induction false} FractionStable(s: string, t: string, i: nat, n: nat)
    requires SameUpTo(s, t, n) && i <= n && L.FractionEnd(s, i).Ok? && L.FractionEnd(s, i).value <= n
    ensures L.FractionEnd(t, i) == L.FractionEnd(s, i)
  {
    assert forall k :: 0 <= k < n ==> s[..n][k] == s[k] && t[..n][k] == t[k];
    if i < n && s[i] == '.' { RunStable(s, t, i + 1, n); }
  }

  lemma {:induction false} ExponentStable(s: string, t: string, i: nat, n: nat)
    requires SameUpTo(s, t, n) && i <= n && L.ExponentEnd(s, i).Ok? && L.ExponentEnd(s, i).value == n
    ensures L.ExponentEnd(t, i) == L.ExponentEnd(s, i)
  {
    assert forall k :: 0 <= k < n ==> s[..n][k] == s[k] && t[..n][k] == t[k];
    if i < n {
      var d := if i + 1 < |s| && (s[i + 1] == '+' || s[i + 1] == '-') then i + 2 else i + 1;
      RunStable(s, t, d, n);
    }
  }

  lemma {:induction false} LexNumber(text: string, tail: string, ts: Tokens)
    requires IsNumber(text) && Boundary(tail) && Lexes(tail, ts)
    ensures Lexes(text + tail, [L.Number(text)] + ts)
  {
    var s := text + tail;
    assert text[..|text|] == text;
    NumberStable(text, |text|, tail);
    assert s[..|text|] == text && s[|text|..] == tail;
    assert s[0] == text[0];
    LexToken(s, L.Number(text), tail, ts);
  }

  lemma {:induction false} LexToken(s: string, token: L.Token, rest: string, ts: Tokens)
    requires s != [] && !L.Ignored(s[0]) && s[0] != '#' && L.ReadToken(s) == L.Got(token, rest) && Lexes(rest, ts)
    ensures Lexes(s, [token] + ts)
  {
  }

  // ---------------------------------------------------------------- strings

  /** Reading one escaped character gives the character back. */
  lemma {:induction false} ReadEscapedChar(c: char, tail: string)
    ensures L.ReadQuoted(Escape(c) + tail) == L.Push(c, L.ReadQuoted(tail))
  {
    var s := Escape(c) + tail;
    if Escape(c) == [c] {
      assert s[1..] == tail;
    } else {
      assert s[0] == '\\';
      assert s[1..] == Escape(c)[1..] + tail;
      ReadEscapeSequence(c, tail);
    }
  }

  lemma {:induction false} ReadEscapeSequence(c: char, tail: string)
    requires Escape(c) != [c]
    ensures L.ReadEscape(Escape(c)[1..] + tail) == L.Got(c, tail)
  {
    var s := Escape(c)[1..] + tail;
    if |Escape(c)| == 2 {
      assert s[1..] == tail;
    } else {
      assert s[1..] == Escape(c)[2..] + tail;
      ReadControlEscape(c, tail);
    }
  }

  lemma {:induction false} ReadControlEscape(c: char, tail: string)
    requires c < ' ' && |Escape(c)| == 6
    ensures L.ReadUnicode(Escape(c)[2..] + tail) == L.Got(c, tail)
  {
    var h := ['0', '0', HexChar(c as nat / 16), HexChar(c as nat % 16)];
    var s := h + tail;
    assert Escape(c)[2..] == h && s[..4] == h && s[4..] == tail;
    assert L.HexAt(s, 4);
    assert h[..3] == ['0', '0', HexChar(c as nat / 16)] && h[..3][..2] == ['0', '0'] && h[..2][..1] == ['0'];
    assert L.HexNumber(['0']) == 0;
    assert L.HexNumber(['0', '0']) == 0;
    assert L.HexNumber(h[..3]) == c as nat / 16;
    assert L.HexNumber(h) == c as nat;
  }

  lemma {:induction false} ReadEscaped(text: string, tail: string)
    ensures L.ReadQuoted(Escaped(text, "\"" + tail)) == L.Got(text, tail)
  {
    if text == [] {
      assert ("\"" + tail)[1..] == tail;
    } else {
      ReadEscaped(text[1..], tail);
      ReadEscapedChar(text[0], Escaped(text[1..], "\"" + tail));
      assert text == [text[0]] + text[1..];
    }
  }

  lemma {:induction false} EscapedStart(text: string, tail: string)
    requires text != []
    ensures Escaped(text, tail) != [] && Escaped(text, tail)[0] != '"'
  {
  }

  lemma {:induction false} LexQuoted(text: string, tail: string, ts: Tokens)
    requires Boundary(tail) && Lexes(tail, ts)
    ensures Lexes(Quoted(text, tail), [L.Text(text)] + ts)
  {
    var s := Quoted(text, tail);
    var inner := Escaped(text, "\"" + tail);
    assert s[1..] == inner && s[0] == '"';
    if text == [] {
      assert s == "\"\"" + tail;
      assert tail != [] ==> s[2] == tail[0];
    } else {
      EscapedStart(text, "\"" + tail);
      assert s[1] == inner[0];
    }
    assert !("\"\"\"" <= s);
    ReadEscaped(text, tail);
  }

  // ---------------------------------------------------------------- fixed pieces

  lemma {:induction false} LexSpace(tail: string, ts: Tokens)
    requires Lexes(tail, ts)
    ensures Lexes(" " + tail, ts) && Boundary(" " + tail)
  {
    LexIgnored(' ', tail, ts);
  }

  lemma {:induction false} LexComma(tail: string, ts: Tokens)
    requires Lexes(tail, ts)
    ensures Lexes(", " + tail, ts) && Boundary(", " + tail)
  {
    LexSpace(tail, ts);
    LexIgnored(',', " " + tail, ts);
    assert ", " + tail == [','] + (" " + tail);
  }

  lemma {:induction false} LexColon(tail: string, ts: Tokens)
    requires Lexes(tail, ts)
    ensures Lexes(": " + tail, [L.Punct(':')] + ts) && Boundary(": " + tail)
  {
    LexSpace(tail, ts);
    LexPunct(':', " " + tail, ts);
    assert ": " + tail == [':'] + (" " + tail);
  }

  lemma {:induction false} LexSpaced(c: char, tail: string, ts: Tokens)
    requires L.Punctuator(c) && Lexes(tail, ts)
    ensures Lexes(" " + ([c] + tail), [L.Punct(c)] + ts) && Boundary(" " + ([c] + tail))
  {
    LexPunct(c, tail, ts);
    LexSpace([c] + tail, [L.Punct(c)] + ts);
  }

  lemma {:induction false} LexOn(tail: string, ts: Tokens)
    requires Lexes(tail, ts)
    ensures Lexes(" on " + tail, [L.Name("on")] + ts) && Boundary(" on " + tail)
  {
    LexSpace(tail, ts);
    LexName("on", " " + tail, ts);
    LexSpace("on" + (" " + tail), [L.Name("on")] + ts);
    assert " on " + tail == " " + ("on" + (" " + tail));
  }

  lemma {:induction false} LexNewline(tail: string, ts: Tokens)
    requires Lexes(tail, ts)
    ensures Lexes("\n" + tail, ts) && Boundary("\n" + tail)
  {
    LexIgnored('\n', tail, ts);
  }

  lemma {:induction false} LexIndented(n: nat, tail: string, ts: Tokens)
    requires Lexes(tail, ts)
    ensures Lexes(Indented(n, tail), ts)
    ensures n > 0 ==> Boundary(Indented(n, tail))
  {
    if n > 0 {
      LexIndented(n - 1, tail, ts);
      var inner := Indented(n - 1, tail);
      LexSpace(inner, ts);
      LexSpace(" " + inner, ts);
      assert "  " + inner == " " + (" " + inner);
    }
  }

  // ---------------------------------------------------------------- values

  lemma {:induction false} LexValue(v: Value, depth: nat, constant: bool, tail: string, ts: Tokens)
    requires ValueOk(v, depth, constant) && Boundary(tail) && Lexes(tail, ts)
    ensures Lexes(ValueText(v, tail), ValueTokens(v, ts))
    decreases v
  {
    match v
    case Variable(name) =>
      LexName(name, tail, ts);
      LexPunct('$', name + tail, [L.Name(name)] + ts);
      assert [L.Punct('$')] + ([L.Name(name)] + ts) == [L.Punct('$'), L.Name(name)] + ts;
    case Int(text) => LexNumber(text, tail, ts);
    case Float(text) => LexNumber(text, tail, ts);
    case Enum(name) => LexName(name, tail, ts);
    case Str(text) => LexQuoted(text, tail, ts);
    case Boolean(on) => LexName(if on then "true" else "false", tail, ts);
    case Null => LexName("null", tail, ts);
    case List(values) =>
      LexPunct(']', tail, ts);
      LexValues(values, depth, constant, "]" + tail, [L.Punct(']')] + ts);
      LexPunct('[', ValuesText(values, "]" + tail), ValuesTokens(values, [L.Punct(']')] + ts));
    case Object(fields) =>
      LexPunct('}', tail, ts);
      LexEntries(fields, depth, constant, "}" + tail, [L.Punct('}')] + ts);
      LexPunct('{', EntriesText(fields, "}" + tail), EntriesTokens(fields, [L.Punct('}')] + ts));
  }

  lemma {:induction false} LexValues(vs: seq<Value>, depth: nat, constant: bool, tail: string, ts: Tokens)
    requires forall i :: 0 <= i < |vs| ==> ValueOk(vs[i], depth + 1, constant)
    requires Boundary(tail) && Lexes(tail, ts)
    ensures Lexes(ValuesText(vs, tail), ValuesTokens(vs, ts))
    decreases vs
  {
    if |vs| == 1 {
      LexValue(vs[0], depth + 1, constant, tail, ts);
      assert ValuesTokens(vs[1..], ts) == ts;
    } else if |vs| > 1 {
      LexValues(vs[1..], depth, constant, tail, ts);
      LexComma(ValuesText(vs[1..], tail), ValuesTokens(vs[1..], ts));
      LexValue(vs[0], depth + 1, constant, ", " + ValuesText(vs[1..], tail), ValuesTokens(vs[1..], ts));
    }
  }

  lemma {:induction false} LexEntries(es: seq<Entry<Value>>, depth: nat, constant: bool, tail: string, ts: Tokens)
    requires forall i :: 0 <= i < |es| ==> EntryOk(es[i], depth, constant)
    requires Boundary(tail) && Lexes(tail, ts)
    ensures Lexes(EntriesText(es, tail), EntriesTokens(es, ts))
    decreases es
  {
    if es != [] {
      var after := if |es| == 1 then tail else ", " + EntriesText(es[1..], tail);
      var rest := EntriesTokens(es[1..], ts);
      LexEntries(es[1..], depth, constant, tail, ts);
      if |es| > 1 { LexComma(EntriesText(es[1..], tail), rest); }
      assert EntryOk(es[0], depth, constant);
      LexValue(es[0].value, depth + 1, constant, after, rest);
      LexKeyed(es[0].key, ValueText(es[0].value, after), ValueTokens(es[0].value, rest));
    }
  }

  lemma {:induction false} LexKeyed(key: string, value: string, ts: Tokens)
    requires IsName(key) && Lexes(value, ts)
    ensures Lexes(key + (": " + value), [L.Name(key), L.Punct(':')] + ts)
  {
    LexColon(value, ts);
    LexName(key, ": " + value, [L.Punct(':')] + ts);
    assert [L.Name(key)] + ([L.Punct(':')] + ts) == [L.Name(key), L.Punct(':')] + ts;
  }

  lemma {:induction false} LexArguments(args: seq<Entry<Value>>, depth: nat, constant: bool, tail: string, ts: Tokens)
    requires EntriesOk(args, depth, constant) && Boundary(tail) && Lexes(tail, ts)
    ensures Lexes(ArgumentsText(args, tail), ArgumentsTokens(args, ts)) && Boundary(ArgumentsText(args, tail))
  {
    if args != [] {
      LexPunct(')', tail, ts);
      LexEntries(args, depth, constant, ")" + tail, [L.Punct(')')] + ts);
      LexPunct('(', EntriesText(args, ")" + tail), EntriesTokens(args, [L.Punct(')')] + ts));
    }
  }

  lemma {:induction false} LexDirectives(ds: seq<Directive>, depth: nat, constant: bool, tail: string, ts: Tokens)
    requires DirectivesOk(ds, depth, constant) && Boundary(tail) && Lexes(tail, ts)
    ensures Lexes(DirectivesText(ds, tail), DirectivesTokens(ds, ts)) && Boundary(DirectivesText(ds, tail))
  {
    if ds != [] {
      LexDirectives(ds[1..], depth, constant, tail, ts);
      var after, rest := DirectivesText(ds[1..], tail), DirectivesTokens(ds[1..], ts);
      assert DirectiveOk(ds[0], depth, constant);
      LexArguments(ds[0].arguments, depth, constant, after, rest);
      var args, argTokens := ArgumentsText(ds[0].arguments, after), ArgumentsTokens(ds[0].arguments, rest);
      LexDirectiveName(ds[0].name, args, argTokens);
    }
  }

  lemma {:induction false} LexDirectiveName(name: string, tail: string, ts: Tokens)
    requires IsName(name) && Boundary(tail) && Lexes(tail, ts)
    ensures Lexes(" @" + (name + tail), [L.Punct('@'), L.Name(name)] + ts)
  {
    LexName(name, tail, ts);
    LexSpaced('@', name + tail, [L.Name(name)] + ts);
    assert " @" + (name + tail) == " " + (['@'] + (name + tail));
    assert [L.Punct('@')] + ([L.Name(name)] + ts) == [L.Punct('@'), L.Name(name)] + ts;
  }

  // ---------------------------------------------------------------- selections

  lemma {:induction false} LexSelections(ss: seq<Selection>, depth: nat, tail: string, ts: Tokens)
    requires forall i :: 0 <= i < |ss| ==> SelectionOk(ss[i], depth)
    requires Lexes(tail, ts)
    ensures Lexes(SelectionsText(ss, depth, tail), SelectionsTokens(ss, ts))
    decreases ss, 2
  {
    LexPunct('}', tail, ts);
    var close := Indented(depth, "}" + tail);
    LexIndented(depth, "}" + tail, [L.Punct('}')] + ts);
    LexItems(ss, depth, close, [L.Punct('}')] + ts);
    var items, itemTokens := ItemsText(ss, depth, close), ItemsTokens(ss, [L.Punct('}')] + ts);
    LexNewline(items, itemTokens);
    LexPunct('{', "\n" + items, itemTokens);
    assert "{\n" + items == ['{'] + ("\n" + items);
  }

  lemma {:induction false} LexItems(ss: seq<Selection>, depth: nat, tail: string, ts: Tokens)
    requires forall i :: 0 <= i < |ss| ==> SelectionOk(ss[i], depth)
    requires Lexes(tail, ts)
    ensures Lexes(ItemsText(ss, depth, tail), ItemsTokens(ss, ts))
    decreases ss, 1
  {
    if ss != [] {
      LexItems(ss[1..], depth, tail, ts);
      var after, rest := ItemsText(ss[1..], depth, tail), ItemsTokens(ss[1..], ts);
      LexNewline(after, rest);
      LexSelection(ss[0], depth, "\n" + after, rest);
      LexIndented(depth + 1, SelectionText(ss[0], depth, "\n" + after), SelectionTokens(ss[0], rest));
    }
  }

  lemma {:induction false} LexSelection(s: Selection, depth: nat, tail: string, ts: Tokens)
    requires SelectionOk(s, depth) && Boundary(tail) && Lexes(tail, ts)
    ensures Lexes(SelectionText(s, depth, tail), SelectionTokens(s, ts))
    decreases s, 0
  {
    hide IsFloat, IsNumber, DirectiveOk, EntryOk, SelectionsText, SelectionsTokens, DirectivesText, DirectivesTokens,
      Boundary;
    match s
    case Field(name, alias, arguments, directives, selections) =>
      var after := if selections == [] then tail else " " + SelectionsText(selections, depth + 1, tail);
      var rest := if selections == [] then ts else SelectionsTokens(selections, ts);
      if selections != [] {
        LexSelections(selections, depth + 1, tail, ts);
        LexSpace(SelectionsText(selections, depth + 1, tail), rest);
      }
      LexFieldHead(name, alias, arguments, directives, depth, after, rest);
    case Spread(name, directives) =>
      LexDirectives(directives, depth, false, tail, ts);
      var after, rest := DirectivesText(directives, tail), DirectivesTokens(directives, ts);
      LexName(name, after, rest);
      LexSpread(name + after, [L.Name(name)] + rest);
      assert [L.Spread] + ([L.Name(name)] + rest) == [L.Spread, L.Name(name)] + rest;
    case Inline(onType, directives, selections) =>
      LexSelections(selections, depth + 1, tail, ts);
      LexSpace(SelectionsText(selections, depth + 1, tail), SelectionsTokens(selections, ts));
      var body, bodyTokens := " " + SelectionsText(selections, depth + 1, tail), SelectionsTokens(selections, ts);
      LexDirectives(directives, depth, false, body, bodyTokens);
      var after, rest := DirectivesText(directives, body), DirectivesTokens(directives, bodyTokens);
      if onType.Some? {
        LexName(onType.value, after, rest);
        LexOn(onType.value + after, [L.Name(onType.value)] + rest);
        assert [L.Name("on")] + ([L.Name(onType.value)] + rest) == [L.Name("on"), L.Name(onType.value)] + rest;
      }
      LexSpread(OnTypeText(onType, after), OnTypeTokens(onType, rest));
  }

  /** A field up to its selection set. */
  lemma {:induction false} LexFieldHead(name: string, alias: Option<string>, arguments: seq<Entry<Value>>,
                                        directives: seq<Directive>, depth: nat, tail: string, ts: Tokens)
    requires IsName(name) && NameOk(alias) && EntriesOk(arguments, depth, false)
    requires DirectivesOk(directives, depth, false) && Boundary(tail) && Lexes(tail, ts)
    ensures Lexes(AliasText(alias, name + ArgumentsText(arguments, DirectivesText(directives, tail))),
                  AliasTokens(alias, [L.Name(name)] + ArgumentsTokens(arguments, DirectivesTokens(directives, ts))))
  {
    LexDirectives(directives, depth, false, tail, ts);
    LexArguments(arguments, depth, false, DirectivesText(directives, tail), DirectivesTokens(directives, ts));
    var args := ArgumentsText(arguments, DirectivesText(directives, tail));
    var argTokens := ArgumentsTokens(arguments, DirectivesTokens(directives, ts));
    LexName(name, args, argTokens);
    if alias.Some? { LexAlias(alias.value, name + args, [L.Name(name)] + argTokens); }
  }

  lemma {:induction false} LexAlias(alias: string, tail: string, ts: Tokens)
    requires IsName(alias) && Lexes(tail, ts)
    ensures Lexes(AliasText(Some(alias), tail), AliasTokens(Some(alias), ts))
  {
    LexColon(tail, ts);
    LexName(alias, ": " + tail, [L.Punct(':')] + ts);
    assert [L.Name(alias)] + ([L.Punct(':')] + ts) == [L.Name(alias), L.Punct(':')] + ts;
  }

  // ---------------------------------------------------------------- documents

  lemma {:induction false} LexBang(required: bool, tail: string, ts: Tokens)
    requires Boundary(tail) && Lexes(tail, ts)
    ensures Lexes(BangText(required, tail), BangTokens(required, ts)) && Boundary(BangText(required, tail))
  {
    if required { LexPunct('!', tail, ts); }
  }

  lemma {:induction false} LexType(t: TypeRef, depth: nat, tail: string, ts: Tokens)
    requires TypeOk(t, depth) && Boundary(tail) && Lexes(tail, ts)
    ensures Lexes(TypeText(t, tail), TypeTokens(t, ts))
  {
    LexBang(t.required, tail, ts);
    var after, rest := BangText(t.required, tail), BangTokens(t.required, ts);
    match t
    case NamedType(name, _) => LexName(name, after, rest);
    case ListType(inner, _) =>
      LexPunct(']', after, rest);
      LexType(inner, depth + 1, "]" + after, [L.Punct(']')] + rest);
      LexPunct('[', TypeText(inner, "]" + after), TypeTokens(inner, [L.Punct(']')] + rest));
  }

  lemma {:induction false} LexDefault(default: Option<Value>, tail: string, ts: Tokens)
    requires default.Some? ==> ValueOk(default.value, 0, true)
    requires Boundary(tail) && Lexes(tail, ts)
    ensures Lexes(DefaultText(default, tail), DefaultTokens(default, ts)) && Boundary(DefaultText(default, tail))
  {
    if default.Some? {
      LexValue(default.value, 0, true, tail, ts);
      var value, valueTokens := ValueText(default.value, tail), ValueTokens(default.value, ts);
      LexSpace(value, valueTokens);
      LexSpaced('=', " " + value, valueTokens);
      assert " = " + value == " " + (['='] + (" " + value));
    }
  }

  lemma {:induction false} LexVariable(v: VariableDef, tail: string, ts: Tokens)
    requires VariableOk(v) && Boundary(tail) && Lexes(tail, ts)
    ensures Lexes(VariableText(v, tail), VariableTokens(v, ts))
  {
    LexDirectives(v.directives, 0, true, tail, ts);
    var t1, r1 := DirectivesText(v.directives, tail), DirectivesTokens(v.directives, ts);
    LexDefault(v.default, t1, r1);
    var t2, r2 := DefaultText(v.default, t1), DefaultTokens(v.default, r1);
    LexType(v.typeRef, 0, t2, r2);
    LexDollar(v.name, TypeText(v.typeRef, t2), TypeTokens(v.typeRef, r2));
  }

  lemma {:induction false} LexDollar(name: string, text: string, ts: Tokens)
    requires IsName(name) && Lexes(text, ts)
    ensures Lexes("$" + (name + (": " + text)), [L.Punct('$'), L.Name(name), L.Punct(':')] + ts)
  {
    LexKeyed(name, text, ts);
    LexPunct('$', name + (": " + text), [L.Name(name), L.Punct(':')] + ts);
    assert [L.Punct('$')] + ([L.Name(name), L.Punct(':')] + ts) == [L.Punct('$'), L.Name(name), L.Punct(':')] + ts;
  }

  lemma {:induction false} LexVariableList(vs: seq<VariableDef>, tail: string, ts: Tokens)
    requires forall i :: 0 <= i < |vs| ==> VariableOk(vs[i])
    requires Boundary(tail) && Lexes(tail, ts)
    ensures Lexes(VariableListText(vs, tail), VariableListTokens(vs, ts))
  {
    if vs != [] {
      LexVariableList(vs[1..], tail, ts);
      var rest := VariableListTokens(vs[1..], ts);
      if |vs| > 1 { LexComma(VariableListText(vs[1..], tail), rest); }
      LexVariable(vs[0], if |vs| == 1 then tail else ", " + VariableListText(vs[1..], tail), rest);
    }
  }

  lemma {:induction false} LexVariables(vs: seq<VariableDef>, tail: string, ts: Tokens)
    requires VariablesOk(vs) && Boundary(tail) && Lexes(tail, ts)
    ensures Lexes(VariablesText(vs, tail), VariablesTokens(vs, ts)) && Boundary(VariablesText(vs, tail))
  {
    if vs != [] {
      LexPunct(')', tail, ts);
      LexVariableList(vs, ")" + tail, [L.Punct(')')] + ts);
      LexPunct('(', VariableListText(vs, ")" + tail), VariableListTokens(vs, [L.Punct(')')] + ts));
    }
  }

  /** The directives and selection set that end an operation or a fragment. */
  lemma {:induction false} LexBody(directives: seq<Directive>, selections: seq<Selection>, tail: string, ts: Tokens)
    requires DirectivesOk(directives, 0, false) && SelectionsOk(selections, 0) && Lexes(tail, ts)
    ensures var text := DirectivesText(directives, " " + SelectionsText(selections, 0, tail));
      Boundary(text) && Lexes(text, DirectivesTokens(directives, SelectionsTokens(selections, ts)))
  {
    LexSelections(selections, 0, tail, ts);
    LexSpace(SelectionsText(selections, 0, tail), SelectionsTokens(selections, ts));
    LexDirectives(directives, 0, false, " " + SelectionsText(selections, 0, tail), SelectionsTokens(selections, ts));
  }

  lemma {:induction false} LexOperation(op: Operation, tail: string, ts: Tokens)
    requires OperationOk(op) && Lexes(tail, ts)
    ensures Lexes(OperationText(op, tail), OperationTokens(op, ts))
  {
    LexBody(op.directives, op.selections, tail, ts);
    var t1 := DirectivesText(op.directives, " " + SelectionsText(op.selections, 0, tail));
    var r1 := DirectivesTokens(op.directives, SelectionsTokens(op.selections, ts));
    LexVariables(op.variables, t1, r1);
    var t2, r2 := VariablesText(op.variables, t1), VariablesTokens(op.variables, r1);
    LexOptionalName(op.name, t2, r2);
    KindIsName(op.kind);
    LexName(op.kind, OptionalNameText(op.name, t2), OptionalNameTokens(op.name, r2));
  }

  lemma {:induction false} KindIsName(kind: string)
    requires OperationKind(kind)
    ensures IsName(kind)
  {
  }

  lemma {:induction false} LexOptionalName(name: Option<string>, tail: string, ts: Tokens)
    requires NameOk(name) && Boundary(tail) && Lexes(tail, ts)
    ensures Lexes(OptionalNameText(name, tail), OptionalNameTokens(name, ts)) && Boundary(OptionalNameText(name, tail))
  {
    if name.Some? {
      LexName(name.value, tail, ts);
      LexSpace(name.value + tail, [L.Name(name.value)] + ts);
    }
  }

  lemma {:induction false} LexFragmentWord(tail: string, ts: Tokens)
    requires Lexes(tail, ts)
    ensures Lexes("\n\n" + ("fragment" + (" " + tail)), [L.Name("fragment")] + ts)
  {
    LexSpace(tail, ts);
    LexName("fragment", " " + tail, ts);
    LexBreak("fragment" + (" " + tail), [L.Name("fragment")] + ts);
  }

  lemma {:induction false} LexFragmentHead(name: string, onType: string, tail: string, ts: Tokens)
    requires IsName(name) && IsName(onType) && Boundary(tail) && Lexes(tail, ts)
    ensures Lexes(name + (" on " + (onType + tail)), [L.Name(name)] + ([L.Name("on")] + ([L.Name(onType)] + ts)))
  {
    LexName(onType, tail, ts);
    LexOn(onType + tail, [L.Name(onType)] + ts);
    LexName(name, " on " + (onType + tail), [L.Name("on")] + ([L.Name(onType)] + ts));
  }

  lemma {:induction false} LexFragment(f: Fragment, tail: string, ts: Tokens)
    requires FragmentOk(f) && Lexes(tail, ts)
    ensures Lexes(FragmentText(f, tail), FragmentTokens(f, ts))
  {
    LexBody(f.directives, f.selections, tail, ts);
    var t1 := DirectivesText(f.directives, " " + SelectionsText(f.selections, 0, tail));
    var r1 := DirectivesTokens(f.directives, SelectionsTokens(f.selections, ts));
    LexFragmentStart(f.name, f.onType, t1, r1);
  }

  lemma {:induction false} LexFragmentStart(name: string, onType: string, tail: string, ts: Tokens)
    requires IsName(name) && IsName(onType) && Boundary(tail) && Lexes(tail, ts)
    ensures Lexes("\n\n" + ("fragment" + (" " + (name + (" on " + (onType + tail))))),
                  [L.Name("fragment"), L.Name(name), L.Name("on"), L.Name(onType)] + ts)
  {
    LexFragmentHead(name, onType, tail, ts);
    var rest := [L.Name(name)] + ([L.Name("on")] + ([L.Name(onType)] + ts));
    LexFragmentWord(name + (" on " + (onType + tail)), rest);
    assert [L.Name("fragment")] + rest == [L.Name("fragment"), L.Name(name), L.Name("on"), L.Name(onType)] + ts;
  }

  lemma {:induction false} LexBreak(tail: string, ts: Tokens)
    requires Lexes(tail, ts)
    ensures Lexes("\n\n" + tail, ts)
  {
    LexNewline(tail, ts);
    LexNewline("\n" + tail, ts);
    assert "\n\n" + tail == "\n" + ("\n" + tail);
  }

  lemma {:induction false} LexFragments(fs: seq<Entry<Fragment>>)
    requires FragmentsOk(fs)
    ensures Lexes(FragmentsText(fs), FragmentsTokens(fs))
  {
    if fs != [] {
      LexFragments(fs[1..]);
      LexFragment(fs[0].value, FragmentsText(fs[1..]), FragmentsTokens(fs[1..]));
    }
  }

  lemma {:induction false} LexOperations(ops: seq<Operation>, tail: string, ts: Tokens)
    requires forall i :: 0 <= i < |ops| ==> OperationOk(ops[i])
    requires Lexes(tail, ts)
    ensures Lexes(OperationsText(ops, tail), OperationsTokens(ops, ts))
  {
    if ops != [] {
      LexOperations(ops[1..], tail, ts);
      var rest := OperationsTokens(ops[1..], ts);
      if |ops| > 1 { LexBreak(OperationsText(ops[1..], tail), rest); }
      LexOperation(ops[0], if |ops| == 1 then tail else "\n\n" + OperationsText(ops[1..], tail), rest);
    }
  }

  /** The printed form of every well-formed document lexes to its tokens. */
  lemma {:induction false} LexDocument(d: Document)
    requires DocumentOk(d)
    ensures Lexes(DocumentText(d), DocumentTokens(d))
  {
    LexFragments(d.fragments);
    LexOperations(d.operations, FragmentsText(d.fragments), FragmentsTokens(d.fragments));
  }
}
