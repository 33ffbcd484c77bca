/** Every accepted document is well formed, and its printed form has as many tokens as the input,
    plus one for a shorthand operation. */
module ParsedDocument {
  import opened Outcome
  import opened OrderedMap
  import opened Syntax
  import opened Printer
  import opened Parser
  import L = Lexer
  import PrintedText

  type Tokens = Parser.Tokens

  predicate TokenOk(t: L.Token) {
    match t
    case Name(text) => IsName(text)
    case Number(text) => IsNumber(text)
    case _ => true
  }

  predicate TokensOk(ts: Tokens) { forall i :: 0 <= i < |ts| ==> TokenOk(ts[i]) }

  lemma {:induction false} LexedTokenOk(s: string)
    requires s != [] && L.ReadToken(s).Got?
    ensures TokenOk(L.ReadToken(s).value)
  {
    L.RunIsLongest(s, 1, L.NameChar);
    if !L.NameStart(s[0]) && (s[0] == '-' || L.Digit(s[0])) {
      var n := L.NumberEnd(s).value;
      PrintedText.NumberStable(s, n, "");
      assert s[..n] + "" == s[..n];
    }
  }

  lemma {:induction false} LexedTokensOk(s: string)
    requires L.Tokens(s).Ok?
    ensures TokensOk(L.Tokens(s).value)
    decreases |s|
  {
    if s == [] {
    } else if L.Ignored(s[0]) {
      LexedTokensOk(s[1..]);
    } else if s[0] == '#' {
      LexedTokensOk(s[L.RunEnd(s, 1, L.LineText)..]);
    } else {
      LexedTokenOk(s);
      LexedTokensOk(L.ReadToken(s).rest);
    }
  }

  // ---------------------------------------------------------------- token counts

  function ValueSize(v: Value): nat
    decreases v
  {
    match v
    case Variable(_) => 2
    case List(values) => 2 + ValuesSize(values)
    case Object(fields) => 2 + EntriesSize(fields)
    case _ => 1
  }

  function ValuesSize(vs: seq<Value>): nat
    decreases vs
  {
    if vs == [] then 0 else ValueSize(vs[0]) + ValuesSize(vs[1..])
  }

  function EntriesSize(es: seq<Entry<Value>>): nat
    decreases es
  {
    if es == [] then 0 else 2 + ValueSize(es[0].value) + EntriesSize(es[1..])
  }

  function ArgumentsSize(args: seq<Entry<Value>>): nat { if args == [] then 0 else 2 + EntriesSize(args) }

  function DirectivesSize(ds: seq<Directive>): nat {
    if ds == [] then 0 else 2 + ArgumentsSize(ds[0].arguments) + DirectivesSize(ds[1..])
  }

  function NameSize(name: Option<string>, size: nat): nat { if name.Some? then size else 0 }

  function SelectionSize(s: Selection): nat
    decreases s, 0
  {
    match s
    case Field(_, alias, arguments, directives, selections) =>
      NameSize(alias, 2) + 1 + ArgumentsSize(arguments) + DirectivesSize(directives)
      + if selections == [] then 0 else 2 + ItemsSize(selections)
    case Spread(_, directives) => 2 + DirectivesSize(directives)
    case Inline(onType, directives, selections) =>
      1 + NameSize(onType, 2) + DirectivesSize(directives) + 2 + ItemsSize(selections)
  }

  function ItemsSize(ss: seq<Selection>): nat
    decreases ss, 1
  {
    if ss == [] then 0 else SelectionSize(ss[0]) + ItemsSize(ss[1..])
  }

  function TypeSize(t: TypeRef): nat {
    (if t.required then 1 else 0) + match t case NamedType(_, _) => 1 case ListType(inner, _) => 2 + TypeSize(inner)
  }

  function VariableSize(v: VariableDef): nat {
    3 + TypeSize(v.typeRef) + (if v.default.Some? then 1 + ValueSize(v.default.value) else 0)
      + DirectivesSize(v.directives)
  }

  function VariableListSize(vs: seq<VariableDef>): nat {
    if vs == [] then 0 else VariableSize(vs[0]) + VariableListSize(vs[1..])
  }

  function VariablesSize(vs: seq<VariableDef>): nat { if vs == [] then 0 else 2 + VariableListSize(vs) }

  function OperationSize(op: Operation): nat {
    1 + NameSize(op.name, 1) + VariablesSize(op.variables) + DirectivesSize(op.directives) + 2
      + ItemsSize(op.selections)
  }

  function OperationsSize(ops: seq<Operation>): nat {
    if ops == [] then 0 else OperationSize(ops[0]) + OperationsSize(ops[1..])
  }

  function FragmentSize(f: Fragment): nat { 4 + DirectivesSize(f.directives) + 2 + ItemsSize(f.selections) }

  function FragmentsSize(fs: seq<Entry<Fragment>>): nat {
    if fs == [] then 0 else FragmentSize(fs[0].value) + FragmentsSize(fs[1..])
  }

  function DocumentSize(d: Document): nat { OperationsSize(d.operations) + FragmentsSize(d.fragments) }

  // The token printers write exactly that many tokens.

  lemma {:induction false} ValueCount(v: Value, tail: Tokens)
    ensures |ValueTokens(v, tail)| == ValueSize(v) + |tail|
    decreases v
  {
    match v
    case List(values) => ValuesCount(values, [L.Punct(']')] + tail);
    case Object(fields) => EntriesCount(fields, [L.Punct('}')] + tail);
    case _ =>
  }

  lemma {:induction false} ValuesCount(vs: seq<Value>, tail: Tokens)
    ensures |ValuesTokens(vs, tail)| == ValuesSize(vs) + |tail|
    decreases vs
  {
    if vs != [] {
      ValuesCount(vs[1..], tail);
      ValueCount(vs[0], ValuesTokens(vs[1..], tail));
    }
  }

  lemma {:induction false} EntriesCount(es: seq<Entry<Value>>, tail: Tokens)
    ensures |EntriesTokens(es, tail)| == EntriesSize(es) + |tail|
    decreases es
  {
    if es != [] {
      EntriesCount(es[1..], tail);
      ValueCount(es[0].value, EntriesTokens(es[1..], tail));
    }
  }

  lemma {:induction false} ArgumentsCount(args: seq<Entry<Value>>, tail: Tokens)
    ensures |ArgumentsTokens(args, tail)| == ArgumentsSize(args) + |tail|
  {
    EntriesCount(args, [L.Punct(')')] + tail);
  }

  lemma {:induction false} DirectivesCount(ds: seq<Directive>, tail: Tokens)
    ensures |DirectivesTokens(ds, tail)| == DirectivesSize(ds) + |tail|
    decreases ds
  {
    if ds != [] {
      DirectivesCount(ds[1..], tail);
      ArgumentsCount(ds[0].arguments, DirectivesTokens(ds[1..], tail));
    }
  }

  lemma {:induction false} ItemsCount(ss: seq<Selection>, tail: Tokens)
    ensures |ItemsTokens(ss, tail)| == ItemsSize(ss) + |tail|
    decreases ss, 1
  {
    if ss != [] {
      ItemsCount(ss[1..], tail);
      SelectionCount(ss[0], ItemsTokens(ss[1..], tail));
    }
  }

  lemma {:induction false} SelectionCount(s: Selection, tail: Tokens)
    ensures |SelectionTokens(s, tail)| == SelectionSize(s) + |tail|
    decreases s, 0
  {
    match s
    case Field(name, alias, arguments, directives, selections) =>
      ItemsCount(selections, [L.Punct('}')] + tail);
      var rest := if selections == [] then tail else SelectionsTokens(selections, tail);
      DirectivesCount(directives, rest);
      ArgumentsCount(arguments, DirectivesTokens(directives, rest));
    case Spread(name, directives) => DirectivesCount(directives, tail);
    case Inline(onType, directives, selections) =>
      ItemsCount(selections, [L.Punct('}')] + tail);
      DirectivesCount(directives, SelectionsTokens(selections, tail));
  }

  lemma {:induction false} TypeCount(t: TypeRef, tail: Tokens)
    ensures |TypeTokens(t, tail)| == TypeSize(t) + |tail|
  {
    match t
    case NamedType(_, _) =>
    case ListType(inner, required) => TypeCount(inner, [L.Punct(']')] + BangTokens(required, tail));
  }

  lemma {:induction false} VariableListCount(vs: seq<VariableDef>, tail: Tokens)
    ensures |VariableListTokens(vs, tail)| == VariableListSize(vs) + |tail|
    decreases vs
  {
    if vs != [] {
      var v, rest := vs[0], VariableListTokens(vs[1..], tail);
      VariableListCount(vs[1..], tail);
      DirectivesCount(v.directives, rest);
      if v.default.Some? { ValueCount(v.default.value, DirectivesTokens(v.directives, rest)); }
      TypeCount(v.typeRef, DefaultTokens(v.default, DirectivesTokens(v.directives, rest)));
    }
  }

  lemma {:induction false} OperationsCount(ops: seq<Operation>, tail: Tokens)
    ensures |OperationsTokens(ops, tail)| == OperationsSize(ops) + |tail|
    decreases ops
  {
    if ops != [] {
      var op, rest := ops[0], OperationsTokens(ops[1..], tail);
      OperationsCount(ops[1..], tail);
      ItemsCount(op.selections, [L.Punct('}')] + rest);
      DirectivesCount(op.directives, SelectionsTokens(op.selections, rest));
      VariableListCount(op.variables,
        [L.Punct(')')] + DirectivesTokens(op.directives, SelectionsTokens(op.selections, rest)));
    }
  }

  lemma {:induction false} FragmentsCount(fs: seq<Entry<Fragment>>)
    ensures |FragmentsTokens(fs)| == FragmentsSize(fs)
    decreases fs
  {
    if fs != [] {
      var f, rest := fs[0].value, FragmentsTokens(fs[1..]);
      FragmentsCount(fs[1..]);
      ItemsCount(f.selections, [L.Punct('}')] + rest);
      DirectivesCount(f.directives, SelectionsTokens(f.selections, rest));
    }
  }

  lemma {:induction false} DocumentCount(d: Document)
    ensures |DocumentTokens(d)| == DocumentSize(d)
  {
    FragmentsCount(d.fragments);
    OperationsCount(d.operations, FragmentsTokens(d.fragments));
  }

  // Sizes of grown lists.

  lemma {:induction false} ValuesSizeAppend(vs: seq<Value>, v: Value)
    ensures ValuesSize(vs + [v]) == ValuesSize(vs) + ValueSize(v)
  {
    if vs != [] {
      assert (vs + [v])[1..] == vs[1..] + [v];
      ValuesSizeAppend(vs[1..], v);
    }
  }

  lemma {:induction false} EntriesSizeInsert(m: seq<Entry<Value>>, e: Entry<Value>)
    ensures EntriesSize(Insert(m, e)) == EntriesSize(m) + 2 + ValueSize(e.value)
  {
    if m == [] || Less(e.key, m[0].key) {
      assert ([e] + m)[1..] == m;
    } else {
      EntriesSizeInsert(m[1..], e);
      assert Insert(m, e)[1..] == Insert(m[1..], e);
    }
  }

  lemma {:induction false} DirectivesSizeAppend(ds: seq<Directive>, d: Directive)
    ensures DirectivesSize(ds + [d]) == DirectivesSize(ds) + 2 + ArgumentsSize(d.arguments)
  {
    if ds != [] {
      assert (ds + [d])[1..] == ds[1..] + [d];
      DirectivesSizeAppend(ds[1..], d);
    }
  }

  lemma {:induction false} ItemsSizeAppend(ss: seq<Selection>, s: Selection)
    ensures ItemsSize(ss + [s]) == ItemsSize(ss) + SelectionSize(s)
  {
    if ss != [] {
      assert (ss + [s])[1..] == ss[1..] + [s];
      ItemsSizeAppend(ss[1..], s);
    }
  }

  lemma {:induction false} VariableListSizeAppend(vs: seq<VariableDef>, v: VariableDef)
    ensures VariableListSize(vs + [v]) == VariableListSize(vs) + VariableSize(v)
  {
    if vs != [] {
      assert (vs + [v])[1..] == vs[1..] + [v];
      VariableListSizeAppend(vs[1..], v);
    }
  }

  lemma {:induction false} OperationsSizeAppend(ops: seq<Operation>, op: Operation)
    ensures OperationsSize(ops + [op]) == OperationsSize(ops) + OperationSize(op)
  {
    if ops != [] {
      assert (ops + [op])[1..] == ops[1..] + [op];
      OperationsSizeAppend(ops[1..], op);
    }
  }

  lemma {:induction false} FragmentsSizeInsert(m: seq<Entry<Fragment>>, e: Entry<Fragment>)
    ensures FragmentsSize(Insert(m, e)) == FragmentsSize(m) + FragmentSize(e.value)
  {
    if m == [] || Less(e.key, m[0].key) {
      assert ([e] + m)[1..] == m;
    } else {
      FragmentsSizeInsert(m[1..], e);
      assert Insert(m, e)[1..] == Insert(m[1..], e);
    }
  }

  // ---------------------------------------------------------------- parser soundness

  /** `used` tokens were taken from the front of `ts`, and only good tokens are left. */
  ghost predicate Took(ts: Tokens, used: nat, rest: Tokens) { |ts| == used + |rest| && TokensOk(rest) }

  lemma {:induction false} SoundType(ts: Tokens, depth: nat)
    requires TokensOk(ts) && ParseType(ts, depth).Parsed?
    ensures var r := ParseType(ts, depth); TypeOk(r.value, depth) && Took(ts, TypeSize(r.value), r.rest)
    decreases |ts|
  {
    if At(ts, '[') {
      SoundType(ts[1..], depth + 1);
    } else {
      assert TokenOk(ts[0]);
    }
  }

  lemma {:induction false} SoundValue(ts: Tokens, depth: nat, constant: bool)
    requires TokensOk(ts) && ParseValue(ts, depth, constant).Parsed?
    ensures var r := ParseValue(ts, depth, constant);
      ValueOk(r.value, depth, constant) && Took(ts, ValueSize(r.value), r.rest)
    decreases |ts|, 0
  {
    hide Sorted, ParseValues, ParseEntries;
    assert TokenOk(ts[0]);
    if At(ts, '$') {
      assert TokenOk(ts[1]);
    } else if At(ts, '[') {
      SoundValues(ts[1..], depth, constant, []);
    } else if At(ts, '{') {
      SoundEntries(ts[1..], '}', depth, constant, []);
      var r := ParseEntries(ts[1..], '}', depth, constant, []);
      assert forall i :: 0 <= i < |r.value| ==> EntryOk(r.value[i], depth, constant);
    }
  }

  lemma {:induction false} SoundValues(ts: Tokens, depth: nat, constant: bool, acc: seq<Value>)
    requires TokensOk(ts) && ParseValues(ts, depth, constant, acc).Parsed?
    requires forall i :: 0 <= i < |acc| ==> ValueOk(acc[i], depth + 1, constant)
    ensures var r := ParseValues(ts, depth, constant, acc);
      && (forall i :: 0 <= i < |r.value| ==> ValueOk(r.value[i], depth + 1, constant))
      && ValuesSize(r.value) >= ValuesSize(acc) && Took(ts, ValuesSize(r.value) - ValuesSize(acc) + 1, r.rest)
    decreases |ts|, 1
  {
    if !At(ts, ']') {
      SoundValue(ts, depth + 1, constant);
      var v := ParseValue(ts, depth + 1, constant);
      ValuesSizeAppend(acc, v.value);
      SoundValues(v.rest, depth, constant, acc + [v.value]);
    }
  }

  lemma {:induction false} SoundEntries(ts: Tokens, close: char, depth: nat, constant: bool, acc: seq<Entry<Value>>)
    requires TokensOk(ts) && EntriesOk(acc, depth, constant)
    requires ParseEntries(ts, close, depth, constant, acc).Parsed?
    ensures var r := ParseEntries(ts, close, depth, constant, acc);
      && EntriesOk(r.value, depth, constant) && |r.value| >= |acc|
      && EntriesSize(r.value) >= EntriesSize(acc) && Took(ts, EntriesSize(r.value) - EntriesSize(acc) + 1, r.rest)
    decreases |ts|, 1
  {
    if !At(ts, close) {
      assert TokenOk(ts[0]);
      var after := ts[1..][1..];
      SoundValue(after, depth + 1, constant);
      var v := ParseValue(after, depth + 1, constant);
      var e := Entry(ts[0].text, v.value);
      GrowEntries(acc, e, depth, constant);
      EntriesSizeInsert(acc, e);
      SoundEntries(v.rest, close, depth, constant, Insert(acc, e));
    }
  }

  lemma {:induction false} GrowEntries(acc: seq<Entry<Value>>, e: Entry<Value>, depth: nat, constant: bool)
    requires EntriesOk(acc, depth, constant) && EntryOk(e, depth, constant) && !Has(acc, e.key)
    ensures EntriesOk(Insert(acc, e), depth, constant)
  {
    InsertKeepsSorted(acc, e);
    InsertKeepsEntries(acc, e);
  }

  lemma {:induction false} SoundArguments(ts: Tokens, depth: nat, constant: bool)
    requires TokensOk(ts) && ParseArguments(ts, depth, constant).Parsed?
    ensures var r := ParseArguments(ts, depth, constant);
      EntriesOk(r.value, depth, constant) && Took(ts, ArgumentsSize(r.value), r.rest)
  {
    if At(ts, '(') { SoundEntries(ts[1..], ')', depth, constant, []); }
  }

  lemma {:induction false} SoundDirectives(ts: Tokens, depth: nat, constant: bool, acc: seq<Directive>)
    requires TokensOk(ts) && DirectivesOk(acc, depth, constant) && ParseDirectives(ts, depth, constant, acc).Parsed?
    ensures var r := ParseDirectives(ts, depth, constant, acc);
      && DirectivesOk(r.value, depth, constant) && DirectivesSize(r.value) >= DirectivesSize(acc)
      && Took(ts, DirectivesSize(r.value) - DirectivesSize(acc), r.rest)
    decreases |ts|
  {
    if At(ts, '@') {
      assert TokenOk(ts[1]);
      var after := ts[1..][1..];
      SoundArguments(after, depth, constant);
      var args := ParseArguments(after, depth, constant);
      var d := Directive(ts[1].text, args.value);
      assert DirectiveOk(d, depth, constant);
      DirectivesSizeAppend(acc, d);
      SoundDirectives(args.rest, depth, constant, acc + [d]);
    }
  }

  lemma {:induction false} SoundSelections(ts: Tokens, depth: nat)
    requires TokensOk(ts) && ParseSelections(ts, depth).Parsed?
    ensures var r := ParseSelections(ts, depth);
      SelectionsOk(r.value, depth) && Took(ts, 2 + ItemsSize(r.value), r.rest)
    decreases |ts|, 0
  {
    SoundItems(ts[1..], depth, []);
  }

  lemma {:induction false} SoundItems(ts: Tokens, depth: nat, acc: seq<Selection>)
    requires TokensOk(ts) && ParseItems(ts, depth, acc).Parsed?
    requires forall i :: 0 <= i < |acc| ==> SelectionOk(acc[i], depth)
    ensures var r := ParseItems(ts, depth, acc);
      && (forall i :: 0 <= i < |r.value| ==> SelectionOk(r.value[i], depth))
      && ItemsSize(r.value) >= ItemsSize(acc) && Took(ts, ItemsSize(r.value) - ItemsSize(acc) + 1, r.rest)
    decreases |ts|, 3
  {
    if !At(ts, '}') {
      SoundItem(ts, depth);
      var item := ParseItem(ts, depth);
      ItemsSizeAppend(acc, item.value);
      SoundItems(item.rest, depth, acc + [item.value]);
    }
  }

  lemma {:induction false} SoundItem(ts: Tokens, depth: nat)
    requires TokensOk(ts) && ParseItem(ts, depth).Parsed?
    ensures var r := ParseItem(ts, depth); SelectionOk(r.value, depth) && Took(ts, SelectionSize(r.value), r.rest)
    decreases |ts|, 2
  {
    if ts != [] && ts[0].Spread? { SoundSpread(ts[1..], depth); } else { SoundField(ts, depth); }
  }

  lemma {:induction false} SoundSpread(ts: Tokens, depth: nat)
    requires TokensOk(ts) && ParseSpread(ts, depth).Parsed?
    ensures var r := ParseSpread(ts, depth);
      SelectionOk(r.value, depth) && Took([L.Spread] + ts, SelectionSize(r.value), r.rest)
    decreases |ts|, 1
  {
    assert TokenOk(ts[0]);
    if AtWord(ts, "on") || At(ts, '@') || At(ts, '{') {
      if AtWord(ts, "on") { assert TokenOk(ts[1]); }
      var onType := ParseOnType(ts);
      SoundDirectives(onType.rest, depth, false, []);
      var directives := ParseDirectives(onType.rest, depth, false, []);
      SoundSelections(directives.rest, depth + 1);
    } else {
      SoundDirectives(ts[1..], depth, false, []);
    }
  }

  lemma {:induction false} SoundField(ts: Tokens, depth: nat)
    requires TokensOk(ts) && ParseField(ts, depth).Parsed?
    ensures var r := ParseField(ts, depth); SelectionOk(r.value, depth) && Took(ts, SelectionSize(r.value), r.rest)
    decreases |ts|, 1
  {
    assert TokenOk(ts[0]);
    var named := ParseAliased(ts[0].text, ts[1..]);
    if At(ts[1..], ':') { assert TokenOk(ts[2]); }
    SoundArguments(named.rest, depth, false);
    var arguments := ParseArguments(named.rest, depth, false);
    SoundDirectives(arguments.rest, depth, false, []);
    var directives := ParseDirectives(arguments.rest, depth, false, []);
    if At(directives.rest, '{') { SoundSelections(directives.rest, depth + 1); }
  }

  lemma {:induction false} SoundVariable(ts: Tokens, acc: seq<VariableDef>)
    requires TokensOk(ts) && ParseVariable(ts, acc).Parsed?
    ensures var r := ParseVariable(ts, acc);
      VariableOk(r.value) && !Declared(acc, r.value.name) && Took(ts, VariableSize(r.value), r.rest)
  {
    assert TokenOk(ts[1]);
    var r3 := ts[1..][1..][1..];
    SoundType(r3, 0);
    var r4 := ParseType(r3, 0).rest;
    if At(r4, '=') { SoundValue(r4[1..], 0, true); }
    SoundDirectives(ParseDefault(r4).rest, 0, true, []);
  }

  lemma {:induction false} SoundVariableList(ts: Tokens, acc: seq<VariableDef>)
    requires TokensOk(ts) && VariablesOk(acc) && ParseVariableList(ts, acc).Parsed?
    ensures var r := ParseVariableList(ts, acc);
      && VariablesOk(r.value) && VariableListSize(r.value) >= VariableListSize(acc)
      && Took(ts, VariableListSize(r.value) - VariableListSize(acc) + 1, r.rest)
    decreases |ts|
  {
    if !At(ts, ')') {
      SoundVariable(ts, acc);
      var v := ParseVariable(ts, acc);
      VariableListSizeAppend(acc, v.value);
      SoundVariableList(v.rest, acc + [v.value]);
    }
  }

  lemma {:induction false} SoundOperation(kind: string, ts: Tokens, ops: seq<Operation>)
    requires TokensOk(ts) && OperationKind(kind) && ParseOperation(kind, ts, ops).Parsed?
    ensures var r := ParseOperation(kind, ts, ops);
      && OperationOk(r.value) && (r.value.name.Some? ==> !OperationNamed(ops, r.value.name.value))
      && Took([L.Name(kind)] + ts, OperationSize(r.value), r.rest)
  {
    if AtName(ts) { assert TokenOk(ts[0]); }
    var r1 := ParseOptionalName(ts).rest;
    if At(r1, '(') { SoundVariableList(r1[1..], []); }
    var r2 := ParseVariables(r1).rest;
    SoundDirectives(r2, 0, false, []);
    SoundSelections(ParseDirectives(r2, 0, false, []).rest, 0);
  }

  lemma {:induction false} SoundFragment(ts: Tokens)
    requires TokensOk(ts) && ParseFragment(ts).Parsed?
    ensures var r := ParseFragment(ts);
      FragmentOk(r.value) && Took([L.Name("fragment")] + ts, FragmentSize(r.value), r.rest)
  {
    assert TokenOk(ts[0]) && TokenOk(ts[2]);
    var r3 := ts[1..][1..][1..];
    SoundDirectives(r3, 0, false, []);
    SoundSelections(ParseDirectives(r3, 0, false, []).rest, 0);
  }

  lemma {:induction false} SoundDefinition(ts: Tokens, ops: seq<Operation>, fs: seq<Entry<Fragment>>)
    requires ts != [] && TokensOk(ts) && ParseDefinition(ts, ops, fs).Parsed?
    ensures match ParseDefinition(ts, ops, fs)
      case Parsed(OperationDef(op, shorthand), rest) =>
        && OperationOk(op) && (op.name.Some? ==> !OperationNamed(ops, op.name.value))
        && TokensOk(rest) && |ts| + (if shorthand then 1 else 0) == OperationSize(op) + |rest|
      case Parsed(FragmentDef(f), rest) =>
        FragmentOk(f) && !Has(fs, f.name) && Took(ts, FragmentSize(f), rest)
  {
    if At(ts, '{') {
      SoundSelections(ts, 0);
    } else if ts[0].text == "fragment" {
      SoundFragment(ts[1..]);
    } else {
      SoundOperation(ts[0].text, ts[1..], ops);
    }
  }

  lemma {:induction false} SoundDefinitions(ts: Tokens, ops: seq<Operation>, fs: seq<Entry<Fragment>>)
    requires TokensOk(ts) && OperationsOk(ops) && FragmentsOk(fs) && ParseDefinitions(ts, ops, fs).Ok?
    ensures var d := ParseDefinitions(ts, ops, fs).value;
      && DocumentOk(d)
      && DocumentSize(d) == OperationsSize(ops) + FragmentsSize(fs) + |ts| + Shorthands(ts, ops, fs)
    decreases |ts|
  {
    if ts != [] {
      SoundDefinition(ts, ops, fs);
      match ParseDefinition(ts, ops, fs)
      case Parsed(OperationDef(op, shorthand), rest) =>
        GrowOperations(ops, op);
        OperationsSizeAppend(ops, op);
        SoundDefinitions(rest, ops + [op], fs);
      case Parsed(FragmentDef(f), rest) =>
        GrowFragments(fs, f);
        FragmentsSizeInsert(fs, Entry(f.name, f));
        SoundDefinitions(rest, ops, Insert(fs, Entry(f.name, f)));
    }
  }

  lemma {:induction false} GrowOperations(ops: seq<Operation>, op: Operation)
    requires OperationsOk(ops) && OperationOk(op) && (op.name.Some? ==> !OperationNamed(ops, op.name.value))
    ensures OperationsOk(ops + [op])
  {
  }

  lemma {:induction false} GrowFragments(fs: seq<Entry<Fragment>>, f: Fragment)
    requires FragmentsOk(fs) && FragmentOk(f) && !Has(fs, f.name)
    ensures FragmentsOk(Insert(fs, Entry(f.name, f)))
  {
    InsertKeepsSorted(fs, Entry(f.name, f));
    InsertKeepsEntries(fs, Entry(f.name, f));
  }
}
