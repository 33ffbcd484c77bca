/** Parsing the tokens of a well-formed document gives the document back. */
module PrintedTokens {
  import opened Outcome
  import opened OrderedMap
  import opened Syntax
  import opened Printer
  import opened Parser
  import L = Lexer

  type Tokens = Parser.Tokens

  // ---------------------------------------------------------------- values

  lemma {:induction false} ParseValueTokens(v: Value, depth: nat, constant: bool, tail: Tokens)
    requires ValueOk(v, depth, constant)
    ensures ParseValue(ValueTokens(v, tail), depth, constant) == Parsed(v, tail)
    decreases v
  {
    hide Has, IsNumber, Sorted;
    var ts := ValueTokens(v, tail);
    match v
    case Variable(name) => assert ts[1..] == [L.Name(name)] + tail && ts[1..][1..] == tail;
    case List(values) =>
      ParseValuesTokens(values, depth, constant, tail, []);
      assert [] + values == values;
      ListStep(ValuesTokens(values, [L.Punct(']')] + tail), values, depth, constant, tail);
    case Object(fields) =>
      assert [] + fields == fields;
      ParseEntriesTokens(fields, '}', depth, constant, tail, []);
      ObjectStep(EntriesTokens(fields, [L.Punct('}')] + tail), fields, depth, constant, tail);
    case Int(_) => assert ts[1..] == tail;
    case Float(_) => assert ts[1..] == tail;
    case Str(_) => assert ts[1..] == tail;
    case Enum(_) => assert ts[1..] == tail;
    case Boolean(_) => assert ts[1..] == tail;
    case Null => assert ts[1..] == tail;
  }

  lemma {:induction false} ListStep(inner: Tokens, values: seq<Value>, depth: nat, constant: bool, tail: Tokens)
    requires depth <= MAX_DEPTH && ParseValues(inner, depth, constant, []) == Parsed(values, tail)
    ensures ParseValue([L.Punct('[')] + inner, depth, constant) == Parsed(List(values), tail)
  {
    assert ([L.Punct('[')] + inner)[1..] == inner;
  }

  lemma {:induction false} ObjectStep(inner: Tokens, fields: seq<Entry<Value>>, depth: nat, constant: bool,
                                      tail: Tokens)
    requires depth <= MAX_DEPTH && ParseEntries(inner, '}', depth, constant, []) == Parsed(fields, tail)
    ensures ParseValue([L.Punct('{')] + inner, depth, constant) == Parsed(Object(fields), tail)
  {
    assert ([L.Punct('{')] + inner)[1..] == inner;
  }

  lemma {:induction false} ParseValuesTokens(vs: seq<Value>, depth: nat, constant: bool, tail: Tokens, acc: seq<Value>)
    requires forall i :: 0 <= i < |vs| ==> ValueOk(vs[i], depth + 1, constant)
    ensures ParseValues(ValuesTokens(vs, [L.Punct(']')] + tail), depth, constant, acc) == Parsed(acc + vs, tail)
    decreases vs
  {
    var close := [L.Punct(']')] + tail;
    if vs == [] {
      assert close[1..] == tail && acc + vs == acc;
    } else {
      var rest := ValuesTokens(vs[1..], close);
      ParseValueTokens(vs[0], depth + 1, constant, rest);
      ParseValuesTokens(vs[1..], depth, constant, tail, acc + [vs[0]]);
      assert acc + [vs[0]] + vs[1..] == acc + vs;
    }
  }

  lemma {:induction false} ParseEntriesTokens(es: seq<Entry<Value>>, close: char, depth: nat, constant: bool,
                                              tail: Tokens, acc: seq<Entry<Value>>)
    requires Sorted(acc + es) && forall i :: 0 <= i < |es| ==> EntryOk(es[i], depth, constant)
    ensures ParseEntries(EntriesTokens(es, [L.Punct(close)] + tail), close, depth, constant, acc)
            == Parsed(acc + es, tail)
    decreases es
  {
    hide FloatMark, AtName;
    var end := [L.Punct(close)] + tail;
    if es == [] {
      assert end[1..] == tail && acc + es == acc;
    } else {
      var e, rest := es[0], EntriesTokens(es[1..], end);
      assert EntryOk(e, depth, constant);
      ParseValueTokens(e.value, depth + 1, constant, rest);
      assert acc + es == acc + [e] + es[1..];
      SortedPrefix(acc + [e], es[1..]);
      InsertLast(acc, e);
      EntriesStep(e, ValueTokens(e.value, rest), rest, close, depth, constant, acc);
      ParseEntriesTokens(es[1..], close, depth, constant, tail, acc + [e]);
    }
  }

  lemma {:induction false} EntriesStep(e: Entry<Value>, value: Tokens, rest: Tokens, close: char, depth: nat,
                                       constant: bool, acc: seq<Entry<Value>>)
    requires ParseValue(value, depth + 1, constant) == Parsed(e.value, rest) && !Has(acc, e.key)
    ensures ParseEntries([L.Name(e.key), L.Punct(':')] + value, close, depth, constant, acc)
         == ParseEntries(rest, close, depth, constant, Insert(acc, e))
  {
    var ts := [L.Name(e.key), L.Punct(':')] + value;
    assert ts[1..] == [L.Punct(':')] + value && ts[1..][1..] == value;
    assert Entry(e.key, e.value) == e;
  }

  lemma {:induction false} SortedPrefix<V>(a: seq<Entry<V>>, b: seq<Entry<V>>)
    requires Sorted(a + b)
    ensures Sorted(a)
  {
    assert forall i :: 0 <= i < |a| ==> a[i] == (a + b)[i];
  }

  lemma {:induction false} ParseAllEntries(es: seq<Entry<Value>>, close: char, depth: nat, constant: bool, tail: Tokens)
    requires EntriesOk(es, depth, constant)
    ensures ParseEntries(EntriesTokens(es, [L.Punct(close)] + tail), close, depth, constant, []) == Parsed(es, tail)
  {
    assert [] + es == es;
    ParseEntriesTokens(es, close, depth, constant, tail, []);
  }

  lemma {:induction false} ArgumentsStep(inner: Tokens, args: seq<Entry<Value>>, depth: nat, constant: bool,
                                         tail: Tokens)
    requires args != [] && ParseEntries(inner, ')', depth, constant, []) == Parsed(args, tail)
    ensures ParseArguments([L.Punct('(')] + inner, depth, constant) == Parsed(args, tail)
  {
    assert ([L.Punct('(')] + inner)[1..] == inner;
  }

  lemma {:induction false} ParseArgumentsTokens(args: seq<Entry<Value>>, depth: nat, constant: bool, tail: Tokens)
    requires EntriesOk(args, depth, constant) && !At(tail, '(')
    ensures ParseArguments(ArgumentsTokens(args, tail), depth, constant) == Parsed(args, tail)
  {
    if args != [] {
      ParseAllEntries(args, ')', depth, constant, tail);
      ArgumentsStep(EntriesTokens(args, [L.Punct(')')] + tail), args, depth, constant, tail);
    }
  }

  lemma {:induction false} Regroup<T>(acc: seq<T>, xs: seq<T>)
    requires xs != []
    ensures acc + [xs[0]] + xs[1..] == acc + xs
  {
  }

  /** What follows a list of directives cannot continue it. */
  predicate EndsDirectives(tail: Tokens) { !At(tail, '(') && !At(tail, '@') }

  lemma {:induction false} DirectivesFollow(ds: seq<Directive>, tail: Tokens)
    requires !At(tail, '(')
    ensures !At(DirectivesTokens(ds, tail), '(')
  {
  }

  lemma {:induction false} NoDirectives(tail: Tokens, depth: nat, constant: bool, acc: seq<Directive>)
    requires EndsDirectives(tail)
    ensures ParseDirectives(tail, depth, constant, acc) == Parsed(acc, tail)
  {
  }

  lemma {:induction false} ParseDirectivesTokens(ds: seq<Directive>, depth: nat, constant: bool, tail: Tokens,
                                                 acc: seq<Directive>)
    requires DirectivesOk(ds, depth, constant) && EndsDirectives(tail)
    ensures ParseDirectives(DirectivesTokens(ds, tail), depth, constant, acc) == Parsed(acc + ds, tail)
    decreases |ds|
  {
    if ds == [] {
      assert acc + ds == acc;
      NoDirectives(tail, depth, constant, acc);
    } else {
      FirstDirective(ds, depth, constant, tail, acc);
      DirectivesRest(ds, depth, constant);
      ParseDirectivesTokens(ds[1..], depth, constant, tail, acc + [ds[0]]);
      Regroup(acc, ds);
    }
  }

  lemma {:induction false} FirstDirective(ds: seq<Directive>, depth: nat, constant: bool, tail: Tokens,
                                          acc: seq<Directive>)
    requires ds != [] && DirectivesOk(ds, depth, constant) && EndsDirectives(tail)
    ensures ParseDirectives(DirectivesTokens(ds, tail), depth, constant, acc)
         == ParseDirectives(DirectivesTokens(ds[1..], tail), depth, constant, acc + [ds[0]])
  {
    DirectivesRest(ds, depth, constant);
    DirectivesFollow(ds[1..], tail);
    ParseDirectiveTokens(ds[0], DirectivesTokens(ds[1..], tail), depth, constant, acc);
  }

  lemma {:induction false} DirectivesRest(ds: seq<Directive>, depth: nat, constant: bool)
    requires ds != [] && DirectivesOk(ds, depth, constant)
    ensures DirectiveOk(ds[0], depth, constant) && DirectivesOk(ds[1..], depth, constant)
  {
  }

  lemma {:induction false} ParseDirectiveTokens(d: Directive, rest: Tokens, depth: nat, constant: bool,
                                                acc: seq<Directive>)
    requires DirectiveOk(d, depth, constant) && !At(rest, '(')
    ensures ParseDirectives([L.Punct('@'), L.Name(d.name)] + ArgumentsTokens(d.arguments, rest), depth, constant, acc)
         == ParseDirectives(rest, depth, constant, acc + [d])
  {
    ParseArgumentsTokens(d.arguments, depth, constant, rest);
    DirectivesStep(d, ArgumentsTokens(d.arguments, rest), rest, depth, constant, acc);
  }

  lemma {:induction false} DirectivesStep(d: Directive, args: Tokens, rest: Tokens, depth: nat, constant: bool,
                                          acc: seq<Directive>)
    requires ParseArguments(args, depth, constant) == Parsed(d.arguments, rest)
    ensures ParseDirectives([L.Punct('@'), L.Name(d.name)] + args, depth, constant, acc)
         == ParseDirectives(rest, depth, constant, acc + [d])
  {
    var ts := [L.Punct('@'), L.Name(d.name)] + args;
    assert ts[1..] == [L.Name(d.name)] + args && ts[1..][1..] == args;
  }

  lemma {:induction false} ParseAllDirectives(ds: seq<Directive>, depth: nat, constant: bool, tail: Tokens)
    requires DirectivesOk(ds, depth, constant) && EndsDirectives(tail)
    ensures ParseDirectives(DirectivesTokens(ds, tail), depth, constant, []) == Parsed(ds, tail)
  {
    ParseDirectivesTokens(ds, depth, constant, tail, []);
    assert [] + ds == ds;
  }

  // ---------------------------------------------------------------- selections

  /** What follows an item of a selection set: another item or the closing brace. */
  predicate ItemTail(tail: Tokens) { tail != [] && (tail[0].Name? || tail[0].Spread? || tail[0] == L.Punct('}')) }

  lemma {:induction false} ParseSelectionsTokens(ss: seq<Selection>, depth: nat, tail: Tokens)
    requires SelectionsOk(ss, depth)
    ensures ParseSelections(SelectionsTokens(ss, tail), depth) == Parsed(ss, tail)
    decreases ss, 2
  {
    assert SelectionsTokens(ss, tail)[1..] == ItemsTokens(ss, [L.Punct('}')] + tail);
    ParseItemsTokens(ss, depth, tail, []);
    assert [] + ss == ss;
  }

  lemma {:induction false} SelectionStarts(s: Selection, tail: Tokens)
    ensures SelectionTokens(s, tail) != [] && (SelectionTokens(s, tail)[0].Name? || SelectionTokens(s, tail)[0].Spread?)
  {
  }

  lemma {:induction false} ItemsStart(ss: seq<Selection>, tail: Tokens)
    ensures ItemTail(ItemsTokens(ss, [L.Punct('}')] + tail))
  {
    if ss != [] { SelectionStarts(ss[0], ItemsTokens(ss[1..], [L.Punct('}')] + tail)); }
  }

  lemma {:induction false} ParseItemsTokens(ss: seq<Selection>, depth: nat, tail: Tokens, acc: seq<Selection>)
    requires forall i :: 0 <= i < |ss| ==> SelectionOk(ss[i], depth)
    ensures ParseItems(ItemsTokens(ss, [L.Punct('}')] + tail), depth, acc) == Parsed(acc + ss, tail)
    decreases ss, 1
  {
    if ss == [] {
      assert acc + ss == acc;
      LastItem(tail, depth, acc);
    } else {
      var rest := ItemsTokens(ss[1..], [L.Punct('}')] + tail);
      ItemsStart(ss[1..], tail);
      ParseSelectionTokens(ss[0], depth, rest);
      SelectionStarts(ss[0], rest);
      ItemsStep(SelectionTokens(ss[0], rest), ss[0], rest, depth, acc);
      ParseItemsTokens(ss[1..], depth, tail, acc + [ss[0]]);
      Regroup(acc, ss);
    }
  }

  lemma {:induction false} LastItem(tail: Tokens, depth: nat, acc: seq<Selection>)
    ensures ParseItems([L.Punct('}')] + tail, depth, acc) == Parsed(acc, tail)
  {
    assert ([L.Punct('}')] + tail)[1..] == tail;
  }

  lemma {:induction false} ItemsStep(ts: Tokens, s: Selection, rest: Tokens, depth: nat, acc: seq<Selection>)
    requires ts != [] && (ts[0].Name? || ts[0].Spread?) && ParseItem(ts, depth) == Parsed(s, rest)
    ensures ParseItems(ts, depth, acc) == ParseItems(rest, depth, acc + [s])
  {
  }

  lemma {:induction false} ParseSelectionTokens(s: Selection, depth: nat, tail: Tokens)
    requires SelectionOk(s, depth) && ItemTail(tail)
    ensures ParseItem(SelectionTokens(s, tail), depth) == Parsed(s, tail)
    decreases s, 0
  {
    match s
    case Field(name, alias, arguments, directives, selections) =>
      if selections != [] { ParseSelectionsTokens(selections, depth + 1, tail); }
      ParseFieldTokens(name, alias, arguments, directives, selections, depth,
                       if selections == [] then tail else SelectionsTokens(selections, tail), tail);
    case Spread(name, directives) =>
      ParseAllDirectives(directives, depth, false, tail);
      SpreadStep(name, directives, DirectivesTokens(directives, tail), depth, tail);
    case Inline(onType, directives, selections) =>
      var body := SelectionsTokens(selections, tail);
      ParseSelectionsTokens(selections, depth + 1, tail);
      ParseAllDirectives(directives, depth, false, body);
      InlineStep(onType, directives, selections, DirectivesTokens(directives, body), body, depth, tail);
  }

  lemma {:induction false} ParseFieldTokens(name: string, alias: Option<string>, arguments: seq<Entry<Value>>,
      directives: seq<Directive>, selections: seq<Selection>, depth: nat, body: Tokens, tail: Tokens)
    requires EntriesOk(arguments, depth, false) && DirectivesOk(directives, depth, false)
    requires EndsDirectives(body) && !At(body, ':')
    requires if At(body, '{') then ParseSelections(body, depth + 1) == Parsed(selections, tail)
             else selections == [] && body == tail
    ensures var ts := AliasTokens(alias, [L.Name(name)] + ArgumentsTokens(arguments,
                                                                          DirectivesTokens(directives, body)));
      ParseItem(ts, depth) == Parsed(Field(name, alias, arguments, directives, selections), tail) && AtName(ts)
  {
    ParseFieldHead(name, alias, arguments, directives, depth, body);
  }

  lemma {:induction false} SpreadStep(name: string, directives: seq<Directive>, rest: Tokens, depth: nat, tail: Tokens)
    requires name != "on" && ParseDirectives(rest, depth, false, []) == Parsed(directives, tail)
    ensures ParseItem([L.Spread, L.Name(name)] + rest, depth) == Parsed(Spread(name, directives), tail)
  {
    var ts := [L.Spread, L.Name(name)] + rest;
    assert ts[1..] == [L.Name(name)] + rest && ts[1..][1..] == rest;
  }

  lemma {:induction false} InlineStep(onType: Option<string>, directives: seq<Directive>, selections: seq<Selection>,
                                      rest: Tokens, body: Tokens, depth: nat, tail: Tokens)
    requires ParseDirectives(rest, depth, false, []) == Parsed(directives, body)
    requires ParseSelections(body, depth + 1) == Parsed(selections, tail)
    requires At(rest, '@') || At(rest, '{')
    ensures ParseItem([L.Spread] + OnTypeTokens(onType, rest), depth)
            == Parsed(Inline(onType, directives, selections), tail)
  {
    var ts := [L.Spread] + OnTypeTokens(onType, rest);
    assert ts[1..] == OnTypeTokens(onType, rest);
    if onType.Some? { assert ts[1..][1..] == [L.Name(onType.value)] + rest && ts[1..][1..][1..] == rest; }
    assert ParseOnType(ts[1..]) == Parsed(onType, rest);
  }

  /** The steps of `ParseField` before the selection set. */
  lemma {:induction false} ParseFieldHead(name: string, alias: Option<string>, arguments: seq<Entry<Value>>,
                                          directives: seq<Directive>, depth: nat, tail: Tokens)
    requires EntriesOk(arguments, depth, false) && DirectivesOk(directives, depth, false)
    requires EndsDirectives(tail) && !At(tail, ':')
    ensures var args := ArgumentsTokens(arguments, DirectivesTokens(directives, tail));
      var ts := AliasTokens(alias, [L.Name(name)] + args);
      && AtName(ts)
      && ParseAliased(ts[0].text, ts[1..]) == Parsed((name, alias), args)
      && ParseArguments(args, depth, false) == Parsed(arguments, DirectivesTokens(directives, tail))
      && ParseDirectives(DirectivesTokens(directives, tail), depth, false, []) == Parsed(directives, tail)
  {
    ParseAllDirectives(directives, depth, false, tail);
    ParseArgumentsTokens(arguments, depth, false, DirectivesTokens(directives, tail));
    var args := ArgumentsTokens(arguments, DirectivesTokens(directives, tail));
    assert !At(args, ':');
    AliasStep(name, alias, args);
  }

  lemma {:induction false} AliasStep(name: string, alias: Option<string>, args: Tokens)
    requires !At(args, ':')
    ensures var ts := AliasTokens(alias, [L.Name(name)] + args);
      AtName(ts) && ParseAliased(ts[0].text, ts[1..]) == Parsed((name, alias), args)
  {
    var ts := AliasTokens(alias, [L.Name(name)] + args);
    if alias.Some? {
      assert ts[1..] == [L.Punct(':')] + ([L.Name(name)] + args) && ts[1..][1..] == [L.Name(name)] + args;
    }
    assert ([L.Name(name)] + args)[1..] == args;
  }

  // ---------------------------------------------------------------- variables

  lemma {:induction false} ParseTypeTokens(t: TypeRef, depth: nat, tail: Tokens)
    requires TypeOk(t, depth) && !At(tail, '!')
    ensures ParseType(TypeTokens(t, tail), depth) == Parsed(t, tail)
  {
    var ts, bang := TypeTokens(t, tail), BangTokens(t.required, tail);
    if t.required { assert bang[1..] == tail; }
    match t
    case NamedType(name, _) => assert ts[1..] == bang;
    case ListType(inner, _) =>
      assert ts[1..] == TypeTokens(inner, [L.Punct(']')] + bang) && ([L.Punct(']')] + bang)[1..] == bang;
      ParseTypeTokens(inner, depth + 1, [L.Punct(']')] + bang);
  }

  /** What follows a variable definition: the next one or the closing parenthesis. */
  predicate VariableTail(tail: Tokens) { At(tail, '$') || At(tail, ')') }

  lemma {:induction false} ParseVariableTokens(v: VariableDef, tail: Tokens, acc: seq<VariableDef>)
    requires VariableOk(v) && VariableTail(tail) && !Declared(acc, v.name)
    ensures ParseVariable(VariableTokens(v, tail), acc) == Parsed(v, tail)
  {
    var r1 := DirectivesTokens(v.directives, tail);
    ParseAllDirectives(v.directives, 0, true, tail);
    var r2 := DefaultTokens(v.default, r1);
    ParseDefaultTokens(v.default, r1);
    ParseTypeTokens(v.typeRef, 0, r2);
    VariableStep(v, TypeTokens(v.typeRef, r2), r2, r1, tail, acc);
  }

  lemma {:induction false} ParseDefaultTokens(default: Option<Value>, tail: Tokens)
    requires (default.Some? ==> ValueOk(default.value, 0, true)) && !At(tail, '=')
    ensures ParseDefault(DefaultTokens(default, tail)) == Parsed(default, tail)
  {
    if default.Some? {
      ParseValueTokens(default.value, 0, true, tail);
      assert DefaultTokens(default, tail)[1..] == ValueTokens(default.value, tail);
    }
  }

  lemma {:induction false} VariableStep(v: VariableDef, r3: Tokens, r2: Tokens, r1: Tokens, tail: Tokens,
                                        acc: seq<VariableDef>)
    requires !Declared(acc, v.name) && ParseType(r3, 0) == Parsed(v.typeRef, r2)
    requires ParseDefault(r2) == Parsed(v.default, r1) && ParseDirectives(r1, 0, true, []) == Parsed(v.directives, tail)
    ensures ParseVariable([L.Punct('$'), L.Name(v.name), L.Punct(':')] + r3, acc) == Parsed(v, tail)
  {
    var ts := [L.Punct('$'), L.Name(v.name), L.Punct(':')] + r3;
    assert ts[1..] == [L.Name(v.name), L.Punct(':')] + r3;
    assert ts[1..][1..] == [L.Punct(':')] + r3 && ts[1..][1..][1..] == r3;
  }

  lemma {:induction false} ParseVariableListTokens(vs: seq<VariableDef>, tail: Tokens, acc: seq<VariableDef>)
    requires VariablesOk(acc + vs)
    ensures ParseVariableList(VariableListTokens(vs, [L.Punct(')')] + tail), acc) == Parsed(acc + vs, tail)
    ensures VariableTail(VariableListTokens(vs, [L.Punct(')')] + tail))
    decreases vs
  {
    var close := [L.Punct(')')] + tail;
    if vs == [] {
      assert close[1..] == tail && acc + vs == acc;
    } else {
      assert acc + vs == acc + [vs[0]] + vs[1..];
      ParseVariableListTokens(vs[1..], tail, acc + [vs[0]]);
      assert (acc + vs)[|acc|] == vs[0];
      assert forall i :: 0 <= i < |acc| ==> (acc + vs)[i] == acc[i];
      ParseVariableTokens(vs[0], VariableListTokens(vs[1..], close), acc);
    }
  }

  lemma {:induction false} ParseVariablesTokens(vs: seq<VariableDef>, tail: Tokens)
    requires VariablesOk(vs) && !At(tail, '(')
    ensures ParseVariables(VariablesTokens(vs, tail)) == Parsed(vs, tail)
  {
    if vs != [] {
      assert [] + vs == vs;
      ParseVariableListTokens(vs, tail, []);
      assert VariablesTokens(vs, tail)[1..] == VariableListTokens(vs, [L.Punct(')')] + tail);
    }
  }

  // ---------------------------------------------------------------- documents

  lemma {:induction false} ParseOperationTokens(op: Operation, tail: Tokens, ops: seq<Operation>)
    requires OperationOk(op) && (op.name.Some? ==> !OperationNamed(ops, op.name.value))
    ensures ParseOperation(op.kind, OperationTokens(op, tail)[1..], ops) == Parsed(op, tail)
  {
    var r1 := SelectionsTokens(op.selections, tail);
    ParseSelectionsTokens(op.selections, 0, tail);
    var r2 := DirectivesTokens(op.directives, r1);
    ParseAllDirectives(op.directives, 0, false, r1);
    var r3 := VariablesTokens(op.variables, r2);
    ParseVariablesTokens(op.variables, r2);
    var r4 := OptionalNameTokens(op.name, r3);
    assert OperationTokens(op, tail)[1..] == r4;
    if op.name.Some? { assert r4[1..] == r3; }
  }

  lemma {:induction false} ParseFragmentTokens(f: Fragment, tail: Tokens)
    requires FragmentOk(f)
    ensures ParseFragment(FragmentTokens(f, tail)[1..]) == Parsed(f, tail)
  {
    var r1 := SelectionsTokens(f.selections, tail);
    ParseSelectionsTokens(f.selections, 0, tail);
    ParseAllDirectives(f.directives, 0, false, r1);
    FragmentStep(f, DirectivesTokens(f.directives, r1), r1, tail);
    FragmentRest(L.Name("fragment"), L.Name(f.name), L.Name("on"), L.Name(f.onType),
                 DirectivesTokens(f.directives, r1));
  }

  lemma {:induction false} FragmentRest(a: L.Token, b: L.Token, c: L.Token, d: L.Token, rest: Tokens)
    ensures ([a, b, c, d] + rest)[1..] == [b, c, d] + rest
  {
  }

  lemma {:induction false} FragmentStep(f: Fragment, r2: Tokens, r1: Tokens, tail: Tokens)
    requires f.name != "on" && ParseDirectives(r2, 0, false, []) == Parsed(f.directives, r1)
    requires ParseSelections(r1, 0) == Parsed(f.selections, tail)
    ensures ParseFragment([L.Name(f.name), L.Name("on"), L.Name(f.onType)] + r2) == Parsed(f, tail)
  {
    var ts := [L.Name(f.name), L.Name("on"), L.Name(f.onType)] + r2;
    assert ts[1..] == [L.Name("on"), L.Name(f.onType)] + r2;
    assert ts[1..][1..] == [L.Name(f.onType)] + r2 && ts[1..][1..][1..] == r2;
  }

  lemma {:induction false} ParseFragmentsTokens(fs: seq<Entry<Fragment>>, ops: seq<Operation>,
                                                acc: seq<Entry<Fragment>>)
    requires FragmentsOk(acc + fs) && Named(ops)
    ensures ParseDefinitions(FragmentsTokens(fs), ops, acc) == Ok(Document(ops, acc + fs))
    decreases fs
  {
    if fs == [] {
      assert acc + fs == acc;
    } else {
      var f, rest := fs[0].value, FragmentsTokens(fs[1..]);
      assert (acc + fs)[|acc|] == fs[0];
      assert acc + fs == acc + [fs[0]] + fs[1..];
      SortedPrefix(acc + [fs[0]], fs[1..]);
      InsertLast(acc, fs[0]);
      FragmentDefinition(f, rest, ops, acc);
      assert Entry(f.name, f) == fs[0];
      FragmentsStep(FragmentTokens(f, rest), f, rest, ops, acc);
      ParseFragmentsTokens(fs[1..], ops, acc + [fs[0]]);
    }
  }

  lemma {:induction false} FragmentDefinition(f: Fragment, rest: Tokens, ops: seq<Operation>, acc: seq<Entry<Fragment>>)
    requires FragmentOk(f) && !Has(acc, f.name)
    ensures ParseDefinition(FragmentTokens(f, rest), ops, acc) == Parsed(FragmentDef(f), rest)
  {
    ParseFragmentTokens(f, rest);
  }

  lemma {:induction false} FragmentsStep(ts: Tokens, f: Fragment, rest: Tokens, ops: seq<Operation>,
                                         acc: seq<Entry<Fragment>>)
    requires ts != [] && ParseDefinition(ts, ops, acc) == Parsed(FragmentDef(f), rest)
    ensures ParseDefinitions(ts, ops, acc) == ParseDefinitions(rest, ops, Insert(acc, Entry(f.name, f)))
  {
  }

  lemma {:induction false} OperationDefinition(op: Operation, rest: Tokens, ops: seq<Operation>)
    requires OperationOk(op) && (op.name.Some? ==> !OperationNamed(ops, op.name.value))
    ensures ParseDefinition(OperationTokens(op, rest), ops, []) == Parsed(OperationDef(op, false), rest)
  {
    ParseOperationTokens(op, rest, ops);
  }

  lemma {:induction false} OperationsStep(ts: Tokens, op: Operation, rest: Tokens, ops: seq<Operation>,
                                          fs: seq<Entry<Fragment>>)
    requires ts != [] && ParseDefinition(ts, ops, fs) == Parsed(OperationDef(op, false), rest)
    ensures ParseDefinitions(ts, ops, fs) == ParseDefinitions(rest, ops + [op], fs)
  {
  }

  lemma {:induction false} NewName(ops: seq<Operation>, n: nat)
    requires OperationsOk(ops) && n < |ops|
    ensures OperationOk(ops[n]) && (ops[n].name.Some? ==> !OperationNamed(ops[..n], ops[n].name.value))
  {
  }

  lemma {:induction false} ParseOperationsTokens(ops: seq<Operation>, fs: seq<Entry<Fragment>>, acc: seq<Operation>)
    requires OperationsOk(acc + ops) && Named(acc + ops) && FragmentsOk(fs)
    ensures ParseDefinitions(OperationsTokens(ops, FragmentsTokens(fs)), acc, []) == Ok(Document(acc + ops, fs))
    decreases ops
  {
    hide ParseDefinitions, ParseDefinition, OperationTokens, OperationOk, FragmentsTokens;
    if ops == [] {
      assert acc + ops == acc && [] + fs == fs;
      ParseFragmentsTokens(fs, acc, []);
    } else {
      var op, rest := ops[0], OperationsTokens(ops[1..], FragmentsTokens(fs));
      assert (acc + ops)[|acc|] == op && (acc + ops)[..|acc|] == acc;
      NewName(acc + ops, |acc|);
      OperationDefinition(op, rest, acc);
      OperationsStep(OperationTokens(op, rest), op, rest, acc, []);
      assert acc + ops == acc + [op] + ops[1..];
      ParseOperationsTokens(ops[1..], fs, acc + [op]);
    }
  }

  /** Parsing the tokens of a well-formed document returns the document. */
  lemma {:induction false} ParseDocumentTokens(d: Document)
    requires DocumentOk(d)
    ensures ParseDocument(DocumentTokens(d)) == Ok(d)
  {
    assert [] + d.operations == d.operations;
    ParseOperationsTokens(d.operations, d.fragments, []);
  }
}
