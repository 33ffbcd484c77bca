/** The recursive-descent parser, as functions from tokens to a value and the tokens left. */
module Parser {
  import opened Outcome
  import opened OrderedMap
  import opened Syntax
  import L = Lexer

  type Tokens = seq<L.Token>

  datatype ParseError =
    | TooDeep | Expected(c: char) | ExpectedName | ExpectedValue | VariableInConstant
    | Duplicate | Empty | FragmentNamedOn | MissingTypeCondition | UnsupportedDefinition
    | NoOperation | AnonymousNotAlone

  datatype Parse<+T> = Parsed(value: T, rest: Tokens) | Failed(error: ParseError)

  predicate At(ts: Tokens, c: char) { ts != [] && ts[0] == L.Punct(c) }

  predicate AtName(ts: Tokens) { ts != [] && ts[0].Name? }

  predicate AtWord(ts: Tokens, word: string) { ts != [] && ts[0] == L.Name(word) }

  function ParseName(ts: Tokens): (r: Parse<string>)
    ensures r.Parsed? ==> |r.rest| < |ts|
  {
    if AtName(ts) then Parsed(ts[0].text, ts[1..]) else Failed(ExpectedName)
  }

  function Expect(ts: Tokens, c: char): (r: Parse<()>)
    ensures r.Parsed? ==> |r.rest| < |ts|
  {
    if At(ts, c) then Parsed((), ts[1..]) else Failed(Expected(c))
  }

  function ParseType(ts: Tokens, depth: nat): (r: Parse<TypeRef>)
    ensures r.Parsed? ==> |r.rest| < |ts|
    decreases |ts|
  {
    if depth > MAX_DEPTH then Failed(TooDeep)
    else if At(ts, '[') then
      var inner := ParseType(ts[1..], depth + 1);
      if inner.Failed? then Failed(inner.error) else
      var mark := Expect(inner.rest, ']');
      if mark.Failed? then Failed(mark.error) else
      if At(mark.rest, '!') then Parsed(ListType(inner.value, true), mark.rest[1..])
        else Parsed(ListType(inner.value, false), mark.rest)
    else
      var name := ParseName(ts);
      if name.Failed? then Failed(name.error) else
      if At(name.rest, '!') then Parsed(NamedType(name.value, true), name.rest[1..])
        else Parsed(NamedType(name.value, false), name.rest)
  }

  function ScalarValue(t: L.Token): Result<Value, ParseError> {
    match t
    case Text(value) => Ok(Str(value))
    case Number(text) => Ok(if IsFloat(text) then Float(text) else Int(text))
    case Name(text) =>
      Ok(if text == "true" then Boolean(true) else if text == "false" then Boolean(false)
         else if text == "null" then Null else Enum(text))
    case Punct(_) => Err(ExpectedValue)
    case Spread => Err(ExpectedValue)
  }

  function ParseValue(ts: Tokens, depth: nat, constant: bool): (r: Parse<Value>)
    ensures r.Parsed? ==> |r.rest| < |ts|
    decreases |ts|, 0
  {
    if depth > MAX_DEPTH then Failed(TooDeep)
    else if At(ts, '$') then
      if constant then Failed(VariableInConstant)
      else
        var name := ParseName(ts[1..]);
        if name.Failed? then Failed(name.error) else
        Parsed(Variable(name.value), name.rest)
    else if At(ts, '[') then
      var values := ParseValues(ts[1..], depth, constant, []);
      if values.Failed? then Failed(values.error) else
      Parsed(List(values.value), values.rest)
    else if At(ts, '{') then
      var fields := ParseEntries(ts[1..], '}', depth, constant, []);
      if fields.Failed? then Failed(fields.error) else
      Parsed(Object(fields.value), fields.rest)
    else if ts == [] then Failed(ExpectedValue)
    else
      var v := ScalarValue(ts[0]);
      if v.Err? then Failed(v.error) else Parsed(v.value, ts[1..])
  }

  function ParseValues(ts: Tokens, depth: nat, constant: bool, acc: seq<Value>): (r: Parse<seq<Value>>)
    ensures r.Parsed? ==> |r.rest| < |ts|
    decreases |ts|, 1
  {
    if At(ts, ']') then Parsed(acc, ts[1..])
    else
      var v := ParseValue(ts, depth + 1, constant);
      if v.Failed? then Failed(v.error) else
      ParseValues(v.rest, depth, constant, acc + [v.value])
  }

  /** `name: value` pairs up to `close`, collected in key order. */
  function ParseEntries(ts: Tokens, close: char, depth: nat, constant: bool, acc: seq<Entry<Value>>):
    (r: Parse<seq<Entry<Value>>>)
    ensures r.Parsed? ==> |r.rest| < |ts|
    decreases |ts|, 1
  {
    if At(ts, close) then Parsed(acc, ts[1..])
    else
      var name := ParseName(ts);
      if name.Failed? then Failed(name.error) else
      var mark := Expect(name.rest, ':');
      if mark.Failed? then Failed(mark.error) else
      var v := ParseValue(mark.rest, depth + 1, constant);
      if v.Failed? then Failed(v.error) else
      if Has(acc, name.value) then Failed(Duplicate)
      else ParseEntries(v.rest, close, depth, constant, Insert(acc, Entry(name.value, v.value)))
  }

  function ParseArguments(ts: Tokens, depth: nat, constant: bool): (r: Parse<seq<Entry<Value>>>)
    ensures r.Parsed? ==> |r.rest| <= |ts|
  {
    if At(ts, '(') then
      var args := ParseEntries(ts[1..], ')', depth, constant, []);
      if args.Failed? then Failed(args.error) else
      if args.value == [] then Failed(Empty) else Parsed(args.value, args.rest)
    else Parsed([], ts)
  }

  function ParseDirectives(ts: Tokens, depth: nat, constant: bool, acc: seq<Directive>): (r: Parse<seq<Directive>>)
    ensures r.Parsed? ==> |r.rest| <= |ts|
    decreases |ts|
  {
    if At(ts, '@') then
      var name := ParseName(ts[1..]);
      if name.Failed? then Failed(name.error) else
      var args := ParseArguments(name.rest, depth, constant);
      if args.Failed? then Failed(args.error) else
      ParseDirectives(args.rest, depth, constant, acc + [Directive(name.value, args.value)])
    else Parsed(acc, ts)
  }

  function ParseSelections(ts: Tokens, depth: nat): (r: Parse<seq<Selection>>)
    ensures r.Parsed? ==> |r.rest| < |ts|
    decreases |ts|, 0
  {
    if depth > MAX_DEPTH then Failed(TooDeep)
    else
      var mark := Expect(ts, '{');
      if mark.Failed? then Failed(mark.error) else
      var items := ParseItems(mark.rest, depth, []);
      if items.Failed? then Failed(items.error) else
      if items.value == [] then Failed(Empty) else Parsed(items.value, items.rest)
  }

  function ParseItems(ts: Tokens, depth: nat, acc: seq<Selection>): (r: Parse<seq<Selection>>)
    ensures r.Parsed? ==> |r.rest| < |ts|
    decreases |ts|, 3
  {
    if At(ts, '}') then Parsed(acc, ts[1..])
    else
      var item := ParseItem(ts, depth);
      if item.Failed? then Failed(item.error) else
      ParseItems(item.rest, depth, acc + [item.value])
  }

  function ParseItem(ts: Tokens, depth: nat): (r: Parse<Selection>)
    ensures r.Parsed? ==> |r.rest| < |ts|
    decreases |ts|, 2
  {
    if ts != [] && ts[0].Spread? then ParseSpread(ts[1..], depth) else ParseField(ts, depth)
  }

  function ParseOnType(ts: Tokens): (r: Parse<Option<string>>)
    ensures r.Parsed? ==> |r.rest| <= |ts|
  {
    if AtWord(ts, "on") then
      var name := ParseName(ts[1..]);
      if name.Failed? then Failed(name.error) else
      Parsed(Some(name.value), name.rest)
    else Parsed(None, ts)
  }

  /** What follows `...`: an inline fragment or a fragment spread. */
  function ParseSpread(ts: Tokens, depth: nat): (r: Parse<Selection>)
    ensures r.Parsed? ==> |r.rest| < |ts|
    decreases |ts|, 1
  {
    if AtWord(ts, "on") || At(ts, '@') || At(ts, '{') then
      var onType := ParseOnType(ts);
      if onType.Failed? then Failed(onType.error) else
      var directives := ParseDirectives(onType.rest, depth, false, []);
      if directives.Failed? then Failed(directives.error) else
      var children := ParseSelections(directives.rest, depth + 1);
      if children.Failed? then Failed(children.error) else
      Parsed(Inline(onType.value, directives.value, children.value), children.rest)
    else
      var name := ParseName(ts);
      if name.Failed? then Failed(name.error) else
      var directives := ParseDirectives(name.rest, depth, false, []);
      if directives.Failed? then Failed(directives.error) else
      Parsed(Spread(name.value, directives.value), directives.rest)
  }

  function ParseField(ts: Tokens, depth: nat): (r: Parse<Selection>)
    ensures r.Parsed? ==> |r.rest| < |ts|
    decreases |ts|, 1
  {
    var first := ParseName(ts);
    if first.Failed? then Failed(first.error) else
    var named := ParseAliased(first.value, first.rest);
    if named.Failed? then Failed(named.error) else
    var arguments := ParseArguments(named.rest, depth, false);
    if arguments.Failed? then Failed(arguments.error) else
    var directives := ParseDirectives(arguments.rest, depth, false, []);
    if directives.Failed? then Failed(directives.error) else
    if At(directives.rest, '{') then
      var children := ParseSelections(directives.rest, depth + 1);
      if children.Failed? then Failed(children.error) else
      Parsed(Field(named.value.0, named.value.1, arguments.value, directives.value, children.value), children.rest)
    else Parsed(Field(named.value.0, named.value.1, arguments.value, directives.value, []), directives.rest)
  }

  /** `alias: name` or `name`, after the first name: the field's name and alias. */
  function ParseAliased(first: string, ts: Tokens): (r: Parse<(string, Option<string>)>)
    ensures r.Parsed? ==> |r.rest| <= |ts|
  {
    if At(ts, ':') then
      var name := ParseName(ts[1..]);
      if name.Failed? then Failed(name.error) else
      Parsed((name.value, Some(first)), name.rest)
    else Parsed((first, None), ts)
  }

  function ParseDefault(ts: Tokens): (r: Parse<Option<Value>>)
    ensures r.Parsed? ==> |r.rest| <= |ts|
  {
    if At(ts, '=') then
      var v := ParseValue(ts[1..], 0, true);
      if v.Failed? then Failed(v.error) else
      Parsed(Some(v.value), v.rest)
    else Parsed(None, ts)
  }

  predicate Declared(vs: seq<VariableDef>, name: string) { exists i :: 0 <= i < |vs| && vs[i].name == name }

  function ParseVariable(ts: Tokens, acc: seq<VariableDef>): (r: Parse<VariableDef>)
    ensures r.Parsed? ==> |r.rest| < |ts|
  {
    var mark := Expect(ts, '$');
    if mark.Failed? then Failed(mark.error) else
    var name := ParseName(mark.rest);
    if name.Failed? then Failed(name.error) else
    if Declared(acc, name.value) then Failed(Duplicate)
    else
      var mark2 := Expect(name.rest, ':');
      if mark2.Failed? then Failed(mark2.error) else
      var typeRef := ParseType(mark2.rest, 0);
      if typeRef.Failed? then Failed(typeRef.error) else
      var default := ParseDefault(typeRef.rest);
      if default.Failed? then Failed(default.error) else
      var directives := ParseDirectives(default.rest, 0, true, []);
      if directives.Failed? then Failed(directives.error) else
      Parsed(VariableDef(name.value, typeRef.value, default.value, directives.value), directives.rest)
  }

  function ParseVariableList(ts: Tokens, acc: seq<VariableDef>): (r: Parse<seq<VariableDef>>)
    ensures r.Parsed? ==> |r.rest| < |ts|
    decreases |ts|
  {
    if At(ts, ')') then Parsed(acc, ts[1..])
    else
      var v := ParseVariable(ts, acc);
      if v.Failed? then Failed(v.error) else
      ParseVariableList(v.rest, acc + [v.value])
  }

  function ParseVariables(ts: Tokens): (r: Parse<seq<VariableDef>>)
    ensures r.Parsed? ==> |r.rest| <= |ts|
  {
    if At(ts, '(') then
      var vs := ParseVariableList(ts[1..], []);
      if vs.Failed? then Failed(vs.error) else
      if vs.value == [] then Failed(Empty) else Parsed(vs.value, vs.rest)
    else Parsed([], ts)
  }

  predicate OperationNamed(ops: seq<Operation>, name: string) {
    exists i :: 0 <= i < |ops| && ops[i].name == Some(name)
  }

  function ParseOptionalName(ts: Tokens): (r: Parse<Option<string>>)
    ensures r.Parsed? ==> |r.rest| <= |ts|
  {
    if AtName(ts) then Parsed(Some(ts[0].text), ts[1..]) else Parsed(None, ts)
  }

  /** An operation after its kind, given the operations before it. */
  function ParseOperation(kind: string, ts: Tokens, ops: seq<Operation>): (r: Parse<Operation>)
    ensures r.Parsed? ==> |r.rest| < |ts|
  {
    var name := ParseOptionalName(ts);
    if name.Failed? then Failed(name.error) else
    if name.value.Some? && OperationNamed(ops, name.value.value) then Failed(Duplicate)
    else
      var variables := ParseVariables(name.rest);
      if variables.Failed? then Failed(variables.error) else
      var directives := ParseDirectives(variables.rest, 0, false, []);
      if directives.Failed? then Failed(directives.error) else
      var selections := ParseSelections(directives.rest, 0);
      if selections.Failed? then Failed(selections.error) else
      Parsed(Operation(kind, name.value, variables.value, directives.value, selections.value), selections.rest)
  }

  /** A fragment definition after the word `fragment`. */
  function ParseFragment(ts: Tokens): (r: Parse<Fragment>)
    ensures r.Parsed? ==> |r.rest| < |ts|
  {
    var name := ParseName(ts);
    if name.Failed? then Failed(name.error) else
    if name.value == "on" then Failed(FragmentNamedOn)
    else
      var word := ParseName(name.rest);
      if word.Failed? then Failed(word.error) else
      if word.value != "on" then Failed(MissingTypeCondition)
      else
        var onType := ParseName(word.rest);
        if onType.Failed? then Failed(onType.error) else
        var directives := ParseDirectives(onType.rest, 0, false, []);
        if directives.Failed? then Failed(directives.error) else
        var selections := ParseSelections(directives.rest, 0);
        if selections.Failed? then Failed(selections.error) else
        Parsed(Fragment(name.value, onType.value, directives.value, selections.value), selections.rest)
  }

  /** One top-level definition; `shorthand` marks an operation written as a bare selection set. */
  datatype Definition = OperationDef(operation: Operation, shorthand: bool) | FragmentDef(fragment: Fragment)

  function ParseDefinition(ts: Tokens, ops: seq<Operation>, fs: seq<Entry<Fragment>>): (r: Parse<Definition>)
    ensures r.Parsed? ==> |r.rest| < |ts|
  {
    if At(ts, '{') then
      var selections := ParseSelections(ts, 0);
      if selections.Failed? then Failed(selections.error) else
      Parsed(OperationDef(Operation("query", None, [], [], selections.value), true), selections.rest)
    else
      var kind := ParseName(ts);
      if kind.Failed? then Failed(kind.error) else
      if kind.value == "fragment" then
        var fragment := ParseFragment(kind.rest);
        if fragment.Failed? then Failed(fragment.error) else
        if Has(fs, fragment.value.name) then Failed(Duplicate) else Parsed(FragmentDef(fragment.value), fragment.rest)
      else if OperationKind(kind.value) then
        var operation := ParseOperation(kind.value, kind.rest, ops);
        if operation.Failed? then Failed(operation.error) else
        Parsed(OperationDef(operation.value, false), operation.rest)
      else Failed(UnsupportedDefinition)
  }

  /** The document loop, given the definitions collected so far. */
  function ParseDefinitions(ts: Tokens, ops: seq<Operation>,
                            fs: seq<Entry<Fragment>>): (r: Result<Document, ParseError>)
    decreases |ts|
  {
    if ts == [] then
      if ops == [] then Err(NoOperation)
      else if !Named(ops) then Err(AnonymousNotAlone)
      else Ok(Document(ops, fs))
    else
      match ParseDefinition(ts, ops, fs)
      case Failed(error) => Err(error)
      case Parsed(OperationDef(op, _), rest) => ParseDefinitions(rest, ops + [op], fs)
      case Parsed(FragmentDef(f), rest) => ParseDefinitions(rest, ops, Insert(fs, Entry(f.name, f)))
  }

  function ParseDocument(ts: Tokens): Result<Document, ParseError> { ParseDefinitions(ts, [], []) }

  /** How many operations of an accepted token list are written in the shorthand form. */
  function Shorthands(ts: Tokens, ops: seq<Operation>, fs: seq<Entry<Fragment>>): nat
    decreases |ts|
  {
    if ts == [] then 0
    else
      match ParseDefinition(ts, ops, fs)
      case Failed(error) => 0
      case Parsed(OperationDef(op, shorthand), rest) =>
        (if shorthand then 1 else 0) + Shorthands(rest, ops + [op], fs)
      case Parsed(FragmentDef(f), rest) => Shorthands(rest, ops, Insert(fs, Entry(f.name, f)))
  }
}
