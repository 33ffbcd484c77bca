/** The parser as the source writes it: a cursor that its methods advance. */
module ParserLoops {
  import opened Outcome
  import opened OrderedMap
  import opened Syntax
  import opened Parser
  import L = Lexer

  type Tokens = Parser.Tokens

  /** A method's result is what the parsing function gives, and the cursor stands at the tokens left. */
  predicate Agrees<T(==)>(r: Result<T, ParseError>, rest: Tokens, spec: Parse<T>) {
    match r
    case Ok(v) => spec == Parsed(v, rest)
    case Err(e) => spec == Failed(e)
  }

  class Cursor {
    const tokens: Tokens
    var pos: nat

    ghost predicate Valid() reads this { pos <= |tokens| }

    ghost function Rest(): Tokens
      requires Valid()
      reads this
    {
      tokens[pos..]
    }

    constructor (tokens: Tokens)
      ensures Valid() && this.tokens == tokens && Rest() == tokens
    {
      this.tokens := tokens;
      this.pos := 0;
    }

    method Eat(c: char) returns (eaten: bool)
      requires Valid()
      modifies this`pos
      ensures Valid() && eaten == At(old(Rest()), c)
      ensures Rest() == if eaten then old(Rest())[1..] else old(Rest())
    {
      eaten := pos < |tokens| && tokens[pos] == L.Punct(c);
      if eaten { pos := pos + 1; }
    }

    method ExpectPunct(c: char) returns (r: Result<(), ParseError>)
      requires Valid()
      modifies this`pos
      ensures Valid() && Agrees(r, Rest(), Expect(old(Rest()), c))
    {
      var eaten := Eat(c);
      r := if eaten then Ok(()) else Err(Expected(c));
    }

    method Name() returns (r: Result<string, ParseError>)
      requires Valid()
      modifies this`pos
      ensures Valid() && Agrees(r, Rest(), ParseName(old(Rest())))
    {
      if pos < |tokens| && tokens[pos].Name? {
        r := Ok(tokens[pos].text);
        pos := pos + 1;
      } else {
        r := Err(ExpectedName);
      }
    }

    method Type(depth: nat) returns (r: Result<TypeRef, ParseError>)
      requires Valid()
      modifies this`pos
      ensures Valid() && Agrees(r, Rest(), ParseType(old(Rest()), depth))
      decreases |tokens| - pos
    {
      if depth > MAX_DEPTH { return Err(TooDeep); }
      var list := Eat('[');
      if list {
        var inner := Type(depth + 1);
        if inner.Err? { return Err(inner.error); }
        var close := ExpectPunct(']');
        if close.Err? { return Err(close.error); }
        var bang := Eat('!');
        r := Ok(ListType(inner.value, bang));
      } else {
        var name := Name();
        if name.Err? { return Err(name.error); }
        var bang := Eat('!');
        r := Ok(NamedType(name.value, bang));
      }
    }

    method Value(depth: nat, constant: bool) returns (r: Result<Value, ParseError>)
      requires Valid()
      modifies this`pos
      ensures Valid() && Agrees(r, Rest(), ParseValue(old(Rest()), depth, constant))
      decreases |tokens| - pos, 0
    {
      if depth > MAX_DEPTH { return Err(TooDeep); }
      var dollar := Eat('$');
      if dollar {
        if constant { return Err(VariableInConstant); }
        var name := Name();
        if name.Err? { return Err(name.error); }
        return Ok(Variable(name.value));
      }
      var bracket := Eat('[');
      if bracket {
        var values := Values(depth, constant);
        if values.Err? { return Err(values.error); }
        return Ok(List(values.value));
      }
      var brace := Eat('{');
      if brace {
        var fields := Entries('}', depth, constant);
        if fields.Err? { return Err(fields.error); }
        return Ok(Object(fields.value));
      }
      if pos >= |tokens| { return Err(ExpectedValue); }
      var v := ScalarValue(tokens[pos]);
      if v.Err? { return Err(v.error); }
      pos := pos + 1;
      r := Ok(v.value);
    }

    /** The list loop of `value`. */
    method Values(depth: nat, constant: bool) returns (r: Result<seq<Value>, ParseError>)
      requires Valid()
      modifies this`pos
      ensures Valid() && Agrees(r, Rest(), ParseValues(old(Rest()), depth, constant, []))
      decreases |tokens| - pos, 1
    {
      var values: seq<Value> := [];
      while true
        invariant Valid() && old(pos) <= pos
        invariant ParseValues(old(Rest()), depth, constant, []) == ParseValues(Rest(), depth, constant, values)
        decreases |tokens| - pos
      {
        var done := Eat(']');
        if done { return Ok(values); }
        var v := Value(depth + 1, constant);
        if v.Err? { return Err(v.error); }
        values := values + [v.value];
      }
    }

    /** The loop of `arguments`, and of input objects in `value`. */
    method Entries(close: char, depth: nat, constant: bool) returns (r: Result<seq<Entry<Value>>, ParseError>)
      requires Valid()
      modifies this`pos
      ensures Valid() && Agrees(r, Rest(), ParseEntries(old(Rest()), close, depth, constant, []))
      decreases |tokens| - pos, 1
    {
      var entries: seq<Entry<Value>> := [];
      while true
        invariant Valid() && old(pos) <= pos
        invariant ParseEntries(old(Rest()), close, depth, constant, [])
               == ParseEntries(Rest(), close, depth, constant, entries)
        decreases |tokens| - pos
      {
        var done := Eat(close);
        if done { return Ok(entries); }
        var name := Name();
        if name.Err? { return Err(name.error); }
        var colon := ExpectPunct(':');
        if colon.Err? { return Err(colon.error); }
        var v := Value(depth + 1, constant);
        if v.Err? { return Err(v.error); }
        if Has(entries, name.value) { return Err(Duplicate); }
        entries := Insert(entries, Entry(name.value, v.value));
      }
    }

    method Arguments(depth: nat, constant: bool) returns (r: Result<seq<Entry<Value>>, ParseError>)
      requires Valid()
      modifies this`pos
      ensures Valid() && Agrees(r, Rest(), ParseArguments(old(Rest()), depth, constant))
    {
      var open := Eat('(');
      if !open { return Ok([]); }
      r := Entries(')', depth, constant);
      if r.Ok? && r.value == [] { r := Err(Empty); }
    }

    method Directives(depth: nat, constant: bool) returns (r: Result<seq<Directive>, ParseError>)
      requires Valid()
      modifies this`pos
      ensures Valid() && Agrees(r, Rest(), ParseDirectives(old(Rest()), depth, constant, []))
    {
      var result: seq<Directive> := [];
      while true
        invariant Valid()
        invariant ParseDirectives(old(Rest()), depth, constant, []) == ParseDirectives(Rest(), depth, constant, result)
        decreases |tokens| - pos
      {
        var more := Eat('@');
        if !more { return Ok(result); }
        var name := Name();
        if name.Err? { return Err(name.error); }
        var args := Arguments(depth, constant);
        if args.Err? { return Err(args.error); }
        result := result + [Directive(name.value, args.value)];
      }
    }

    method Selections(depth: nat) returns (r: Result<seq<Selection>, ParseError>)
      requires Valid()
      modifies this`pos
      ensures Valid() && Agrees(r, Rest(), ParseSelections(old(Rest()), depth))
      decreases |tokens| - pos, 0
    {
      if depth > MAX_DEPTH { return Err(TooDeep); }
      var open := ExpectPunct('{');
      if open.Err? { return Err(open.error); }
      var selections: seq<Selection> := [];
      ghost var start := Rest();
      while true
        invariant Valid() && old(pos) < pos
        invariant ParseItems(start, depth, []) == ParseItems(Rest(), depth, selections)
        decreases |tokens| - pos
      {
        var done := Eat('}');
        if done {
          if selections == [] { return Err(Empty); }
          return Ok(selections);
        }
        var item := Item(depth);
        if item.Err? { return Err(item.error); }
        selections := selections + [item.value];
      }
    }

    method Item(depth: nat) returns (r: Result<Selection, ParseError>)
      requires Valid()
      modifies this`pos
      ensures Valid() && Agrees(r, Rest(), ParseItem(old(Rest()), depth))
      decreases |tokens| - pos, 2
    {
      if pos < |tokens| && tokens[pos].Spread? {
        pos := pos + 1;
        r := AfterSpread(depth);
      } else {
        r := FieldItem(depth);
      }
    }

    method AfterSpread(depth: nat) returns (r: Result<Selection, ParseError>)
      requires Valid()
      modifies this`pos
      ensures Valid() && Agrees(r, Rest(), ParseSpread(old(Rest()), depth))
      decreases |tokens| - pos, 1
    {
      var on := pos < |tokens| && tokens[pos] == L.Name("on");
      if on || (pos < |tokens| && (tokens[pos] == L.Punct('@') || tokens[pos] == L.Punct('{'))) {
        var onType: Option<string> := None;
        if on {
          pos := pos + 1;
          var name := Name();
          if name.Err? { return Err(name.error); }
          onType := Some(name.value);
        }
        assert ParseOnType(old(Rest())) == Parsed(onType, Rest());
        var directives := Directives(depth, false);
        if directives.Err? { return Err(directives.error); }
        var children := Selections(depth + 1);
        if children.Err? { return Err(children.error); }
        r := Ok(Inline(onType, directives.value, children.value));
      } else {
        var name := Name();
        if name.Err? { return Err(name.error); }
        var directives := Directives(depth, false);
        if directives.Err? { return Err(directives.error); }
        r := Ok(Spread(name.value, directives.value));
      }
    }

    method Aliased(first: string) returns (r: Result<(string, Option<string>), ParseError>)
      requires Valid()
      modifies this`pos
      ensures Valid() && Agrees(r, Rest(), ParseAliased(first, old(Rest())))
    {
      var colon := Eat(':');
      if !colon { return Ok((first, None)); }
      var second := Name();
      if second.Err? { return Err(second.error); }
      r := Ok((second.value, Some(first)));
    }

    method FieldItem(depth: nat) returns (r: Result<Selection, ParseError>)
      requires Valid()
      modifies this`pos
      ensures Valid() && Agrees(r, Rest(), ParseField(old(Rest()), depth))
      decreases |tokens| - pos, 1
    {
      var first := Name();
      if first.Err? { return Err(first.error); }
      var named := Aliased(first.value);
      if named.Err? { return Err(named.error); }
      var name, alias := named.value.0, named.value.1;
      var arguments := Arguments(depth, false);
      if arguments.Err? { return Err(arguments.error); }
      var directives := Directives(depth, false);
      if directives.Err? { return Err(directives.error); }
      if pos < |tokens| && tokens[pos] == L.Punct('{') {
        var children := Selections(depth + 1);
        if children.Err? { return Err(children.error); }
        r := Ok(Field(name, alias, arguments.value, directives.value, children.value));
      } else {
        r := Ok(Field(name, alias, arguments.value, directives.value, []));
      }
    }

    method VariableItem(earlier: seq<VariableDef>) returns (r: Result<VariableDef, ParseError>)
      requires Valid()
      modifies this`pos
      ensures Valid() && Agrees(r, Rest(), ParseVariable(old(Rest()), earlier))
    {
      var dollar := ExpectPunct('$');
      if dollar.Err? { return Err(dollar.error); }
      var name := Name();
      if name.Err? { return Err(name.error); }
      if Declared(earlier, name.value) { return Err(Duplicate); }
      var colon := ExpectPunct(':');
      if colon.Err? { return Err(colon.error); }
      var typeRef := Type(0);
      if typeRef.Err? { return Err(typeRef.error); }
      var default: Option<Value> := None;
      ghost var before := Rest();
      var equals := Eat('=');
      if equals {
        var v := Value(0, true);
        if v.Err? { return Err(v.error); }
        default := Some(v.value);
      }
      assert ParseDefault(before) == Parsed(default, Rest());
      var directives := Directives(0, true);
      if directives.Err? { return Err(directives.error); }
      r := Ok(VariableDef(name.value, typeRef.value, default, directives.value));
    }

    method Variables() returns (r: Result<seq<VariableDef>, ParseError>)
      requires Valid()
      modifies this`pos
      ensures Valid() && Agrees(r, Rest(), ParseVariables(old(Rest())))
    {
      var open := Eat('(');
      if !open { return Ok([]); }
      var variables: seq<VariableDef> := [];
      ghost var start := Rest();
      while true
        invariant Valid()
        invariant ParseVariableList(start, []) == ParseVariableList(Rest(), variables)
        decreases |tokens| - pos
      {
        var done := Eat(')');
        if done {
          if variables == [] { return Err(Empty); }
          return Ok(variables);
        }
        var v := VariableItem(variables);
        if v.Err? { return Err(v.error); }
        variables := variables + [v.value];
      }
    }

    method OperationItem(kind: string, earlier: seq<Operation>) returns (r: Result<Operation, ParseError>)
      requires Valid()
      modifies this`pos
      ensures Valid() && Agrees(r, Rest(), ParseOperation(kind, old(Rest()), earlier))
    {
      var name: Option<string> := None;
      if pos < |tokens| && tokens[pos].Name? {
        name := Some(tokens[pos].text);
        pos := pos + 1;
      }
      if name.Some? && OperationNamed(earlier, name.value) { return Err(Duplicate); }
      var variables := Variables();
      if variables.Err? { return Err(variables.error); }
      var directives := Directives(0, false);
      if directives.Err? { return Err(directives.error); }
      var selections := Selections(0);
      if selections.Err? { return Err(selections.error); }
      r := Ok(Operation(kind, name, variables.value, directives.value, selections.value));
    }

    method FragmentItem() returns (r: Result<Fragment, ParseError>)
      requires Valid()
      modifies this`pos
      ensures Valid() && Agrees(r, Rest(), ParseFragment(old(Rest())))
    {
      var name := Name();
      if name.Err? { return Err(name.error); }
      if name.value == "on" { return Err(FragmentNamedOn); }
      var word := Name();
      if word.Err? { return Err(word.error); }
      if word.value != "on" { return Err(MissingTypeCondition); }
      var onType := Name();
      if onType.Err? { return Err(onType.error); }
      var directives := Directives(0, false);
      if directives.Err? { return Err(directives.error); }
      var selections := Selections(0);
      if selections.Err? { return Err(selections.error); }
      r := Ok(Fragment(name.value, onType.value, directives.value, selections.value));
    }

    method DefinitionItem(ops: seq<Operation>, fs: seq<Entry<Fragment>>) returns (r: Result<Definition, ParseError>)
      requires Valid()
      modifies this`pos
      ensures Valid() && Agrees(r, Rest(), ParseDefinition(old(Rest()), ops, fs))
    {
      if pos < |tokens| && tokens[pos] == L.Punct('{') {
        var selections := Selections(0);
        if selections.Err? { return Err(selections.error); }
        return Ok(OperationDef(Operation("query", None, [], [], selections.value), true));
      }
      var kind := Name();
      if kind.Err? { return Err(kind.error); }
      if kind.value == "fragment" {
        var fragment := FragmentItem();
        if fragment.Err? { return Err(fragment.error); }
        if Has(fs, fragment.value.name) { return Err(Duplicate); }
        r := Ok(FragmentDef(fragment.value));
      } else if OperationKind(kind.value) {
        var operation := OperationItem(kind.value, ops);
        if operation.Err? { return Err(operation.error); }
        r := Ok(OperationDef(operation.value, false));
      } else {
        r := Err(UnsupportedDefinition);
      }
    }

    /** `Parser::document`. */
    method WholeDocument() returns (r: Result<Document, ParseError>)
      requires Valid()
      modifies this`pos
      ensures Valid() && r == ParseDocument(old(Rest()))
    {
      var operations: seq<Operation>, fragments: seq<Entry<Fragment>> := [], [];
      while pos < |tokens|
        invariant Valid()
        invariant ParseDocument(old(Rest())) == ParseDefinitions(Rest(), operations, fragments)
        decreases |tokens| - pos
      {
        var item := DefinitionItem(operations, fragments);
        if item.Err? { return Err(item.error); }
        match item.value
        case OperationDef(op, _) => operations := operations + [op];
        case FragmentDef(f) => fragments := Insert(fragments, Entry(f.name, f));
      }
      if operations == [] { return Err(NoOperation); }
      if !Named(operations) { return Err(AnonymousNotAlone); }
      r := Ok(Document(operations, fragments));
    }
  }
}
