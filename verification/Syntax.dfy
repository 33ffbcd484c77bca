/** Executable documents, and what every parsed document satisfies. */
module Syntax {
  import opened Outcome
  import opened OrderedMap
  import L = Lexer

  const MAX_DEPTH: nat := 32

  datatype Value =
    | Variable(name: string)
    | MissingVariable(name: string)
    | Int(text: string)
    | Float(text: string)
    | Str(text: string)
    | Enum(name: string)
    | Boolean(on: bool)
    | Null
    | List(values: seq<Value>)
    | Object(fields: seq<Entry<Value>>)
    | Reference(id: string)

  datatype Directive = Directive(name: string, arguments: seq<Entry<Value>>)

  datatype Selection =
    | Field(name: string, alias: Option<string>, arguments: seq<Entry<Value>>,
            directives: seq<Directive>, selections: seq<Selection>)
    | Spread(name: string, directives: seq<Directive>)
    | Inline(onType: Option<string>, directives: seq<Directive>, selections: seq<Selection>)

  /** A type reference; the source keeps its text (`Printer.TypeText`) instead of the tree. */
  datatype TypeRef =
    | NamedType(name: string, required: bool)
    | ListType(inner: TypeRef, required: bool)

  datatype VariableDef = VariableDef(name: string, typeRef: TypeRef, default: Option<Value>, directives: seq<Directive>)

  datatype Operation = Operation(kind: string, name: Option<string>, variables: seq<VariableDef>,
                                 directives: seq<Directive>, selections: seq<Selection>)

  datatype Fragment = Fragment(name: string, onType: string, directives: seq<Directive>, selections: seq<Selection>)

  datatype Document = Document(operations: seq<Operation>, fragments: seq<Entry<Fragment>>)

  // ---------------------------------------------------------------- well-formedness

  predicate IsName(s: string) {
    s != [] && L.NameStart(s[0]) && forall i :: 0 <= i < |s| ==> L.NameChar(s[i])
  }

  predicate IsNumber(s: string) {
    s != [] && (s[0] == '-' || L.Digit(s[0])) && L.NumberEnd(s) == Ok(|s|)
  }

  predicate FloatMark(c: char) { c == '.' || c == 'e' || c == 'E' }

  predicate IsFloat(s: string) { exists i :: 0 <= i < |s| && FloatMark(s[i]) }

  predicate Keyword(s: string) { s == "true" || s == "false" || s == "null" }

  ghost predicate ValueOk(v: Value, depth: nat, constant: bool)
    decreases v
  {
    && depth <= MAX_DEPTH
    && match v
       case Variable(name) => !constant && IsName(name)
       case Int(text) => IsNumber(text) && !IsFloat(text)
       case Float(text) => IsNumber(text) && IsFloat(text)
       case Str(_) => true
       case Enum(name) => IsName(name) && !Keyword(name)
       case Boolean(_) => true
       case Null => true
       case List(values) => forall i :: 0 <= i < |values| ==> ValueOk(values[i], depth + 1, constant)
       case Object(fields) =>
         Sorted(fields) && forall i :: 0 <= i < |fields| ==>
           IsName(fields[i].key) && ValueOk(fields[i].value, depth + 1, constant)
       case MissingVariable(_) => false
       case Reference(_) => false
  }

  ghost predicate EntriesOk(es: seq<Entry<Value>>, depth: nat, constant: bool) {
    Sorted(es) && forall i :: 0 <= i < |es| ==> EntryOk(es[i], depth, constant)
  }

  ghost predicate EntryOk(e: Entry<Value>, depth: nat, constant: bool) {
    IsName(e.key) && ValueOk(e.value, depth + 1, constant)
  }

  ghost predicate DirectivesOk(ds: seq<Directive>, depth: nat, constant: bool) {
    forall i :: 0 <= i < |ds| ==> DirectiveOk(ds[i], depth, constant)
  }

  ghost predicate DirectiveOk(d: Directive, depth: nat, constant: bool) {
    IsName(d.name) && EntriesOk(d.arguments, depth, constant)
  }

  predicate NameOk(name: Option<string>) { name.Some? ==> IsName(name.value) }

  ghost predicate SelectionOk(s: Selection, depth: nat)
    decreases s
  {
    match s
    case Field(name, alias, arguments, directives, selections) =>
      IsName(name) && NameOk(alias) && EntriesOk(arguments, depth, false) && DirectivesOk(directives, depth, false)
      && (selections != [] ==> depth + 1 <= MAX_DEPTH)
      && forall i :: 0 <= i < |selections| ==> SelectionOk(selections[i], depth + 1)
    case Spread(name, directives) => IsName(name) && name != "on" && DirectivesOk(directives, depth, false)
    case Inline(onType, directives, selections) =>
      NameOk(onType) && DirectivesOk(directives, depth, false)
      && selections != [] && depth + 1 <= MAX_DEPTH
      && forall i :: 0 <= i < |selections| ==> SelectionOk(selections[i], depth + 1)
  }

  ghost predicate SelectionsOk(ss: seq<Selection>, depth: nat) {
    depth <= MAX_DEPTH && ss != [] && forall i :: 0 <= i < |ss| ==> SelectionOk(ss[i], depth)
  }

  predicate TypeOk(t: TypeRef, depth: nat) {
    && depth <= MAX_DEPTH
    && match t
       case NamedType(name, _) => IsName(name)
       case ListType(inner, _) => TypeOk(inner, depth + 1)
  }

  ghost predicate VariableOk(v: VariableDef) {
    IsName(v.name) && TypeOk(v.typeRef, 0) && (v.default.Some? ==> ValueOk(v.default.value, 0, true))
    && DirectivesOk(v.directives, 0, true)
  }

  ghost predicate VariablesOk(vs: seq<VariableDef>) {
    && (forall i :: 0 <= i < |vs| ==> VariableOk(vs[i]))
    && (forall i, j :: 0 <= i < j < |vs| ==> vs[i].name != vs[j].name)
  }

  predicate OperationKind(s: string) { s == "query" || s == "mutation" || s == "subscription" }

  ghost predicate OperationOk(op: Operation) {
    OperationKind(op.kind) && NameOk(op.name) && VariablesOk(op.variables)
    && DirectivesOk(op.directives, 0, false) && SelectionsOk(op.selections, 0)
  }

  ghost predicate FragmentOk(f: Fragment) {
    IsName(f.name) && f.name != "on" && IsName(f.onType) && DirectivesOk(f.directives, 0, false)
    && SelectionsOk(f.selections, 0)
  }

  ghost predicate OperationsOk(ops: seq<Operation>) {
    && (forall i :: 0 <= i < |ops| ==> OperationOk(ops[i]))
    && (forall i, j :: 0 <= i < j < |ops| && ops[i].name.Some? ==> ops[i].name != ops[j].name)
  }

  ghost predicate FragmentsOk(fs: seq<Entry<Fragment>>) {
    Sorted(fs) && forall i :: 0 <= i < |fs| ==> fs[i].key == fs[i].value.name && FragmentOk(fs[i].value)
  }

  /** Exactly one anonymous operation, or only named ones. */
  predicate Named(ops: seq<Operation>) {
    ops != [] && (|ops| > 1 ==> forall i :: 0 <= i < |ops| ==> ops[i].name.Some?)
  }

  ghost predicate DocumentOk(d: Document) {
    OperationsOk(d.operations) && FragmentsOk(d.fragments) && Named(d.operations)
  }
}
