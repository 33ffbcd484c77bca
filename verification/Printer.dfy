/** The printer (`Value::format`, `directives_text`, `selections_text`, `Document::format`).
    Every printer writes in front of a given tail, so `XText(x, "")` is the text of `x`.
    Beside each one stands the token list that its text denotes. */
module Printer {
  import opened Outcome
  import opened OrderedMap
  import opened Syntax
  import L = Lexer

  type Tokens = seq<L.Token>

  // ---------------------------------------------------------------- strings

  function HexChar(n: nat): char
    requires n < 16
  {
    if n < 10 then '0' + n as char else 'a' + (n - 10) as char
  }

  /** JSON string escaping, as `serde_json::to_string` writes it. */
  function Escape(c: char): (r: string)
    ensures |r| > 0
  {
    match c
    case '"' => "\\\""
    case '\\' => "\\\\"
    case '\U{0008}' => "\\b"
    case '\U{000C}' => "\\f"
    case '\n' => "\\n"
    case '\r' => "\\r"
    case '\t' => "\\t"
    case _ => if c < ' ' then ['\\', 'u', '0', '0', HexChar(c as nat / 16), HexChar(c as nat % 16)] else [c]
  }

  function Escaped(s: string, tail: string): string {
    if s == [] then tail else Escape(s[0]) + Escaped(s[1..], tail)
  }

  function Quoted(s: string, tail: string): string { "\"" + Escaped(s, "\"" + tail) }

  // ---------------------------------------------------------------- values

  function ValueText(v: Value, tail: string): string
    decreases v
  {
    match v
    case Variable(name) => "$" + (name + tail)
    case Reference(id) => "<value " + id + ">" + tail
    case MissingVariable(name) => "<missing $" + name + ">" + tail
    case Int(text) => text + tail
    case Float(text) => text + tail
    case Enum(name) => name + tail
    case Str(text) => Quoted(text, tail)
    case Boolean(on) => (if on then "true" else "false") + tail
    case Null => "null" + tail
    case List(values) => "[" + ValuesText(values, "]" + tail)
    case Object(fields) => "{" + EntriesText(fields, "}" + tail)
  }

  function ValuesText(vs: seq<Value>, tail: string): string
    decreases vs
  {
    if vs == [] then tail
    else ValueText(vs[0], if |vs| == 1 then tail else ", " + ValuesText(vs[1..], tail))
  }

  function EntriesText(es: seq<Entry<Value>>, tail: string): string
    decreases es
  {
    if es == [] then tail
    else es[0].key + (": " + ValueText(es[0].value, if |es| == 1 then tail else ", " + EntriesText(es[1..], tail)))
  }

  function ScalarTokens(v: Value): Tokens {
    match v
    case Int(text) => [L.Number(text)]
    case Float(text) => [L.Number(text)]
    case Enum(name) => [L.Name(name)]
    case Str(text) => [L.Text(text)]
    case Boolean(on) => [L.Name(if on then "true" else "false")]
    case _ => [L.Name("null")]
  }

  function ValueTokens(v: Value, tail: Tokens): Tokens
    decreases v
  {
    match v
    case Variable(name) => [L.Punct('$'), L.Name(name)] + tail
    case List(values) => [L.Punct('[')] + ValuesTokens(values, [L.Punct(']')] + tail)
    case Object(fields) => [L.Punct('{')] + EntriesTokens(fields, [L.Punct('}')] + tail)
    case _ => ScalarTokens(v) + tail
  }

  function ValuesTokens(vs: seq<Value>, tail: Tokens): Tokens
    decreases vs
  {
    if vs == [] then tail else ValueTokens(vs[0], ValuesTokens(vs[1..], tail))
  }

  function EntriesTokens(es: seq<Entry<Value>>, tail: Tokens): Tokens
    decreases es
  {
    if es == [] then tail
    else [L.Name(es[0].key), L.Punct(':')] + ValueTokens(es[0].value, EntriesTokens(es[1..], tail))
  }

  // ---------------------------------------------------------------- directives

  function ArgumentsText(args: seq<Entry<Value>>, tail: string): string {
    if args == [] then tail else "(" + EntriesText(args, ")" + tail)
  }

  function ArgumentsTokens(args: seq<Entry<Value>>, tail: Tokens): Tokens {
    if args == [] then tail else [L.Punct('(')] + EntriesTokens(args, [L.Punct(')')] + tail)
  }

  function DirectivesText(ds: seq<Directive>, tail: string): string {
    if ds == [] then tail
    else " @" + (ds[0].name + ArgumentsText(ds[0].arguments, DirectivesText(ds[1..], tail)))
  }

  function DirectivesTokens(ds: seq<Directive>, tail: Tokens): Tokens {
    if ds == [] then tail
    else [L.Punct('@'), L.Name(ds[0].name)] + ArgumentsTokens(ds[0].arguments, DirectivesTokens(ds[1..], tail))
  }

  // ---------------------------------------------------------------- selections

  function Indented(n: nat, tail: string): string {
    if n == 0 then tail else "  " + Indented(n - 1, tail)
  }

  function SelectionsText(ss: seq<Selection>, depth: nat, tail: string): string
    decreases ss, 2
  {
    "{\n" + ItemsText(ss, depth, Indented(depth, "}" + tail))
  }

  function ItemsText(ss: seq<Selection>, depth: nat, tail: string): string
    decreases ss, 1
  {
    if ss == [] then tail
    else Indented(depth + 1, SelectionText(ss[0], depth, "\n" + ItemsText(ss[1..], depth, tail)))
  }

  function AliasText(alias: Option<string>, tail: string): string {
    if alias.Some? then alias.value + (": " + tail) else tail
  }

  function SelectionText(s: Selection, depth: nat, tail: string): string
    decreases s, 0
  {
    match s
    case Field(name, alias, arguments, directives, selections) =>
      AliasText(alias, name + ArgumentsText(arguments, DirectivesText(directives,
        if selections == [] then tail else " " + SelectionsText(selections, depth + 1, tail))))
    case Spread(name, directives) => "..." + (name + DirectivesText(directives, tail))
    case Inline(onType, directives, selections) =>
      "..." + OnTypeText(onType, DirectivesText(directives, " " + SelectionsText(selections, depth + 1, tail)))
  }

  function OnTypeText(onType: Option<string>, tail: string): string {
    if onType.Some? then " on " + (onType.value + tail) else tail
  }

  function SelectionsTokens(ss: seq<Selection>, tail: Tokens): Tokens
    decreases ss, 2
  {
    [L.Punct('{')] + ItemsTokens(ss, [L.Punct('}')] + tail)
  }

  function ItemsTokens(ss: seq<Selection>, tail: Tokens): Tokens
    decreases ss, 1
  {
    if ss == [] then tail else SelectionTokens(ss[0], ItemsTokens(ss[1..], tail))
  }

  function AliasTokens(alias: Option<string>, tail: Tokens): Tokens {
    if alias.Some? then [L.Name(alias.value), L.Punct(':')] + tail else tail
  }

  function OnTypeTokens(onType: Option<string>, tail: Tokens): Tokens {
    if onType.Some? then [L.Name("on"), L.Name(onType.value)] + tail else tail
  }

  function SelectionTokens(s: Selection, tail: Tokens): Tokens
    decreases s, 0
  {
    match s
    case Field(name, alias, arguments, directives, selections) =>
      AliasTokens(alias, [L.Name(name)] + ArgumentsTokens(arguments, DirectivesTokens(directives,
        if selections == [] then tail else SelectionsTokens(selections, tail))))
    case Spread(name, directives) => [L.Spread, L.Name(name)] + DirectivesTokens(directives, tail)
    case Inline(onType, directives, selections) =>
      [L.Spread] + OnTypeTokens(onType, DirectivesTokens(directives, SelectionsTokens(selections, tail)))
  }

  // ---------------------------------------------------------------- documents

  function BangText(required: bool, tail: string): string { if required then "!" + tail else tail }

  function TypeText(t: TypeRef, tail: string): string {
    match t
    case NamedType(name, required) => name + BangText(required, tail)
    case ListType(inner, required) => "[" + TypeText(inner, "]" + BangText(required, tail))
  }

  function BangTokens(required: bool, tail: Tokens): Tokens { if required then [L.Punct('!')] + tail else tail }

  function TypeTokens(t: TypeRef, tail: Tokens): Tokens {
    match t
    case NamedType(name, required) => [L.Name(name)] + BangTokens(required, tail)
    case ListType(inner, required) => [L.Punct('[')] + TypeTokens(inner, [L.Punct(']')] + BangTokens(required, tail))
  }

  function DefaultText(default: Option<Value>, tail: string): string {
    if default.Some? then " = " + ValueText(default.value, tail) else tail
  }

  function DefaultTokens(default: Option<Value>, tail: Tokens): Tokens {
    if default.Some? then [L.Punct('=')] + ValueTokens(default.value, tail) else tail
  }

  function VariableText(v: VariableDef, tail: string): string {
    "$" + (v.name + (": " + TypeText(v.typeRef, DefaultText(v.default, DirectivesText(v.directives, tail)))))
  }

  function VariableTokens(v: VariableDef, tail: Tokens): Tokens {
    [L.Punct('$'), L.Name(v.name), L.Punct(':')]
    + TypeTokens(v.typeRef, DefaultTokens(v.default, DirectivesTokens(v.directives, tail)))
  }

  function VariableListText(vs: seq<VariableDef>, tail: string): string {
    if vs == [] then tail
    else VariableText(vs[0], if |vs| == 1 then tail else ", " + VariableListText(vs[1..], tail))
  }

  function VariableListTokens(vs: seq<VariableDef>, tail: Tokens): Tokens {
    if vs == [] then tail else VariableTokens(vs[0], VariableListTokens(vs[1..], tail))
  }

  function VariablesText(vs: seq<VariableDef>, tail: string): string {
    if vs == [] then tail else "(" + VariableListText(vs, ")" + tail)
  }

  function VariablesTokens(vs: seq<VariableDef>, tail: Tokens): Tokens {
    if vs == [] then tail else [L.Punct('(')] + VariableListTokens(vs, [L.Punct(')')] + tail)
  }

  function OptionalNameText(name: Option<string>, tail: string): string {
    if name.Some? then " " + (name.value + tail) else tail
  }

  function OptionalNameTokens(name: Option<string>, tail: Tokens): Tokens {
    if name.Some? then [L.Name(name.value)] + tail else tail
  }

  function OperationText(op: Operation, tail: string): string {
    op.kind + OptionalNameText(op.name, VariablesText(op.variables,
      DirectivesText(op.directives, " " + SelectionsText(op.selections, 0, tail))))
  }

  function OperationTokens(op: Operation, tail: Tokens): Tokens {
    [L.Name(op.kind)] + OptionalNameTokens(op.name, VariablesTokens(op.variables,
      DirectivesTokens(op.directives, SelectionsTokens(op.selections, tail))))
  }

  function FragmentText(f: Fragment, tail: string): string {
    "\n\n" + ("fragment" + (" " + (f.name + (" on " + (f.onType
      + DirectivesText(f.directives, " " + SelectionsText(f.selections, 0, tail)))))))
  }

  function FragmentTokens(f: Fragment, tail: Tokens): Tokens {
    [L.Name("fragment"), L.Name(f.name), L.Name("on"), L.Name(f.onType)]
    + DirectivesTokens(f.directives, SelectionsTokens(f.selections, tail))
  }

  function FragmentsText(fs: seq<Entry<Fragment>>): string {
    if fs == [] then "" else FragmentText(fs[0].value, FragmentsText(fs[1..]))
  }

  function FragmentsTokens(fs: seq<Entry<Fragment>>): Tokens {
    if fs == [] then [] else FragmentTokens(fs[0].value, FragmentsTokens(fs[1..]))
  }

  function OperationsText(ops: seq<Operation>, tail: string): string {
    if ops == [] then tail
    else OperationText(ops[0], if |ops| == 1 then tail else "\n\n" + OperationsText(ops[1..], tail))
  }

  function OperationsTokens(ops: seq<Operation>, tail: Tokens): Tokens {
    if ops == [] then tail else OperationTokens(ops[0], OperationsTokens(ops[1..], tail))
  }

  function DocumentText(d: Document): string { OperationsText(d.operations, FragmentsText(d.fragments)) }

  function DocumentTokens(d: Document): Tokens { OperationsTokens(d.operations, FragmentsTokens(d.fragments)) }
}
