/** The strict comment command (`comment_plan`, `CommentPlan::request_body`).
    JSON is already decoded: a request is its query text, operation name and variables. */
module CommentPlan {
  import opened Outcome
  import opened OrderedMap
  import opened Syntax
  import opened Printer
  import opened Parser
  import opened Compaction
  import opened Requests
  import L = Lexer
  import RoundTrip

  type Tokens = Parser.Tokens

  // ---------------------------------------------------------------- effective variables

  /** `Value::from_json`; None when the value is nested too deeply. */
  function FromJson(j: Json, depth: nat): (r: Option<Value>)
    decreases j
  {
    if depth > MAX_DEPTH then None
    else match j
      case JNull => Some(Null)
      case JBool(on) => Some(Boolean(on))
      case JString(text) => Some(Str(text))
      case JNumber(text, integer) => Some(if integer then Int(text) else Float(text))
      case JArray(items) =>
        var r := FromJsonAll(items, depth + 1);
        if r.None? then None else Some(List(r.value))
      case JObject(members) =>
        var r := FromJsonMembers(members, depth + 1);
        if r.None? then None else Some(Object(r.value))
  }

  function FromJsonAll(js: seq<Json>, depth: nat): (r: Option<seq<Value>>)
    decreases js
  {
    if js == [] then Some([])
    else
      var head, tail := FromJson(js[0], depth), FromJsonAll(js[1..], depth);
      if head.None? || tail.None? then None else Some([head.value] + tail.value)
  }

  function FromJsonMembers(es: seq<Entry<Json>>, depth: nat): (r: Option<seq<Entry<Value>>>)
    decreases es
  {
    if es == [] then Some([])
    else
      var head, tail := FromJson(es[0].value, depth), FromJsonMembers(es[1..], depth);
      if head.None? || tail.None? then None else Some([Entry(es[0].key, head.value)] + tail.value)
  }

  /** A variable's value: supplied, default or missing; None when it cannot be used. */
  function EffectiveValue(v: VariableDef, supplied: seq<Entry<Json>>): Option<Value> {
    var given := Find(supplied, v.name);
    var value :=
      if given.Some? then FromJson(given.value, 0)
      else if v.default.Some? then v.default
      else Some(MissingVariable(v.name));
    if value.Some? && v.typeRef.required && (value.value.MissingVariable? || value.value.Null?) then None else value
  }

  function EffectiveVariables(defs: seq<VariableDef>, supplied: seq<Entry<Json>>): (r: Option<Variables>) {
    if defs == [] then Some([])
    else
      var head, tail := EffectiveValue(defs[0], supplied), EffectiveVariables(defs[1..], supplied);
      if head.None? || tail.None? then None else Some([Entry(defs[0].name, head.value)] + tail.value)
  }

  // ---------------------------------------------------------------- the plan

  datatype Plan = Plan(subjectId: string, body: string, clientMutationId: Option<Json>, response: string)

  predicate TypeIs(t: TypeRef, name: string) { t.NamedType? && t.name == name }

  function FindVariable(defs: seq<VariableDef>, name: string): (r: Option<VariableDef>)
    ensures r.Some? ==> r.value.name == name && r.value in defs
  {
    if defs == [] then None else if defs[0].name == name then Some(defs[0]) else FindVariable(defs[1..], name)
  }

  /** A value, or the variable it names if that variable has the expected type. */
  function ResolveAs(v: Value, expected: string, defs: seq<VariableDef>, vars: Variables): Option<Value> {
    if v.Variable? then
      var def := FindVariable(defs, v.name);
      if def.None? || !TypeIs(def.value.typeRef, expected) then None else Find(vars, v.name)
    else Some(v)
  }

  function Uses(v: Option<Value>): set<string> {
    if v.Some? && v.value.Variable? then {v.value.name} else {}
  }

  predicate WhiteSpace(c: char) {
    var n := c as int;
    9 <= n <= 13 || n == 0x20 || n == 0x85 || n == 0xA0 || n == 0x1680 || 0x2000 <= n <= 0x200A
    || n == 0x2028 || n == 0x2029 || n == 0x202F || n == 0x205F || n == 0x3000
  }

  predicate BlankText(s: string) { forall i :: 0 <= i < |s| ==> WhiteSpace(s[i]) }

  predicate InputKey(key: string) { key == "subjectId" || key == "body" || key == "clientMutationId" }

  /** Where a response field leads: a nested level, a leaf, or nowhere. */
  datatype Level = Payload | Subject | Edge | Comment

  function NextLevel(parent: Level, name: string): Option<Option<Level>> {
    if parent == Payload && name == "subject" then Some(Some(Subject))
    else if parent == Payload && name == "commentEdge" then Some(Some(Edge))
    else if parent == Edge && name == "node" then Some(Some(Comment))
    else if name == "__typename"
         || (parent == Payload && name == "clientMutationId")
         || (parent == Subject && name == "id")
         || (parent == Comment && (name == "id" || name == "url" || name == "body")) then Some(None)
    else None
  }

  /** The allowed response selections: known fields, no arguments or directives, distinct response names. */
  predicate ResponseOk(ss: seq<Selection>, parent: Level)
    decreases ss, 1
  {
    ss != [] && ItemsOk(ss, parent, {})
  }

  predicate ItemsOk(ss: seq<Selection>, parent: Level, names: set<string>)
    decreases ss, 0
  {
    ss == [] ||
    (var s := ss[0];
      && s.Field? && s.arguments == [] && s.directives == []
      && var response := if s.alias.Some? then s.alias.value else s.name;
      && response !in names
      && var next := NextLevel(parent, s.name);
      && next.Some?
      && (if next.value.Some? then ResponseOk(s.selections, next.value.value) else s.selections == [])
      && ItemsOk(ss[1..], parent, names + {response}))
  }

  const INPUT_DEF: VariableDef := VariableDef("input", NamedType("AddCommentInput", true), None, [])

  const INPUT_ARGUMENTS: seq<Entry<Value>> := [Entry("input", Variable("input"))]

  /** `alias: addComment(input: $input) { … }`. */
  function ResponseText(alias: Option<string>, ss: seq<Selection>, tail: string): string {
    AliasText(alias, "addComment" + ArgumentsText(INPUT_ARGUMENTS, " " + SelectionsText(ss, 0, tail)))
  }

  /** The client mutation id, if given: a string or null. */
  function ClientId(v: Option<Value>, defs: seq<VariableDef>, vars: Variables): Option<Option<Json>> {
    if v.None? then Some(None)
    else
      var r := ResolveAs(v.value, "String", defs, vars);
      if r.None? then None
      else match r.value
        case Str(text) => Some(Some(JString(text)))
        case Null => Some(Some(JNull))
        case _ => None
  }

  /** The comment command that the fields of a resolved input object describe. */
  function PlanInput(fields: seq<Entry<Value>>, defs: seq<VariableDef>, vars: Variables, used: set<string>,
                     response: string): Option<Plan> {
    var subject, body := Find(fields, "subjectId"), Find(fields, "body");
    if (exists i :: 0 <= i < |fields| && !InputKey(fields[i].key)) || subject.None? || body.None? then None
    else PlanValues(subject.value, body.value, Find(fields, "clientMutationId"), defs, vars, used, response)
  }

  /** Every declared variable must be used by one of the values. */
  function PlanValues(subject: Value, body: Value, client: Option<Value>, defs: seq<VariableDef>, vars: Variables,
                      used: set<string>, response: string): Option<Plan> {
    var s, b := ResolveAs(subject, "ID", defs, vars), ResolveAs(body, "String", defs, vars);
    if s.None? || b.None? || !s.value.Str? || !b.value.Str? then None
    else if s.value.text == "" || Bytes(s.value.text) > 512 || BlankText(b.value.text) then None
    else
      var id := ClientId(client, defs, vars);
      if id.None? || |used + Uses(Some(subject)) + Uses(Some(body)) + Uses(client)| != |defs| then None
      else Some(Plan(s.value.text, b.value.text, id.value, response))
  }

  function PlanCall(given: Value, defs: seq<VariableDef>, vars: Variables, response: string): Option<Plan> {
    var input := ResolveAs(given, "AddCommentInput", defs, vars);
    if input.None? || !input.value.Object? then None
    else PlanInput(input.value.fields, defs, vars, Uses(Some(given)), response)
  }

  /** The single field of an operation that can be a comment command. */
  predicate CommentShape(d: Document) {
    && |d.operations| == 1 && d.fragments == []
    && var op := d.operations[0];
    && op.kind == "mutation" && op.directives == []
    && (forall i :: 0 <= i < |op.variables| ==> op.variables[i].directives == [])
    && |op.selections| == 1 && op.selections[0].Field?
    && var f := op.selections[0];
    && f.name == "addComment" && f.directives == [] && |f.arguments| == 1 && Find(f.arguments, "input").Some?
    && ResponseOk(f.selections, Payload)
  }

  /** `comment_plan`, after the request has been parsed and its operation selected. */
  function PlanDocument(d: Document, req: Request): Option<Plan> {
    if !CommentShape(d) then None
    else
      var op, f := d.operations[0], d.operations[0].selections[0];
      var vars := EffectiveVariables(op.variables, req.variables);
      if (req.operationName.Some? && op.name != req.operationName) || vars.None? then None
      else if exists i :: 0 <= i < |req.variables| && Find(vars.value, req.variables[i].key).None? then None
      else PlanCall(Find(f.arguments, "input").value, op.variables, vars.value, ResponseText(f.alias, f.selections, ""))
  }

  /** Reading a request and planning it. */
  function PlanRequest(req: Request): Option<Plan> {
    var d := RoundTrip.ReadDocument(req.query);
    if d.Err? then None else PlanDocument(d.value, req)
  }

  // ---------------------------------------------------------------- the rebuilt request

  function InputMembers<V>(body: V, clientId: Option<V>, subjectId: V): seq<Entry<V>> {
    [Entry("body", body)] + (if clientId.Some? then [Entry("clientMutationId", clientId.value)] else [])
    + [Entry("subjectId", subjectId)]
  }

  /** `mutation FriendzoneComment($input: AddCommentInput!) { … }`. */
  function QueryText(response: string): string {
    "mutation" + OptionalNameText(Some("FriendzoneComment"),
                                  VariablesText([INPUT_DEF], " " + ("{" + (" " + (response + " }")))))
  }

  /** `CommentPlan::request_body`. */
  function RequestBody(plan: Plan): Request {
    Request(QueryText(plan.response), Some("FriendzoneComment"),
            [Entry("input", JObject(InputMembers(JString(plan.body), plan.clientMutationId, JString(plan.subjectId))))])
  }

  // ---------------------------------------------------------------- meaning

  /** One root field call: what the upstream executes. */
  datatype Call = Call(kind: string, alias: Option<string>, field: string, arguments: seq<Entry<Value>>,
                       directives: seq<Directive>, selections: seq<Selection>)

  function CallsOf(kind: string, ss: seq<Selection>, vars: Variables): Option<seq<Call>> {
    if ss == [] then Some([])
    else if !ss[0].Field? then None
    else
      var args, rest := SubstituteFields(ss[0].arguments, vars), CallsOf(kind, ss[1..], vars);
      if args.None? || rest.None? then None
      else Some([Call(kind, ss[0].alias, ss[0].name, args.value, ss[0].directives, ss[0].selections)] + rest.value)
  }

  /** The calls of a request whose document has one operation and no fragments, by its text alone:
      the broker's token limit plays no part. */
  function Denotes(req: Request): Option<seq<Call>> {
    var ts := L.Tokens(req.query);
    if ts.Err? then None
    else
      var d := ParseDocument(ts.value);
      if d.Err? || |d.value.operations| != 1 || d.value.fragments != [] then None
      else
        var op := d.value.operations[0];
        var vars := EffectiveVariables(op.variables, req.variables);
        if vars.None? then None else CallsOf(op.kind, op.selections, vars.value)
  }
}
