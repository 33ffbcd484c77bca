/** A planned comment means what the guest's request means, and planning it again gives the same plan. */
module CommentMeaning {
  import opened Outcome
  import opened OrderedMap
  import opened Syntax
  import opened Printer
  import opened Parser
  import opened ParsedDocument
  import opened Compaction
  import opened Requests
  import opened CommentPlan
  import opened PrintedText
  import L = Lexer
  import RoundTrip
  import PrintedTokens
  import Analysis

  type Tokens = Parser.Tokens

  // ---------------------------------------------------------------- the rebuilt document

  function RebuiltOperation(alias: Option<string>, ss: seq<Selection>): Operation {
    Operation("mutation", Some("FriendzoneComment"), [INPUT_DEF], [],
              [Field("addComment", alias, INPUT_ARGUMENTS, [], ss)])
  }

  function RebuiltDocument(alias: Option<string>, ss: seq<Selection>): Document {
    Document([RebuiltOperation(alias, ss)], [])
  }

  lemma {:induction false} FixedPartsOk()
    ensures IsName("addComment") && IsName("input") && IsName("FriendzoneComment") && IsName("mutation")
    ensures VariablesOk([INPUT_DEF]) && forall depth :: 0 <= depth < MAX_DEPTH ==>
      EntriesOk(INPUT_ARGUMENTS, depth, false)
  {
    hide FloatMark, IsNumber;
    assert IsName("AddCommentInput") && VariableOk(INPUT_DEF);
    assert forall depth :: 0 <= depth < MAX_DEPTH ==> EntryOk(INPUT_ARGUMENTS[0], depth, false);
  }

  lemma {:induction false} RebuiltIsOk(alias: Option<string>, ss: seq<Selection>)
    requires NameOk(alias) && SelectionsOk(ss, 1)
    ensures DocumentOk(RebuiltDocument(alias, ss))
  {
    FixedPartsOk();
    assert SelectionOk(Field("addComment", alias, INPUT_ARGUMENTS, [], ss), 0);
    assert OperationOk(RebuiltOperation(alias, ss));
  }

  /** A response selection is well formed at any smaller depth too. */
  lemma {:induction false} ResponseShallower(ss: seq<Selection>, parent: Level, names: set<string>, depth: nat)
    requires ItemsOk(ss, parent, names) && forall i :: 0 <= i < |ss| ==> SelectionOk(ss[i], depth + 1)
    ensures forall i :: 0 <= i < |ss| ==> SelectionOk(ss[i], depth)
    decreases ss
  {
    if ss != [] {
      var s := ss[0];
      var response := if s.alias.Some? then s.alias.value else s.name;
      var next := NextLevel(parent, s.name);
      if next.value.Some? { ResponseShallower(s.selections, next.value.value, {}, depth + 1); }
      assert SelectionOk(s, depth + 1);
      assert EntriesOk([], depth, false) && DirectivesOk([], depth, false);
      assert SelectionOk(s, depth);
      ResponseShallower(ss[1..], parent, names + {response}, depth);
      assert forall i :: 0 < i < |ss| ==> ss[i] == ss[1..][i - 1];
    }
  }

  // Text printed in front of a tail is text printed in front of nothing, then the tail.

  lemma {:induction false} IndentedTail(n: nat, tail: string, more: string)
    ensures Indented(n, tail) + more == Indented(n, tail + more)
  {
    if n > 0 {
      IndentedTail(n - 1, tail, more);
      assert "  " + Indented(n - 1, tail) + more == "  " + (Indented(n - 1, tail) + more);
    }
  }

  lemma {:induction false} ResponseItemsTail(ss: seq<Selection>, parent: Level, names: set<string>, depth: nat,
                                             tail: string, more: string)
    requires ItemsOk(ss, parent, names)
    ensures ItemsText(ss, depth, tail) + more == ItemsText(ss, depth, tail + more)
    decreases ss, 0
  {
    if ss != [] {
      var s := ss[0];
      var response := if s.alias.Some? then s.alias.value else s.name;
      ResponseItemsTail(ss[1..], parent, names + {response}, depth, tail, more);
      var after := "\n" + ItemsText(ss[1..], depth, tail);
      assert after + more == "\n" + ItemsText(ss[1..], depth, tail + more);
      ResponseItemTail(ss, parent, names, depth, after, more);
      IndentedTail(depth + 1, SelectionText(s, depth, after), more);
    }
  }

  lemma {:induction false} ResponseItemTail(ss: seq<Selection>, parent: Level, names: set<string>, depth: nat,
                                            tail: string, more: string)
    requires ss != [] && ItemsOk(ss, parent, names)
    ensures SelectionText(ss[0], depth, tail) + more == SelectionText(ss[0], depth, tail + more)
    decreases ss[0], 2
  {
    var s := ss[0];
    var next := NextLevel(parent, s.name);
    if s.selections != [] {
      ResponseTail(s.selections, next.value.value, depth + 1, tail, more);
      var inner := SelectionsText(s.selections, depth + 1, tail);
      assert s.name + (" " + inner) + more == s.name + (" " + (inner + more));
      AliasTail(s.alias, s.name + (" " + inner), more);
    } else {
      assert s.name + tail + more == s.name + (tail + more);
      AliasTail(s.alias, s.name + tail, more);
    }
  }

  lemma {:induction false} AliasTail(alias: Option<string>, tail: string, more: string)
    ensures AliasText(alias, tail) + more == AliasText(alias, tail + more)
  {
    if alias.Some? { assert alias.value + (": " + tail) + more == alias.value + (": " + (tail + more)); }
  }

  lemma {:induction false} ResponseTail(ss: seq<Selection>, parent: Level, depth: nat, tail: string, more: string)
    requires ResponseOk(ss, parent)
    ensures SelectionsText(ss, depth, tail) + more == SelectionsText(ss, depth, tail + more)
    decreases ss, 1
  {
    IndentedTail(depth, "}" + tail, more);
    assert "}" + tail + more == "}" + (tail + more);
    ResponseItemsTail(ss, parent, {}, depth, Indented(depth, "}" + tail), more);
    var items := ItemsText(ss, depth, Indented(depth, "}" + tail));
    assert "{\n" + items + more == "{\n" + (items + more);
  }

  lemma {:induction false} Associate(a: string, b: string, c: string)
    ensures a + b + c == a + (b + c)
  {
  }

  lemma {:induction false} ResponseTextTail(alias: Option<string>, ss: seq<Selection>, more: string)
    requires ResponseOk(ss, Payload)
    ensures ResponseText(alias, ss, "") + more == ResponseText(alias, ss, more)
  {
    var body := SelectionsText(ss, 0, "");
    ResponseTail(ss, Payload, 0, "", more);
    Associate(" ", body, more);
    assert "" + more == more;
    CallTail(" " + body, more);
    AliasTail(alias, "addComment" + ArgumentsText(INPUT_ARGUMENTS, " " + body), more);
  }

  lemma {:induction false} CallTail(tail: string, more: string)
    ensures "addComment" + ArgumentsText(INPUT_ARGUMENTS, tail) + more
            == "addComment" + ArgumentsText(INPUT_ARGUMENTS, tail + more)
  {
    Associate("addComment", ArgumentsText(INPUT_ARGUMENTS, tail), more);
    InputArgumentsText(tail);
    InputArgumentsText(tail + more);
    Associate("(", "input" + (": " + ("$" + ("input" + (")" + tail)))), more);
    Associate("input", ": " + ("$" + ("input" + (")" + tail))), more);
    Associate(": ", "$" + ("input" + (")" + tail)), more);
    Associate("$", "input" + (")" + tail), more);
    Associate("input", ")" + tail, more);
    Associate(")", tail, more);
  }

  lemma {:induction false} InputArgumentsText(tail: string)
    ensures ArgumentsText(INPUT_ARGUMENTS, tail) == "(" + ("input" + (": " + ("$" + ("input" + (")" + tail)))))
  {
    var rest := ")" + tail;
    assert INPUT_ARGUMENTS[0] == Entry("input", Variable("input"));
    assert ValueText(Variable("input"), rest) == "$" + ("input" + rest);
    assert EntriesText(INPUT_ARGUMENTS, rest) == "input" + (": " + ValueText(Variable("input"), rest));
  }

  lemma {:induction false} CloseLexes()
    ensures Lexes(" }", [L.Punct('}')])
  {
    LexPunct('}', "", []);
    assert "}" == ['}'] + "" && [L.Punct('}')] == [L.Punct('}')] + [];
    LexSpace("}", [L.Punct('}')]);
    assert " }" == " " + "}";
  }

  lemma {:induction false} ResponseLexes(alias: Option<string>, ss: seq<Selection>, tail: string, ts: Tokens)
    requires NameOk(alias) && (forall i :: 0 <= i < |ss| ==> SelectionOk(ss[i], 0)) && ss != [] && Lexes(tail, ts)
    ensures Lexes(ResponseText(alias, ss, tail), SelectionTokens(Field("addComment", alias, INPUT_ARGUMENTS, [], ss),
                                                                 ts))
  {
    FixedPartsOk();
    LexSelections(ss, 0, tail, ts);
    var body, bodyTokens := " " + SelectionsText(ss, 0, tail), SelectionsTokens(ss, ts);
    LexSpace(SelectionsText(ss, 0, tail), bodyTokens);
    LexFieldHead("addComment", alias, INPUT_ARGUMENTS, [], 0, body, bodyTokens);
    assert DirectivesText([], body) == body && DirectivesTokens([], bodyTokens) == bodyTokens;
  }

  lemma {:induction false} QueryLexes(response: string, ts: Tokens)
    requires Lexes(response + " }", ts)
    ensures Lexes(QueryText(response), [L.Name("mutation")] + OptionalNameTokens(Some("FriendzoneComment"),
                    VariablesTokens([INPUT_DEF], [L.Punct('{')] + ts)))
  {
    HeadLexes(response + " }", ts);
  }

  lemma {:induction false} ResponseThen(alias: Option<string>, ss: seq<Selection>, close: string, ts: Tokens)
    requires NameOk(alias) && SelectionsOk(ss, 1) && ResponseOk(ss, Payload) && Lexes(close, ts)
    ensures Lexes(ResponseText(alias, ss, "") + close, SelectionTokens(Field("addComment", alias, INPUT_ARGUMENTS, [],
                                                                             ss), ts))
  {
    ResponseTextTail(alias, ss, close);
    ResponseAtTop(alias, ss, close, ts);
  }

  lemma {:induction false} ResponseAtTop(alias: Option<string>, ss: seq<Selection>, tail: string, ts: Tokens)
    requires NameOk(alias) && SelectionsOk(ss, 1) && ResponseOk(ss, Payload) && Lexes(tail, ts)
    ensures Lexes(ResponseText(alias, ss, tail), SelectionTokens(Field("addComment", alias, INPUT_ARGUMENTS, [], ss),
                                                                 ts))
  {
    ResponseShallower(ss, Payload, {}, 0);
    ResponseLexes(alias, ss, tail, ts);
  }

  lemma {:induction false} RebuiltLexes(alias: Option<string>, ss: seq<Selection>)
    requires NameOk(alias) && SelectionsOk(ss, 1) && ResponseOk(ss, Payload)
    ensures Lexes(QueryText(ResponseText(alias, ss, "")), DocumentTokens(RebuiltDocument(alias, ss)))
  {
    CloseLexes();
    ResponseThen(alias, ss, " }", [L.Punct('}')]);
    QueryLexes(ResponseText(alias, ss, ""), SelectionTokens(Field("addComment", alias, INPUT_ARGUMENTS, [], ss),
                                                            [L.Punct('}')]));
    RebuiltTokens(alias, ss);
  }

  lemma {:induction false} HeadLexes(text: string, ts: Tokens)
    requires Lexes(text, ts)
    ensures Lexes("mutation" + OptionalNameText(Some("FriendzoneComment"),
                                                VariablesText([INPUT_DEF], " " + ("{" + (" " + text)))),
                  [L.Name("mutation")] + OptionalNameTokens(Some("FriendzoneComment"), VariablesTokens([INPUT_DEF],
                    [L.Punct('{')] + ts)))
  {
    FixedPartsOk();
    LexSpace(text, ts);
    LexSpaced('{', " " + text, ts);
    var head, rest := " " + ("{" + (" " + text)), [L.Punct('{')] + ts;
    LexVariables([INPUT_DEF], head, rest);
    LexOptionalName(Some("FriendzoneComment"), VariablesText([INPUT_DEF], head), VariablesTokens([INPUT_DEF], rest));
    LexName("mutation", OptionalNameText(Some("FriendzoneComment"), VariablesText([INPUT_DEF], head)),
            OptionalNameTokens(Some("FriendzoneComment"), VariablesTokens([INPUT_DEF], rest)));
  }

  lemma {:induction false} RebuiltTokens(alias: Option<string>, ss: seq<Selection>)
    ensures var field := Field("addComment", alias, INPUT_ARGUMENTS, [], ss);
      DocumentTokens(RebuiltDocument(alias, ss))
      == [L.Name("mutation")] + OptionalNameTokens(Some("FriendzoneComment"), VariablesTokens([INPUT_DEF],
           [L.Punct('{')] + SelectionTokens(field, [L.Punct('}')])))
  {
    var op := RebuiltOperation(alias, ss);
    assert FragmentsTokens([]) == [] && OperationsTokens([op], []) == OperationTokens(op, []);
    assert [L.Punct('}')] + [] == [L.Punct('}')];
    assert ItemsTokens(op.selections, [L.Punct('}')]) == SelectionTokens(op.selections[0], [L.Punct('}')]);
  }

  /** How many tokens the rebuilt query has. */
  function RebuiltSize(alias: Option<string>, ss: seq<Selection>): nat { 20 + NameSize(alias, 2) + ItemsSize(ss) }

  lemma {:induction false} RebuiltSizeIs(alias: Option<string>, ss: seq<Selection>)
    requires ss != []
    ensures DocumentSize(RebuiltDocument(alias, ss)) == RebuiltSize(alias, ss)
  {
    var op := RebuiltOperation(alias, ss);
    assert EntriesSize(INPUT_ARGUMENTS) == 4;
    assert ItemsSize(op.selections) == SelectionSize(op.selections[0]);
    assert VariableListSize([INPUT_DEF]) == VariableSize(INPUT_DEF);
    assert OperationsSize([op]) == OperationSize(op);
  }

  // ---------------------------------------------------------------- effective variables

  lemma {:induction false} FromJsonIsPlain(j: Json, depth: nat)
    requires FromJson(j, depth).Some?
    ensures Plain(FromJson(j, depth).value)
    ensures JsonOk(j) && FromJson(j, depth).value.Object? ==> Sorted(FromJson(j, depth).value.fields)
    decreases j
  {
    match j
    case JArray(items) => FromJsonAllIsPlain(items, depth + 1);
    case JObject(members) => FromJsonMembersIsPlain(members, depth + 1);
    case _ =>
  }

  lemma {:induction false} FromJsonAllIsPlain(js: seq<Json>, depth: nat)
    requires FromJsonAll(js, depth).Some?
    ensures forall i :: 0 <= i < |FromJsonAll(js, depth).value| ==> Plain(FromJsonAll(js, depth).value[i])
    decreases js
  {
    if js != [] {
      FromJsonIsPlain(js[0], depth);
      FromJsonAllIsPlain(js[1..], depth);
    }
  }

  lemma {:induction false} FromJsonMembersIsPlain(es: seq<Entry<Json>>, depth: nat)
    requires FromJsonMembers(es, depth).Some?
    ensures var r := FromJsonMembers(es, depth).value;
      && |r| == |es| && (forall i :: 0 <= i < |es| ==> r[i].key == es[i].key && Plain(r[i].value))
    decreases es
  {
    if es != [] {
      FromJsonIsPlain(es[0].value, depth);
      FromJsonMembersIsPlain(es[1..], depth);
    }
  }

  /** Every effective variable is free of references, and an object among them is an ordered map. */
  lemma {:induction false} EffectiveVariablesArePlain(defs: seq<VariableDef>, req: Request)
    requires RequestOk(req) && (forall i :: 0 <= i < |defs| ==> VariableOk(defs[i]))
    requires EffectiveVariables(defs, req.variables).Some?
    ensures var vars := EffectiveVariables(defs, req.variables).value;
      AllPlain(vars) && forall i :: 0 <= i < |vars| && vars[i].value.Object? ==> Sorted(vars[i].value.fields)
    decreases defs
  {
    if defs != [] {
      EffectiveVariablesArePlain(defs[1..], req);
      var given := Find(req.variables, defs[0].name);
      if given.Some? {
        FromJsonIsPlain(given.value, 0);
      } else if defs[0].default.Some? {
        Analysis.ParsedValueIsClean(defs[0].default.value, 0, true);
      }
    }
  }

  // ---------------------------------------------------------------- the guest's call

  /** The canonical form of an input object with only the allowed keys. */
  lemma {:induction false} InputIsCanonical(fields: seq<Entry<Value>>)
    requires Sorted(fields) && forall i :: 0 <= i < |fields| ==> InputKey(fields[i].key)
    requires Find(fields, "subjectId").Some? && Find(fields, "body").Some?
    ensures fields == InputMembers(Find(fields, "body").value, Find(fields, "clientMutationId"),
                                   Find(fields, "subjectId").value)
  {
    var b, c, s := Find(fields, "body"), Find(fields, "clientMutationId"), Find(fields, "subjectId");
    var canon := InputMembers(b.value, c, s.value);
    InputMembersSorted(b.value, c, s.value);
    forall x ensures x in fields <==> x in canon {
      if x in fields {
        var i :| 0 <= i < |fields| && fields[i] == x;
        InputEntry(fields, i);
      }
      if x in canon { InputFound(fields, x); }
    }
    SortedUnique(fields, canon);
  }

  lemma {:induction false} InputFound(fields: seq<Entry<Value>>, x: Entry<Value>)
    requires Find(fields, "subjectId").Some? && Find(fields, "body").Some?
    requires x in InputMembers(Find(fields, "body").value, Find(fields, "clientMutationId"),
                               Find(fields, "subjectId").value)
    ensures x in fields
  {
  }

  lemma {:induction false} InputEntry(fields: seq<Entry<Value>>, i: nat)
    requires Sorted(fields) && i < |fields| && InputKey(fields[i].key)
    requires Find(fields, "subjectId").Some? && Find(fields, "body").Some?
    ensures fields[i] in InputMembers(Find(fields, "body").value, Find(fields, "clientMutationId"),
                                      Find(fields, "subjectId").value)
  {
    FindUnique(fields, i);
    assert fields[i].key == "body" || fields[i].key == "clientMutationId" || fields[i].key == "subjectId";
  }

  lemma {:induction false} InputMembersSorted<V>(b: V, c: Option<V>, s: V)
    ensures Sorted(InputMembers(b, c, s))
  {
    assert Less("body", "clientMutationId") && Less("body", "subjectId") && Less("clientMutationId", "subjectId");
  }

  lemma {:induction false} FindUnique<V>(m: seq<Entry<V>>, i: nat)
    requires Sorted(m) && i < |m|
    ensures Find(m, m[i].key) == Some(m[i].value)
  {
    var r := Find(m, m[i].key);
    var j :| 0 <= j < |m| && m[j] == Entry(m[i].key, r.value);
    LessTotal(m[i].key, m[j].key);
  }

  function ClientValue(j: Option<Json>): Option<Value> {
    match j
    case Some(JString(text)) => Some(Str(text))
    case Some(_) => Some(Null)
    case None => None
  }

  /** What every plan satisfies. */
  predicate PlanOk(plan: Plan) {
    && plan.subjectId != "" && Bytes(plan.subjectId) <= 512 && !BlankText(plan.body)
    && (plan.clientMutationId.Some? ==> plan.clientMutationId.value.JString? || plan.clientMutationId.value.JNull?)
  }

  function PlannedInput(plan: Plan): Value {
    Object(InputMembers(Str(plan.body), ClientValue(plan.clientMutationId), Str(plan.subjectId)))
  }

  lemma {:induction false} ResolvedIsSubstituted(v: Value, expected: string, defs: seq<VariableDef>, vars: Variables)
    requires ResolveAs(v, expected, defs, vars).Some?
    requires var r := ResolveAs(v, expected, defs, vars).value; r.Str? || r.Null?
    ensures Substitute(v, vars) == ResolveAs(v, expected, defs, vars)
  {
  }

  lemma {:induction false} SubstituteEntry(e: Entry<Value>, rest: seq<Entry<Value>>, vars: Variables, v: Value,
                                           rest': seq<Entry<Value>>)
    requires Substitute(e.value, vars) == Some(v) && SubstituteFields(rest, vars) == Some(rest')
    ensures SubstituteFields([e] + rest, vars) == Some([Entry(e.key, v)] + rest')
  {
    assert ([e] + rest)[1..] == rest;
  }

  lemma {:induction false} SubstituteMembers(b: Value, c: Option<Value>, s: Value, vars: Variables, b': Value,
                                             c': Option<Value>, s': Value)
    requires Substitute(b, vars) == Some(b') && Substitute(s, vars) == Some(s') && (c.Some? <==> c'.Some?)
    requires c.Some? ==> Substitute(c.value, vars) == c'
    ensures SubstituteFields(InputMembers(b, c, s), vars) == Some(InputMembers(b', c', s'))
  {
    var last, last' := [Entry("subjectId", s)], [Entry("subjectId", s')];
    SubstituteEntry(last[0], [], vars, s', []);
    assert last + [] == last && last' + [] == last';
    if c.Some? {
      var two, two' := [Entry("clientMutationId", c.value)] + last, [Entry("clientMutationId", c'.value)] + last';
      SubstituteEntry(two[0], last, vars, c'.value, last');
      SubstituteEntry(Entry("body", b), two, vars, b', two');
      assert InputMembers(b, c, s) == [Entry("body", b)] + two
        && InputMembers(b', c', s') == [Entry("body", b')] + two';
    } else {
      SubstituteEntry(Entry("body", b), last, vars, b', last');
      assert InputMembers(b, c, s) == [Entry("body", b)] + last
        && InputMembers(b', c', s') == [Entry("body", b')] + last';
    }
  }

  lemma {:induction false} PlannedValues(subject: Value, body: Value, client: Option<Value>, defs: seq<VariableDef>,
                                         vars: Variables, used: set<string>, response: string)
    requires PlanValues(subject, body, client, defs, vars, used, response).Some?
    ensures var plan := PlanValues(subject, body, client, defs, vars, used, response).value;
      && PlanOk(plan) && plan.response == response
      && Substitute(subject, vars) == Some(Str(plan.subjectId)) && Substitute(body, vars) == Some(Str(plan.body))
      && (client.Some? <==> plan.clientMutationId.Some?)
      && (client.Some? ==> Substitute(client.value, vars) == ClientValue(plan.clientMutationId))
  {
    ResolvedIsSubstituted(subject, "ID", defs, vars);
    ResolvedIsSubstituted(body, "String", defs, vars);
    if client.Some? { ResolvedIsSubstituted(client.value, "String", defs, vars); }
  }

  /** A planned input object substitutes to the planned values. */
  lemma {:induction false} PlannedFields(fields: seq<Entry<Value>>, defs: seq<VariableDef>, vars: Variables,
                                         used: set<string>, response: string)
    requires Sorted(fields) && PlanInput(fields, defs, vars, used, response).Some?
    ensures var plan := PlanInput(fields, defs, vars, used, response).value;
      PlanOk(plan) && plan.response == response && Substitute(Object(fields), vars) == Some(PlannedInput(plan))
  {
    var plan := PlanInput(fields, defs, vars, used, response).value;
    var b, c, s := Find(fields, "body"), Find(fields, "clientMutationId"), Find(fields, "subjectId");
    InputIsCanonical(fields);
    PlannedMembers(s.value, b.value, c, defs, vars, used, response);
  }

  lemma {:induction false} PlannedMembers(s: Value, b: Value, c: Option<Value>, defs: seq<VariableDef>, vars: Variables,
                                          used: set<string>, response: string)
    requires PlanValues(s, b, c, defs, vars, used, response).Some?
    ensures var plan := PlanValues(s, b, c, defs, vars, used, response).value;
      && PlanOk(plan) && plan.response == response
      && Substitute(Object(InputMembers(b, c, s)), vars) == Some(PlannedInput(plan))
  {
    var plan := PlanValues(s, b, c, defs, vars, used, response).value;
    PlannedValues(s, b, c, defs, vars, used, response);
    SubstituteMembers(b, c, s, vars, Str(plan.body), ClientValue(plan.clientMutationId), Str(plan.subjectId));
  }

  /** The call that a plan stands for. */
  function PlannedCall(plan: Plan, alias: Option<string>, ss: seq<Selection>): Call {
    Call("mutation", alias, "addComment", [Entry("input", PlannedInput(plan))], [], ss)
  }

  lemma {:induction false} OneCall(alias: Option<string>, v: Value, ss: seq<Selection>, vars: Variables, plan: Plan)
    requires Substitute(v, vars) == Some(PlannedInput(plan))
    ensures CallsOf("mutation", [Field("addComment", alias, [Entry("input", v)], [], ss)], vars)
         == Some([PlannedCall(plan, alias, ss)])
  {
    var input := Entry("input", v);
    SubstituteEntry(input, [], vars, PlannedInput(plan), []);
    assert [input] + [] == [input] && [Entry("input", PlannedInput(plan))] + [] == [Entry("input", PlannedInput(plan))];
    var ss' := [Field("addComment", alias, [input], [], ss)];
    assert ss'[1..] == [] && CallsOf("mutation", [], vars) == Some([]);
    assert [PlannedCall(plan, alias, ss)] + [] == [PlannedCall(plan, alias, ss)];
  }

  /** What the shape of a comment command says about the parsed document. */
  lemma {:induction false} GuestShape(d: Document)
    requires DocumentOk(d) && CommentShape(d)
    ensures var op := d.operations[0];
      var f := op.selections[0];
      && (forall i :: 0 <= i < |op.variables| ==> VariableOk(op.variables[i]))
      && NameOk(f.alias) && SelectionsOk(f.selections, 1)
      && var given := Find(f.arguments, "input").value;
      && ValueOk(given, 1, false) && f == Field("addComment", f.alias, [Entry("input", given)], [], f.selections)
      && op.selections == [f]
  {
    var op := d.operations[0];
    var f := op.selections[0];
    assert OperationOk(op) && SelectionOk(f, 0);
    assert EntryOk(f.arguments[0], 0, false);
    assert f.arguments == [Entry("input", Find(f.arguments, "input").value)];
  }

  /** A resolved input object is an ordered map, and substitution leaves what came from a variable alone. */
  lemma {:induction false} ResolvedInput(given: Value, defs: seq<VariableDef>, req: Request)
    requires RequestOk(req) && ValueOk(given, 1, false) && forall i :: 0 <= i < |defs| ==> VariableOk(defs[i])
    requires EffectiveVariables(defs, req.variables).Some?
    ensures var vars := EffectiveVariables(defs, req.variables).value;
      var input := ResolveAs(given, "AddCommentInput", defs, vars);
      input.Some? && input.value.Object? ==>
        Sorted(input.value.fields) && Substitute(given, vars) == Substitute(input.value, vars)
  {
    EffectiveVariablesArePlain(defs, req);
    var vars := EffectiveVariables(defs, req.variables).value;
    var input := ResolveAs(given, "AddCommentInput", defs, vars);
    if given.Variable? && input.Some? {
      PlainIsFree(input.value);
      SubstituteFree(input.value, vars);
    }
  }

  /** The guest's input argument substitutes to the planned input. */
  lemma {:induction false} GuestInput(d: Document, req: Request)
    requires DocumentOk(d) && RequestOk(req) && PlanDocument(d, req).Some?
    ensures var plan, op := PlanDocument(d, req).value, d.operations[0];
      var f, vars := op.selections[0], EffectiveVariables(op.variables, req.variables).value;
      && PlanOk(plan) && plan.response == ResponseText(f.alias, f.selections, "")
      && Substitute(Find(f.arguments, "input").value, vars) == Some(PlannedInput(plan))
  {
    var plan, op := PlanDocument(d, req).value, d.operations[0];
    var f, vars := op.selections[0], EffectiveVariables(op.variables, req.variables).value;
    GuestShape(d);
    var given := Find(f.arguments, "input").value;
    ResolvedInput(given, op.variables, req);
    var fields := ResolveAs(given, "AddCommentInput", op.variables, vars).value.fields;
    PlannedFields(fields, op.variables, vars, Uses(Some(given)), plan.response);
  }

  /** A planned document calls addComment with exactly the planned input. */
  lemma {:induction false} GuestCall(d: Document, req: Request)
    requires DocumentOk(d) && RequestOk(req) && PlanDocument(d, req).Some?
    ensures var plan, op := PlanDocument(d, req).value, d.operations[0];
      var f, vars := op.selections[0], EffectiveVariables(op.variables, req.variables).value;
      && PlanOk(plan) && plan.response == ResponseText(f.alias, f.selections, "")
      && CallsOf("mutation", op.selections, vars) == Some([PlannedCall(plan, f.alias, f.selections)])
  {
    var plan, op := PlanDocument(d, req).value, d.operations[0];
    var f, vars := op.selections[0], EffectiveVariables(op.variables, req.variables).value;
    GuestShape(d);
    GuestInput(d, req);
    OneCall(f.alias, Find(f.arguments, "input").value, f.selections, vars, plan);
  }

  // ---------------------------------------------------------------- the rebuilt call

  lemma {:induction false} FromJsonEntry(e: Entry<Json>, rest: seq<Entry<Json>>, v: Value, rest': seq<Entry<Value>>)
    requires FromJson(e.value, 1) == Some(v) && FromJsonMembers(rest, 1) == Some(rest')
    ensures FromJsonMembers([e] + rest, 1) == Some([Entry(e.key, v)] + rest')
  {
    assert ([e] + rest)[1..] == rest;
  }

  lemma {:induction false} FromJsonInput(plan: Plan)
    requires PlanOk(plan)
    ensures FromJson(JObject(InputMembers(JString(plan.body), plan.clientMutationId, JString(plan.subjectId))), 0)
         == Some(PlannedInput(plan))
  {
    var b, c, s := JString(plan.body), plan.clientMutationId, JString(plan.subjectId);
    var b', c', s' := Str(plan.body), ClientValue(c), Str(plan.subjectId);
    var last, last' := [Entry("subjectId", s)], [Entry("subjectId", s')];
    FromJsonEntry(last[0], [], s', []);
    assert last + [] == last && last' + [] == last';
    if c.Some? {
      var two, two' := [Entry("clientMutationId", c.value)] + last, [Entry("clientMutationId", c'.value)] + last';
      FromJsonEntry(two[0], last, c'.value, last');
      FromJsonEntry(Entry("body", b), two, b', two');
      assert InputMembers(b, c, s) == [Entry("body", b)] + two
        && InputMembers(b', c', s') == [Entry("body", b')] + two';
    } else {
      FromJsonEntry(Entry("body", b), last, b', last');
      assert InputMembers(b, c, s) == [Entry("body", b)] + last
        && InputMembers(b', c', s') == [Entry("body", b')] + last';
    }
  }

  lemma {:induction false} RebuiltVariables(plan: Plan)
    requires PlanOk(plan)
    ensures EffectiveVariables([INPUT_DEF], RequestBody(plan).variables) == Some([Entry("input", PlannedInput(plan))])
  {
    FromJsonInput(plan);
    var supplied := RequestBody(plan).variables;
    assert Find(supplied, "input") == Some(supplied[0].value);
    assert EffectiveValue(INPUT_DEF, supplied) == Some(PlannedInput(plan));
    var defs := [INPUT_DEF];
    assert defs[1..] == [] && EffectiveVariables([], supplied) == Some([]);
    assert [Entry("input", PlannedInput(plan))] + [] == [Entry("input", PlannedInput(plan))];
  }

  lemma {:induction false} RebuiltCall(plan: Plan, alias: Option<string>, ss: seq<Selection>)
    ensures CallsOf("mutation", RebuiltOperation(alias, ss).selections, [Entry("input", PlannedInput(plan))])
         == Some([PlannedCall(plan, alias, ss)])
  {
    var vars := [Entry("input", PlannedInput(plan))];
    assert Find(vars, "input") == Some(vars[0].value);
    OneCall(alias, Variable("input"), ss, vars, plan);
  }

  /** The plan's own values resolve to themselves, and the one variable is used. */
  lemma {:induction false} ReplanValues(plan: Plan, vars: Variables)
    requires PlanOk(plan)
    ensures PlanValues(Str(plan.subjectId), Str(plan.body), ClientValue(plan.clientMutationId), [INPUT_DEF], vars,
                       {"input"}, plan.response) == Some(plan)
  {
    var client := ClientValue(plan.clientMutationId);
    assert ClientId(client, [INPUT_DEF], vars) == Some(plan.clientMutationId);
    assert {"input"} + Uses(Some(Str(plan.subjectId))) + Uses(Some(Str(plan.body))) + Uses(client) == {"input"};
  }

  lemma {:induction false} FindMembers<V>(b: V, c: Option<V>, s: V)
    ensures var m := InputMembers(b, c, s);
      && Find(m, "body") == Some(b) && Find(m, "clientMutationId") == c && Find(m, "subjectId") == Some(s)
      && forall i :: 0 <= i < |m| ==> InputKey(m[i].key)
  {
    var m := InputMembers(b, c, s);
    assert "body" != "clientMutationId" && "body" != "subjectId" && "clientMutationId" != "subjectId" by {
      assert |"body"| == 4 && |"clientMutationId"| == 16 && |"subjectId"| == 9;
    }
    assert m[0] == Entry("body", b) && m[|m| - 1] == Entry("subjectId", s);
    assert c.Some? ==> m[1] == Entry("clientMutationId", c.value);
  }

  lemma {:induction false} ReplanInput(plan: Plan, vars: Variables)
    requires PlanOk(plan)
    ensures PlanInput(PlannedInput(plan).fields, [INPUT_DEF], vars, {"input"}, plan.response) == Some(plan)
  {
    FindMembers(Str(plan.body), ClientValue(plan.clientMutationId), Str(plan.subjectId));
    ReplanValues(plan, vars);
  }

  lemma {:induction false} RebuiltShape(alias: Option<string>, ss: seq<Selection>)
    requires ResponseOk(ss, Payload)
    ensures CommentShape(RebuiltDocument(alias, ss)) && Find(INPUT_ARGUMENTS, "input") == Some(Variable("input"))
  {
    assert INPUT_ARGUMENTS[0] == Entry("input", Variable("input"));
  }

  lemma {:induction false} ReplanCall(plan: Plan)
    requires PlanOk(plan)
    ensures PlanCall(Variable("input"), [INPUT_DEF], [Entry("input", PlannedInput(plan))], plan.response) == Some(plan)
  {
    var vars := [Entry("input", PlannedInput(plan))];
    assert Find(vars, "input") == Some(vars[0].value);
    assert FindVariable([INPUT_DEF], "input") == Some(INPUT_DEF);
    ReplanInput(plan, vars);
  }

  lemma {:induction false} ReplanDocument(plan: Plan, alias: Option<string>, ss: seq<Selection>)
    requires PlanOk(plan) && ResponseOk(ss, Payload) && plan.response == ResponseText(alias, ss, "")
    ensures PlanDocument(RebuiltDocument(alias, ss), RequestBody(plan)) == Some(plan)
  {
    RebuiltShape(alias, ss);
    RebuiltVariables(plan);
    ReplanCall(plan);
    var vars := [Entry("input", PlannedInput(plan))];
    assert vars[0].key == "input" && Find(vars, "input").Some?;
  }

  // ---------------------------------------------------------------- the main results

  lemma {:induction false} RebuiltParses(alias: Option<string>, ss: seq<Selection>)
    requires NameOk(alias) && SelectionsOk(ss, 1) && ResponseOk(ss, Payload)
    ensures var query := QueryText(ResponseText(alias, ss, ""));
      && L.Tokens(query).Ok? && |L.Tokens(query).value| == RebuiltSize(alias, ss)
      && ParseDocument(L.Tokens(query).value) == Ok(RebuiltDocument(alias, ss))
  {
    var d := RebuiltDocument(alias, ss);
    RebuiltLexes(alias, ss);
    RebuiltIsOk(alias, ss);
    RebuiltSizeIs(alias, ss);
    DocumentCount(d);
    PrintedTokens.ParseDocumentTokens(d);
  }

  /** Whatever is planned, the rebuilt request makes the guest's call: the same alias, the same input
      and the same response selection. */
  lemma {:induction false} SameMeaning(req: Request)
    requires RequestOk(req) && PlanRequest(req).Some?
    ensures var plan := PlanRequest(req).value;
      var f := RoundTrip.ReadDocument(req.query).value.operations[0].selections[0];
      Denotes(req) == Some([PlannedCall(plan, f.alias, f.selections)]) && Denotes(RequestBody(plan)) == Denotes(req)
  {
    hide ParseDefinition;
    var plan, d := PlanRequest(req).value, RoundTrip.ReadDocument(req.query).value;
    var f := d.operations[0].selections[0];
    RoundTrip.AcceptedIsOk(req.query);
    L.LexIsLimitedTokens(req.query, 0);
    GuestShape(d);
    GuestCall(d, req);
    RebuiltParses(f.alias, f.selections);
    RebuiltVariables(plan);
    RebuiltCall(plan, f.alias, f.selections);
  }

  /** The rebuilt request is planned to the same plan, if it is not longer than the lexer allows. */
  lemma {:induction false} ReplanShort(req: Request)
    requires RequestOk(req) && PlanRequest(req).Some?
    requires var f := RoundTrip.ReadDocument(req.query).value.operations[0].selections[0];
      RebuiltSize(f.alias, f.selections) <= L.MAX_TOKENS
    ensures var f := RoundTrip.ReadDocument(req.query).value.operations[0].selections[0];
      var rebuilt := RequestBody(PlanRequest(req).value);
      && RoundTrip.ReadDocument(rebuilt.query) == Ok(RebuiltDocument(f.alias, f.selections))
      && PlanRequest(rebuilt) == PlanRequest(req)
  {
    hide VariableText;
    var plan, d := PlanRequest(req).value, RoundTrip.ReadDocument(req.query).value;
    var f := d.operations[0].selections[0];
    RoundTrip.AcceptedIsOk(req.query);
    GuestShape(d);
    GuestInput(d, req);
    RebuiltParses(f.alias, f.selections);
    L.LexIsLimitedTokens(RequestBody(plan).query, 0);
    ReplanDocument(plan, f.alias, f.selections);
  }
}
