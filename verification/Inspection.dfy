/** Whether a request is a read (`inspect_with_limit`): read the query, validate its fragments, select the operation and
    check the directives. */
module Inspection {
  import opened Outcome
  import opened Syntax
  import opened Fragments
  import opened Inlining
  import opened Requests
  import L = Lexer
  import Loops = ParserLoops
  import RoundTrip

  /** The operation a name selects: the first of that name, or the only one. */
  predicate Selects(ops: seq<Operation>, name: Option<string>, i: nat) {
    && i < |ops|
    && if name.Some? then ops[i].name == name && forall j :: 0 <= j < i ==> ops[j].name != name else |ops| == 1
  }

  /** The selected operation is a query, and every directive of its inlined form is supported. */
  ghost predicate ReadsAt(d: Document, name: Option<string>, i: nat, order: seq<string>) {
    var table := TableOf(d.fragments);
    && Selects(d.operations, name, i) && Topological(EdgesOf(table), order) && AllDefined(d.operations, table)
    && var op := d.operations[i];
    && op.kind == "query" && op.directives == []
    && (forall k :: 0 <= k < |op.variables| ==> op.variables[k].directives == [])
    && NodesSupported(Inlined(table, order, op.selections))
  }

  ghost predicate IsRead(req: Request) {
    var d := RoundTrip.ReadDocument(req.query);
    d.Ok? && exists i, order :: ReadsAt(d.value, req.operationName, i, order)
  }

  method Select(ops: seq<Operation>, name: Option<string>) returns (r: Option<nat>)
    ensures r.Some? ==> Selects(ops, name, r.value)
    ensures r.None? ==> forall i :: !Selects(ops, name, i)
  {
    if name.None? { return if |ops| == 1 then Some(0) else None; }
    for i := 0 to |ops|
      invariant forall j :: 0 <= j < i ==> ops[j].name != name
    {
      if ops[i].name == name { return Some(i); }
    }
    r := None;
  }

  /** What makes a query a read does not depend on the order in which its fragments were found acyclic. */
  lemma {:induction false} AnyOrder(d: Document, name: Option<string>, i: nat, j: nat, o1: seq<string>, o2: seq<string>)
    requires ReadsAt(d, name, i, o1) && Topological(EdgesOf(TableOf(d.fragments)), o2) && Selects(d.operations, name, j)
    ensures i == j && ReadsAt(d, name, j, o2)
  {
    var table, op := TableOf(d.fragments), d.operations[i];
    assert o1[..|o1|] == o1 && o2[..|o2|] == o2;
    assert i == j;
    InlineAllSame(table, o1, |o1|, o2, |o2|, op.selections);
  }

  /** A request classified as a read is one; a read that is not classified as one has a chain of 34 fragments. */
  method InspectRequest(req: Request) returns (read: bool)
    ensures read ==> IsRead(req)
    ensures IsRead(req) && !read ==>
      exists p :: IsPath(EdgesOf(TableOf(RoundTrip.ReadDocument(req.query).value.fragments)), p) && |p| == MAX_DEPTH + 2
  {
    hide NodesSupported, Inlined, Topological, IsCycle, IsPath;
    var tokens := L.LexLoop(req.query);
    if tokens.Err? { return false; }
    var cursor := new Loops.Cursor(tokens.value);
    var parsed := cursor.WholeDocument();
    if parsed.Err? { return false; }
    var d := parsed.value;
    assert RoundTrip.ReadDocument(req.query) == Ok(d);
    var table := TableOf(d.fragments);
    var checked, order := ValidateFragments(d.operations, table);
    if checked.Err? {
      forall i, o | ReadsAt(d, req.operationName, i, o)
        ensures checked.error == TooDeep
      {
        TopologicalIsAcyclic(EdgesOf(table), o);
      }
      return false;
    }
    var selected := Select(d.operations, req.operationName);
    if selected.None? { return false; }
    var op := d.operations[selected.value];
    var supported := QueryDirectivesSupported(op, table, order);
    read := op.kind == "query" && supported;
    forall i, o | ReadsAt(d, req.operationName, i, o) ensures read {
      AnyOrder(d, req.operationName, i, selected.value, o, order);
    }
    if read { assert ReadsAt(RoundTrip.ReadDocument(req.query).value, req.operationName, selected.value, order); }
  }
}
