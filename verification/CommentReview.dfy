/** A comment command is exposed only for a request whose expansion is within the review limits. For every such request
    the rebuilt one is planned to the same plan, and it is within the limits itself exactly when its bytes fit. */
module CommentReview {
  import opened Outcome
  import opened OrderedMap
  import opened Syntax
  import opened Printer
  import opened Fragments
  import opened Inlining
  import opened ParsedDocument
  import opened Compaction
  import opened Listings
  import opened Budget
  import opened Analysis
  import opened Requests
  import opened CommentPlan
  import opened CommentMeaning
  import L = Lexer
  import RoundTrip

  /** How a mutation is displayed: the digest of large strings and the byte sizes. */
  datatype Display = Display(digest: Digest, conditionBytes: Condition -> nat,
                             viewBytes: (seq<FieldView>, FieldView) -> nat)

  function MeterFor(vars: Variables, show: Display): Meter {
    Meter(vars, show.digest, show.conditionBytes, show.viewBytes)
  }

  // ---------------------------------------------------------------- response selections as nodes

  lemma {:induction false} NoFragments()
    ensures Topological(EdgesOf(map[]), [])
  {
    var edges := EdgesOf(map[]);
    assert edges == map[];
  }

  lemma {:induction false} ResponseSpreadsNothing(ss: seq<Selection>, parent: Level, names: set<string>)
    requires ItemsOk(ss, parent, names)
    ensures SpreadNames(ss) == {}
    decreases ss
  {
    if ss != [] {
      var s := ss[0];
      var next := NextLevel(parent, s.name);
      if next.value.Some? {
        ResponseSpreadsNothing(s.selections, next.value.value, {});
      } else {
        assert SpreadNames([]) == {};
      }
      assert NamesIn(s) == {};
      ResponseSpreadsNothing(ss[1..], parent, names + {ResponseName(s.name, s.alias)});
    }
  }

  lemma {:induction false} CommentSpreadsNothing(d: Document)
    requires CommentShape(d)
    ensures SpreadNames(d.operations[0].selections) == {} && SpreadNames(d.operations[0].selections[0].selections) == {}
    ensures Topological(EdgesOf(map[]), [])
  {
    var ss := d.operations[0].selections;
    NoFragments();
    ResponseSpreadsNothing(ss[0].selections, Payload, {});
    assert ss[1..] == [];
  }

  ghost function NodesOf(ss: seq<Selection>): seq<Node>
    requires SpreadNames(ss) == {}
  {
    NoFragments();
    InlineAll(map[], [], 0, ss)
  }

  /** Fields without arguments or directives. */
  ghost predicate Bare(ns: seq<Node>)
    decreases ns
  {
    ns == [] || (ns[0].FieldNode? && ns[0].arguments == [] && ns[0].directives == [] && Bare(ns[0].children)
                 && Bare(ns[1..]))
  }

  /** A response becomes bare fields, and each takes at most five tokens. */
  lemma {:induction false} ResponseIsBare(ss: seq<Selection>, parent: Level, names: set<string>)
    requires ItemsOk(ss, parent, names) && SpreadNames(ss) == {}
    ensures Bare(NodesOf(ss)) && ItemsSize(ss) <= 5 * FieldCount(NodesOf(ss))
    decreases ss
  {
    if ss != [] {
      var s, ns := ss[0], NodesOf(ss);
      var next := NextLevel(parent, s.name);
      NoFragments();
      assert NamesIn(s) == SpreadNames(s.selections) == SpreadNames(ss[1..]) == {};
      assert ns == [InlineOne(map[], [], 0, s)] + InlineAll(map[], [], 0, ss[1..]);
      assert ns[1..] == NodesOf(ss[1..]) && ns[0].children == NodesOf(s.selections);
      if next.value.Some? { ResponseIsBare(s.selections, next.value.value, {}); }
      ResponseIsBare(ss[1..], parent, names + {ResponseName(s.name, s.alias)});
    }
  }

  /** Bare fields are listed alike under all variables, and cost nothing but their display. */
  lemma {:induction false} BareListing(ns: seq<Node>, base: nat, parent: Option<nat>, path: seq<string>,
                                       conditions: seq<Condition>, a: Variables, b: Variables)
    requires Bare(ns)
    ensures Listing(ns, base, parent, path, conditions, a).Some?
    ensures Listing(ns, base, parent, path, conditions, a) == Listing(ns, base, parent, path, conditions, b)
    decreases ns
  {
    if ns != [] {
      var n := ns[0];
      assert conditions + [] == conditions;
      BareListing(n.children, base + 1, Some(base), path + [ResponseName(n.name, n.alias)], conditions, a, b);
      var head := ListNode(n, base, parent, path, conditions, a).value;
      BareListing(ns[1..], base + |head|, parent, path, conditions, a, b);
    }
  }

  lemma {:induction false} BareCharge(ns: seq<Node>, m: Meter)
    requires Bare(ns)
    ensures NodesCharge(ns, m) == Some(0)
    decreases ns
  {
    if ns != [] {
      BareCharge(ns[0].children, m);
      BareCharge(ns[1..], m);
    }
  }

  // ---------------------------------------------------------------- the review of a comment mutation

  /** A mutation that adds one comment. */
  ghost predicate AddsComment(op: Operation, alias: Option<string>, given: Value, ss: seq<Selection>) {
    && op.directives == [] && op.selections == [Field("addComment", alias, [Entry("input", given)], [], ss)]
    && SpreadNames(op.selections) == {} && SpreadNames(ss) == {} && Bare(NodesOf(ss))
  }

  ghost function Root(alias: Option<string>, given: Value, ss: seq<Selection>): Node
    requires SpreadNames(ss) == {}
  {
    FieldNode("addComment", alias, [Entry("input", given)], [], NodesOf(ss))
  }

  lemma {:induction false} CommentNodes(op: Operation, alias: Option<string>, given: Value, ss: seq<Selection>)
    requires AddsComment(op, alias, given, ss)
    ensures Topological(EdgesOf(map[]), []) && Inlined(map[], [], op.selections) == [Root(alias, given, ss)]
  {
    NoFragments();
    var s := op.selections[0];
    assert op.selections[1..] == [] && NamesIn(s) == {};
    assert InlineAll(map[], [], 0, op.selections) == [InlineOne(map[], [], 0, s)] + InlineAll(map[], [], 0, []);
    assert InlineOne(map[], [], 0, s) == Root(alias, given, ss);
  }

  /** The fields shown for a comment, whatever the input was written as. */
  ghost function CommentViews(alias: Option<string>, input: Value, ss: seq<Selection>): seq<FieldView>
    requires SpreadNames(ss) == {} && Bare(NodesOf(ss))
  {
    var response := ResponseName("addComment", alias);
    var view := FieldView("addComment", response, [response], None, [Entry("input", input)], []);
    BareListing(NodesOf(ss), 1, Some(0), [response], [], [], []);
    [view] + Listing(NodesOf(ss), 1, Some(0), [response], [], []).value
  }

  lemma {:induction false} RootIsListed(alias: Option<string>, given: Value, ss: seq<Selection>, vars: Variables,
                                        input: Value)
    requires SpreadNames(ss) == {} && Bare(NodesOf(ss)) && Substitute(given, vars) == Some(input)
    ensures ListNode(Root(alias, given, ss), 0, None, [], [], vars) == Some(CommentViews(alias, input, ss))
  {
    hide Listing, Bare;
    var n, response := Root(alias, given, ss), ResponseName("addComment", alias);
    var view := FieldView("addComment", response, [response], None, [Entry("input", input)], []);
    BareListing(NodesOf(ss), 1, Some(0), [response], [], vars, []);
    SubstituteEntry(Entry("input", given), [], vars, input, []);
    assert [Entry("input", given)] + [] == [Entry("input", given)] && [Entry("input", input)] + [] == view.arguments;
    assert [] + [response] == [response];
    var none: seq<Condition> := [];
    assert none + none == none;
    assert IsView(n, view, [], [], vars);
    ListField(n, 0, view, [], [], vars);
  }

  lemma {:induction false} CommentIsListed(op: Operation, alias: Option<string>, given: Value, ss: seq<Selection>,
                                           vars: Variables, input: Value)
    requires AddsComment(op, alias, given, ss) && Substitute(given, vars) == Some(input)
    ensures Topological(EdgesOf(map[]), [])
    ensures Occurrences(op, map[], [], vars) == Some(CommentViews(alias, input, ss))
  {
    hide ListNode, CommentViews, Bare;
    var ns, l := [Root(alias, given, ss)], CommentViews(alias, input, ss);
    CommentNodes(op, alias, given, ss);
    RootIsListed(alias, given, ss, vars, input);
    ListFirst(ns, 0, None, [], [], vars);
    assert ns[1..] == [] && l + [] == l;
  }

  /** The charge for the one argument. */
  function InputCharge(given: Value, m: Meter): Option<nat> {
    Plus(Some(Bytes("input")), ValueCharge(given, Shown(m), 0))
  }

  lemma {:induction false} CommentCharge(alias: Option<string>, given: Value, ss: seq<Selection>, m: Meter)
    requires SpreadNames(ss) == {} && Bare(NodesOf(ss))
    ensures NodesCharge([Root(alias, given, ss)], m) == InputCharge(given, m)
  {
    hide ValueCharge, Bare, Bytes;
    var ns, es := [Root(alias, given, ss)], [Entry("input", given)];
    BareCharge(NodesOf(ss), m);
    assert ns[1..] == [] && NodesCharge([], m) == Some(0);
    assert es[1..] == [] && FieldsCharge([], Shown(m), 0) == Some(0);
  }

  /** What reviewing a comment mutation costs in bytes. */
  lemma {:induction false} CommentBytes(op: Operation, alias: Option<string>, given: Value, ss: seq<Selection>,
                                        m: Meter, input: Value)
    requires AddsComment(op, alias, given, ss) && Substitute(given, m.vars) == Some(input)
    ensures Topological(EdgesOf(map[]), [])
    ensures TotalBytes(op, map[], [], m)
         == Plus(InputCharge(given, m), Some(ViewsBytes(CompactViews(CommentViews(alias, input, ss), m.digest), m)))
  {
    hide CommentViews, Bare, InputCharge, Occurrences, Inlined;
    CommentIsListed(op, alias, given, ss, m.vars, input);
    CommentNodes(op, alias, given, ss);
    CommentCharge(alias, given, ss, m);
  }

  /** The levels, selections and fields of a comment mutation do not depend on how its input is written. */
  ghost predicate CommentFits(alias: Option<string>, input: Value, ss: seq<Selection>)
    requires SpreadNames(ss) == {} && Bare(NodesOf(ss))
  {
    && 1 + Height(NodesOf(ss)) <= MAX_DEPTH && 1 + Visits(NodesOf(ss)) <= MAX_STEPS
    && |CommentViews(alias, input, ss)| <= MAX_FIELDS
  }

  lemma {:induction false} CommentReviewable(op: Operation, alias: Option<string>, given: Value, ss: seq<Selection>,
                                             m: Meter, input: Value)
    requires AddsComment(op, alias, given, ss) && Substitute(given, m.vars) == Some(input)
    ensures Topological(EdgesOf(map[]), [])
    ensures var bytes := TotalBytes(op, map[], [], m);
      Reviewable(op, map[], [], m)
      <==> CommentFits(alias, input, ss) && bytes.Some? && bytes.value <= MAX_EXPANDED_BYTES
  {
    hide CommentViews, Bare, Occurrences, TotalBytes;
    var ns := [Root(alias, given, ss)];
    CommentIsListed(op, alias, given, ss, m.vars, input);
    CommentNodes(op, alias, given, ss);
    assert ns[1..] == [] && Visits([]) == 0 && Height([]) == 0;
    assert Visits(ns) == 1 + Visits(NodesOf(ss)) && Height(ns) == 1 + Height(NodesOf(ss));
  }

  /** A comment within the field limit has a short rebuilt query. */
  lemma {:induction false} FewFieldsFewTokens(alias: Option<string>, input: Value, ss: seq<Selection>)
    requires ResponseOk(ss, Payload) && SpreadNames(ss) == {} && Bare(NodesOf(ss))
    requires |CommentViews(alias, input, ss)| <= MAX_FIELDS
    ensures RebuiltSize(alias, ss) <= L.MAX_TOKENS
  {
    hide Listing, Bare, FieldCount, ItemsSize;
    ResponseIsBare(ss, Payload, {});
    var response := ResponseName("addComment", alias);
    BareListing(NodesOf(ss), 1, Some(0), [response], [], [], []);
    ListingDropsNothing(NodesOf(ss), 1, Some(0), [response], [], []);
  }

  // ---------------------------------------------------------------- the analysed plan

  /** `analyze_parsed`, as far as the comment command goes: the plan is dropped when expansion fails. */
  ghost function AnalyzedPlan(req: Request, show: Display): Option<Plan> {
    var plan := PlanRequest(req);
    if plan.None? then None
    else
      CommentSpreadsNothing(RoundTrip.ReadDocument(req.query).value);
      if Reviewable(GuestOperation(req), map[], [], MeterFor(GuestVariables(req), show)) then plan else None
  }

  ghost function GuestOperation(req: Request): Operation
    requires PlanRequest(req).Some?
  {
    RoundTrip.ReadDocument(req.query).value.operations[0]
  }

  ghost function GuestVariables(req: Request): Variables
    requires PlanRequest(req).Some?
  {
    EffectiveVariables(GuestOperation(req).variables, req.variables).value
  }

  ghost function GuestField(req: Request): (f: Selection)
    requires PlanRequest(req).Some?
    ensures f.Field? && Find(f.arguments, "input").Some? && ResponseOk(f.selections, Payload)
  {
    GuestOperation(req).selections[0]
  }

  ghost function GuestGiven(req: Request): Value
    requires PlanRequest(req).Some?
  {
    Find(GuestField(req).arguments, "input").value
  }

  lemma {:induction false} GuestAddsComment(req: Request)
    requires RequestOk(req) && PlanRequest(req).Some?
    ensures var op, f, plan := GuestOperation(req), GuestField(req), PlanRequest(req).value;
      && AddsComment(op, f.alias, GuestGiven(req), f.selections)
      && Substitute(GuestGiven(req), GuestVariables(req)) == Some(PlannedInput(plan)) && PlanOk(plan)
  {
    hide Bare, PlanCall, EffectiveVariables;
    var d := RoundTrip.ReadDocument(req.query).value;
    RoundTrip.AcceptedIsOk(req.query);
    GuestShape(d);
    GuestInput(d, req);
    CommentSpreadsNothing(d);
    ResponseIsBare(GuestField(req).selections, Payload, {});
  }

  /** For every request whose comment command is exposed, the rebuilt request is planned to the same plan. */
  lemma {:induction false} Replan(req: Request, show: Display)
    requires RequestOk(req) && AnalyzedPlan(req, show).Some?
    ensures PlanRequest(RequestBody(AnalyzedPlan(req, show).value)) == AnalyzedPlan(req, show)
  {
    hide Bare, PlanRequest, RequestBody, ResponseOk, Reviewable, CommentViews, RebuiltSize;
    var f, plan := GuestField(req), PlanRequest(req).value;
    GuestAddsComment(req);
    CommentReviewable(GuestOperation(req), f.alias, GuestGiven(req), f.selections, MeterFor(GuestVariables(req), show),
                      PlannedInput(plan));
    FewFieldsFewTokens(f.alias, PlannedInput(plan), f.selections);
    ReplanShort(req);
  }

  // ---------------------------------------------------------------- the bytes of the rebuilt request

  /** What an input member costs more when it reaches the call inside a variable. */
  function MemberExtra(v: Value, digest: Digest): int {
    if v.Variable? then -16
    else if v.Str? && Large(v.text) then Bytes(ValueText(Reference(digest(v.text)), "")) - 96
    else 0
  }

  function MembersExtra(es: seq<Entry<Value>>, digest: Digest): int {
    if es == [] then 0 else MemberExtra(es[0].value, digest) + MembersExtra(es[1..], digest)
  }

  /** What the broker's own form of the input costs more than the guest's: nothing if the guest passed it as a variable
      too. Otherwise the variable costs 16, less what each member saves. */
  function Extra(given: Value, digest: Digest): int {
    if given.Object? then 16 + MembersExtra(given.fields, digest) else 0
  }

  predicate Leaf(v: Value) { v.Str? || v.Null? }

  lemma {:induction false} MemberCharge(v: Value, x: Value, m: Meter, shown: Variables)
    requires Substitute(v, m.vars) == Some(x) && Leaf(x)
    ensures var guest, own := ValueCharge(v, Shown(m), 1), ValueCharge(Compacted(x, m.digest), shown, 2);
      guest.Some? && own.Some? && own.value == guest.value + MemberExtra(v, m.digest)
  {
    hide Bytes, ValueText;
    if v.Variable? { FindCompacted(m.vars, v.name, m.digest); }
  }

  lemma {:induction false} MembersCharge(es: seq<Entry<Value>>, xs: seq<Entry<Value>>, m: Meter, shown: Variables)
    requires SubstituteFields(es, m.vars) == Some(xs) && forall i :: 0 <= i < |xs| ==> Leaf(xs[i].value)
    ensures var guest, own := FieldsCharge(es, Shown(m), 1), FieldsCharge(CompactedFields(xs, m.digest), shown, 2);
      guest.Some? && own.Some? && own.value == guest.value + MembersExtra(es, m.digest)
    decreases es
  {
    hide Bytes, ValueText, ValueCharge, MemberExtra, Substitute, Compacted;
    if es != [] {
      var x, rest := Substitute(es[0].value, m.vars).value, SubstituteFields(es[1..], m.vars).value;
      assert xs == [Entry(es[0].key, x)] + rest && xs[0].value == x;
      assert xs[1..] == rest;
      MemberCharge(es[0].value, x, m, shown);
      MembersCharge(es[1..], rest, m, shown);
      assert CompactedFields(xs, m.digest)[1..] == CompactedFields(rest, m.digest);
    }
  }

  lemma {:induction false} PlannedLeaves(plan: Plan)
    requires PlanOk(plan)
    ensures var xs := PlannedInput(plan).fields; forall i :: 0 <= i < |xs| ==> Leaf(xs[i].value)
  {
  }

  lemma {:induction false} LeavesCharge(xs: seq<Entry<Value>>, a: Variables, b: Variables, digest: Digest)
    requires forall i :: 0 <= i < |xs| ==> Leaf(xs[i].value)
    ensures FieldsCharge(CompactedFields(xs, digest), a, 2) == FieldsCharge(CompactedFields(xs, digest), b, 2)
    ensures FieldsCharge(CompactedFields(xs, digest), a, 2).Some?
    decreases xs
  {
    hide Bytes, LeafBytes;
    if xs != [] {
      LeavesCharge(xs[1..], a, b, digest);
      assert CompactedFields(xs, digest)[1..] == CompactedFields(xs[1..], digest);
    }
  }

  function OwnVariables(plan: Plan): Variables { [Entry("input", PlannedInput(plan))] }

  lemma {:induction false} OwnInputCharge(plan: Plan, show: Display)
    requires PlanOk(plan)
    ensures var m := MeterFor(OwnVariables(plan), show);
      var fields := FieldsCharge(CompactedFields(PlannedInput(plan).fields, show.digest), Shown(m), 2);
      && fields.Some?
      && ValueCharge(Variable("input"), Shown(m), 0) == Some(32 + fields.value)
      && Substitute(Variable("input"), OwnVariables(plan)) == Some(PlannedInput(plan))
  {
    hide FieldsCharge;
    var m, vars := MeterFor(OwnVariables(plan), show), OwnVariables(plan);
    PlannedLeaves(plan);
    LeavesCharge(PlannedInput(plan).fields, Shown(m), Shown(m), show.digest);
    assert vars[0].key == "input" && Find(vars, "input") == Some(vars[0].value);
    FindCompacted(vars, "input", show.digest);
    assert Compacted(PlannedInput(plan), show.digest) == Object(CompactedFields(PlannedInput(plan).fields,
                                                                                show.digest));
  }

  /** Both inputs can be charged, and the broker's costs exactly the extra more. */
  lemma {:induction false} InputsDiffer(given: Value, vars: Variables, plan: Plan, show: Display)
    requires PlanOk(plan) && Substitute(given, vars) == Some(PlannedInput(plan))
    ensures var guest := InputCharge(given, MeterFor(vars, show));
      var own := InputCharge(Variable("input"), MeterFor(OwnVariables(plan), show));
      guest.Some? && own.Some? && own.value == guest.value + Extra(given, show.digest)
  {
    hide Bytes, FieldsCharge, MembersExtra, Escaped, Quoted, LeafBytes, InputMembers;
    var m, own := MeterFor(vars, show), MeterFor(OwnVariables(plan), show);
    var xs := PlannedInput(plan).fields;
    PlannedLeaves(plan);
    OwnInputCharge(plan, show);
    if given.Variable? {
      FindCompacted(vars, given.name, show.digest);
      LeavesCharge(xs, Shown(m), Shown(own), show.digest);
      assert Compacted(PlannedInput(plan), show.digest) == Object(CompactedFields(xs, show.digest));
    } else {
      assert given.Object? && SubstituteFields(given.fields, vars) == Some(xs);
      MembersCharge(given.fields, xs, m, Shown(own));
    }
  }

  /** The bytes that the review of a planned request costs. */
  ghost function ReviewBytes(req: Request, show: Display): Option<nat>
    requires PlanRequest(req).Some?
  {
    CommentSpreadsNothing(RoundTrip.ReadDocument(req.query).value);
    TotalBytes(GuestOperation(req), map[], [], MeterFor(GuestVariables(req), show))
  }

  lemma {:induction false} OwnAddsComment(alias: Option<string>, ss: seq<Selection>)
    requires ResponseOk(ss, Payload) && SpreadNames(ss) == {} && Bare(NodesOf(ss))
    ensures AddsComment(RebuiltOperation(alias, ss), alias, Variable("input"), ss)
  {
    hide Bare, ResponseOk;
    var op := RebuiltOperation(alias, ss);
    assert op.selections[1..] == [] && NamesIn(op.selections[0]) == {} && SpreadNames([]) == {};
    assert SpreadNames(op.selections) == NamesIn(op.selections[0]) + SpreadNames(op.selections[1..]);
    assert INPUT_ARGUMENTS == [Entry("input", Variable("input"))];
  }

  /** The rebuilt request, read by the broker itself. */
  lemma {:induction false} OwnRequest(req: Request, show: Display)
    requires RequestOk(req) && AnalyzedPlan(req, show).Some?
    ensures var plan, f := PlanRequest(req).value, GuestField(req);
      var own := RequestBody(plan);
      && PlanRequest(own) == Some(plan) && GuestOperation(own) == RebuiltOperation(f.alias, f.selections)
      && GuestVariables(own) == OwnVariables(plan)
  {
    hide Bare, ResponseOk, Reviewable, CommentViews, RebuiltSize, PlanDocument;
    var f, plan := GuestField(req), PlanRequest(req).value;
    GuestAddsComment(req);
    CommentReviewable(GuestOperation(req), f.alias, GuestGiven(req), f.selections, MeterFor(GuestVariables(req), show),
                      PlannedInput(plan));
    FewFieldsFewTokens(f.alias, PlannedInput(plan), f.selections);
    ReplanShort(req);
    RebuiltVariables(plan);
  }

  /** Two ways to write the same comment differ in the review only by the charge for the input. */
  lemma {:induction false} SameReview(op: Operation, given: Value, m: Meter, op': Operation, given': Value, m': Meter,
                                      alias: Option<string>, ss: seq<Selection>, input: Value)
    requires AddsComment(op, alias, given, ss) && Substitute(given, m.vars) == Some(input)
    requires AddsComment(op', alias, given', ss) && Substitute(given', m'.vars) == Some(input)
    requires m.viewBytes == m'.viewBytes && m.digest == m'.digest
    requires InputCharge(given, m).Some? && InputCharge(given', m').Some?
    ensures Topological(EdgesOf(map[]), [])
    ensures var bytes := TotalBytes(op, map[], [], m);
      && bytes.Some?
      && (Reviewable(op, map[], [], m) ==>
            && bytes.value <= MAX_EXPANDED_BYTES
            && (Reviewable(op', map[], [], m')
                <==> bytes.value - InputCharge(given, m).value + InputCharge(given', m').value <= MAX_EXPANDED_BYTES))
  {
    hide Bare, Reviewable, CommentViews, TotalBytes, InputCharge, CommentFits, Substitute;
    CommentReviewable(op, alias, given, ss, m, input);
    CommentBytes(op, alias, given, ss, m, input);
    CommentReviewable(op', alias, given', ss, m', input);
    CommentBytes(op', alias, given', ss, m', input);
    SameDisplay(CompactViews(CommentViews(alias, input, ss), m.digest), m, m');
  }

  /** Reviewing the rebuilt request exposes the same plan exactly when its bytes fit the budget, and they are those of
      the guest's request plus the known extra. */
  lemma {:induction false} ReviewedAgainIff(req: Request, show: Display)
    requires RequestOk(req) && AnalyzedPlan(req, show).Some?
    ensures var plan, bytes := AnalyzedPlan(req, show).value, ReviewBytes(req, show);
      && bytes.Some? && bytes.value <= MAX_EXPANDED_BYTES
      && (AnalyzedPlan(RequestBody(plan), show) == Some(plan)
          <==> bytes.value + Extra(GuestGiven(req), show.digest) <= MAX_EXPANDED_BYTES)
  {
    hide Bare, ResponseOk, Reviewable, PlanRequest, TotalBytes, Extra, RequestBody, InputCharge, Substitute,
         GuestOperation, GuestVariables, PlanOk;
    var f, plan := GuestField(req), PlanRequest(req).value;
    GuestAddsComment(req);
    OwnRequest(req, show);
    OwnAddsComment(f.alias, f.selections);
    OwnInputCharge(plan, show);
    InputsDiffer(GuestGiven(req), GuestVariables(req), plan, show);
    SameReview(GuestOperation(req), GuestGiven(req), MeterFor(GuestVariables(req), show),
               GuestOperation(RequestBody(plan)), Variable("input"), MeterFor(OwnVariables(plan), show),
               f.alias, f.selections, PlannedInput(plan));
  }

  lemma {:induction false} SameDisplay(vs: seq<FieldView>, m: Meter, m': Meter)
    requires m.viewBytes == m'.viewBytes
    ensures ViewsBytes(vs, m) == ViewsBytes(vs, m')
  {
    if vs != [] { SameDisplay(vs[..|vs| - 1], m, m'); }
  }
}
