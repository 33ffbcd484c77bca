/** The field list of an analysed request (`analyze_parsed`): compact the variables once, expand, and
    show that the display list loses nothing. */
module Analysis {
  import opened Outcome
  import opened OrderedMap
  import opened Syntax
  import opened Fragments
  import opened Inlining
  import opened Compaction
  import opened Listings
  import opened Budget
  import opened Expander

  // ---------------------------------------------------------------- parsed values hold no display reference

  lemma {:induction false} ParsedValueIsClean(v: Value, depth: nat, constant: bool)
    requires ValueOk(v, depth, constant)
    ensures NoReference(v) && (constant ==> Plain(v))
    decreases v
  {
    match v
    case List(values) =>
      forall i | 0 <= i < |values| ensures NoReference(values[i]) && (constant ==> Plain(values[i])) {
        ParsedValueIsClean(values[i], depth + 1, constant);
      }
    case Object(fields) =>
      forall i | 0 <= i < |fields| ensures NoReference(fields[i].value) && (constant ==> Plain(fields[i].value)) {
        ParsedValueIsClean(fields[i].value, depth + 1, constant);
      }
    case _ =>
  }

  predicate CleanEntries(es: seq<Entry<Value>>) { forall i :: 0 <= i < |es| ==> NoReference(es[i].value) }

  predicate CleanDirectives(ds: seq<Directive>) { forall i :: 0 <= i < |ds| ==> CleanEntries(ds[i].arguments) }

  lemma {:induction false} ParsedEntriesAreClean(es: seq<Entry<Value>>, depth: nat, constant: bool)
    requires EntriesOk(es, depth, constant)
    ensures CleanEntries(es)
  {
    forall i | 0 <= i < |es| ensures NoReference(es[i].value) {
      assert EntryOk(es[i], depth, constant);
      ParsedValueIsClean(es[i].value, depth + 1, constant);
    }
  }

  lemma {:induction false} ParsedDirectivesAreClean(ds: seq<Directive>, depth: nat, constant: bool)
    requires DirectivesOk(ds, depth, constant)
    ensures CleanDirectives(ds)
  {
    forall i | 0 <= i < |ds| ensures CleanEntries(ds[i].arguments) {
      assert DirectiveOk(ds[i], depth, constant);
      ParsedEntriesAreClean(ds[i].arguments, depth, constant);
    }
  }

  ghost predicate CleanNode(n: Node)
    decreases n
  {
    && CleanDirectives(n.directives)
    && (n.FieldNode? ==> CleanEntries(n.arguments))
    && (n.FragmentNode? ==> CleanDirectives(n.definition))
    && forall i :: 0 <= i < |n.children| ==> CleanNode(n.children[i])
  }

  ghost predicate TableOk(table: Table) { forall name :: name in table ==> FragmentOk(table[name]) }

  lemma {:induction false} InlinedIsClean(table: Table, order: seq<string>, k: nat, ss: seq<Selection>, depth: nat)
    requires Inlinable(table, order, k, SpreadNames(ss)) && TableOk(table)
    requires forall i :: 0 <= i < |ss| ==> SelectionOk(ss[i], depth)
    ensures forall i :: 0 <= i < |ss| ==> CleanNode(InlineAll(table, order, k, ss)[i])
    decreases k, ss, 1
  {
    forall i | 0 <= i < |ss| ensures CleanNode(InlineAll(table, order, k, ss)[i]) {
      InlineAllAt(table, order, k, ss, i);
      InlinedNodeIsClean(table, order, k, ss[i], depth);
    }
  }

  lemma {:induction false} InlinedNodeIsClean(table: Table, order: seq<string>, k: nat, s: Selection, depth: nat)
    requires Inlinable(table, order, k, NamesIn(s)) && TableOk(table) && SelectionOk(s, depth)
    ensures CleanNode(InlineOne(table, order, k, s))
    decreases k, s, 0
  {
    ParsedDirectivesAreClean(s.directives, depth, false);
    match s
    case Field(_, _, arguments, _, selections) =>
      ParsedEntriesAreClean(arguments, depth, false);
      InlinedIsClean(table, order, k, selections, depth + 1);
    case Inline(_, _, selections) => InlinedIsClean(table, order, k, selections, depth + 1);
    case Spread(name, _) =>
      assert name in Names(order[..k]);
      IndexBelow(order, k, name);
      var j := IndexOf(order, name);
      assert name in EdgesOf(table) && EdgesOf(table)[order[j]] <= Names(order[..j]);
      var f := table[name];
      ParsedDirectivesAreClean(f.directives, 0, false);
      InlinedIsClean(table, order, j, f.selections, 0);
  }

  // ---------------------------------------------------------------- every listed value is plain

  predicate PlainEntries(es: seq<Entry<Value>>) { forall i :: 0 <= i < |es| ==> Plain(es[i].value) }

  predicate PlainConditions(cs: seq<Condition>) {
    forall i :: 0 <= i < |cs| && cs[i].ByDirective? ==> PlainEntries(cs[i].arguments)
  }

  predicate PlainView(v: FieldView) { PlainEntries(v.arguments) && PlainConditions(v.conditions) }

  lemma {:induction false} DirectiveConditionsArePlain(ds: seq<Directive>, vars: Variables)
    requires CleanDirectives(ds) && AllPlain(vars) && DirectiveConditions(ds, vars).Some?
    ensures PlainConditions(DirectiveConditions(ds, vars).value)
    decreases ds
  {
    if ds != [] {
      DirectiveConditionsArePlain(ds[1..], vars);
      assert CleanEntries(ds[0].arguments);
      SubstituteFieldsIsPlain(ds[0].arguments, vars);
    }
  }

  lemma {:induction false} NodeConditionsArePlain(n: Node, vars: Variables)
    requires CleanNode(n) && AllPlain(vars) && NodeConditions(n, vars).Some?
    ensures PlainConditions(NodeConditions(n, vars).value)
  {
    DirectiveConditionsArePlain(n.directives, vars);
    if n.FragmentNode? { DirectiveConditionsArePlain(n.definition, vars); }
  }

  lemma {:induction false} ListingIsPlain(ns: seq<Node>, base: nat, parent: Option<nat>, path: seq<string>,
                                          conditions: seq<Condition>, vars: Variables)
    requires (forall i :: 0 <= i < |ns| ==> CleanNode(ns[i])) && AllPlain(vars) && PlainConditions(conditions)
    requires Listing(ns, base, parent, path, conditions, vars).Some?
    ensures forall i :: 0 <= i < |Listing(ns, base, parent, path, conditions, vars).value| ==>
      PlainView(Listing(ns, base, parent, path, conditions, vars).value[i])
    decreases ns, 1
  {
    if ns != [] {
      ListNodeIsPlain(ns[0], base, parent, path, conditions, vars);
      var head := ListNode(ns[0], base, parent, path, conditions, vars).value;
      ListingIsPlain(ns[1..], base + |head|, parent, path, conditions, vars);
    }
  }

  lemma {:induction false} ListNodeIsPlain(n: Node, base: nat, parent: Option<nat>, path: seq<string>,
                                           conditions: seq<Condition>, vars: Variables)
    requires CleanNode(n) && AllPlain(vars) && PlainConditions(conditions)
    requires ListNode(n, base, parent, path, conditions, vars).Some?
    ensures forall i :: 0 <= i < |ListNode(n, base, parent, path, conditions, vars).value| ==>
      PlainView(ListNode(n, base, parent, path, conditions, vars).value[i])
    decreases n, 0
  {
    NodeConditionsArePlain(n, vars);
    var inner := conditions + NodeConditions(n, vars).value;
    match n
    case FieldNode(name, alias, arguments, _, children) =>
      SubstituteFieldsIsPlain(arguments, vars);
      ListingIsPlain(children, base + 1, Some(base), path + [ResponseName(name, alias)], inner, vars);
    case InlineNode(_, _, children) => ListingIsPlain(children, base, parent, path, inner, vars);
    case FragmentNode(_, _, _, _, children) => ListingIsPlain(children, base, parent, path, inner, vars);
  }

  // ---------------------------------------------------------------- restoring the display list

  function RestoreCondition(c: Condition, large: Store): Condition {
    match c
    case ByDirective(name, arguments) => ByDirective(name, RestoreFields(arguments, large))
    case _ => c
  }

  function RestoreConditions(cs: seq<Condition>, large: Store): seq<Condition> {
    seq(|cs|, i requires 0 <= i < |cs| => RestoreCondition(cs[i], large))
  }

  function RestoreView(v: FieldView, large: Store): FieldView {
    v.(arguments := RestoreFields(v.arguments, large), conditions := RestoreConditions(v.conditions, large))
  }

  function RestoreViews(vs: seq<FieldView>, large: Store): seq<FieldView> {
    seq(|vs|, i requires 0 <= i < |vs| => RestoreView(vs[i], large))
  }

  lemma {:induction false} PlainIsClean(v: Value)
    requires Plain(v)
    ensures NoReference(v)
    decreases v
  {
    match v
    case List(values) => forall i | 0 <= i < |values| ensures NoReference(values[i]) { PlainIsClean(values[i]); }
    case Object(fields) =>
      forall i | 0 <= i < |fields| ensures NoReference(fields[i].value) { PlainIsClean(fields[i].value); }
    case _ =>
  }

  lemma {:induction false} RestoreEntries(es: seq<Entry<Value>>, large: Store, digest: Digest)
    requires PlainEntries(es) && Holds(large, LargeTextsFields(es), digest)
    ensures RestoreFields(CompactedFields(es, digest), large) == es
  {
    forall i | 0 <= i < |es| ensures NoReference(es[i].value) { PlainIsClean(es[i].value); }
    RestoreCompactedFields(es, large, digest);
  }

  lemma {:induction false} RestoreShownView(v: FieldView, large: Store, digest: Digest)
    requires PlainView(v) && ViewHeld(v, large, digest)
    ensures RestoreView(CompactView(v, digest), large) == v
  {
    RestoreEntries(v.arguments, large, digest);
    forall i | 0 <= i < |v.conditions|
      ensures RestoreCondition(CompactCondition(v.conditions[i], digest), large) == v.conditions[i]
    {
      assert ConditionHeld(v.conditions[i], large, digest);
      if v.conditions[i].ByDirective? { RestoreEntries(v.conditions[i].arguments, large, digest); }
    }
    assert RestoreConditions(CompactConditions(v.conditions, digest), large) == v.conditions;
  }

  lemma {:induction false} RestoreShown(vs: seq<FieldView>, large: Store, digest: Digest)
    requires (forall i :: 0 <= i < |vs| ==> PlainView(vs[i])) && ViewsHeld(vs, large, digest)
    ensures RestoreViews(CompactViews(vs, digest), large) == vs
  {
    forall i | 0 <= i < |vs| ensures RestoreView(CompactView(vs[i], digest), large) == vs[i] {
      RestoreShownView(vs[i], large, digest);
    }
  }

  // ---------------------------------------------------------------- the whole analysis

  /** The reference: the preorder list of every field occurrence of the fully inlined operation, with the
      variables substituted. */
  ghost function Occurrences(op: Operation, table: Table, order: seq<string>, vars: Variables): Option<seq<FieldView>>
    requires Topological(EdgesOf(table), order) && SpreadNames(op.selections) <= table.Keys
  {
    var conditions := DirectiveConditions(op.directives, vars);
    if conditions.None? then None
    else Listing(Inlined(table, order, op.selections), 0, None, [], conditions.value, vars)
  }

  /** The bytes that the whole review costs. */
  ghost function TotalBytes(op: Operation, table: Table, order: seq<string>, m: Meter): Option<nat>
    requires Topological(EdgesOf(table), order) && SpreadNames(op.selections) <= table.Keys
  {
    var l := Occurrences(op, table, order, m.vars);
    if l.None? then None
    else Plus(Plus(DirectivesCharge(op.directives, m), NodesCharge(Inlined(table, order, op.selections), m)),
              Some(ViewsBytes(CompactViews(l.value, m.digest), m)))
  }

  /** The inlined operation is within every limit of the review: 32 levels, 1024 selections, 256 fields, 256 KiB. */
  ghost predicate Reviewable(op: Operation, table: Table, order: seq<string>, m: Meter)
    requires Topological(EdgesOf(table), order) && SpreadNames(op.selections) <= table.Keys
  {
    var ns, bytes := Inlined(table, order, op.selections), TotalBytes(op, table, order, m);
    && Height(ns) <= MAX_DEPTH && Visits(ns) <= MAX_STEPS
    && bytes.Some? && bytes.value <= MAX_EXPANDED_BYTES
    && |Occurrences(op, table, order, m.vars).value| <= MAX_FIELDS
  }

  /** The limits once the operation's own directives are paid for. */
  ghost function Begun(op: Operation, m: Meter): Gauge
    requires DirectivesCharge(op.directives, m).Some? && DirectivesCharge(op.directives, m).value <= MAX_EXPANDED_BYTES
  {
    Gauge(0, MAX_EXPANDED_BYTES - DirectivesCharge(op.directives, m).value, [])
  }

  lemma {:induction false} SpendFirst(g: Gauge, visits: nat, charge: Option<nat>, more: seq<FieldView>, m: Meter)
    requires g.fields == [] && g.steps == 0
    ensures Spend(g, visits, charge, more, m).Some? <==>
      && charge.Some? && visits <= MAX_STEPS && |more| <= MAX_FIELDS
      && charge.value + ViewsBytes(more, m) <= g.remaining
  {
    assert [] + more == more && ViewsBytes([], m) == 0;
  }

  lemma {:induction false} ReviewableIsAfter(op: Operation, table: Table, order: seq<string>, m: Meter)
    requires Topological(EdgesOf(table), order) && SpreadNames(op.selections) <= table.Keys
    requires DirectivesCharge(op.directives, m).Some? && DirectivesCharge(op.directives, m).value <= MAX_EXPANDED_BYTES
    requires DirectiveConditions(op.directives, m.vars).Some?
    ensures Reviewable(op, table, order, m)
        <==> After(Inlined(table, order, op.selections), 0, Begun(op, m), None, [],
                   DirectiveConditions(op.directives, m.vars).value, m).Some?
  {
    hide Height, Visits, NodesCharge, Listing, DirectivesCharge, DirectiveConditions, Inlined, Spend, ViewsBytes;
    var l, ns := Occurrences(op, table, order, m.vars), Inlined(table, order, op.selections);
    if l.Some? { SpendFirst(Begun(op, m), Visits(ns), NodesCharge(ns, m), CompactViews(l.value, m.digest), m); }
  }

  lemma {:induction false} UnpaidDirectives(op: Operation, table: Table, order: seq<string>, m: Meter)
    requires Topological(EdgesOf(table), order) && SpreadNames(op.selections) <= table.Keys
    requires DirectivesCharge(op.directives, m).None? || DirectivesCharge(op.directives, m).value > MAX_EXPANDED_BYTES
    ensures !Reviewable(op, table, order, m)
  {
    hide Height, Visits, NodesCharge, Listing, DirectivesCharge, DirectiveConditions, Inlined;
  }

  /** Expansion succeeds exactly when the inlined operation is within every limit. Then putting the large strings back
      into the display list gives exactly the reference, and no variable reference is left in it. */
  method ExpandOperation(op: Operation, table: Table, vars: Variables, digest: Digest, conditionBytes: Condition -> nat,
                         viewBytes: (seq<FieldView>, FieldView) -> nat, ghost order: seq<string>)
    returns (r: Result<seq<FieldView>, ExpandError>, large: Store)
    requires Injective(digest) && AllPlain(vars) && OperationOk(op) && TableOk(table)
    requires Topological(EdgesOf(table), order) && SpreadNames(op.selections) <= table.Keys
    ensures r.Ok? <==> Reviewable(op, table, order, Meter(vars, digest, conditionBytes, viewBytes))
    ensures r.Ok? ==>
      && Occurrences(op, table, order, vars) == Some(RestoreViews(r.value, large))
      && forall i :: 0 <= i < |RestoreViews(r.value, large)| ==> PlainView(RestoreViews(r.value, large)[i])
  {
    hide After, Listing, DirectivesCharge, DirectiveConditions, InlineAll, Reviewable, PlainView, Holds;
    ghost var m := Meter(vars, digest, conditionBytes, viewBytes);
    var shownVars, store := CompactFields(vars, map[], digest);
    var e := new Expansion(table, shownVars, digest, store, conditionBytes, viewBytes, vars, order);
    large := store;
    var conditions := e.Conditions(op.directives, []);
    if conditions.Err? {
      UnpaidDirectives(op, table, order, m);
      return Err(conditions.error), large;
    }
    ghost var plain := DirectiveConditions(op.directives, vars).value;
    assert order[..|order|] == order;
    assert [] + CompactConditions(plain, digest) == CompactConditions(plain, digest);
    ReviewableIsAfter(op, table, order, m);
    var expanded := e.Expand(op.selections, None, [], conditions.value, 0, plain, |order|);
    large := e.large;
    if expanded.Err? { return Err(expanded.error), large; }
    ghost var l := Occurrences(op, table, order, vars).value;
    OccurrencesArePlain(op, table, order, vars);
    RestoreShown(l, large, digest);
    assert [] + CompactViews(l, digest) == CompactViews(l, digest);
    r := Ok(e.fields);
  }

  lemma {:induction false} OccurrencesArePlain(op: Operation, table: Table, order: seq<string>, vars: Variables)
    requires AllPlain(vars) && OperationOk(op) && TableOk(table)
    requires Topological(EdgesOf(table), order) && SpreadNames(op.selections) <= table.Keys
    requires Occurrences(op, table, order, vars).Some?
    ensures forall i :: 0 <= i < |Occurrences(op, table, order, vars).value| ==>
      PlainView(Occurrences(op, table, order, vars).value[i])
  {
    ParsedDirectivesAreClean(op.directives, 0, false);
    DirectiveConditionsArePlain(op.directives, vars);
    assert order[..|order|] == order;
    InlinedIsClean(table, order, |order|, op.selections, 0);
    ListingIsPlain(Inlined(table, order, op.selections), 0, None, [], DirectiveConditions(op.directives, vars).value,
                   vars);
  }

  /** The reference list is a preorder forest that drops no occurrence. */
  lemma {:induction false} OccurrencesNest(op: Operation, table: Table, order: seq<string>, vars: Variables)
    requires Topological(EdgesOf(table), order) && SpreadNames(op.selections) <= table.Keys
    requires Occurrences(op, table, order, vars).Some?
    ensures var l := Occurrences(op, table, order, vars).value;
      && |l| == FieldCount(Inlined(table, order, op.selections))
      && forall i :: 0 <= i < |l| ==>
        match l[i].parent
        case None => l[i].path == [l[i].responseName]
        case Some(p) => p < i && l[i].path == l[p].path + [l[i].responseName] && l[p].conditions <= l[i].conditions
  {
    var conditions := DirectiveConditions(op.directives, vars).value;
    var ns, l := Inlined(table, order, op.selections), Occurrences(op, table, order, vars).value;
    ListingNests(ns, 0, None, [], conditions, vars);
    ListingDropsNothing(ns, 0, None, [], conditions, vars);
    forall i | 0 <= i < |l|
      ensures match l[i].parent
        case None => l[i].path == [l[i].responseName]
        case Some(p) => p < i && l[i].path == l[p].path + [l[i].responseName] && l[p].conditions <= l[i].conditions
    {
      assert NestedAt(l, i, 0, None, [], conditions);
    }
  }
}
