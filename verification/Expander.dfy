/** The budgeted expansion of an operation into a flat list of field views (`Expander`). */
module Expander {
  import opened Outcome
  import opened OrderedMap
  import opened Syntax
  import opened Fragments
  import opened Inlining
  import opened Compaction
  import opened Listings
  import opened Budget
  import Printer

  datatype ExpandError = TooDeep | OverBudget | UndefinedVariable | TooManySelections | TooManyFields

  /** A charge is paid exactly when it is due in full and the budget covers it. */
  ghost predicate Paid(charge: Option<nat>, before: nat, ok: bool, after: nat) {
    (ok <==> charge.Some? && charge.value <= before) && (ok ==> after == before - charge.value)
  }

  /** Where a spread fragment stands in the order: before every fragment that spreads it. */
  lemma {:induction false} Place(table: map<string, Fragment>, order: seq<string>, k: nat, name: string)
    returns (j: nat)
    requires Inlinable(table, order, k, {name})
    ensures name in table && j < k && j == IndexOf(order, name)
    ensures Inlinable(table, order, j, SpreadNames(table[name].selections))
  {
    assert name in Names(order[..k]);
    IndexBelow(order, k, name);
    j := IndexOf(order, name);
    assert name in EdgesOf(table) && EdgesOf(table)[order[j]] <= Names(order[..j]);
  }

  class Expansion {
    const table: Table
    const variables: Variables
    const digest: Digest
    const conditionBytes: Condition -> nat
    const viewBytes: (seq<FieldView>, FieldView) -> nat
    ghost const original: Variables
    ghost const order: seq<string>
    var fields: seq<FieldView>
    var remaining: nat
    var steps: nat
    var large: Store

    ghost predicate Valid()
      reads this`large
    {
      && Injective(digest) && Filed(large, digest)
      && variables == CompactedVariables(original, digest) && AllPlain(original)
      && Holds(large, LargeTextsFields(original), digest)
      && Topological(EdgesOf(table), order)
    }

    ghost function Meter(): Budget.Meter { Budget.Meter(original, digest, conditionBytes, viewBytes) }

    ghost function Gauge(): Budget.Gauge
      reads this
    {
      Budget.Gauge(steps, remaining, fields)
    }

    constructor (table: Table, variables: Variables, digest: Digest, large: Store, conditionBytes: Condition -> nat,
                 viewBytes: (seq<FieldView>, FieldView) -> nat, ghost original: Variables, ghost order: seq<string>)
      requires Injective(digest) && Filed(large, digest) && AllPlain(original) && Topological(EdgesOf(table), order)
      requires variables == CompactedVariables(original, digest) && Holds(large, LargeTextsFields(original), digest)
      ensures Valid() && Gauge() == Budget.Gauge(0, MAX_EXPANDED_BYTES, [])
      ensures this.table == table && this.order == order && this.large == large
      ensures Meter() == Budget.Meter(original, digest, conditionBytes, viewBytes)
    {
      this.table, this.variables, this.digest, this.large := table, variables, digest, large;
      this.conditionBytes, this.viewBytes := conditionBytes, viewBytes;
      this.original, this.order := original, order;
      this.fields, this.remaining, this.steps := [], MAX_EXPANDED_BYTES, 0;
    }

    method Charge(bytes: nat) returns (ok: bool)
      modifies this`remaining
      ensures ok <==> bytes <= old(remaining)
      ensures remaining == if ok then old(remaining) - bytes else old(remaining)
    {
      ok := bytes <= remaining;
      if ok { remaining := remaining - bytes; }
    }

    /** A value is resolved exactly when its charge can be paid; the result is the compacted substitution. */
    method Resolve(value: Value, depth: nat) returns (r: Result<Value, ExpandError>)
      requires Valid()
      modifies this`remaining, this`large
      ensures Valid() && Grows(old(large), large)
      ensures Paid(ValueCharge(value, variables, depth), old(remaining), r.Ok?, remaining)
      ensures r.Ok? ==> var plain := Substitute(value, variables);
        plain.Some? && r.value == Compacted(plain.value, digest) && Holds(large, LargeTexts(plain.value), digest)
      decreases MAX_DEPTH + 2 - depth, 0, 1
    {
      hide Holds, Find, LeafBytes, SubstituteAll, SubstituteFields, CompactedAll, CompactedFields, LargeTextsAll,
        LargeTextsFields, ValuesCharge, FieldsCharge, Large;
      if depth > MAX_DEPTH { return Err(ExpandError.TooDeep); }
      var ok := Charge(16);
      if !ok { return Err(OverBudget); }
      if value.Variable? {
        r := ResolveNamed(value.name, depth);
      } else if value.List? {
        var all := ResolveAll(value.values, depth + 1);
        r := if all.Ok? then Ok(List(all.value)) else Err(all.error);
      } else if value.Object? {
        var all := ResolveFields(value.fields, depth + 1);
        r := if all.Ok? then Ok(Object(all.value)) else Err(all.error);
      } else {
        r := ResolveLeaf(value);
      }
    }

    /** The value of a variable is resolved where it is used, one level down. */
    method ResolveNamed(name: string, depth: nat) returns (r: Result<Value, ExpandError>)
      requires Valid() && depth <= MAX_DEPTH
      modifies this`remaining, this`large
      ensures Valid() && Grows(old(large), large)
      ensures var found := Find(variables, name);
        Paid(if found.None? then None else ValueCharge(found.value, variables, depth + 1), old(remaining), r.Ok?,
             remaining)
      ensures r.Ok? ==> var plain := Substitute(Variable(name), variables);
        plain.Some? && r.value == Compacted(plain.value, digest) && Holds(large, LargeTexts(plain.value), digest)
      decreases MAX_DEPTH + 2 - depth, 0, 0
    {
      var found := Find(variables, name);
      if found.None? { return Err(UndefinedVariable); }
      CompactedIsFreeFields(original, digest);
      SubstituteFree(found.value, variables);
      r := Resolve(found.value, depth + 1);
    }

    method ResolveLeaf(value: Value) returns (r: Result<Value, ExpandError>)
      requires Valid() && !value.Variable? && !value.List? && !value.Object?
      modifies this`remaining, this`large
      ensures Valid() && Grows(old(large), large)
      ensures Paid(Some(LeafBytes(value)), old(remaining), r.Ok?, remaining)
      ensures r.Ok? ==> r.value == Compacted(value, digest) && Holds(large, LargeTexts(value), digest)
    {
      var ok;
      if value.Str? && Large(value.text) {
        var compacted, store := Compact(value, large, digest);
        HoldsGrows(large, store, LargeTextsFields(original), digest);
        large := store;
        ok := Charge(96);
        r := if ok then Ok(compacted) else Err(OverBudget);
      } else {
        ok := Charge(Bytes(Printer.ValueText(value, "")));
        r := if ok then Ok(value) else Err(OverBudget);
      }
    }

    method ResolveAll(values: seq<Value>, depth: nat) returns (r: Result<seq<Value>, ExpandError>)
      requires Valid()
      modifies this`remaining, this`large
      ensures Valid() && Grows(old(large), large)
      ensures Paid(ValuesCharge(values, variables, depth), old(remaining), r.Ok?, remaining)
      ensures r.Ok? ==> var plain := SubstituteAll(values, variables);
        && plain.Some? && r.value == CompactedAll(plain.value, digest)
        && Holds(large, LargeTextsAll(plain.value), digest)
      decreases MAX_DEPTH + 2 - depth, 1, |values|
    {
      if values == [] { return Ok([]); }
      var head := Resolve(values[0], depth);
      if head.Err? { return Err(head.error); }
      ghost var before := large;
      var tail := ResolveAll(values[1..], depth);
      if tail.Err? { return Err(tail.error); }
      HoldsGrows(before, large, LargeTexts(Substitute(values[0], variables).value), digest);
      r := Ok([head.value] + tail.value);
      ghost var plain := SubstituteAll(values, variables).value;
      assert plain[1..] == SubstituteAll(values[1..], variables).value;
    }

    /** Object fields at depth, and arguments at depth 0. */
    method ResolveFields(fields: seq<Entry<Value>>, depth: nat) returns (r: Result<seq<Entry<Value>>, ExpandError>)
      requires Valid()
      modifies this`remaining, this`large
      ensures Valid() && Grows(old(large), large)
      ensures Paid(FieldsCharge(fields, variables, depth), old(remaining), r.Ok?, remaining)
      ensures r.Ok? ==> var plain := SubstituteFields(fields, variables);
        && plain.Some? && r.value == CompactedFields(plain.value, digest)
        && Holds(large, LargeTextsFields(plain.value), digest)
      decreases MAX_DEPTH + 2 - depth, 1, |fields|
    {
      if fields == [] { return Ok([]); }
      var ok := Charge(Bytes(fields[0].key));
      if !ok { return Err(OverBudget); }
      var head := Resolve(fields[0].value, depth);
      if head.Err? { return Err(head.error); }
      ghost var before := large;
      var tail := ResolveFields(fields[1..], depth);
      if tail.Err? { return Err(tail.error); }
      HoldsGrows(before, large, LargeTexts(Substitute(fields[0].value, variables).value), digest);
      r := Ok([Entry(fields[0].key, head.value)] + tail.value);
      ghost var plain := SubstituteFields(fields, variables).value;
      assert plain[1..] == SubstituteFields(fields[1..], variables).value;
    }

    /** Resolved arguments are the compacted form of plain substitution of the original variables. */
    method Arguments(args: seq<Entry<Value>>) returns (r: Result<seq<Entry<Value>>, ExpandError>)
      requires Valid()
      modifies this`remaining, this`large
      ensures Valid() && Grows(old(large), large)
      ensures Paid(ArgumentsCharge(args, Meter()), old(remaining), r.Ok?, remaining)
      ensures r.Ok? ==> var plain := SubstituteFields(args, original);
        && plain.Some? && r.value == CompactedFields(plain.value, digest)
        && Holds(large, LargeTextsFields(plain.value), digest)
    {
      r := ResolveFields(args, 0);
      SubstituteCompactedFields(args, original, digest);
    }

    method OneCondition(d: Directive) returns (r: Result<Condition, ExpandError>)
      requires Valid()
      modifies this`remaining, this`large
      ensures Valid() && Grows(old(large), large)
      ensures Paid(DirectiveCharge(d, Meter()), old(remaining), r.Ok?, remaining)
      ensures r.Ok? ==> var plain := SubstituteFields(d.arguments, original);
        && plain.Some? && r.value == CompactCondition(ByDirective(d.name, plain.value), digest)
        && ConditionHeld(ByDirective(d.name, plain.value), large, digest)
    {
      hide FieldsCharge, SubstituteFields, CompactedFields, Holds, LargeTextsFields;
      var args := Arguments(d.arguments);
      if args.Err? { return Err(args.error); }
      var condition := ByDirective(d.name, args.value);
      var ok := Charge(conditionBytes(condition));
      r := if ok then Ok(condition) else Err(OverBudget);
    }

    /** The parent's conditions, then those of the directives. */
    method Conditions(directives: seq<Directive>, parent: seq<Condition>)
      returns (r: Result<seq<Condition>, ExpandError>)
      requires Valid()
      modifies this`remaining, this`large
      ensures Valid() && Grows(old(large), large)
      ensures Paid(DirectivesCharge(directives, Meter()), old(remaining), r.Ok?, remaining)
      ensures r.Ok? ==> var plain := DirectiveConditions(directives, original);
        plain.Some? && r.value == parent + CompactConditions(plain.value, digest)
        && ConditionsHeld(plain.value, large, digest)
    {
      hide DirectiveCharge, SubstituteFields, Holds, Valid, CompactedFields, ConditionHeld;
      var conditions := parent;
      ghost var done: seq<Condition> := [];
      ghost var spent: nat, m := 0, Meter();
      assert directives[0..] == directives;
      JoinNoConditions(DirectiveConditions(directives, original));
      assert parent + CompactConditions([], digest) == parent;
      for i := 0 to |directives|
        invariant Valid() && Grows(old(large), large)
        invariant remaining + spent == old(remaining)
        invariant DirectivesCharge(directives, m) == Plus(Some(spent), DirectivesCharge(directives[i..], m))
        invariant DirectiveConditions(directives, original)
               == JoinConditions(done, DirectiveConditions(directives[i..], original))
        invariant conditions == parent + CompactConditions(done, digest) && ConditionsHeld(done, large, digest)
      {
        var d := directives[i];
        ghost var before := large;
        FirstDirective(directives, i, spent, done, m);
        var next := OneCondition(d);
        if next.Err? { return Err(next.error); }
        ghost var plain := ByDirective(d.name, SubstituteFields(d.arguments, original).value);
        HeldGrows(done, [], before, large, digest);
        CompactAppends(done, [plain], digest);
        assert CompactConditions([plain], digest) == [next.value];
        conditions := conditions + [next.value];
        spent := spent + DirectiveCharge(d, m).value;
        done := done + [plain];
      }
      assert directives[|directives|..] == [] && done + [] == done;
      r := Ok(conditions);
    }

    /** `expand`: succeeds exactly when the limits allow the inlined selections as a whole, and then appends the
        display form of their listing. */
    method Expand(selections: seq<Selection>, parent: Option<nat>, path: seq<string>, conditions: seq<Condition>,
                  depth: nat, ghost plain: seq<Condition>, ghost k: nat) returns (r: Result<(), ExpandError>)
      requires Valid() && Inlinable(table, order, k, SpreadNames(selections)) && InLimits(Gauge())
      requires conditions == CompactConditions(plain, digest) && ConditionsHeld(plain, large, digest)
      requires parent.Some? ==> parent.value < |fields|
      modifies this`fields, this`remaining, this`steps, this`large
      ensures Valid() && Grows(old(large), large)
      ensures var ns := InlineAll(table, order, k, selections);
        && (r.Ok? <==> After(ns, depth, old(Gauge()), parent, path, plain, Meter()).Some?)
        && (r.Ok? ==> Gauge() == After(ns, depth, old(Gauge()), parent, path, plain, Meter()).value)
      ensures r.Ok? ==>
        var l := Listing(InlineAll(table, order, k, selections), |old(fields)|, parent, path, plain, original);
        l.Some? && fields == old(fields) + CompactViews(l.value, digest) && ViewsHeld(l.value, large, digest)
      decreases MAX_DEPTH + 2 - depth, 2
    {
      hide After, AfterNode, Listing, ListNode, InlineAll, InlineOne, Inlinable, Valid, ConditionsHeld, ViewsHeld;
      ghost var nodes, base, m := InlineAll(table, order, k, selections), |fields|, Meter();
      ghost var whole, start := Listing(nodes, base, parent, path, plain, original), Gauge();
      if depth > MAX_DEPTH {
        AfterTooDeep(nodes, depth, start, parent, path, plain, m);
        return Err(ExpandError.TooDeep);
      }
      ghost var done: seq<FieldView> := [];
      assert nodes[0..] == nodes && fields + CompactViews([], digest) == fields;
      JoinNothing(whole);
      NothingHeld(large, digest);
      for i := 0 to |selections|
        invariant Valid() && Grows(old(large), large) && InLimits(Gauge())
        invariant ConditionsHeld(plain, large, digest) && ViewsHeld(done, large, digest)
        invariant fields == old(fields) + CompactViews(done, digest)
        invariant whole == Join(done, Listing(nodes[i..], base + |done|, parent, path, plain, original))
        invariant After(nodes, depth, start, parent, path, plain, m)
               == After(nodes[i..], depth, Gauge(), parent, path, plain, m)
      {
        InlineAllAt(table, order, k, selections, i);
        ghost var before, g := large, Gauge();
        assert nodes[i..][0] == nodes[i] && nodes[i..][1..] == nodes[i + 1..];
        AfterFirst(nodes[i..], depth, g, parent, path, plain, m);
        r := ExpandOne(selections[i], parent, path, conditions, depth, plain, k);
        if r.Err? { return; }
        NodeInLimits(nodes[i], depth, g, parent, path, plain, m);
        ghost var more := ListNode(nodes[i], base + |done|, parent, path, plain, original).value;
        Absorb(nodes, i, done, more, base, parent, path, plain, original, digest, before, large, old(fields));
        done := done + more;
      }
      assert nodes[|selections|..] == [] && done + [] == done;
      AfterNothing(depth, Gauge(), parent, path, plain, m);
      ListNothing(base + |done|, parent, path, plain, original);
      r := Ok(());
    }

    method ExpandOne(selection: Selection, parent: Option<nat>, path: seq<string>, conditions: seq<Condition>,
                     depth: nat, ghost plain: seq<Condition>, ghost k: nat) returns (r: Result<(), ExpandError>)
      requires Valid() && Inlinable(table, order, k, NamesIn(selection)) && depth <= MAX_DEPTH && InLimits(Gauge())
      requires conditions == CompactConditions(plain, digest) && ConditionsHeld(plain, large, digest)
      requires parent.Some? ==> parent.value < |fields|
      modifies this`fields, this`remaining, this`steps, this`large
      ensures Valid() && Grows(old(large), large)
      ensures var n := InlineOne(table, order, k, selection);
        && (r.Ok? <==> AfterNode(n, depth, old(Gauge()), parent, path, plain, Meter()).Some?)
        && (r.Ok? ==> Gauge() == AfterNode(n, depth, old(Gauge()), parent, path, plain, Meter()).value)
      ensures r.Ok? ==>
        var l := ListNode(InlineOne(table, order, k, selection), |old(fields)|, parent, path, plain, original);
        l.Some? && fields == old(fields) + CompactViews(l.value, digest) && ViewsHeld(l.value, large, digest)
      decreases MAX_DEPTH + 2 - depth, 1
    {
      hide After, AfterNode, Listing, ListNode, InlineAll, Valid, ConditionsHeld, ViewsHeld;
      ghost var n, g := InlineOne(table, order, k, selection), Gauge();
      steps := steps + 1;
      if steps > MAX_STEPS {
        AfterTooMany(n, depth, g, parent, path, plain, Meter());
        return Err(TooManySelections);
      }
      match selection
      case Field(name, alias, arguments, directives, selections) =>
        r := ExpandField(selection, parent, path, conditions, depth, plain, k, g);
      case Inline(onType, directives, selections) =>
        r := ExpandInline(onType, directives, selections, parent, path, conditions, depth, plain, k, g);
      case Spread(name, directives) =>
        r := ExpandSpread(name, directives, parent, path, conditions, depth, plain, k, g);
    }

    /** A field's own view, before its selections are expanded. */
    method PushField(selection: Selection, parent: Option<nat>, path: seq<string>, conditions: seq<Condition>,
                     ghost n: Node, ghost plain: seq<Condition>, ghost g: Budget.Gauge)
      returns (r: Result<FieldView, ExpandError>)
      requires Valid() && selection.Field? && n.FieldNode? && steps == g.steps + 1 <= MAX_STEPS
      requires n.name == selection.name && n.alias == selection.alias
      requires n.arguments == selection.arguments && n.directives == selection.directives
      requires g.remaining == remaining && g.fields == fields
      requires conditions == CompactConditions(plain, digest) && ConditionsHeld(plain, large, digest)
      modifies this`fields, this`remaining, this`large
      ensures Valid() && Grows(old(large), large)
      ensures var view := ViewOf(n, parent, path, plain, original);
        && (r.Ok? <==> Pushed(n, g, view, Meter()).Some?)
        && (r.Ok? ==> Gauge() == Pushed(n, g, view, Meter()).value && r.value == CompactView(view, digest)
                      && ViewHeld(view, large, digest))
    {
      hide ArgumentsCharge, DirectivesCharge, DirectiveConditions, SubstituteFields, Valid, CompactedFields, Holds;
      var response := ResponseName(selection.name, selection.alias);
      if |fields| >= MAX_FIELDS { return Err(TooManyFields); }
      var arguments := Arguments(selection.arguments);
      if arguments.Err? { return Err(arguments.error); }
      ghost var args, middle := SubstituteFields(selection.arguments, original).value, large;
      var all := Conditions(selection.directives, conditions);
      if all.Err? { return Err(all.error); }
      ghost var added := DirectiveConditions(selection.directives, original).value;
      HeldGrows(plain, [], old(large), large, digest);
      HoldsGrows(middle, large, LargeTextsFields(args), digest);
      CompactAppends(plain, added, digest);
      HeldAppends(plain, added, large, digest);
      var shown := FieldView(selection.name, response, path + [response], parent, arguments.value, all.value);
      var ok := Charge(viewBytes(fields, shown));
      if !ok { return Err(OverBudget); }
      fields := fields + [shown];
      r := Ok(shown);
    }

    method ExpandField(selection: Selection, parent: Option<nat>, path: seq<string>, conditions: seq<Condition>,
                       depth: nat, ghost plain: seq<Condition>, ghost k: nat, ghost g: Budget.Gauge)
      returns (r: Result<(), ExpandError>)
      requires Valid() && selection.Field? && Inlinable(table, order, k, NamesIn(selection)) && depth <= MAX_DEPTH
      requires InLimits(g) && steps == g.steps + 1 <= MAX_STEPS && g.remaining == remaining && g.fields == fields
      requires conditions == CompactConditions(plain, digest) && ConditionsHeld(plain, large, digest)
      requires parent.Some? ==> parent.value < |fields|
      modifies this`fields, this`remaining, this`steps, this`large
      ensures Valid() && Grows(old(large), large)
      ensures var n := InlineOne(table, order, k, selection);
        && (r.Ok? <==> AfterNode(n, depth, g, parent, path, plain, Meter()).Some?)
        && (r.Ok? ==> Gauge() == AfterNode(n, depth, g, parent, path, plain, Meter()).value)
      ensures r.Ok? ==>
        var l := ListNode(InlineOne(table, order, k, selection), |old(fields)|, parent, path, plain, original);
        l.Some? && fields == old(fields) + CompactViews(l.value, digest) && ViewsHeld(l.value, large, digest)
      decreases MAX_DEPTH + 2 - depth, 0
    {
      hide After, AfterNode, Listing, ListNode, InlineAll, Valid, ConditionsHeld, ViewsHeld, ViewHeld, OwnCharge,
        IsView;
      ghost var n, m := InlineOne(table, order, k, selection), Meter();
      ghost var view := ViewOf(n, parent, path, plain, original);
      var index := |fields|;
      FieldThenSelections(n, depth, g, parent, path, plain, m);
      var shown := PushField(selection, parent, path, conditions, n, plain, g);
      if shown.Err? { return Err(shown.error); }
      ghost var before := large;
      HeldParts(view, large, digest);
      r := Expand(selection.selections, Some(index), shown.value.path, shown.value.conditions, depth + 1,
                  view.conditions, k);
      if r.Ok? {
        ChargedView(n, parent, path, plain, m);
        AbsorbField(n, view, index, path, plain, original, digest, before, large, old(fields));
      }
    }

    method ExpandInline(onType: Option<string>, directives: seq<Directive>, selections: seq<Selection>,
                        parent: Option<nat>, path: seq<string>, conditions: seq<Condition>, depth: nat,
                        ghost plain: seq<Condition>, ghost k: nat, ghost g: Budget.Gauge)
      returns (r: Result<(), ExpandError>)
      requires Valid() && Inlinable(table, order, k, SpreadNames(selections)) && depth <= MAX_DEPTH
      requires InLimits(g) && steps == g.steps + 1 <= MAX_STEPS && g.remaining == remaining && g.fields == fields
      requires conditions == CompactConditions(plain, digest) && ConditionsHeld(plain, large, digest)
      requires parent.Some? ==> parent.value < |fields|
      modifies this`fields, this`remaining, this`steps, this`large
      ensures Valid() && Grows(old(large), large)
      ensures var n := InlineNode(onType, directives, InlineAll(table, order, k, selections));
        && (r.Ok? <==> AfterNode(n, depth, g, parent, path, plain, Meter()).Some?)
        && (r.Ok? ==> Gauge() == AfterNode(n, depth, g, parent, path, plain, Meter()).value)
      ensures r.Ok? ==>
        var n := InlineNode(onType, directives, InlineAll(table, order, k, selections));
        var l := ListNode(n, |old(fields)|, parent, path, plain, original);
        l.Some? && fields == old(fields) + CompactViews(l.value, digest) && ViewsHeld(l.value, large, digest)
      decreases MAX_DEPTH + 2 - depth, 0
    {
      hide After, AfterNode, Listing, ListNode, InlineAll, Valid, ConditionsHeld, ViewsHeld, DirectivesCharge,
           DirectiveConditions;
      ghost var n, m := InlineNode(onType, directives, InlineAll(table, order, k, selections)), Meter();
      GroupThenSelections(n, depth, g, parent, path, plain, m);
      var all := Conditions(directives, conditions);
      if all.Err? { return Err(all.error); }
      ghost var added := DirectiveConditions(directives, original).value;
      ghost var more := added + TypeConditions(onType);
      assert TypeConditions(onType) == CompactConditions(TypeConditions(onType), digest);
      HeldGrows(plain, [], old(large), large, digest);
      TypesHeld(onType, large, digest);
      AppendBoth(plain, added, TypeConditions(onType), large, digest);
      assert NodeConditions(n, original) == Some(more);
      r := Expand(selections, parent, path, all.value + TypeConditions(onType), depth + 1, plain + more, k);
      ListGroup(n, |old(fields)|, parent, path, plain, original);
    }

    method ExpandSpread(name: string, directives: seq<Directive>, parent: Option<nat>, path: seq<string>,
                        conditions: seq<Condition>, depth: nat, ghost plain: seq<Condition>, ghost k: nat,
                        ghost g: Budget.Gauge)
      returns (r: Result<(), ExpandError>)
      requires Valid() && Inlinable(table, order, k, {name}) && depth <= MAX_DEPTH
      requires InLimits(g) && steps == g.steps + 1 <= MAX_STEPS && g.remaining == remaining && g.fields == fields
      requires conditions == CompactConditions(plain, digest) && ConditionsHeld(plain, large, digest)
      requires parent.Some? ==> parent.value < |fields|
      modifies this`fields, this`remaining, this`steps, this`large
      ensures Valid() && Grows(old(large), large)
      ensures var n := InlineOne(table, order, k, Spread(name, directives));
        && (r.Ok? <==> AfterNode(n, depth, g, parent, path, plain, Meter()).Some?)
        && (r.Ok? ==> Gauge() == AfterNode(n, depth, g, parent, path, plain, Meter()).value)
      ensures r.Ok? ==>
        var n := InlineOne(table, order, k, Spread(name, directives));
        var l := ListNode(n, |old(fields)|, parent, path, plain, original);
        l.Some? && fields == old(fields) + CompactViews(l.value, digest) && ViewsHeld(l.value, large, digest)
      decreases MAX_DEPTH + 2 - depth, 0
    {
      hide After, AfterNode, Listing, ListNode, InlineAll, Valid, ConditionsHeld, ViewsHeld, DirectivesCharge,
           DirectiveConditions, Inlinable;
      ghost var n, m := InlineOne(table, order, k, Spread(name, directives)), Meter();
      ghost var j := Place(table, order, k, name);
      var fragment := table[name];
      SpreadNode(table, order, k, name, directives, j);
      GroupThenSelections(n, depth, g, parent, path, plain, m);
      var mark := ByFragment(name, fragment.onType);
      var all := SpreadConditions(directives, fragment.directives, conditions, mark, plain);
      if all.Err? { return Err(all.error); }
      ghost var added := DirectiveConditions(directives, original).value
                         + (DirectiveConditions(fragment.directives, original).value + [mark]);
      assert NodeConditions(n, original) == Some(added);
      r := Expand(fragment.selections, parent, path, all.value, depth + 1, plain + added, j);
      ListGroup(n, |old(fields)|, parent, path, plain, original);
    }

    /** The conditions of a spread: its own directives, the fragment's, and the fragment itself. */
    method SpreadConditions(own: seq<Directive>, inner: seq<Directive>, conditions: seq<Condition>, mark: Condition,
                            ghost plain: seq<Condition>)
      returns (r: Result<seq<Condition>, ExpandError>)
      requires Valid() && mark.ByFragment?
      requires conditions == CompactConditions(plain, digest) && ConditionsHeld(plain, large, digest)
      modifies this`remaining, this`large
      ensures Valid() && Grows(old(large), large)
      ensures Paid(Plus(DirectivesCharge(own, Meter()), DirectivesCharge(inner, Meter())), old(remaining), r.Ok?,
                   remaining)
      ensures r.Ok? ==>
        && DirectiveConditions(own, original).Some? && DirectiveConditions(inner, original).Some?
        && var added := DirectiveConditions(own, original).value
           + (DirectiveConditions(inner, original).value + [mark]);
        && r.value == CompactConditions(plain + added, digest) && ConditionsHeld(plain + added, large, digest)
    {
      hide DirectivesCharge, DirectiveConditions, Valid, ConditionsHeld, CompactCondition;
      var first := Conditions(own, conditions);
      if first.Err? { return Err(first.error); }
      ghost var mine, middle := DirectiveConditions(own, original).value, large;
      var second := Conditions(inner, first.value);
      if second.Err? { return Err(second.error); }
      ghost var theirs := DirectiveConditions(inner, original).value;
      HeldGrows(plain, [], old(large), large, digest);
      HeldGrows(mine, [], middle, large, digest);
      MarkHeld(mark, large, digest);
      AppendBoth(plain, mine, theirs + [mark], large, digest);
      HeldAppends(theirs, [mark], large, digest);
      CompactAppends(theirs, [mark], digest);
      r := Ok(second.value + [mark]);
    }
  }

  // ---------------------------------------------------------------- small steps

  lemma {:induction false} JoinNoConditions(whole: Option<seq<Condition>>)
    ensures JoinConditions([], whole) == whole
  {
    if whole.Some? { assert [] + whole.value == whole.value; }
  }

  lemma {:induction false} FirstDirective(ds: seq<Directive>, i: nat, spent: nat, done: seq<Condition>, m: Budget.Meter)
    requires i < |ds|
    ensures Plus(Some(spent), DirectivesCharge(ds[i..], m))
         == Plus(Plus(Some(spent), DirectiveCharge(ds[i], m)), DirectivesCharge(ds[i + 1..], m))
    ensures var args, rest := SubstituteFields(ds[i].arguments, m.vars), DirectiveConditions(ds[i + 1..], m.vars);
      JoinConditions(done, DirectiveConditions(ds[i..], m.vars))
      == if args.None? then None else JoinConditions(done + [ByDirective(ds[i].name, args.value)], rest)
  {
    assert ds[i..][0] == ds[i] && ds[i..][1..] == ds[i + 1..];
    var args, rest := SubstituteFields(ds[i].arguments, m.vars), DirectiveConditions(ds[i + 1..], m.vars);
    if args.Some? && rest.Some? {
      var first := ByDirective(ds[i].name, args.value);
      assert done + ([first] + rest.value) == done + [first] + rest.value;
    }
  }

  lemma {:induction false} HeldAppends(a: seq<Condition>, b: seq<Condition>, large: Store, digest: Digest)
    ensures ConditionsHeld(a, large, digest) && ConditionsHeld(b, large, digest) ==>
      ConditionsHeld(a + b, large, digest)
  {
  }

  lemma {:induction false} AppendBoth(a: seq<Condition>, b: seq<Condition>, c: seq<Condition>, large: Store,
                                      digest: Digest)
    ensures CompactConditions(a + (b + c), digest)
         == CompactConditions(a, digest) + CompactConditions(b, digest) + CompactConditions(c, digest)
    ensures ConditionsHeld(a, large, digest) && ConditionsHeld(b, large, digest) && ConditionsHeld(c, large, digest)
      ==> ConditionsHeld(a + (b + c), large, digest)
  {
    CompactAppends(a, b + c, digest);
    CompactAppends(b, c, digest);
    HeldAppends(b, c, large, digest);
    HeldAppends(a, b + c, large, digest);
  }

  lemma {:induction false} TypesHeld(onType: Option<string>, large: Store, digest: Digest)
    ensures ConditionsHeld(TypeConditions(onType), large, digest)
  {
  }

  lemma {:induction false} MarkHeld(mark: Condition, large: Store, digest: Digest)
    requires mark.ByFragment?
    ensures ConditionsHeld([mark], large, digest) && CompactConditions([mark], digest) == [mark]
  {
  }

  lemma {:induction false} NothingHeld(large: Store, digest: Digest)
    ensures ViewsHeld([], large, digest)
  {
  }

  lemma {:induction false} HeldParts(view: FieldView, large: Store, digest: Digest)
    requires ViewHeld(view, large, digest)
    ensures ConditionsHeld(view.conditions, large, digest)
    ensures CompactView(view, digest).conditions == CompactConditions(view.conditions, digest)
    ensures CompactView(view, digest).path == view.path
  {
  }

  lemma {:induction false} ListNothing(base: nat, parent: Option<nat>, path: seq<string>, conditions: seq<Condition>,
                                       vars: Variables)
    ensures Listing([], base, parent, path, conditions, vars) == Some([])
  {
  }

  lemma {:induction false} NodeInLimits(n: Node, depth: nat, g: Budget.Gauge, parent: Option<nat>, path: seq<string>,
                                        conditions: seq<Condition>, m: Budget.Meter)
    ensures var h := AfterNode(n, depth, g, parent, path, conditions, m); h.Some? ==> InLimits(h.value)
  {
    hide Height, Visits, NodesCharge, ListNode, Spend;
    Reached(g, depth + NodeHeight(n), NodeVisits(n), NodeCharge(n, m),
            ListNode(n, |g.fields|, parent, path, conditions, m.vars), m);
  }

  lemma {:induction false} AfterTooMany(n: Node, depth: nat, g: Budget.Gauge, parent: Option<nat>, path: seq<string>,
                                        conditions: seq<Condition>, m: Budget.Meter)
    requires g.steps + 1 > MAX_STEPS
    ensures AfterNode(n, depth, g, parent, path, conditions, m).None?
  {
    hide Height, Visits, NodeCharge, ListNode;
  }

  lemma {:induction false} SpreadNode(table: Table, order: seq<string>, k: nat, name: string,
                                      directives: seq<Directive>, j: nat)
    requires Inlinable(table, order, k, {name}) && name in table && j == IndexOf(order, name)
    requires Inlinable(table, order, j, SpreadNames(table[name].selections))
    ensures InlineOne(table, order, k, Spread(name, directives))
         == FragmentNode(name, table[name].onType, directives, table[name].directives,
                         InlineAll(table, order, j, table[name].selections))
  {
  }
}
