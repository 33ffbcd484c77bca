/** The reference for expansion: the preorder list of the field occurrences of an inlined operation, and the form in
    which it is displayed. */
module Listings {
  import opened Outcome
  import opened OrderedMap
  import opened Syntax
  import opened Fragments
  import opened Inlining
  import opened Compaction

  datatype Condition =
    | ByDirective(name: string, arguments: seq<Entry<Value>>)
    | ByType(onType: string)
    | ByFragment(fragment: string, target: string)

  datatype FieldView = FieldView(field: string, responseName: string, path: seq<string>, parent: Option<nat>,
                                 arguments: seq<Entry<Value>>, conditions: seq<Condition>)

  // ---------------------------------------------------------------- the reference listing

  function ResponseName(name: string, alias: Option<string>): string {
    if alias.Some? then alias.value else name
  }

  /** The conditions that a list of directives adds, with variables substituted. */
  function DirectiveConditions(ds: seq<Directive>, vars: Variables): (r: Option<seq<Condition>>) {
    if ds == [] then Some([])
    else
      var args, rest := SubstituteFields(ds[0].arguments, vars), DirectiveConditions(ds[1..], vars);
      if args.None? || rest.None? then None else Some([ByDirective(ds[0].name, args.value)] + rest.value)
  }

  function TypeConditions(onType: Option<string>): seq<Condition> {
    if onType.Some? then [ByType(onType.value)] else []
  }

  function AndThen(first: Option<seq<Condition>>, more: seq<Condition>): Option<seq<Condition>> {
    if first.None? then None else Some(first.value + more)
  }

  /** What a node adds to the conditions of everything below it. */
  function NodeConditions(n: Node, vars: Variables): Option<seq<Condition>> {
    match n
    case FieldNode(_, _, _, directives, _) => DirectiveConditions(directives, vars)
    case InlineNode(onType, directives, _) => AndThen(DirectiveConditions(directives, vars), TypeConditions(onType))
    case FragmentNode(name, target, directives, definition, _) =>
      var rest := DirectiveConditions(definition, vars);
      if rest.None? then None
      else AndThen(DirectiveConditions(directives, vars), rest.value + [ByFragment(name, target)])
  }

  /** The preorder list of the field occurrences of an inlined tree, numbered from `base`;
      None when a variable is undefined. */
  ghost function Listing(ns: seq<Node>, base: nat, parent: Option<nat>, path: seq<string>,
                         conditions: seq<Condition>, vars: Variables): (r: Option<seq<FieldView>>)
    decreases ns, 1
  {
    if ns == [] then Some([])
    else
      var head := ListNode(ns[0], base, parent, path, conditions, vars);
      if head.None? then None
      else
        var rest := Listing(ns[1..], base + |head.value|, parent, path, conditions, vars);
        if rest.None? then None else Some(head.value + rest.value)
  }

  ghost function ListNode(n: Node, base: nat, parent: Option<nat>, path: seq<string>,
                          conditions: seq<Condition>, vars: Variables): (r: Option<seq<FieldView>>)
    decreases n, 0
  {
    var added := NodeConditions(n, vars);
    if added.None? then None
    else match n
      case FieldNode(name, alias, arguments, _, children) =>
        var args, response := SubstituteFields(arguments, vars), ResponseName(name, alias);
        if args.None? then None
        else
          var view := FieldView(name, response, path + [response], parent, args.value, conditions + added.value);
          var below := Listing(children, base + 1, Some(base), view.path, view.conditions, vars);
          if below.None? then None else Some([view] + below.value)
      case InlineNode(_, _, children) => Listing(children, base, parent, path, conditions + added.value, vars)
      case FragmentNode(_, _, _, _, children) => Listing(children, base, parent, path, conditions + added.value, vars)
  }

  // ---------------------------------------------------------------- the display form of a listing

  function CompactCondition(c: Condition, digest: Digest): Condition {
    match c
    case ByDirective(name, arguments) => ByDirective(name, CompactedFields(arguments, digest))
    case _ => c
  }

  function CompactConditions(cs: seq<Condition>, digest: Digest): seq<Condition> {
    seq(|cs|, i requires 0 <= i < |cs| => CompactCondition(cs[i], digest))
  }

  function CompactView(v: FieldView, digest: Digest): FieldView {
    v.(arguments := CompactedFields(v.arguments, digest), conditions := CompactConditions(v.conditions, digest))
  }

  function CompactViews(vs: seq<FieldView>, digest: Digest): seq<FieldView> {
    seq(|vs|, i requires 0 <= i < |vs| => CompactView(vs[i], digest))
  }

  ghost predicate ConditionHeld(c: Condition, large: Store, digest: Digest) {
    c.ByDirective? ==> Holds(large, LargeTextsFields(c.arguments), digest)
  }

  ghost predicate ConditionsHeld(cs: seq<Condition>, large: Store, digest: Digest) {
    forall i :: 0 <= i < |cs| ==> ConditionHeld(cs[i], large, digest)
  }

  ghost predicate ViewHeld(v: FieldView, large: Store, digest: Digest) {
    Holds(large, LargeTextsFields(v.arguments), digest) && ConditionsHeld(v.conditions, large, digest)
  }

  /** Every large string of a listing is in the store. */
  ghost predicate ViewsHeld(vs: seq<FieldView>, large: Store, digest: Digest) {
    forall i :: 0 <= i < |vs| ==> ViewHeld(vs[i], large, digest)
  }

  lemma {:induction false} HeldGrows(cs: seq<Condition>, vs: seq<FieldView>, large: Store, large': Store,
                                     digest: Digest)
    requires ConditionsHeld(cs, large, digest) && ViewsHeld(vs, large, digest) && Grows(large, large')
    ensures ConditionsHeld(cs, large', digest) && ViewsHeld(vs, large', digest)
  {
    forall i | 0 <= i < |vs| ensures ViewHeld(vs[i], large', digest) {
      assert ViewHeld(vs[i], large, digest);
      var conditions := vs[i].conditions;
      assert forall j :: 0 <= j < |conditions| ==> ConditionHeld(conditions[j], large, digest);
    }
  }

  // ---------------------------------------------------------------- properties of the listing

  ghost predicate NestedAt(vs: seq<FieldView>, i: nat, base: nat, parent: Option<nat>, path: seq<string>,
                           conditions: seq<Condition>)
    requires i < |vs|
  {
    if vs[i].parent == parent then
      vs[i].path == path + [vs[i].responseName] && conditions <= vs[i].conditions
    else
      && vs[i].parent.Some? && base <= vs[i].parent.value < base + i
      && vs[i].path == vs[vs[i].parent.value - base].path + [vs[i].responseName]
      && vs[vs[i].parent.value - base].conditions <= vs[i].conditions
  }

  /** A listing is a forest in preorder: parents come first, and a field's path and conditions extend its parent's. */
  ghost predicate WellNested(vs: seq<FieldView>, base: nat, parent: Option<nat>, path: seq<string>,
                             conditions: seq<Condition>) {
    forall i :: 0 <= i < |vs| ==> NestedAt(vs, i, base, parent, path, conditions)
  }

  lemma {:induction false} NestAppend(a: seq<FieldView>, b: seq<FieldView>, base: nat, parent: Option<nat>,
                                      path: seq<string>, conditions: seq<Condition>)
    requires WellNested(a, base, parent, path, conditions) && WellNested(b, base + |a|, parent, path, conditions)
    ensures WellNested(a + b, base, parent, path, conditions)
  {
    forall i | 0 <= i < |a + b| ensures NestedAt(a + b, i, base, parent, path, conditions) {
      if i < |a| {
        assert NestedAt(a, i, base, parent, path, conditions) && (a + b)[i] == a[i];
      } else {
        assert NestedAt(b, i - |a|, base + |a|, parent, path, conditions) && (a + b)[i] == b[i - |a|];
      }
    }
  }

  lemma {:induction false} NestUnder(view: FieldView, below: seq<FieldView>, base: nat, path: seq<string>,
                                     conditions: seq<Condition>)
    requires view.parent.Some? ==> view.parent.value < base
    requires view.path == path + [view.responseName] && conditions <= view.conditions
    requires WellNested(below, base + 1, Some(base), view.path, view.conditions)
    ensures WellNested([view] + below, base, view.parent, path, conditions)
  {
    var all := [view] + below;
    forall i | 0 <= i < |all| ensures NestedAt(all, i, base, view.parent, path, conditions) {
      if i > 0 {
        assert NestedAt(below, i - 1, base + 1, Some(base), view.path, view.conditions) && all[i] == below[i - 1];
      }
    }
  }

  /** Below a node with more conditions, the nesting is also one for fewer. */
  lemma {:induction false} NestWeaken(vs: seq<FieldView>, base: nat, parent: Option<nat>, path: seq<string>,
                                      fewer: seq<Condition>, more: seq<Condition>)
    requires WellNested(vs, base, parent, path, more) && fewer <= more
    ensures WellNested(vs, base, parent, path, fewer)
  {
    forall i | 0 <= i < |vs| ensures NestedAt(vs, i, base, parent, path, fewer) {
      assert NestedAt(vs, i, base, parent, path, more);
    }
  }

  lemma {:induction false} ListingNests(ns: seq<Node>, base: nat, parent: Option<nat>, path: seq<string>,
                                        conditions: seq<Condition>, vars: Variables)
    requires Listing(ns, base, parent, path, conditions, vars).Some? && (parent.Some? ==> parent.value < base)
    ensures WellNested(Listing(ns, base, parent, path, conditions, vars).value, base, parent, path, conditions)
    decreases ns, 1
  {
    if ns != [] {
      var head := ListNode(ns[0], base, parent, path, conditions, vars).value;
      ListNodeNests(ns[0], base, parent, path, conditions, vars);
      ListingNests(ns[1..], base + |head|, parent, path, conditions, vars);
      NestAppend(head, Listing(ns[1..], base + |head|, parent, path, conditions, vars).value, base, parent, path,
                 conditions);
    }
  }

  lemma {:induction false} ListNodeNests(n: Node, base: nat, parent: Option<nat>, path: seq<string>,
                                         conditions: seq<Condition>, vars: Variables)
    requires ListNode(n, base, parent, path, conditions, vars).Some? && (parent.Some? ==> parent.value < base)
    ensures WellNested(ListNode(n, base, parent, path, conditions, vars).value, base, parent, path, conditions)
    decreases n, 0
  {
    var inner := conditions + NodeConditions(n, vars).value;
    match n
    case FieldNode(name, alias, arguments, _, children) =>
      var response := ResponseName(name, alias);
      var view := FieldView(name, response, path + [response], parent, SubstituteFields(arguments, vars).value, inner);
      ListingNests(children, base + 1, Some(base), view.path, inner, vars);
      NestUnder(view, Listing(children, base + 1, Some(base), view.path, inner, vars).value, base, path, conditions);
    case InlineNode(_, _, children) =>
      ListingNests(children, base, parent, path, inner, vars);
      NestWeaken(Listing(children, base, parent, path, inner, vars).value, base, parent, path, conditions, inner);
    case FragmentNode(_, _, _, _, children) =>
      ListingNests(children, base, parent, path, inner, vars);
      NestWeaken(Listing(children, base, parent, path, inner, vars).value, base, parent, path, conditions, inner);
  }

  /** How many field occurrences an inlined tree has. */
  ghost function FieldCount(ns: seq<Node>): nat
    decreases ns
  {
    if ns == [] then 0
    else (if ns[0].FieldNode? then 1 else 0) + FieldCount(ns[0].children) + FieldCount(ns[1..])
  }

  /** No occurrence is dropped, whatever its directives or type conditions say. */
  lemma {:induction false} ListingDropsNothing(ns: seq<Node>, base: nat, parent: Option<nat>, path: seq<string>,
                                               conditions: seq<Condition>, vars: Variables)
    requires Listing(ns, base, parent, path, conditions, vars).Some?
    ensures |Listing(ns, base, parent, path, conditions, vars).value| == FieldCount(ns)
    decreases ns
  {
    if ns != [] {
      var n := ns[0];
      var inner := conditions + NodeConditions(n, vars).value;
      match n {
        case FieldNode(name, alias, _, _, children) =>
          ListingDropsNothing(children, base + 1, Some(base), path + [ResponseName(name, alias)], inner, vars);
        case InlineNode(_, _, children) => ListingDropsNothing(children, base, parent, path, inner, vars);
        case FragmentNode(_, _, _, _, children) => ListingDropsNothing(children, base, parent, path, inner, vars);
      }
      var head := ListNode(n, base, parent, path, conditions, vars).value;
      ListingDropsNothing(ns[1..], base + |head|, parent, path, conditions, vars);
    }
  }

  // ---------------------------------------------------------------- building a listing piece by piece

  lemma {:induction false} HoldsGrows(large: Store, large': Store, texts: set<string>, digest: Digest)
    requires Holds(large, texts, digest) && Grows(large, large')
    ensures Holds(large', texts, digest)
  {
  }

  lemma {:induction false} InlineAllAt(table: Table, order: seq<string>, k: nat, ss: seq<Selection>, i: nat)
    requires Inlinable(table, order, k, SpreadNames(ss)) && i < |ss|
    ensures Inlinable(table, order, k, NamesIn(ss[i]))
    ensures InlineAll(table, order, k, ss)[i] == InlineOne(table, order, k, ss[i])
    decreases ss
  {
    if i > 0 { InlineAllAt(table, order, k, ss[1..], i - 1); }
  }

  ghost function Join(first: seq<FieldView>, rest: Option<seq<FieldView>>): Option<seq<FieldView>> {
    if rest.None? then None else Some(first + rest.value)
  }

  ghost function JoinConditions(first: seq<Condition>, rest: Option<seq<Condition>>): Option<seq<Condition>> {
    if rest.None? then None else Some(first + rest.value)
  }

  lemma {:induction false} JoinNothing(whole: Option<seq<FieldView>>)
    ensures Join([], whole) == whole
  {
    if whole.Some? { assert [] + whole.value == whole.value; }
  }

  /** One more node moved from the rest of a listing to its front. */
  lemma {:induction false} ListingStep(nodes: seq<Node>, i: nat, done: seq<FieldView>, more: seq<FieldView>, base: nat,
      parent: Option<nat>, path: seq<string>, conditions: seq<Condition>, vars: Variables)
    requires i < |nodes| && ListNode(nodes[i], base + |done|, parent, path, conditions, vars) == Some(more)
    ensures Join(done, Listing(nodes[i..], base + |done|, parent, path, conditions, vars))
         == Join(done + more, Listing(nodes[i + 1..], base + |done + more|, parent, path, conditions, vars))
  {
    assert nodes[i..][0] == nodes[i] && nodes[i..][1..] == nodes[i + 1..];
    var rest := Listing(nodes[i + 1..], base + |done| + |more|, parent, path, conditions, vars);
    if rest.Some? { assert done + (more + rest.value) == done + more + rest.value; }
  }

  lemma {:induction false} ViewsAppend(a: seq<FieldView>, b: seq<FieldView>, digest: Digest, large: Store)
    ensures CompactViews(a + b, digest) == CompactViews(a, digest) + CompactViews(b, digest)
    ensures ViewsHeld(a, large, digest) && ViewsHeld(b, large, digest) ==> ViewsHeld(a + b, large, digest)
  {
  }

  lemma {:induction false} CompactAppends(a: seq<Condition>, b: seq<Condition>, digest: Digest)
    ensures CompactConditions(a + b, digest) == CompactConditions(a, digest) + CompactConditions(b, digest)
  {
  }

  /** What one step of `expand` adds to the fields done so far. */
  lemma {:induction false} Absorb(nodes: seq<Node>, i: nat, done: seq<FieldView>, more: seq<FieldView>, base: nat,
      parent: Option<nat>, path: seq<string>, conditions: seq<Condition>, vars: Variables, digest: Digest,
      before: Store, after: Store, start: seq<FieldView>)
    requires i < |nodes| && ListNode(nodes[i], base + |done|, parent, path, conditions, vars) == Some(more)
    requires ConditionsHeld(conditions, before, digest) && ViewsHeld(done, before, digest)
    requires Grows(before, after) && ViewsHeld(more, after, digest)
    ensures ConditionsHeld(conditions, after, digest) && ViewsHeld(done + more, after, digest)
    ensures Join(done, Listing(nodes[i..], base + |done|, parent, path, conditions, vars))
         == Join(done + more, Listing(nodes[i + 1..], base + |done + more|, parent, path, conditions, vars))
    ensures start + CompactViews(done, digest) + CompactViews(more, digest) == start + CompactViews(done + more, digest)
  {
    HeldGrows(conditions, done, before, after, digest);
    ListingStep(nodes, i, done, more, base, parent, path, conditions, vars);
    ViewsAppend(done, more, digest, after);
  }

  /** A field's listing is its own view, then the listing of its selections. */
  lemma {:induction false} AbsorbField(n: Node, view: FieldView, base: nat, path: seq<string>,
                                       conditions: seq<Condition>, vars: Variables, digest: Digest, before: Store,
                                         after: Store, start: seq<FieldView>)
    requires n.FieldNode? && SubstituteFields(n.arguments, vars) == Some(view.arguments)
    requires DirectiveConditions(n.directives, vars).Some?
    requires view.conditions == conditions + DirectiveConditions(n.directives, vars).value
    requires view.field == n.name && view.responseName == ResponseName(n.name, n.alias)
    requires view.path == path + [view.responseName]
    requires Listing(n.children, base + 1, Some(base), view.path, view.conditions, vars).Some?
    requires ViewHeld(view, before, digest) && Grows(before, after)
    requires ViewsHeld(Listing(n.children, base + 1, Some(base), view.path, view.conditions, vars).value, after, digest)
    ensures var l := ListNode(n, base, view.parent, path, conditions, vars);
      && l.Some? && ViewsHeld(l.value, after, digest)
      && start + [CompactView(view, digest)]
         + CompactViews(Listing(n.children, base + 1, Some(base), view.path, view.conditions, vars).value, digest)
         == start + CompactViews(l.value, digest)
  {
    var below := Listing(n.children, base + 1, Some(base), view.path, view.conditions, vars).value;
    assert ListNode(n, base, view.parent, path, conditions, vars) == Some([view] + below);
    HeldGrows([], [view], before, after, digest);
    ViewsAppend([view], below, digest, after);
    assert CompactViews([view], digest) == [CompactView(view, digest)];
  }
}
