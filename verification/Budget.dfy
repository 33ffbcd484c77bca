/** What expansion costs: the exact number of selections, fields, levels and bytes that the review limits allow. */
module Budget {
  import opened Outcome
  import opened OrderedMap
  import opened Syntax
  import opened Inlining
  import opened Compaction
  import opened Listings
  import Printer

  const MAX_FIELDS: nat := 256
  const MAX_EXPANDED_BYTES: nat := 256 * 1024
  const MAX_STEPS: nat := 1024

  /** What the budget depends on: the variables, and the byte sizes of what is shown. The size of a field may depend
      on the fields before it. */
  datatype Meter = Meter(vars: Variables, digest: Digest, conditionBytes: Condition -> nat,
                         viewBytes: (seq<FieldView>, FieldView) -> nat)

  function Plus(a: Option<nat>, b: Option<nat>): Option<nat> {
    if a.None? || b.None? then None else Some(a.value + b.value)
  }

  // ---------------------------------------------------------------- the charge for values

  /** What resolving a value costs, with the displayed variables; None when it is nested too deeply or names an
      undefined variable. */
  function ValueCharge(v: Value, shown: Variables, depth: nat): Option<nat>
    decreases MAX_DEPTH + 2 - depth, 0, 0
  {
    if depth > MAX_DEPTH then None
    else match v
      case Variable(name) =>
        var found := Find(shown, name);
        if found.None? then None else Plus(Some(16), ValueCharge(found.value, shown, depth + 1))
      case List(values) => Plus(Some(16), ValuesCharge(values, shown, depth + 1))
      case Object(fields) => Plus(Some(16), FieldsCharge(fields, shown, depth + 1))
      case _ => Some(16 + LeafBytes(v))
  }

  function LeafBytes(v: Value): nat {
    if v.Str? && Large(v.text) then 96 else Bytes(Printer.ValueText(v, ""))
  }

  function ValuesCharge(vs: seq<Value>, shown: Variables, depth: nat): Option<nat>
    decreases MAX_DEPTH + 2 - depth, 1, |vs|
  {
    if vs == [] then Some(0) else Plus(ValueCharge(vs[0], shown, depth), ValuesCharge(vs[1..], shown, depth))
  }

  function FieldsCharge(es: seq<Entry<Value>>, shown: Variables, depth: nat): Option<nat>
    decreases MAX_DEPTH + 2 - depth, 1, |es|
  {
    if es == [] then Some(0)
    else Plus(Plus(Some(Bytes(es[0].key)), ValueCharge(es[0].value, shown, depth)), FieldsCharge(es[1..], shown, depth))
  }

  // ---------------------------------------------------------------- the charge for an inlined operation

  function Shown(m: Meter): Variables { CompactedVariables(m.vars, m.digest) }

  function ArgumentsCharge(es: seq<Entry<Value>>, m: Meter): Option<nat> { FieldsCharge(es, Shown(m), 0) }

  /** The displayed form of a directive's condition. */
  function ConditionBytes(d: Directive, m: Meter): Option<nat> {
    var args := SubstituteFields(d.arguments, m.vars);
    if args.None? then None else Some(m.conditionBytes(ByDirective(d.name, CompactedFields(args.value, m.digest))))
  }

  function DirectiveCharge(d: Directive, m: Meter): Option<nat> {
    Plus(ArgumentsCharge(d.arguments, m), ConditionBytes(d, m))
  }

  function DirectivesCharge(ds: seq<Directive>, m: Meter): Option<nat> {
    if ds == [] then Some(0) else Plus(DirectiveCharge(ds[0], m), DirectivesCharge(ds[1..], m))
  }

  /** What a node is charged before its children. */
  function OwnCharge(n: Node, m: Meter): Option<nat> {
    match n
    case FieldNode(_, _, arguments, directives, _) =>
      Plus(ArgumentsCharge(arguments, m), DirectivesCharge(directives, m))
    case InlineNode(_, directives, _) => DirectivesCharge(directives, m)
    case FragmentNode(_, _, directives, definition, _) =>
      Plus(DirectivesCharge(directives, m), DirectivesCharge(definition, m))
  }

  function NodesCharge(ns: seq<Node>, m: Meter): Option<nat>
    decreases ns, 1
  {
    if ns == [] then Some(0) else Plus(NodeCharge(ns[0], m), NodesCharge(ns[1..], m))
  }

  function NodeCharge(n: Node, m: Meter): Option<nat>
    decreases n, 0
  {
    Plus(OwnCharge(n, m), NodesCharge(n.children, m))
  }

  /** How many selections are visited. */
  function Visits(ns: seq<Node>): nat
    decreases ns, 1
  {
    if ns == [] then 0 else NodeVisits(ns[0]) + Visits(ns[1..])
  }

  function NodeVisits(n: Node): nat
    decreases n, 0
  {
    1 + Visits(n.children)
  }

  /** How many levels of selections lie below. */
  function Height(ns: seq<Node>): nat
    decreases ns, 1
  {
    if ns == [] then 0
    else
      var a, b := NodeHeight(ns[0]), Height(ns[1..]);
      if a >= b then a else b
  }

  function NodeHeight(n: Node): nat
    decreases n, 0
  {
    1 + Height(n.children)
  }

  /** The bytes of the displayed fields. */
  function ViewsBytes(vs: seq<FieldView>, m: Meter): nat {
    if vs == [] then 0
    else var rest := vs[..|vs| - 1]; ViewsBytes(rest, m) + m.viewBytes(rest, vs[|vs| - 1])
  }

  lemma {:induction false} ViewsBytesPush(vs: seq<FieldView>, v: FieldView, m: Meter)
    ensures ViewsBytes(vs + [v], m) == ViewsBytes(vs, m) + m.viewBytes(vs, v)
  {
    assert (vs + [v])[..|vs|] == vs;
  }

  lemma {:induction false} ViewsBytesGrow(vs: seq<FieldView>, more: seq<FieldView>, m: Meter)
    ensures ViewsBytes(vs, m) <= ViewsBytes(vs + more, m)
    decreases |more|
  {
    if more == [] {
      assert vs + more == vs;
    } else {
      var most := more[..|more| - 1];
      ViewsBytesGrow(vs, most, m);
      assert vs + more == vs + most + [more[|more| - 1]];
      ViewsBytesPush(vs + most, more[|more| - 1], m);
    }
  }

  // ---------------------------------------------------------------- the state of the limits

  /** What has been used so far: selections visited, bytes left, and the fields shown. */
  datatype Gauge = Gauge(steps: nat, remaining: nat, fields: seq<FieldView>)

  predicate InLimits(g: Gauge) { g.steps <= MAX_STEPS && |g.fields| <= MAX_FIELDS }

  /** After `visits` more selections, `charge` more bytes and the fields `more`; None beyond a limit. */
  ghost function Spend(g: Gauge, visits: nat, charge: Option<nat>, more: seq<FieldView>, m: Meter): Option<Gauge> {
    var all := g.fields + more;
    ViewsBytesGrow(g.fields, more, m);
    var growth := ViewsBytes(all, m) - ViewsBytes(g.fields, m);
    if charge.None? || g.steps + visits > MAX_STEPS || |all| > MAX_FIELDS
      || charge.value + growth > g.remaining then None
    else Some(Gauge(g.steps + visits, g.remaining - charge.value - growth, all))
  }

  /** The same for levels down to `lowest` and the fields of a listing. */
  ghost function Reach(g: Gauge, lowest: nat, visits: nat, charge: Option<nat>, l: Option<seq<FieldView>>, m: Meter)
    : Option<Gauge> {
    if lowest > MAX_DEPTH || l.None? then None else Spend(g, visits, charge, CompactViews(l.value, m.digest), m)
  }

  /** The limits after expanding inlined selections; None when they are exceeded. Nothing here depends on the order of
      the checks: the levels, the selections, the fields and the bytes must each fit as a whole. */
  ghost function After(ns: seq<Node>, depth: nat, g: Gauge, parent: Option<nat>, path: seq<string>,
                       conditions: seq<Condition>, m: Meter): Option<Gauge> {
    Reach(g, depth + Height(ns), Visits(ns), NodesCharge(ns, m),
          Listing(ns, |g.fields|, parent, path, conditions, m.vars), m)
  }

  ghost function AfterNode(n: Node, depth: nat, g: Gauge, parent: Option<nat>, path: seq<string>,
                           conditions: seq<Condition>, m: Meter): Option<Gauge> {
    Reach(g, depth + NodeHeight(n), NodeVisits(n), NodeCharge(n, m),
          ListNode(n, |g.fields|, parent, path, conditions, m.vars), m)
  }

  /** Spending in two steps is spending at once. */
  lemma {:induction false} SpendTwice(g: Gauge, v1: nat, c1: Option<nat>, f1: seq<FieldView>, v2: nat, c2: Option<nat>,
                                      f2: seq<FieldView>, m: Meter)
    ensures Spend(g, v1 + v2, Plus(c1, c2), f1 + f2, m)
         == var h := Spend(g, v1, c1, f1, m); if h.None? then None else Spend(h.value, v2, c2, f2, m)
  {
    ViewsBytesGrow(g.fields, f1, m);
    ViewsBytesGrow(g.fields + f1, f2, m);
    assert g.fields + (f1 + f2) == g.fields + f1 + f2;
  }

  lemma {:induction false} SpendsFields(g: Gauge, visits: nat, charge: Option<nat>, more: seq<FieldView>, m: Meter)
    ensures var h := Spend(g, visits, charge, more, m);
      h.Some? ==> |h.value.fields| == |g.fields| + |more| && InLimits(h.value)
  {
  }

  ghost function Both(first: Option<seq<FieldView>>, rest: Option<seq<FieldView>>): Option<seq<FieldView>> {
    if first.None? then None else Join(first.value, rest)
  }

  /** Reaching one thing and then another is reaching both. */
  lemma {:induction false} ReachTwice(g: Gauge, low1: nat, v1: nat, c1: Option<nat>, l1: Option<seq<FieldView>>,
      low2: nat, v2: nat, c2: Option<nat>, l2: Option<seq<FieldView>>, low: nat, m: Meter)
    requires low == if low1 >= low2 then low1 else low2
    ensures Reach(g, low, v1 + v2, Plus(c1, c2), Both(l1, l2), m)
         == var h := Reach(g, low1, v1, c1, l1, m); if h.None? then None else Reach(h.value, low2, v2, c2, l2, m)
  {
    if l1.Some? && l2.Some? {
      ViewsAppend(l1.value, l2.value, m.digest, map[]);
      SpendTwice(g, v1, c1, CompactViews(l1.value, m.digest), v2, c2, CompactViews(l2.value, m.digest), m);
    }
  }

  lemma {:induction false} Reached(g: Gauge, low: nat, visits: nat, charge: Option<nat>, l: Option<seq<FieldView>>,
                                   m: Meter)
    ensures var h := Reach(g, low, visits, charge, l, m);
      h.Some? ==> l.Some? && |h.value.fields| == |g.fields| + |l.value| && InLimits(h.value)
  {
    if l.Some? { SpendsFields(g, visits, charge, CompactViews(l.value, m.digest), m); }
  }

  lemma {:induction false} AfterNothing(depth: nat, g: Gauge, parent: Option<nat>, path: seq<string>,
                                        conditions: seq<Condition>, m: Meter)
    requires InLimits(g)
    ensures After([], depth, g, parent, path, conditions, m) == if depth <= MAX_DEPTH then Some(g) else None
  {
    assert CompactViews([], m.digest) == [] && g.fields + [] == g.fields;
  }

  lemma {:induction false} ListFirst(ns: seq<Node>, base: nat, parent: Option<nat>, path: seq<string>,
                                     conditions: seq<Condition>, vars: Variables)
    requires ns != []
    ensures var head := ListNode(ns[0], base, parent, path, conditions, vars);
      Listing(ns, base, parent, path, conditions, vars)
      == if head.None? then None
         else Join(head.value, Listing(ns[1..], base + |head.value|, parent, path, conditions, vars))
  {
  }

  lemma {:induction false} SumFirst(ns: seq<Node>, m: Meter)
    requires ns != []
    ensures Visits(ns) == NodeVisits(ns[0]) + Visits(ns[1..])
    ensures NodesCharge(ns, m) == Plus(NodeCharge(ns[0], m), NodesCharge(ns[1..], m))
    ensures Height(ns) == if NodeHeight(ns[0]) >= Height(ns[1..]) then NodeHeight(ns[0]) else Height(ns[1..])
  {
  }

  /** One node, then the others. */
  lemma {:induction false} AfterFirst(ns: seq<Node>, depth: nat, g: Gauge, parent: Option<nat>, path: seq<string>,
                                      conditions: seq<Condition>, m: Meter)
    requires ns != []
    ensures After(ns, depth, g, parent, path, conditions, m)
         == var h := AfterNode(ns[0], depth, g, parent, path, conditions, m);
            if h.None? then None else After(ns[1..], depth, h.value, parent, path, conditions, m)
  {
    hide Listing, ListNode, Spend, Height, Visits, NodesCharge, NodeHeight, NodeVisits, NodeCharge;
    var head := ListNode(ns[0], |g.fields|, parent, path, conditions, m.vars);
    ListFirst(ns, |g.fields|, parent, path, conditions, m.vars);
    SumFirst(ns, m);
    if head.Some? {
      var low, visits, charge := depth + NodeHeight(ns[0]), NodeVisits(ns[0]), NodeCharge(ns[0], m);
      var low', visits', charge' := depth + Height(ns[1..]), Visits(ns[1..]), NodesCharge(ns[1..], m);
      var tail := Listing(ns[1..], |g.fields| + |head.value|, parent, path, conditions, m.vars);
      var h := Reach(g, low, visits, charge, head, m);
      Reached(g, low, visits, charge, head, m);
      assert h.Some? ==>
        After(ns[1..], depth, h.value, parent, path, conditions, m)
        == Reach(h.value, low', visits', charge', tail, m);
      assert Listing(ns, |g.fields|, parent, path, conditions, m.vars) == Both(head, tail);
      ReachTwice(g, low, visits, charge, head, low', visits', charge', tail, depth + Height(ns), m);
    }
  }

  /** A field: its own view, then its selections one level down. */
  lemma {:induction false} AfterField(n: Node, depth: nat, g: Gauge, view: FieldView, path: seq<string>,
                                      conditions: seq<Condition>, m: Meter)
    requires IsView(n, view, path, conditions, m.vars)
    ensures AfterNode(n, depth, g, view.parent, path, conditions, m)
         == var h := Reach(g, depth + 1, 1, OwnCharge(n, m), Some([view]), m);
            if h.None? then None
            else After(n.children, depth + 1, h.value, Some(|g.fields|), view.path, view.conditions, m)
  {
    hide Listing, ListNode, Spend, Height, Visits, NodesCharge, OwnCharge;
    var base := |g.fields|;
    var below := Listing(n.children, base + 1, Some(base), view.path, view.conditions, m.vars);
    ListField(n, base, view, path, conditions, m.vars);
    Reached(g, depth + 1, 1, OwnCharge(n, m), Some([view]), m);
    ReachTwice(g, depth + 1, 1, OwnCharge(n, m), Some([view]), depth + 1 + Height(n.children), Visits(n.children),
               NodesCharge(n.children, m), below, depth + NodeHeight(n), m);
  }

  /** The view of a field node. */
  ghost predicate IsView(n: Node, view: FieldView, path: seq<string>, conditions: seq<Condition>, vars: Variables) {
    && n.FieldNode? && SubstituteFields(n.arguments, vars) == Some(view.arguments)
    && DirectiveConditions(n.directives, vars).Some?
    && view.conditions == conditions + DirectiveConditions(n.directives, vars).value
    && view.field == n.name && view.responseName == ResponseName(n.name, n.alias)
    && view.path == path + [view.responseName]
  }

  lemma {:induction false} ListField(n: Node, base: nat, view: FieldView, path: seq<string>, conditions: seq<Condition>,
                                     vars: Variables)
    requires IsView(n, view, path, conditions, vars)
    ensures ListNode(n, base, view.parent, path, conditions, vars)
         == Join([view], Listing(n.children, base + 1, Some(base), view.path, view.conditions, vars))
  {
  }

  /** An inline fragment or a spread: nothing of its own is shown. */
  lemma {:induction false} AfterGroup(n: Node, depth: nat, g: Gauge, parent: Option<nat>, path: seq<string>,
                                      conditions: seq<Condition>, m: Meter)
    requires !n.FieldNode? && NodeConditions(n, m.vars).Some?
    ensures AfterNode(n, depth, g, parent, path, conditions, m)
         == var h := Reach(g, depth + 1, 1, OwnCharge(n, m), Some([]), m);
            if h.None? then None
            else After(n.children, depth + 1, h.value, parent, path, conditions + NodeConditions(n, m.vars).value, m)
  {
    hide Listing, ListNode, Spend, Height, Visits, NodesCharge, OwnCharge, NodeConditions;
    var inner := conditions + NodeConditions(n, m.vars).value;
    var below := Listing(n.children, |g.fields|, parent, path, inner, m.vars);
    ListGroup(n, |g.fields|, parent, path, conditions, m.vars);
    JoinNothing(below);
    Reached(g, depth + 1, 1, OwnCharge(n, m), Some([]), m);
    ReachTwice(g, depth + 1, 1, OwnCharge(n, m), Some([]), depth + 1 + Height(n.children), Visits(n.children),
               NodesCharge(n.children, m), below, depth + NodeHeight(n), m);
  }

  lemma {:induction false} ListGroup(n: Node, base: nat, parent: Option<nat>, path: seq<string>,
                                     conditions: seq<Condition>, vars: Variables)
    requires !n.FieldNode? && NodeConditions(n, vars).Some?
    ensures ListNode(n, base, parent, path, conditions, vars)
         == Listing(n.children, base, parent, path, conditions + NodeConditions(n, vars).value, vars)
  {
  }

  // ---------------------------------------------------------------- a charge that is due: nothing is undefined

  lemma {:induction false} ChargedValue(v: Value, shown: Variables, depth: nat)
    ensures ValueCharge(v, shown, depth).Some? ==> Substitute(v, shown).Some?
    decreases v
  {
    match v
    case List(values) => if depth <= MAX_DEPTH { ChargedValues(values, shown, depth + 1); }
    case Object(fields) => if depth <= MAX_DEPTH { ChargedFields(fields, shown, depth + 1); }
    case _ =>
  }

  lemma {:induction false} ChargedValues(vs: seq<Value>, shown: Variables, depth: nat)
    ensures ValuesCharge(vs, shown, depth).Some? ==> SubstituteAll(vs, shown).Some?
    decreases vs
  {
    if vs != [] {
      ChargedValue(vs[0], shown, depth);
      ChargedValues(vs[1..], shown, depth);
    }
  }

  lemma {:induction false} ChargedFields(es: seq<Entry<Value>>, shown: Variables, depth: nat)
    ensures FieldsCharge(es, shown, depth).Some? ==> SubstituteFields(es, shown).Some?
    decreases es
  {
    if es != [] {
      ChargedValue(es[0].value, shown, depth);
      ChargedFields(es[1..], shown, depth);
    }
  }

  lemma {:induction false} ChargedArguments(es: seq<Entry<Value>>, m: Meter)
    ensures ArgumentsCharge(es, m).Some? ==> SubstituteFields(es, m.vars).Some?
  {
    ChargedFields(es, Shown(m), 0);
    SubstituteCompactedFields(es, m.vars, m.digest);
  }

  lemma {:induction false} ChargedDirectives(ds: seq<Directive>, m: Meter)
    ensures DirectivesCharge(ds, m).Some? ==> DirectiveConditions(ds, m.vars).Some?
  {
    if ds != [] { ChargedDirectives(ds[1..], m); }
  }

  // ---------------------------------------------------------------- one step of the expander

  /** The limits after a field itself, before its selections. */
  ghost function Pushed(n: Node, g: Gauge, view: FieldView, m: Meter): Option<Gauge>
    requires n.FieldNode?
  {
    var own, shown := OwnCharge(n, m), CompactView(view, m.digest);
    if own.None? || g.steps + 1 > MAX_STEPS || |g.fields| >= MAX_FIELDS
       || own.value + m.viewBytes(g.fields, shown) > g.remaining then None
    else Some(Gauge(g.steps + 1, g.remaining - own.value - m.viewBytes(g.fields, shown), g.fields + [shown]))
  }

  /** The limits after the conditions of an inline fragment or a spread. */
  ghost function Entered(n: Node, g: Gauge, m: Meter): Option<Gauge> {
    var own := OwnCharge(n, m);
    if own.None? || g.steps + 1 > MAX_STEPS || own.value > g.remaining then None
    else Some(Gauge(g.steps + 1, g.remaining - own.value, g.fields))
  }

  /** The view of a field, with nothing for what is undefined. */
  ghost function ViewOf(n: Node, parent: Option<nat>, path: seq<string>, conditions: seq<Condition>,
                        vars: Variables): FieldView
    requires n.FieldNode?
  {
    var args, more := SubstituteFields(n.arguments, vars), DirectiveConditions(n.directives, vars);
    var response := ResponseName(n.name, n.alias);
    FieldView(n.name, response, path + [response], parent, if args.Some? then args.value else [],
              if more.Some? then conditions + more.value else conditions)
  }

  lemma {:induction false} PushedIsReach(n: Node, depth: nat, g: Gauge, view: FieldView, m: Meter)
    requires n.FieldNode? && depth < MAX_DEPTH
    ensures Reach(g, depth + 1, 1, OwnCharge(n, m), Some([view]), m) == Pushed(n, g, view, m)
  {
    hide OwnCharge;
    assert CompactViews([view], m.digest) == [CompactView(view, m.digest)];
    ViewsBytesPush(g.fields, CompactView(view, m.digest), m);
  }

  lemma {:induction false} EnteredIsReach(n: Node, depth: nat, g: Gauge, m: Meter)
    requires InLimits(g) && depth < MAX_DEPTH
    ensures Reach(g, depth + 1, 1, OwnCharge(n, m), Some([]), m) == Entered(n, g, m)
  {
    hide OwnCharge;
    assert CompactViews([], m.digest) == [] && g.fields + [] == g.fields;
  }

  /** Without its own charge a node cannot be expanded, nor on the last level. */
  lemma {:induction false} AfterNone(n: Node, depth: nat, g: Gauge, parent: Option<nat>, path: seq<string>,
                                     conditions: seq<Condition>, m: Meter)
    requires OwnCharge(n, m).None? || depth >= MAX_DEPTH
    ensures AfterNode(n, depth, g, parent, path, conditions, m).None?
  {
    hide OwnCharge, ListNode, Height, Visits, NodesCharge;
  }

  lemma {:induction false} AfterTooDeep(ns: seq<Node>, depth: nat, g: Gauge, parent: Option<nat>, path: seq<string>,
                                        conditions: seq<Condition>, m: Meter)
    requires depth > MAX_DEPTH
    ensures After(ns, depth, g, parent, path, conditions, m).None?
  {
    hide Listing, Height, Visits, NodesCharge;
  }

  lemma {:induction false} ChargedView(n: Node, parent: Option<nat>, path: seq<string>, conditions: seq<Condition>,
                                       m: Meter)
    requires n.FieldNode? && OwnCharge(n, m).Some?
    ensures IsView(n, ViewOf(n, parent, path, conditions, m.vars), path, conditions, m.vars)
  {
    ChargedArguments(n.arguments, m);
    ChargedDirectives(n.directives, m);
  }

  /** A field is pushed, and then its selections are expanded one level down. */
  lemma {:induction false} FieldThenSelections(n: Node, depth: nat, g: Gauge, parent: Option<nat>, path: seq<string>,
                                               conditions: seq<Condition>, m: Meter)
    requires n.FieldNode?
    ensures var view := ViewOf(n, parent, path, conditions, m.vars);
      AfterNode(n, depth, g, parent, path, conditions, m)
      == var h := Pushed(n, g, view, m);
         if h.None? then None
         else After(n.children, depth + 1, h.value, Some(|g.fields|), view.path, view.conditions, m)
  {
    hide OwnCharge, AfterNode, After, Reach, IsView;
    var view := ViewOf(n, parent, path, conditions, m.vars);
    if OwnCharge(n, m).None? || depth >= MAX_DEPTH {
      AfterNone(n, depth, g, parent, path, conditions, m);
      var h := Pushed(n, g, view, m);
      if h.Some? { AfterTooDeep(n.children, depth + 1, h.value, Some(|g.fields|), view.path, view.conditions, m); }
    } else {
      ChargedView(n, parent, path, conditions, m);
      AfterField(n, depth, g, view, path, conditions, m);
      PushedIsReach(n, depth, g, view, m);
    }
  }

  lemma {:induction false} ChargedGroup(n: Node, m: Meter)
    requires !n.FieldNode? && OwnCharge(n, m).Some?
    ensures NodeConditions(n, m.vars).Some?
  {
    ChargedDirectives(n.directives, m);
    if n.FragmentNode? { ChargedDirectives(n.definition, m); }
  }

  /** A fragment's conditions are charged, and then its selections are expanded one level down. */
  lemma {:induction false} GroupThenSelections(n: Node, depth: nat, g: Gauge, parent: Option<nat>, path: seq<string>,
                                               conditions: seq<Condition>, m: Meter)
    requires !n.FieldNode? && InLimits(g)
    ensures AfterNode(n, depth, g, parent, path, conditions, m)
      == var h, added := Entered(n, g, m), NodeConditions(n, m.vars);
         if h.None? || added.None? then None
         else After(n.children, depth + 1, h.value, parent, path, conditions + added.value, m)
  {
    hide OwnCharge, AfterNode, After, Reach, NodeConditions;
    if OwnCharge(n, m).None? || depth >= MAX_DEPTH {
      AfterNone(n, depth, g, parent, path, conditions, m);
      var h, added := Entered(n, g, m), NodeConditions(n, m.vars);
      if h.Some? && added.Some? {
        AfterTooDeep(n.children, depth + 1, h.value, parent, path, conditions + added.value, m);
      }
    } else {
      ChargedGroup(n, m);
      AfterGroup(n, depth, g, parent, path, conditions, m);
      EnteredIsReach(n, depth, g, m);
    }
  }
}
