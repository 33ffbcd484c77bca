/** The fully inlined operation, and the worklist check that never builds it (`query_directives_supported`). */
module Inlining {
  import opened Outcome
  import opened OrderedMap
  import opened Syntax
  import opened Fragments

  /** A selection with every fragment spread replaced by the fragment's own selections. */
  datatype Node =
    | FieldNode(name: string, alias: Option<string>, arguments: seq<Entry<Value>>, directives: seq<Directive>,
                children: seq<Node>)
    | InlineNode(onType: Option<string>, directives: seq<Directive>, children: seq<Node>)
    | FragmentNode(name: string, target: string, directives: seq<Directive>, definition: seq<Directive>,
                   children: seq<Node>)

  ghost predicate Inlinable(table: Table, order: seq<string>, k: nat, names: set<string>) {
    Topological(EdgesOf(table), order) && k <= |order| && names <= Names(order[..k])
  }

  /** Inlining terminates because each fragment only spreads names before it in the order. */
  ghost function InlineAll(table: Table, order: seq<string>, k: nat, ss: seq<Selection>): (r: seq<Node>)
    requires Inlinable(table, order, k, SpreadNames(ss))
    ensures |r| == |ss|
    decreases k, ss, 1
  {
    if ss == [] then [] else [InlineOne(table, order, k, ss[0])] + InlineAll(table, order, k, ss[1..])
  }

  ghost function InlineOne(table: Table, order: seq<string>, k: nat, s: Selection): Node
    requires Inlinable(table, order, k, NamesIn(s))
    decreases k, s, 0
  {
    match s
    case Field(name, alias, arguments, directives, selections) =>
      FieldNode(name, alias, arguments, directives, InlineAll(table, order, k, selections))
    case Inline(onType, directives, selections) =>
      InlineNode(onType, directives, InlineAll(table, order, k, selections))
    case Spread(name, directives) =>
      assert name in Names(order[..k]);
      IndexBelow(order, k, name);
      var j := IndexOf(order, name);
      assert name in EdgesOf(table) && EdgesOf(table)[order[j]] <= Names(order[..j]);
      var f := table[name];
      FragmentNode(name, f.onType, directives, f.directives, InlineAll(table, order, j, f.selections))
  }

  lemma {:induction false} IndexBelow(order: seq<string>, k: nat, name: string)
    requires k <= |order| && name in order[..k]
    ensures name in order && IndexOf(order, name) < k
    decreases k
  {
    if order[0] != name {
      assert order[..k] == [order[0]] + order[1..][..k - 1];
      IndexBelow(order[1..], k - 1, name);
    }
  }

  ghost function Inlined(table: Table, order: seq<string>, ss: seq<Selection>): seq<Node>
    requires Topological(EdgesOf(table), order) && SpreadNames(ss) <= table.Keys
  {
    assert order[..|order|] == order;
    InlineAll(table, order, |order|, ss)
  }

  /** The inlined form does not depend on which order made inlining terminate. */
  lemma {:induction false} InlineAllSame(table: Table, o1: seq<string>, k1: nat, o2: seq<string>, k2: nat,
                                         ss: seq<Selection>)
    requires Inlinable(table, o1, k1, SpreadNames(ss)) && Inlinable(table, o2, k2, SpreadNames(ss))
    ensures InlineAll(table, o1, k1, ss) == InlineAll(table, o2, k2, ss)
    decreases k1, ss, 1
  {
    if ss != [] {
      InlineOneSame(table, o1, k1, o2, k2, ss[0]);
      InlineAllSame(table, o1, k1, o2, k2, ss[1..]);
    }
  }

  lemma {:induction false} InlineOneSame(table: Table, o1: seq<string>, k1: nat, o2: seq<string>, k2: nat, s: Selection)
    requires Inlinable(table, o1, k1, NamesIn(s)) && Inlinable(table, o2, k2, NamesIn(s))
    ensures InlineOne(table, o1, k1, s) == InlineOne(table, o2, k2, s)
    decreases k1, s, 0
  {
    match s
    case Field(_, _, _, _, selections) => InlineAllSame(table, o1, k1, o2, k2, selections);
    case Inline(_, _, selections) => InlineAllSame(table, o1, k1, o2, k2, selections);
    case Spread(name, _) =>
      assert name in Names(o1[..k1]) && name in Names(o2[..k2]);
      IndexBelow(o1, k1, name);
      IndexBelow(o2, k2, name);
      var j1, j2 := IndexOf(o1, name), IndexOf(o2, name);
      assert EdgesOf(table)[o1[j1]] <= Names(o1[..j1]) && EdgesOf(table)[o2[j2]] <= Names(o2[..j2]);
      InlineAllSame(table, o1, j1, o2, j2, table[name].selections);
  }

  // ---------------------------------------------------------------- the directive check

  /** Only `@skip` and `@include` with one boolean or variable `if`. */
  predicate Supported(ds: seq<Directive>) {
    forall i :: 0 <= i < |ds| ==>
      && (ds[i].name == "skip" || ds[i].name == "include")
      && |ds[i].arguments| == 1
      && var cond := Find(ds[i].arguments, "if"); cond.Some? && (cond.value.Boolean? || cond.value.Variable?)
  }

  /** Every directive of the inlined operation is supported, and no fragment definition has one. */
  ghost predicate NodesSupported(ns: seq<Node>)
    decreases ns, 1
  {
    ns == [] || (NodeSupported(ns[0]) && NodesSupported(ns[1..]))
  }

  ghost predicate NodeSupported(n: Node)
    decreases n, 0
  {
    Supported(n.directives) && (n.FragmentNode? ==> n.definition == []) && NodesSupported(n.children)
  }

  /** The selection's inlined form is supported. */
  ghost predicate Good(table: Table, order: seq<string>, s: Selection) {
    && Inlinable(table, order, |order|, NamesIn(s))
    && NodeSupported(InlineOne(table, order, |order|, s))
  }

  ghost predicate AllGood(table: Table, order: seq<string>, ss: seq<Selection>) {
    forall i :: 0 <= i < |ss| ==> Good(table, order, ss[i])
  }

  lemma {:induction false} MemberNames(ss: seq<Selection>, i: nat)
    requires i < |ss|
    ensures NamesIn(ss[i]) <= SpreadNames(ss)
    decreases ss
  {
    if i > 0 { MemberNames(ss[1..], i - 1); }
  }

  lemma {:induction false} SupportedIsAllGood(table: Table, order: seq<string>, k: nat, ss: seq<Selection>)
    requires Inlinable(table, order, k, SpreadNames(ss))
    ensures NodesSupported(InlineAll(table, order, k, ss)) <==> AllGood(table, order, ss)
    decreases ss
  {
    if ss != [] {
      var ns := InlineAll(table, order, k, ss);
      assert ns[0] == InlineOne(table, order, k, ss[0]) && ns[1..] == InlineAll(table, order, k, ss[1..]);
      SupportedIsAllGood(table, order, k, ss[1..]);
      NamesPrefix(order, k);
      InlineOneSame(table, order, k, order, |order|, ss[0]);
      assert forall i :: 0 < i < |ss| ==> ss[i] == ss[1..][i - 1];
      assert forall i :: 0 <= i < |ss[1..]| ==> ss[1..][i] == ss[i + 1];
    }
  }

  lemma {:induction false} NamesPrefix(order: seq<string>, k: nat)
    requires k <= |order|
    ensures Names(order[..k]) <= Names(order[..|order|])
  {
  }

  /** What it means for one selection to be good, in terms of the selections below it. */
  lemma {:induction false} GoodUnfolds(table: Table, order: seq<string>, s: Selection)
    requires Topological(EdgesOf(table), order) && NamesIn(s) <= table.Keys
    ensures Good(table, order, s) <==>
      && Supported(s.directives)
      && match s
         case Field(_, _, _, _, selections) => AllGood(table, order, selections)
         case Inline(_, _, selections) => AllGood(table, order, selections)
         case Spread(name, _) => table[name].directives == [] && AllGood(table, order, table[name].selections)
  {
    assert order[..|order|] == order;
    match s
    case Field(_, _, _, _, selections) => SupportedIsAllGood(table, order, |order|, selections);
    case Inline(_, _, selections) => SupportedIsAllGood(table, order, |order|, selections);
    case Spread(name, _) =>
      assert name in Names(order);
      IndexBelow(order, |order|, name);
      var j := IndexOf(order, name);
      assert EdgesOf(table)[order[j]] <= Names(order[..j]);
      SupportedIsAllGood(table, order, j, table[name].selections);
  }

  // ---------------------------------------------------------------- the worklist

  /** Everything under `s` has been checked or is still pending; spreads only need to be visited. */
  ghost predicate Covered(s: Selection, pending: seq<Selection>, visited: set<string>)
    decreases s
  {
    s in pending ||
    (Supported(s.directives) && match s
      case Field(_, _, _, _, selections) =>
        forall i :: 0 <= i < |selections| ==> Covered(selections[i], pending, visited)
      case Inline(_, _, selections) => forall i :: 0 <= i < |selections| ==> Covered(selections[i], pending, visited)
      case Spread(name, _) => name in visited)
  }

  ghost predicate AllCovered(ss: seq<Selection>, pending: seq<Selection>, visited: set<string>) {
    forall i :: 0 <= i < |ss| ==> Covered(ss[i], pending, visited)
  }

  ghost predicate VisitedCovered(table: Table, pending: seq<Selection>, visited: set<string>) {
    visited <= table.Keys && forall name :: name in visited ==>
      table[name].directives == [] && AllCovered(table[name].selections, pending, visited)
  }

  /** Taking one selection off the list keeps coverage, once that selection is covered itself. */
  lemma {:induction false} CoverageMoves(s: Selection, p: Selection, pending: seq<Selection>, visited: set<string>,
                                         pending': seq<Selection>, visited': set<string>)
    requires Covered(s, pending, visited) && visited <= visited' && Covered(p, pending', visited')
    requires forall q :: q in pending && q != p ==> q in pending'
    ensures Covered(s, pending', visited')
    decreases s
  {
    if s !in pending {
      match s
      case Field(_, _, _, _, selections) =>
        forall i | 0 <= i < |selections| ensures Covered(selections[i], pending', visited') {
          CoverageMoves(selections[i], p, pending, visited, pending', visited');
        }
      case Inline(_, _, selections) =>
        forall i | 0 <= i < |selections| ensures Covered(selections[i], pending', visited') {
          CoverageMoves(selections[i], p, pending, visited, pending', visited');
        }
      case Spread(_, _) =>
    }
  }

  lemma {:induction false} AllCoverageMoves(table: Table, ss: seq<Selection>, p: Selection, pending: seq<Selection>,
      visited: set<string>, pending': seq<Selection>, visited': set<string>)
    requires visited <= visited' && Covered(p, pending', visited')
    requires forall q :: q in pending && q != p ==> q in pending'
    requires AllCovered(ss, pending, visited)
    ensures AllCovered(ss, pending', visited')
  {
    forall i | 0 <= i < |ss| ensures Covered(ss[i], pending', visited') {
      CoverageMoves(ss[i], p, pending, visited, pending', visited');
    }
  }

  /** With nothing pending, covered means good: by the order on fragments, then the shape of the selection. */
  lemma {:induction false} CoveredIsGood(table: Table, order: seq<string>, k: nat, s: Selection, visited: set<string>)
    requires Inlinable(table, order, k, NamesIn(s)) && VisitedCovered(table, [], visited) && Covered(s, [], visited)
    ensures Good(table, order, s)
    decreases k, s
  {
    NamesPrefix(order, k);
    assert order[..|order|] == order;
    GoodUnfolds(table, order, s);
    match s
    case Field(_, _, _, _, selections) =>
      forall i | 0 <= i < |selections| ensures Good(table, order, selections[i]) {
        MemberNames(selections, i);
        CoveredIsGood(table, order, k, selections[i], visited);
      }
    case Inline(_, _, selections) =>
      forall i | 0 <= i < |selections| ensures Good(table, order, selections[i]) {
        MemberNames(selections, i);
        CoveredIsGood(table, order, k, selections[i], visited);
      }
    case Spread(name, _) =>
      assert name in Names(order[..k]);
      IndexBelow(order, k, name);
      var j := IndexOf(order, name);
      assert EdgesOf(table)[order[j]] <= Names(order[..j]);
      var selections := table[name].selections;
      forall i | 0 <= i < |selections| ensures Good(table, order, selections[i]) {
        MemberNames(selections, i);
        CoveredIsGood(table, order, j, selections[i], visited);
      }
  }

  /** How much work is pending, not counting fragments that are still to be visited. */
  function Weight(ss: seq<Selection>): nat
    decreases ss, 1
  {
    if ss == [] then 0 else WeightOf(ss[0]) + Weight(ss[1..])
  }

  function WeightOf(s: Selection): nat
    decreases s, 0
  {
    1 + if s.Spread? then 0 else Weight(s.selections)
  }

  lemma {:induction false} WeightAppends(a: seq<Selection>, b: seq<Selection>)
    ensures Weight(a + b) == Weight(a) + Weight(b)
    decreases a
  {
    if a == [] {
      assert a + b == b;
    } else {
      assert (a + b)[1..] == a[1..] + b;
      WeightAppends(a[1..], b);
    }
  }

  ghost predicate Pending(table: Table, order: seq<string>, roots: seq<Selection>, pending: seq<Selection>) {
    forall i :: 0 <= i < |pending| ==>
      NamesIn(pending[i]) <= table.Keys && (AllGood(table, order, roots) ==> Good(table, order, pending[i]))
  }

  lemma {:induction false} PendingGrows(table: Table, order: seq<string>, roots: seq<Selection>,
                                        rest: seq<Selection>, more: seq<Selection>)
    requires Pending(table, order, roots, rest) && SpreadNames(more) <= table.Keys
    requires AllGood(table, order, roots) ==> AllGood(table, order, more)
    ensures Pending(table, order, roots, rest + more)
  {
    forall i | 0 <= i < |more| ensures NamesIn(more[i]) <= table.Keys { MemberNames(more, i); }
  }

  lemma {:induction false} WeightLast(rest: seq<Selection>, p: Selection)
    ensures Weight(rest + [p]) == Weight(rest) + WeightOf(p)
  {
    WeightAppends(rest, [p]);
  }

  lemma {:induction false} WholeOrder(table: Table, order: seq<string>, names: set<string>)
    requires Topological(EdgesOf(table), order) && names <= table.Keys
    ensures Inlinable(table, order, |order|, names)
  {
    assert order[..|order|] == order;
  }

  lemma {:induction false} SpreadsStay(table: Table, order: seq<string>, name: string)
    requires Topological(EdgesOf(table), order) && name in table
    ensures SpreadNames(table[name].selections) <= table.Keys
  {
    assert SpreadNames(table[name].selections) == EdgesOf(table)[name];
  }

  /** When nothing is pending, everything was visited. */
  lemma {:induction false} AllVisited(table: Table, order: seq<string>, roots: seq<Selection>, visited: set<string>)
    requires Topological(EdgesOf(table), order) && SpreadNames(roots) <= table.Keys
    requires AllCovered(roots, [], visited) && VisitedCovered(table, [], visited)
    ensures AllGood(table, order, roots)
  {
    assert order[..|order|] == order;
    forall i | 0 <= i < |roots| ensures Good(table, order, roots[i]) {
      MemberNames(roots, i);
      CoveredIsGood(table, order, |order|, roots[i], visited);
    }
  }

  /** `query_directives_supported`: visits each fragment body once, and agrees with checking
      every directive of the fully inlined operation. */
  method QueryDirectivesSupported(op: Operation, table: Table, ghost order: seq<string>) returns (ok: bool)
    requires Topological(EdgesOf(table), order) && SpreadNames(op.selections) <= table.Keys
    ensures ok <==>
      && op.directives == []
      && (forall i :: 0 <= i < |op.variables| ==> op.variables[i].directives == [])
      && NodesSupported(Inlined(table, order, op.selections))
  {
    hide NodesSupported, Topological, AllCovered, Good, Inlinable, Weight;
    if op.directives != [] || exists i :: 0 <= i < |op.variables| && op.variables[i].directives != [] { return false; }
    ghost var roots := op.selections;
    WholeOrder(table, order, SpreadNames(roots));
    SupportedIsAllGood(table, order, |order|, roots);
    var visited: set<string> := {};
    var pending := op.selections;
    RootsPending(table, order, roots);
    while pending != []
      invariant AllCovered(roots, pending, visited) && VisitedCovered(table, pending, visited)
      invariant Pending(table, order, roots, pending)
      decreases table.Keys - visited, Weight(pending)
    {
      var p, rest := pending[|pending| - 1], pending[..|pending| - 1];
      assert pending == rest + [p];
      WeightLast(rest, p);
      GoodUnfolds(table, order, p);
      if !Supported(p.directives) { return false; }
      var more: seq<Selection>, seen := [], visited;
      if p.Spread? {
        if p.name !in visited {
          if table[p.name].directives != [] { return false; }
          more, seen := table[p.name].selections, visited + {p.name};
          SpreadsStay(table, order, p.name);
        }
      } else {
        more := p.selections;
      }
      WeightAppends(rest, more);
      assert more == [] ==> rest + more == rest;
      PendingGrows(table, order, roots, rest, more);
      Advance(table, roots, p, rest, more, visited, seen);
      pending, visited := rest + more, seen;
    }
    AllVisited(table, order, roots, visited);
    ok := true;
  }

  lemma {:induction false} RootsPending(table: Table, order: seq<string>, roots: seq<Selection>)
    requires SpreadNames(roots) <= table.Keys
    ensures Pending(table, order, roots, roots) && AllCovered(roots, roots, {})
  {
    forall i | 0 <= i < |roots| ensures NamesIn(roots[i]) <= table.Keys { MemberNames(roots, i); }
  }

  /** One step of the worklist keeps the roots and the visited fragments covered. */
  lemma {:induction false} Advance(table: Table, roots: seq<Selection>, p: Selection, rest: seq<Selection>,
                                   more: seq<Selection>, visited: set<string>, seen: set<string>)
    requires AllCovered(roots, rest + [p], visited) && VisitedCovered(table, rest + [p], visited)
    requires Supported(p.directives) && visited <= seen <= table.Keys
    requires p.Spread? ==> p.name in seen && seen <= visited + {p.name}
    requires !p.Spread? ==> seen == visited && more == p.selections
    requires seen != visited ==> p.Spread? && table[p.name].directives == [] && more == table[p.name].selections
    ensures AllCovered(roots, rest + more, seen) && VisitedCovered(table, rest + more, seen)
  {
    var pending, pending' := rest + [p], rest + more;
    assert forall i :: 0 <= i < |more| ==> pending'[|rest| + i] == more[i];
    assert AllCovered(more, pending', seen);
    assert Covered(p, pending', seen);
    AllCoverageMoves(table, roots, p, pending, visited, pending', seen);
    forall name | name in seen
      ensures table[name].directives == [] && AllCovered(table[name].selections, pending', seen) {
      if name in visited { AllCoverageMoves(table, table[name].selections, p, pending, visited, pending', seen); }
    }
  }
}
