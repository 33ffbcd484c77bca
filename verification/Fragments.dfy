/** Fragment references: the cycle check (`validate_fragments`) and the order it establishes. */
module Fragments {
  import opened Outcome
  import opened OrderedMap
  import opened Syntax

  type Table = map<string, Fragment>
  type Edges = map<string, set<string>>

  /** The fragment map of a document. */
  function TableOf(fs: seq<Entry<Fragment>>): Table {
    if fs == [] then map[] else TableOf(fs[1..])[fs[0].key := fs[0].value]
  }

  /** The names spread in a selection set, at any depth (`collect`). */
  function SpreadNames(ss: seq<Selection>): set<string>
    decreases ss, 1
  {
    if ss == [] then {} else NamesIn(ss[0]) + SpreadNames(ss[1..])
  }

  function NamesIn(s: Selection): set<string>
    decreases s, 0
  {
    match s
    case Field(_, _, _, _, selections) => SpreadNames(selections)
    case Spread(name, _) => {name}
    case Inline(_, _, selections) => SpreadNames(selections)
  }

  function EdgesOf(table: Table): Edges {
    map name | name in table :: SpreadNames(table[name].selections)
  }

  ghost predicate Closed(edges: Edges) { forall name :: name in edges ==> edges[name] <= edges.Keys }

  /** Every spread in an operation or a fragment names a defined fragment. */
  ghost predicate AllDefined(ops: seq<Operation>, table: Table) {
    && (forall i :: 0 <= i < |ops| ==> SpreadNames(ops[i].selections) <= table.Keys)
    && Closed(EdgesOf(table))
  }

  // ---------------------------------------------------------------- paths, cycles and orders

  ghost predicate IsPath(edges: Edges, p: seq<string>) {
    && (forall i :: 0 <= i < |p| ==> p[i] in edges)
    && (forall i :: 0 <= i < |p| - 1 ==> p[i + 1] in edges[p[i]])
  }

  ghost predicate IsCycle(edges: Edges, p: seq<string>) {
    IsPath(edges, p) && |p| >= 2 && p[0] == p[|p| - 1]
  }

  function Names(order: seq<string>): set<string> { set name | name in order }

  /** Each name once, and after everything it spreads. */
  ghost predicate Ordered(edges: Edges, order: seq<string>) {
    && (forall i, j :: 0 <= i < j < |order| ==> order[i] != order[j])
    && (forall i :: 0 <= i < |order| ==> order[i] in edges && edges[order[i]] <= Names(order[..i]))
  }

  ghost predicate Topological(edges: Edges, order: seq<string>) {
    Ordered(edges, order) && Names(order) == edges.Keys
  }

  function IndexOf(order: seq<string>, name: string): (i: nat)
    requires name in order
    ensures i < |order| && order[i] == name
  {
    if order[0] == name then 0 else 1 + IndexOf(order[1..], name)
  }

  lemma {:induction false} EdgeDescends(edges: Edges, order: seq<string>, a: string, b: string)
    requires Ordered(edges, order) && a in order && b in edges[a]
    ensures b in order && IndexOf(order, b) < IndexOf(order, a)
  {
    var i := IndexOf(order, a);
    assert b in Names(order[..i]);
    var j :| 0 <= j < i && order[j] == b;
  }

  lemma {:induction false} PathDescends(edges: Edges, order: seq<string>, p: seq<string>)
    requires Ordered(edges, order) && IsPath(edges, p) && |p| >= 2 && p[0] in order
    ensures p[|p| - 1] in order && IndexOf(order, p[|p| - 1]) < IndexOf(order, p[0])
    decreases |p|
  {
    EdgeDescends(edges, order, p[0], p[1]);
    if |p| > 2 {
      var q := p[1..];
      assert forall i :: 0 <= i < |q| ==> q[i] == p[i + 1];
      PathDescends(edges, order, q);
    }
  }

  /** A topological order rules out every cycle. */
  lemma {:induction false} TopologicalIsAcyclic(edges: Edges, order: seq<string>)
    requires Topological(edges, order)
    ensures forall p :: !IsCycle(edges, p)
  {
    forall p | IsPath(edges, p) && |p| >= 2 ensures p[0] != p[|p| - 1] {
      assert p[0] in Names(order);
      PathDescends(edges, order, p);
    }
  }

  // ---------------------------------------------------------------- the depth-first search

  datatype FragmentError = Undefined | Cycle | TooDeep

  /** Why a search from `path + [name]` stopped: a cycle, or a chain of MAX_DEPTH + 2 names. */
  ghost predicate Justifies(edges: Edges, e: FragmentError, evidence: seq<string>) {
    match e
    case Cycle => IsCycle(edges, evidence)
    case TooDeep => IsPath(edges, evidence) && |evidence| == MAX_DEPTH + 2
    case Undefined => false
  }

  /** `visit`, with the children of a fragment taken in any order. */
  method Visit(name: string, edges: Edges, active: set<string>, done: set<string>, depth: nat,
               ghost path: seq<string>, ghost order: seq<string>)
    returns (r: Result<(), FragmentError>, done': set<string>, ghost order': seq<string>, ghost evidence: seq<string>)
    requires Closed(edges) && IsPath(edges, path + [name]) && active == Names(path) && |path| == depth <= MAX_DEPTH + 1
    requires Ordered(edges, order) && done == Names(order) && active !! done
    ensures r.Ok? ==> Ordered(edges, order') && done' == Names(order') && order <= order'
    ensures r.Ok? ==> name in done' && done <= done' && active !! done'
    ensures r.Err? ==> Justifies(edges, r.error, evidence)
    decreases MAX_DEPTH + 1 - depth
  {
    done', order', evidence := done, order, [];
    assert (path + [name])[depth] == name;
    if depth > MAX_DEPTH {
      evidence := path + [name];
      return Err(TooDeep), done', order', evidence;
    }
    if name in done { return Ok(()), done', order', evidence; }
    if name in active {
      evidence := CycleFrom(edges, path, name);
      return Err(Cycle), done', order', evidence;
    }
    var active' := active + {name};
    assert active' == Names(path + [name]);
    var children := edges[name];
    while children != {}
      invariant children <= edges[name] && edges[name] - children <= done'
      invariant Ordered(edges, order') && done' == Names(order') && order <= order'
      invariant done <= done' && active' !! done'
      decreases children
    {
      var child :| child in children;
      ExtendPath(edges, path + [name], child);
      r, done', order', evidence := Visit(child, edges, active', done', depth + 1, path + [name], order');
      if r.Err? { return; }
      children := children - {child};
    }
    AppendOrdered(edges, order', name);
    done', order' := done' + {name}, order' + [name];
    r := Ok(());
  }

  lemma {:induction false} ExtendPath(edges: Edges, p: seq<string>, child: string)
    requires IsPath(edges, p) && p != [] && child in edges[p[|p| - 1]] && child in edges
    ensures IsPath(edges, p + [child])
  {
  }

  lemma {:induction false} AppendOrdered(edges: Edges, order: seq<string>, name: string)
    requires Ordered(edges, order) && name in edges && name !in Names(order) && edges[name] <= Names(order)
    ensures Ordered(edges, order + [name]) && Names(order + [name]) == Names(order) + {name}
  {
    var next := order + [name];
    assert next[..|order|] == order;
    assert forall i :: 0 <= i < |order| ==> next[..i] == order[..i];
  }

  ghost function CycleFrom(edges: Edges, path: seq<string>, name: string): (cycle: seq<string>)
    requires IsPath(edges, path + [name]) && name in path
    ensures IsCycle(edges, cycle)
  {
    var i := IndexOf(path, name);
    var whole := path + [name];
    assert forall k :: 0 <= k < |whole[i..]| ==> whole[i..][k] == whole[i + k];
    whole[i..]
  }

  /** `validate_fragments`, for every visiting order. Acceptance means that the references are defined
      and acyclic; a reported cycle exists; a depth error needs a chain of 34 fragments, so a document
      without a cycle or such a chain is accepted. */
  method ValidateFragments(ops: seq<Operation>, table: Table)
    returns (r: Result<(), FragmentError>, ghost order: seq<string>)
    ensures r == Err(Undefined) <==> !AllDefined(ops, table)
    ensures r.Ok? ==> Topological(EdgesOf(table), order) && forall p :: !IsCycle(EdgesOf(table), p)
    ensures r == Err(Cycle) ==> exists p :: IsCycle(EdgesOf(table), p)
    ensures r == Err(TooDeep) ==> exists p :: IsPath(EdgesOf(table), p) && |p| == MAX_DEPTH + 2
  {
    order := [];
    var edges := EdgesOf(table);
    var missing := (exists i :: 0 <= i < |ops| && !(SpreadNames(ops[i].selections) <= table.Keys))
                   || (exists name :: name in edges.Keys && !(edges[name] <= table.Keys));
    if missing { return Err(Undefined), order; }
    var names := edges.Keys;
    var done: set<string> := {};
    while names != {}
      invariant names <= edges.Keys && edges.Keys - names <= done
      invariant Ordered(edges, order) && done == Names(order)
      decreases names
    {
      var name :| name in names;
      ghost var evidence;
      r, done, order, evidence := Visit(name, edges, {}, done, 0, [], order);
      if r.Err? {
        assert Justifies(edges, r.error, evidence);
        return;
      }
      names := names - {name};
    }
    assert Names(order) <= edges.Keys;
    TopologicalIsAcyclic(edges, order);
    r := Ok(());
  }
}
