/** Which finished work a full store gives up: the shortest prefix, in removal order, that helps. */
module Pruning {
  import opened Outcome

  type Id = nat

  /** What pruning looks at. */
  datatype Slot = Slot(id: Id, updated: int, removable: bool)

  /** The order of removal: least recently updated first, ties by id. */
  predicate Before(a: Slot, b: Slot) { a.updated < b.updated || (a.updated == b.updated && a.id < b.id) }

  ghost predicate Keyed(m: map<Id, Slot>) { forall k :: k in m ==> m[k].id == k }

  /** What is kept when a prefix of the removable slots, in removal order, is removed. */
  ghost predicate PrefixRemoved(m: map<Id, Slot>, kept: set<Id>) {
    && kept <= m.Keys && (forall k :: k in m && k !in kept ==> m[k].removable)
    && (forall a, b :: a in m && b in m && a !in kept && m[b].removable && Before(m[b], m[a]) ==> b !in kept)
  }

  /** No shorter prefix helps. */
  ghost predicate Searched(m: map<Id, Slot>, kept: set<Id>, within: set<Id> -> bool) {
    PrefixRemoved(m, kept) && forall other :: PrefixRemoved(m, other) && kept < other ==> !within(other)
  }

  ghost predicate ShortestRemoved(m: map<Id, Slot>, kept: set<Id>, within: set<Id> -> bool) {
    Searched(m, kept, within) && within(kept)
  }

  /** Removed prefixes are nested. */
  lemma {:induction false} PrefixesNest(m: map<Id, Slot>, one: set<Id>, two: set<Id>)
    requires Keyed(m) && PrefixRemoved(m, one) && PrefixRemoved(m, two)
    ensures one <= two || two <= one
  {
    forall a, b | a in one && a !in two && b in two ensures b in one {
      assert Before(m[a], m[b]) || Before(m[b], m[a]) || a == b;
    }
  }

  lemma {:induction false} ShortestIsUnique(m: map<Id, Slot>, one: set<Id>, two: set<Id>, within: set<Id> -> bool)
    requires Keyed(m) && ShortestRemoved(m, one, within) && ShortestRemoved(m, two, within)
    ensures one == two
  {
    PrefixesNest(m, one, two);
  }

  lemma {:induction false} NoneLonger(m: map<Id, Slot>, within: set<Id> -> bool)
    ensures Searched(m, m.Keys, within)
  {
  }

  lemma {:induction false} RemoveNext(m: map<Id, Slot>, kept: set<Id>, c: Id, within: set<Id> -> bool)
    requires Keyed(m) && Searched(m, kept, within) && !within(kept) && IsOldest(m, kept, c)
    ensures Searched(m, kept - {c}, within)
  {
    forall other | PrefixRemoved(m, other) && kept - {c} < other ensures !within(other) {
      PrefixesNest(m, kept, other);
      if other <= kept { assert other == kept; } else { assert kept <= other && kept != other; }
    }
  }

  lemma {:induction false} NothingLeft(m: map<Id, Slot>, kept: set<Id>, within: set<Id> -> bool)
    requires Searched(m, kept, within) && !within(kept) && forall k :: k in kept ==> !m[k].removable
    ensures forall other :: !ShortestRemoved(m, other, within)
  {
    forall other ensures !ShortestRemoved(m, other, within) {
      if PrefixRemoved(m, other) {
        assert kept <= other;
        assert kept == other || kept < other;
      }
    }
  }

  lemma {:induction false} SubsetSize<T>(a: set<T>, b: set<T>)
    requires a <= b
    ensures |a| <= |b| && (a != b ==> |a| < |b|)
  {
    assert b == a + (b - a);
  }

  /** Some prefix that helps means some shortest prefix that helps. */
  lemma {:induction false} ShortestExists(m: map<Id, Slot>, kept: set<Id>, within: set<Id> -> bool)
    requires PrefixRemoved(m, kept) && within(kept)
    ensures exists s :: ShortestRemoved(m, s, within)
    decreases |m.Keys| - |kept|
  {
    if !ShortestRemoved(m, kept, within) {
      var other :| PrefixRemoved(m, other) && kept < other && within(other);
      SubsetSize(kept, other);
      SubsetSize(other, m.Keys);
      ShortestExists(m, other, within);
    }
  }

  ghost function Lasting(m: map<Id, Slot>): set<Id> { set k | k in m && !m[k].removable }

  /** Every prefix keeps what is not removable, and removing all the rest is the longest one. */
  lemma {:induction false} LastingIsLeast(m: map<Id, Slot>)
    ensures PrefixRemoved(m, Lasting(m)) && forall kept :: PrefixRemoved(m, kept) ==> Lasting(m) <= kept
  {
  }

  ghost predicate IsOldest(m: map<Id, Slot>, among: set<Id>, c: Id) {
    c in m && c in among && m[c].removable
    && forall k :: k in m && k in among && m[k].removable ==> !Before(m[k], m[c])
  }

  method OldestRemovable(m: map<Id, Slot>, kept: set<Id>) returns (c: Option<Id>)
    requires kept <= m.Keys
    ensures c.None? ==> forall k :: k in kept ==> !m[k].removable
    ensures c.Some? ==> IsOldest(m, kept, c.value)
  {
    var rest := kept;
    c := None;
    while rest != {}
      invariant rest <= kept
      invariant c.None? ==> forall k :: k in kept - rest ==> !m[k].removable
      invariant c.Some? ==> IsOldest(m, kept - rest, c.value)
      decreases |rest|
    {
      var k :| k in rest;
      if m[k].removable && (c.None? || Before(m[k], m[c.value])) { c := Some(k); }
      rest := rest - {k};
    }
  }

  // ---------------------------------------------------------------- stores

  function Restrict<J>(m: map<Id, J>, kept: set<Id>): map<Id, J> { map k | k in m && k in kept :: m[k] }

  ghost function Where<J>(m: map<Id, J>, p: J -> bool): set<Id> { set k | k in m && p(m[k]) }

  /** How many records of a store have a property. */
  method CountWhere<J>(m: map<Id, J>, p: J -> bool) returns (n: nat)
    ensures n == |Where(m, p)|
  {
    var rest := m;
    n := 0;
    while rest != map[]
      invariant n + |Where(rest, p)| == |Where(m, p)|
      decreases |rest|
    {
      var k :| k in rest;
      assert Where(rest - {k}, p) == Where(rest, p) - {k};
      if p(rest[k]) { n := n + 1; }
      rest := rest - {k};
    }
    assert Where(rest, p) == {};
  }

  ghost function Among<J>(m: map<Id, J>, within: map<Id, J> -> bool): set<Id> -> bool {
    kept => within(Restrict(m, kept))
  }

  /** The store without the shortest prefix of removable slots that brings it within its limits. */
  ghost function Pruned<J>(m: map<Id, J>, slots: map<Id, Slot>, within: map<Id, J> -> bool): Option<map<Id, J>> {
    if exists kept :: ShortestRemoved(slots, kept, Among(m, within))
    then var kept :| ShortestRemoved(slots, kept, Among(m, within)); Some(Restrict(m, kept))
    else None
  }

  ghost predicate Describes<J>(slots: map<Id, Slot>, m: map<Id, J>) { slots.Keys == m.Keys && Keyed(slots) }

  lemma {:induction false} PrunedIs<J>(m: map<Id, J>, slots: map<Id, Slot>, kept: set<Id>, within: map<Id, J> -> bool)
    requires Describes(slots, m) && ShortestRemoved(slots, kept, Among(m, within))
    ensures Pruned(m, slots, within) == Some(Restrict(m, kept))
  {
    var other :| ShortestRemoved(slots, other, Among(m, within))
      && Pruned(m, slots, within) == Some(Restrict(m, other));
    ShortestIsUnique(slots, kept, other, Among(m, within));
  }

  /** `saved` is what the loop has reached: every shorter prefix has failed. */
  ghost predicate PrunedSoFar<J>(m: map<Id, J>, slots: map<Id, Slot>, saved: map<Id, J>, within: map<Id, J> -> bool) {
    saved == Restrict(m, saved.Keys) && Searched(slots, saved.Keys, Among(m, within))
  }

  lemma {:induction false} PruningStarts<J>(m: map<Id, J>, slots: map<Id, Slot>, within: map<Id, J> -> bool)
    requires Describes(slots, m)
    ensures PrunedSoFar(m, slots, m, within)
  {
    NoneLonger(slots, Among(m, within));
  }

  lemma {:induction false} PruningSteps<J>(m: map<Id, J>, slots: map<Id, Slot>, saved: map<Id, J>, c: Id,
                                           within: map<Id, J> -> bool)
    requires Describes(slots, m) && PrunedSoFar(m, slots, saved, within) && !within(saved)
             && IsOldest(slots, saved.Keys, c)
    ensures PrunedSoFar(m, slots, saved - {c}, within)
  {
    RemoveNext(slots, saved.Keys, c, Among(m, within));
    assert (saved - {c}).Keys == saved.Keys - {c};
  }

  lemma {:induction false} PruningEnds<J>(m: map<Id, J>, slots: map<Id, Slot>, saved: map<Id, J>,
                                          within: map<Id, J> -> bool)
    requires Describes(slots, m) && PrunedSoFar(m, slots, saved, within)
    ensures within(saved) ==> Pruned(m, slots, within) == Some(saved)
    ensures !within(saved) && (forall k :: k in saved ==> !slots[k].removable) ==> Pruned(m, slots, within).None?
  {
    if within(saved) {
      PrunedIs(m, slots, saved.Keys, within);
    } else if forall k :: k in saved ==> !slots[k].removable {
      NothingLeft(slots, saved.Keys, Among(m, within));
    }
  }

  ghost predicate WithoutRemovable<J>(m: map<Id, J>, slots: map<Id, Slot>, r: map<Id, J>) {
    && (forall k :: k in r ==> k in m && r[k] == m[k])
    && (forall k :: k in m && k !in r ==> k in slots && slots[k].removable)
  }

  /** Pruning meets the limits and removes only what is removable. */
  lemma {:induction false} PruningKeeps<J>(m: map<Id, J>, slots: map<Id, Slot>, within: map<Id, J> -> bool)
    requires Describes(slots, m) && Pruned(m, slots, within).Some?
    ensures within(Pruned(m, slots, within).value) && WithoutRemovable(m, slots, Pruned(m, slots, within).value)
  {
    var kept :| ShortestRemoved(slots, kept, Among(m, within)) && Pruned(m, slots, within) == Some(Restrict(m, kept));
  }

  /** If smaller stores are within the limits whenever larger ones are, pruning fails exactly when even the
      removal of everything removable leaves too much. */
  lemma {:induction false} PruningFailsIff<J>(m: map<Id, J>, slots: map<Id, Slot>, within: map<Id, J> -> bool)
    requires Describes(slots, m)
    requires forall few, many :: few <= many && Among(m, within)(many) ==> Among(m, within)(few)
    ensures Pruned(m, slots, within).None? <==> !within(Restrict(m, Lasting(slots)))
  {
    LastingIsLeast(slots);
    if within(Restrict(m, Lasting(slots))) {
      ShortestExists(slots, Lasting(slots), Among(m, within));
    }
    if Pruned(m, slots, within).Some? {
      var kept :| ShortestRemoved(slots, kept, Among(m, within));
      assert Among(m, within)(kept);
    }
  }
}
