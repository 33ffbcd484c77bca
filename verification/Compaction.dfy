/** Variable substitution, and the display form that keeps each large string once (`compact_value`).
    The digest is any injective function. */
module Compaction {
  import opened Outcome
  import opened OrderedMap
  import opened Syntax

  const LARGE: nat := 4096

  type Digest = string -> string

  ghost predicate Injective(digest: Digest) {
    forall a, b :: digest(a) == digest(b) ==> a == b
  }

  function CharBytes(c: char): nat {
    if c as int < 0x80 then 1 else if c as int < 0x800 then 2 else if c as int < 0x1_0000 then 3 else 4
  }

  /** The length of a string in UTF-8. */
  function Bytes(s: string): nat {
    if s == [] then 0 else CharBytes(s[0]) + Bytes(s[1..])
  }

  predicate Large(s: string) { Bytes(s) > LARGE }

  // ---------------------------------------------------------------- plain substitution

  type Variables = seq<Entry<Value>>

  /** Every variable reference replaced by the variable's value; None when one is undefined. */
  function Substitute(v: Value, vars: Variables): (r: Option<Value>)
    decreases v
  {
    match v
    case Variable(name) => Find(vars, name)
    case List(values) =>
      var r := SubstituteAll(values, vars);
      if r.None? then None else Some(List(r.value))
    case Object(fields) =>
      var r := SubstituteFields(fields, vars);
      if r.None? then None else Some(Object(r.value))
    case _ => Some(v)
  }

  function SubstituteAll(vs: seq<Value>, vars: Variables): (r: Option<seq<Value>>)
    decreases vs
  {
    if vs == [] then Some([])
    else
      var head, tail := Substitute(vs[0], vars), SubstituteAll(vs[1..], vars);
      if head.None? || tail.None? then None else Some([head.value] + tail.value)
  }

  function SubstituteFields(es: seq<Entry<Value>>, vars: Variables): (r: Option<seq<Entry<Value>>>)
    decreases es
  {
    if es == [] then Some([])
    else
      var head, tail := Substitute(es[0].value, vars), SubstituteFields(es[1..], vars);
      if head.None? || tail.None? then None else Some([Entry(es[0].key, head.value)] + tail.value)
  }

  /** No variable reference and no display reference. */
  predicate Plain(v: Value)
    decreases v
  {
    match v
    case Variable(_) => false
    case Reference(_) => false
    case List(values) => forall i :: 0 <= i < |values| ==> Plain(values[i])
    case Object(fields) => forall i :: 0 <= i < |fields| ==> Plain(fields[i].value)
    case _ => true
  }

  predicate NoReference(v: Value)
    decreases v
  {
    match v
    case Reference(_) => false
    case List(values) => forall i :: 0 <= i < |values| ==> NoReference(values[i])
    case Object(fields) => forall i :: 0 <= i < |fields| ==> NoReference(fields[i].value)
    case _ => true
  }

  predicate AllPlain(vars: Variables) { forall i :: 0 <= i < |vars| ==> Plain(vars[i].value) }

  /** Substituting plain values leaves no reference behind. */
  lemma {:induction false} SubstituteIsPlain(v: Value, vars: Variables)
    requires AllPlain(vars) && NoReference(v)
    ensures Substitute(v, vars).Some? ==> Plain(Substitute(v, vars).value)
    decreases v
  {
    match v
    case List(values) => SubstituteAllIsPlain(values, vars);
    case Object(fields) => SubstituteFieldsIsPlain(fields, vars);
    case _ =>
  }

  lemma {:induction false} SubstituteAllIsPlain(vs: seq<Value>, vars: Variables)
    requires AllPlain(vars) && forall i :: 0 <= i < |vs| ==> NoReference(vs[i])
    ensures SubstituteAll(vs, vars).Some? ==>
      forall i :: 0 <= i < |SubstituteAll(vs, vars).value| ==> Plain(SubstituteAll(vs, vars).value[i])
    decreases vs
  {
    if vs != [] {
      SubstituteIsPlain(vs[0], vars);
      SubstituteAllIsPlain(vs[1..], vars);
    }
  }

  lemma {:induction false} SubstituteFieldsIsPlain(es: seq<Entry<Value>>, vars: Variables)
    requires AllPlain(vars) && forall i :: 0 <= i < |es| ==> NoReference(es[i].value)
    ensures SubstituteFields(es, vars).Some? ==>
      forall i :: 0 <= i < |SubstituteFields(es, vars).value| ==> Plain(SubstituteFields(es, vars).value[i].value)
    decreases es
  {
    if es != [] {
      SubstituteIsPlain(es[0].value, vars);
      SubstituteFieldsIsPlain(es[1..], vars);
    }
  }

  // ---------------------------------------------------------------- the compacted form

  function Compacted(v: Value, digest: Digest): Value
    decreases v
  {
    match v
    case Str(text) => if Large(text) then Reference(digest(text)) else v
    case List(values) => List(CompactedAll(values, digest))
    case Object(fields) => Object(CompactedFields(fields, digest))
    case _ => v
  }

  function CompactedAll(vs: seq<Value>, digest: Digest): seq<Value>
    decreases vs
  {
    if vs == [] then [] else [Compacted(vs[0], digest)] + CompactedAll(vs[1..], digest)
  }

  function CompactedFields(es: seq<Entry<Value>>, digest: Digest): seq<Entry<Value>>
    decreases es
  {
    if es == [] then [] else [Entry(es[0].key, Compacted(es[0].value, digest))] + CompactedFields(es[1..], digest)
  }

  /** The large strings of a value. */
  ghost function LargeTexts(v: Value): set<string>
    decreases v
  {
    match v
    case Str(text) => if Large(text) then {text} else {}
    case List(values) => LargeTextsAll(values)
    case Object(fields) => LargeTextsFields(fields)
    case _ => {}
  }

  ghost function LargeTextsAll(vs: seq<Value>): set<string>
    decreases vs
  {
    if vs == [] then {} else LargeTexts(vs[0]) + LargeTextsAll(vs[1..])
  }

  ghost function LargeTextsFields(es: seq<Entry<Value>>): set<string>
    decreases es
  {
    if es == [] then {} else LargeTexts(es[0].value) + LargeTextsFields(es[1..])
  }

  type Store = map<string, string>

  /** Every stored text is filed under its own digest. */
  ghost predicate Filed(large: Store, digest: Digest) {
    forall id :: id in large ==> digest(large[id]) == id
  }

  ghost predicate Holds(large: Store, texts: set<string>, digest: Digest) {
    forall t :: t in texts ==> digest(t) in large && large[digest(t)] == t
  }

  /** Replacing each reference by the text it stands for. */
  function Restore(v: Value, large: Store): Value
    decreases v
  {
    match v
    case Reference(id) => if id in large then Str(large[id]) else v
    case List(values) => List(RestoreAll(values, large))
    case Object(fields) => Object(RestoreFields(fields, large))
    case _ => v
  }

  function RestoreAll(vs: seq<Value>, large: Store): seq<Value>
    decreases vs
  {
    if vs == [] then [] else [Restore(vs[0], large)] + RestoreAll(vs[1..], large)
  }

  function RestoreFields(es: seq<Entry<Value>>, large: Store): seq<Entry<Value>>
    decreases es
  {
    if es == [] then [] else [Entry(es[0].key, Restore(es[0].value, large))] + RestoreFields(es[1..], large)
  }

  /** Compaction is lossless: the references of a compacted value restore it. */
  lemma {:induction false} RestoreCompacted(v: Value, large: Store, digest: Digest)
    requires NoReference(v) && Holds(large, LargeTexts(v), digest)
    ensures Restore(Compacted(v, digest), large) == v
    decreases v
  {
    match v
    case Str(text) => assert Large(text) ==> text in LargeTexts(v);
    case List(values) => RestoreCompactedAll(values, large, digest);
    case Object(fields) => RestoreCompactedFields(fields, large, digest);
    case _ =>
  }

  lemma {:induction false} RestoreCompactedAll(vs: seq<Value>, large: Store, digest: Digest)
    requires (forall i :: 0 <= i < |vs| ==> NoReference(vs[i])) && Holds(large, LargeTextsAll(vs), digest)
    ensures RestoreAll(CompactedAll(vs, digest), large) == vs
    decreases vs
  {
    if vs != [] {
      RestoreCompacted(vs[0], large, digest);
      RestoreCompactedAll(vs[1..], large, digest);
      assert CompactedAll(vs, digest)[1..] == CompactedAll(vs[1..], digest);
    }
  }

  lemma {:induction false} RestoreCompactedFields(es: seq<Entry<Value>>, large: Store, digest: Digest)
    requires (forall i :: 0 <= i < |es| ==> NoReference(es[i].value)) && Holds(large, LargeTextsFields(es), digest)
    ensures RestoreFields(CompactedFields(es, digest), large) == es
    decreases es
  {
    if es != [] {
      RestoreCompacted(es[0].value, large, digest);
      RestoreCompactedFields(es[1..], large, digest);
      assert CompactedFields(es, digest)[1..] == CompactedFields(es[1..], digest);
    }
  }

  /** Texts are only ever added. */
  ghost predicate Grows(large: Store, large': Store) {
    large.Keys <= large'.Keys && forall id :: id in large ==> large'[id] == large[id]
  }

  /** `compact_value`: files each large string once and leaves the others in place. */
  method Compact(v: Value, large: Store, digest: Digest) returns (v': Value, large': Store)
    requires Injective(digest) && Filed(large, digest)
    ensures v' == Compacted(v, digest)
    ensures Filed(large', digest) && Holds(large', LargeTexts(v), digest) && Grows(large, large')
    decreases v
  {
    v', large' := v, large;
    match v
    case Str(text) =>
      if Large(text) {
        var id := digest(text);
        if id !in large { large' := large[id := text]; }
        v' := Reference(id);
      }
    case List(values) =>
      var done;
      done, large' := CompactAll(values, large, digest);
      v' := List(done);
    case Object(fields) =>
      var done;
      done, large' := CompactFields(fields, large, digest);
      v' := Object(done);
    case _ =>
  }

  method CompactAll(values: seq<Value>, large: Store, digest: Digest) returns (done: seq<Value>, large': Store)
    requires Injective(digest) && Filed(large, digest)
    ensures done == CompactedAll(values, digest)
    ensures Filed(large', digest) && Holds(large', LargeTextsAll(values), digest) && Grows(large, large')
    decreases values
  {
    done, large' := [], large;
    for i := 0 to |values|
      invariant CompactedAll(values, digest) == done + CompactedAll(values[i..], digest)
      invariant Filed(large', digest) && Grows(large, large')
      invariant Holds(large', LargeTextsAll(values) - LargeTextsAll(values[i..]), digest)
    {
      var c;
      c, large' := Compact(values[i], large', digest);
      done := done + [c];
      assert values[i..][0] == values[i] && values[i..][1..] == values[i + 1..];
    }
  }

  method CompactFields(fields: seq<Entry<Value>>, large: Store, digest: Digest)
    returns (done: seq<Entry<Value>>, large': Store)
    requires Injective(digest) && Filed(large, digest)
    ensures done == CompactedFields(fields, digest)
    ensures Filed(large', digest) && Holds(large', LargeTextsFields(fields), digest) && Grows(large, large')
    decreases fields
  {
    done, large' := [], large;
    for i := 0 to |fields|
      invariant CompactedFields(fields, digest) == done + CompactedFields(fields[i..], digest)
      invariant Filed(large', digest) && Grows(large, large')
      invariant Holds(large', LargeTextsFields(fields) - LargeTextsFields(fields[i..]), digest)
    {
      var c;
      c, large' := Compact(fields[i].value, large', digest);
      done := done + [Entry(fields[i].key, c)];
      assert fields[i..][0] == fields[i] && fields[i..][1..] == fields[i + 1..];
    }
  }

  // ---------------------------------------------------------------- substitution and compaction commute

  function CompactedVariables(vars: Variables, digest: Digest): Variables { CompactedFields(vars, digest) }

  lemma {:induction false} CompactedTwice(v: Value, digest: Digest)
    ensures Compacted(Compacted(v, digest), digest) == Compacted(v, digest)
    ensures LargeTexts(Compacted(v, digest)) == {}
    decreases v
  {
    match v
    case List(values) => CompactedTwiceAll(values, digest);
    case Object(fields) => CompactedTwiceFields(fields, digest);
    case _ =>
  }

  lemma {:induction false} CompactedTwiceAll(vs: seq<Value>, digest: Digest)
    ensures CompactedAll(CompactedAll(vs, digest), digest) == CompactedAll(vs, digest)
    ensures LargeTextsAll(CompactedAll(vs, digest)) == {}
    decreases vs
  {
    if vs != [] {
      CompactedTwice(vs[0], digest);
      CompactedTwiceAll(vs[1..], digest);
      assert CompactedAll(vs, digest)[1..] == CompactedAll(vs[1..], digest);
    }
  }

  lemma {:induction false} CompactedTwiceFields(es: seq<Entry<Value>>, digest: Digest)
    ensures CompactedFields(CompactedFields(es, digest), digest) == CompactedFields(es, digest)
    ensures LargeTextsFields(CompactedFields(es, digest)) == {}
    decreases es
  {
    if es != [] {
      CompactedTwice(es[0].value, digest);
      CompactedTwiceFields(es[1..], digest);
      assert CompactedFields(es, digest)[1..] == CompactedFields(es[1..], digest);
    }
  }

  lemma {:induction false} FindCompacted(vars: Variables, name: string, digest: Digest)
    ensures Find(CompactedVariables(vars, digest), name)
         == if Find(vars, name).Some? then Some(Compacted(Find(vars, name).value, digest)) else None
    decreases vars
  {
    if vars != [] {
      FindCompacted(vars[1..], name, digest);
      assert CompactedVariables(vars, digest)[1..] == CompactedVariables(vars[1..], digest);
    }
  }

  /** Substituting compacted variables, then compacting, is compacting the plain substitution. */
  lemma {:induction false} SubstituteCompacted(v: Value, vars: Variables, digest: Digest)
    ensures var a, b := Substitute(v, CompactedVariables(vars, digest)), Substitute(v, vars);
      && (a.Some? <==> b.Some?)
      && (a.Some? ==> Compacted(a.value, digest) == Compacted(b.value, digest))
      && (a.Some? ==> forall t :: t in LargeTexts(b.value) ==>
            t in LargeTexts(a.value) || t in LargeTextsFields(vars))
    decreases v
  {
    hide CompactedFields;
    match v
    case Variable(name) =>
      FindCompacted(vars, name, digest);
      if Find(vars, name).Some? {
        CompactedTwice(Find(vars, name).value, digest);
        FoundTexts(vars, name);
      }
    case List(values) => SubstituteCompactedAll(values, vars, digest);
    case Object(fields) => SubstituteCompactedFields(fields, vars, digest);
    case _ =>
  }

  lemma {:induction false} FoundTexts(vars: Variables, name: string)
    requires Find(vars, name).Some?
    ensures LargeTexts(Find(vars, name).value) <= LargeTextsFields(vars)
    decreases vars
  {
    if vars[0].key != name { FoundTexts(vars[1..], name); }
  }

  lemma {:induction false} SubstituteCompactedAll(vs: seq<Value>, vars: Variables, digest: Digest)
    ensures var a, b := SubstituteAll(vs, CompactedVariables(vars, digest)), SubstituteAll(vs, vars);
      && (a.Some? <==> b.Some?)
      && (a.Some? ==> CompactedAll(a.value, digest) == CompactedAll(b.value, digest))
      && (a.Some? ==> forall t :: t in LargeTextsAll(b.value) ==>
            t in LargeTextsAll(a.value) || t in LargeTextsFields(vars))
    decreases vs
  {
    if vs != [] {
      SubstituteCompacted(vs[0], vars, digest);
      SubstituteCompactedAll(vs[1..], vars, digest);
      var a, b := SubstituteAll(vs, CompactedVariables(vars, digest)), SubstituteAll(vs, vars);
      if a.Some? {
        assert a.value[1..] == SubstituteAll(vs[1..], CompactedVariables(vars, digest)).value;
        assert b.value[1..] == SubstituteAll(vs[1..], vars).value;
      }
    }
  }

  lemma {:induction false} SubstituteCompactedFields(es: seq<Entry<Value>>, vars: Variables, digest: Digest)
    ensures var a, b := SubstituteFields(es, CompactedVariables(vars, digest)), SubstituteFields(es, vars);
      && (a.Some? <==> b.Some?)
      && (a.Some? ==> CompactedFields(a.value, digest) == CompactedFields(b.value, digest))
      && (a.Some? ==> forall t :: t in LargeTextsFields(b.value) ==>
            t in LargeTextsFields(a.value) || t in LargeTextsFields(vars))
    decreases es
  {
    if es != [] {
      SubstituteCompacted(es[0].value, vars, digest);
      SubstituteCompactedFields(es[1..], vars, digest);
      var a, b := SubstituteFields(es, CompactedVariables(vars, digest)), SubstituteFields(es, vars);
      if a.Some? {
        assert a.value[1..] == SubstituteFields(es[1..], CompactedVariables(vars, digest)).value;
        assert b.value[1..] == SubstituteFields(es[1..], vars).value;
      }
    }
  }

  // ---------------------------------------------------------------- values without variables

  predicate VariableFree(v: Value)
    decreases v
  {
    match v
    case Variable(_) => false
    case List(values) => forall i :: 0 <= i < |values| ==> VariableFree(values[i])
    case Object(fields) => forall i :: 0 <= i < |fields| ==> VariableFree(fields[i].value)
    case _ => true
  }

  lemma {:induction false} SubstituteFree(v: Value, vars: Variables)
    requires VariableFree(v)
    ensures Substitute(v, vars) == Some(v)
    decreases v
  {
    match v
    case List(values) => SubstituteFreeAll(values, vars);
    case Object(fields) => SubstituteFreeFields(fields, vars);
    case _ =>
  }

  lemma {:induction false} SubstituteFreeAll(vs: seq<Value>, vars: Variables)
    requires forall i :: 0 <= i < |vs| ==> VariableFree(vs[i])
    ensures SubstituteAll(vs, vars) == Some(vs)
    decreases vs
  {
    if vs != [] {
      SubstituteFree(vs[0], vars);
      SubstituteFreeAll(vs[1..], vars);
      assert vs == [vs[0]] + vs[1..];
    }
  }

  lemma {:induction false} SubstituteFreeFields(es: seq<Entry<Value>>, vars: Variables)
    requires forall i :: 0 <= i < |es| ==> VariableFree(es[i].value)
    ensures SubstituteFields(es, vars) == Some(es)
    decreases es
  {
    if es != [] {
      SubstituteFree(es[0].value, vars);
      SubstituteFreeFields(es[1..], vars);
      assert es == [Entry(es[0].key, es[0].value)] + es[1..];
    }
  }

  lemma {:induction false} CompactedIsFree(v: Value, digest: Digest)
    requires Plain(v)
    ensures VariableFree(Compacted(v, digest))
    decreases v
  {
    match v
    case List(values) => CompactedIsFreeAll(values, digest);
    case Object(fields) => CompactedIsFreeFields(fields, digest);
    case _ =>
  }

  lemma {:induction false} CompactedIsFreeAll(vs: seq<Value>, digest: Digest)
    requires forall i :: 0 <= i < |vs| ==> Plain(vs[i])
    ensures forall i :: 0 <= i < |CompactedAll(vs, digest)| ==> VariableFree(CompactedAll(vs, digest)[i])
    decreases vs
  {
    if vs != [] {
      CompactedIsFree(vs[0], digest);
      CompactedIsFreeAll(vs[1..], digest);
    }
  }

  lemma {:induction false} CompactedIsFreeFields(es: seq<Entry<Value>>, digest: Digest)
    requires forall i :: 0 <= i < |es| ==> Plain(es[i].value)
    ensures forall i :: 0 <= i < |CompactedFields(es, digest)| ==> VariableFree(CompactedFields(es, digest)[i].value)
    decreases es
  {
    if es != [] {
      CompactedIsFree(es[0].value, digest);
      CompactedIsFreeFields(es[1..], digest);
    }
  }

  lemma {:induction false} PlainIsFree(v: Value)
    requires Plain(v)
    ensures VariableFree(v)
    decreases v
  {
    match v
    case List(values) => forall i | 0 <= i < |values| ensures VariableFree(values[i]) { PlainIsFree(values[i]); }
    case Object(fields) =>
      forall i | 0 <= i < |fields| ensures VariableFree(fields[i].value) { PlainIsFree(fields[i].value); }
    case _ =>
  }
}
