/** Maps with string keys kept in key order (the source's `BTreeMap<String, _>`). */
module OrderedMap {
  import opened Outcome

  datatype Entry<+V> = Entry(key: string, value: V)

  /** Strings compare by code point, which is also their UTF-8 byte order. */
  predicate Less(a: string, b: string) {
    b != [] && (a == [] || a[0] < b[0] || (a[0] == b[0] && Less(a[1..], b[1..])))
  }

  lemma {:induction false} LessTotal(a: string, b: string)
    ensures Less(a, b) || a == b || Less(b, a)
    ensures !(Less(a, b) && Less(b, a)) && !Less(a, a)
  {
    if a != [] {
      LessTotal(a[1..], a[1..]);
      if b != [] && a[0] == b[0] {
        LessTotal(a[1..], b[1..]);
        assert a == [a[0]] + a[1..] && b == [b[0]] + b[1..];
      }
    }
  }

  lemma {:induction false} LessTransitive(a: string, b: string, c: string)
    requires Less(a, b) && Less(b, c)
    ensures Less(a, c)
  {
    if a != [] && a[0] == b[0] == c[0] { LessTransitive(a[1..], b[1..], c[1..]); }
  }

  ghost predicate Sorted<V>(m: seq<Entry<V>>) {
    forall i, j :: 0 <= i < j < |m| ==> Less(m[i].key, m[j].key)
  }

  function Find<V>(m: seq<Entry<V>>, key: string): (r: Option<V>)
    ensures r.Some? ==> exists i :: 0 <= i < |m| && m[i] == Entry(key, r.value)
    ensures r.None? ==> forall i :: 0 <= i < |m| ==> m[i].key != key
  {
    if m == [] then None
    else if m[0].key == key then assert m[0] == Entry(key, m[0].value); Some(m[0].value)
    else
      var r := Find(m[1..], key);
      assert r.Some? ==> exists i :: 0 <= i < |m[1..]| && m[1..][i] == Entry(key, r.value) && m[i + 1] == m[1..][i];
      assert r.None? ==> forall i :: 0 < i < |m| ==> m[1..][i - 1].key != key && m[i] == m[1..][i - 1];
      r
  }

  predicate Has<V>(m: seq<Entry<V>>, key: string) { Find(m, key).Some? }

  function Insert<V>(m: seq<Entry<V>>, e: Entry<V>): (r: seq<Entry<V>>)
    ensures |r| == |m| + 1
  {
    if m == [] || Less(e.key, m[0].key) then [e] + m else [m[0]] + Insert(m[1..], e)
  }

  lemma {:induction false} InsertKeepsEntries<V>(m: seq<Entry<V>>, e: Entry<V>)
    ensures forall j :: 0 <= j < |m| + 1 ==> Insert(m, e)[j] == e || Insert(m, e)[j] in m
    ensures e in Insert(m, e) && forall i :: 0 <= i < |m| ==> m[i] in Insert(m, e)
  {
    if m != [] && !Less(e.key, m[0].key) {
      InsertKeepsEntries(m[1..], e);
      assert m == [m[0]] + m[1..];
    }
  }

  lemma {:induction false} InsertKeepsSorted<V>(m: seq<Entry<V>>, e: Entry<V>)
    requires Sorted(m) && !Has(m, e.key)
    ensures Sorted(Insert(m, e))
  {
    if m == [] {
    } else if Less(e.key, m[0].key) {
      forall j | 0 <= j < |m| ensures Less(e.key, m[j].key) {
        if j > 0 { LessTransitive(e.key, m[0].key, m[j].key); }
      }
    } else {
      LessTotal(e.key, m[0].key);
      assert forall j :: 0 <= j < |m[1..]| ==> m[1..][j] == m[j + 1];
      InsertKeepsSorted(m[1..], e);
      InsertKeepsEntries(m[1..], e);
      var r := Insert(m[1..], e);
      forall j | 0 <= j < |r| ensures Less(m[0].key, r[j].key) {
        assert r[j] == e || r[j] in m[1..];
      }
    }
  }

  lemma {:induction false} InsertLast<V>(m: seq<Entry<V>>, e: Entry<V>)
    requires Sorted(m + [e])
    ensures !Has(m, e.key) && Insert(m, e) == m + [e]
  {
    forall i | 0 <= i < |m| ensures m[i].key != e.key {
      assert (m + [e])[i] == m[i] && (m + [e])[|m|] == e;
      LessTotal(m[i].key, e.key);
    }
    if m != [] {
      assert Less((m + [e])[0].key, (m + [e])[|m|].key);
      LessTotal(e.key, m[0].key);
      var t := m[1..] + [e];
      assert forall i :: 0 <= i < |t| ==> t[i] == (m + [e])[i + 1];
      InsertLast(m[1..], e);
      assert m == [m[0]] + m[1..];
    }
  }

  /** Two sorted maps with the same entries are equal. */
  lemma {:induction false} SortedUnique<V>(a: seq<Entry<V>>, b: seq<Entry<V>>)
    requires Sorted(a) && Sorted(b)
    requires forall x :: x in a <==> x in b
    ensures a == b
  {
    assert b != [] ==> b[0] in b;
    if a != [] {
      assert a[0] in b && b != [];
      assert b[0] in a;
      var i :| 0 <= i < |b| && b[i] == a[0];
      var j :| 0 <= j < |a| && a[j] == b[0];
      LessTotal(a[0].key, b[0].key);
      assert a[0] == b[0];
      forall k | 0 < k < |a| ensures a[k] != a[0] { LessTotal(a[0].key, a[k].key); }
      forall k | 0 < k < |b| ensures b[k] != b[0] { LessTotal(b[0].key, b[k].key); }
      forall x ensures x in a[1..] <==> x in b[1..] {
        assert a == [a[0]] + a[1..] && b == [b[0]] + b[1..];
        if x in a[1..] {
          var k :| 0 <= k < |a[1..]| && a[1..][k] == x;
          assert a[k + 1] == x && x in b;
        }
        if x in b[1..] {
          var k :| 0 <= k < |b[1..]| && b[1..][k] == x;
          assert b[k + 1] == x && x in a;
        }
      }
      assert forall k :: 0 <= k < |a[1..]| ==> a[1..][k] == a[k + 1];
      assert forall k :: 0 <= k < |b[1..]| ==> b[1..][k] == b[k + 1];
      SortedUnique(a[1..], b[1..]);
      assert a == [a[0]] + a[1..] && b == [b[0]] + b[1..];
    }
  }
}
