/**
 * An in-memory store keyed by entity ID, as the routes keep it in a plain
 * object: a map from key to entity together with the keys in insertion order,
 * which is the order `Object.values` lists them in for the service's
 * non-numeric keys. Writing an existing key keeps its position.
 */
module Tables {

  predicate Distinct(s: seq<string>) {
    forall i, j :: 0 <= i < j < |s| ==> s[i] != s[j]
  }

  /** `s` with every occurrence of `k` removed. */
  function Without(s: seq<string>, k: string): (r: seq<string>)
    ensures forall x :: x in r <==> x in s && x != k
    ensures Distinct(s) ==> Distinct(r)
    ensures k !in s ==> r == s
  {
    if s == [] then []
    else if s[0] == k then Without(s[1..], k)
    else
      var rest := Without(s[1..], k);
      assert Distinct(s) ==> Distinct(s[1..]) && s[0] !in rest;
      assert forall j :: 0 < j < |rest| + 1 ==> ([s[0]] + rest)[j] == rest[j - 1];
      [s[0]] + rest
  }

  /** Removing a key that occurs once, at index i, closes the gap at i. */
  lemma {:induction false} WithoutAt(s: seq<string>, k: string, i: nat)
    requires Distinct(s) && i < |s| && s[i] == k
    ensures Without(s, k) == s[..i] + s[i + 1..]
  {
    if i == 0 {
      assert k !in s[1..];
    } else {
      WithoutAt(s[1..], k, i - 1);
      assert s[1..][..i - 1] == s[1..i];
      assert s[1..][i..] == s[i + 1..];
      assert s[..i] == [s[0]] + s[1..i];
    }
  }

  datatype Table<V> = Table(entries: map<string, V>, order: seq<string>) {

    /** The order lists every key exactly once. */
    ghost predicate Valid() {
      Distinct(order) && forall k :: k in order <==> k in entries
    }

    /** `Object.values(store)`. */
    function Values(): (vs: seq<V>)
      requires Valid()
      ensures |vs| == |order|
      ensures forall i :: 0 <= i < |order| ==> vs[i] == entries[order[i]]
    {
      seq(|order|, i requires 0 <= i < |order| => entries[order[i]])
    }

    /** `store[k] = v`. */
    function Insert(k: string, v: V): (t: Table<V>)
      requires Valid()
      ensures t.Valid()
      ensures t.entries == entries[k := v]
      ensures t.order == if k in entries then order else order + [k]
    {
      Table(entries[k := v], if k in entries then order else order + [k])
    }

    /** `delete store[k]`. */
    function Remove(k: string): (t: Table<V>)
      requires Valid()
      ensures t.Valid()
      ensures t.entries == entries - {k}
      ensures t.order == Without(order, k)
    {
      Table(entries - {k}, Without(order, k))
    }
  }

  function EmptyTable<V>(): (t: Table<V>)
    ensures t.Valid() && t.entries == map[] && t.order == []
  {
    Table(map[], [])
  }

  /** Every stored entity is listed. */
  lemma ValuesComplete<V>(t: Table<V>, k: string)
    requires t.Valid() && k in t.entries
    ensures t.entries[k] in t.Values()
  {
    var i :| 0 <= i < |t.order| && t.order[i] == k;
    assert t.Values()[i] == t.entries[k];
  }

  /** A new key is listed last, after everything that was there. */
  lemma InsertFreshValues<V>(t: Table<V>, k: string, v: V)
    requires t.Valid() && k !in t.entries
    ensures t.Insert(k, v).Values() == t.Values() + [v]
  {
  }

  /** Writing an existing key changes its entry in place and nothing else in the listing. */
  lemma InsertExistingValues<V>(t: Table<V>, k: string, v: V, i: nat)
    requires t.Valid() && i < |t.order| && t.order[i] == k
    ensures t.Insert(k, v).Values() == t.Values()[i := v]
  {
    var u := t.Insert(k, v);
    assert u.order == t.order;
    forall j | 0 <= j < |t.order|
      ensures u.Values()[j] == t.Values()[i := v][j]
    {
      if j != i {
        assert t.order[j] != k;
      }
    }
  }

  /** Deleting a key drops exactly its entry from the listing and keeps the rest in order. */
  lemma RemoveValues<V>(t: Table<V>, k: string, i: nat)
    requires t.Valid() && i < |t.order| && t.order[i] == k
    ensures t.Remove(k).Values() == t.Values()[..i] + t.Values()[i + 1..]
  {
    WithoutAt(t.order, k, i);
    var u := t.Remove(k);
    assert u.order == t.order[..i] + t.order[i + 1..];
    forall j | 0 <= j < |u.order|
      ensures u.Values()[j] == (t.Values()[..i] + t.Values()[i + 1..])[j]
    {
      if j < i {
        assert u.order[j] == t.order[j];
      } else {
        assert u.order[j] == t.order[j + 1];
      }
    }
  }
}
