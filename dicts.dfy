/**
 * A JavaScript object used as a dictionary: string keys, each present once,
 * enumerated in insertion order; assigning to an existing key keeps its place.
 */
module Dicts {
  import opened Wrappers

  /** No element of `s` occurs twice. */
  ghost predicate NoDup<T>(s: seq<T>) {
    forall i, j :: 0 <= i < j < |s| ==> s[i] != s[j]
  }

  datatype RawDict<V> = RawDict(keys: seq<string>, entries: map<string, V>)

  ghost predicate WellKeyed<V>(d: RawDict<V>) {
    NoDup(d.keys) && forall k :: k in d.entries <==> k in d.keys
  }

  type Dict<V> = d: RawDict<V> | WellKeyed(d) witness RawDict([], map[])

  /** `{}` */
  function Empty<V>(): (d: Dict<V>)
    ensures d.keys == [] && d.entries == map[]
  {
    RawDict([], map[])
  }

  /** `d[k] = v`: a new key goes last, an existing key keeps its position. */
  function Put<V>(d: Dict<V>, k: string, v: V): (r: Dict<V>)
    ensures r.entries == d.entries[k := v]
    ensures r.keys == if k in d.entries then d.keys else d.keys + [k]
  {
    if k in d.entries then RawDict(d.keys, d.entries[k := v])
    else RawDict(d.keys + [k], d.entries[k := v])
  }

  /** Assigning a key twice is assigning it once, at the place of the first assignment. */
  lemma PutTwice<V>(d: Dict<V>, k: string, v1: V, v2: V)
    ensures Put(Put(d, k, v1), k, v2) == Put(d, k, v2)
  {
  }

  /** `Object.keys(d).map(key => [key, d[key]])` */
  function Pairs<V>(d: Dict<V>): (ps: seq<(string, V)>)
    ensures |ps| == |d.keys|
    ensures forall i :: 0 <= i < |ps| ==> ps[i] == (d.keys[i], d.entries[d.keys[i]])
  {
    seq(|d.keys|, i requires 0 <= i < |d.keys| => (d.keys[i], d.entries[d.keys[i]]))
  }

  /** `Object.values(d)` */
  function Values<V>(d: Dict<V>): (vs: seq<V>)
    ensures |vs| == |d.keys|
    ensures forall i :: 0 <= i < |vs| ==> vs[i] == d.entries[d.keys[i]]
  {
    seq(|d.keys|, i requires 0 <= i < |d.keys| => d.entries[d.keys[i]])
  }

  /** `d[k]`: the value under `k`, or none (`undefined`) when `k` is not a key. */
  function Lookup<V>(d: Dict<V>, k: string): (r: Option<V>)
    ensures r.Some? <==> k in d.entries
    ensures r.Some? ==> r.value == d.entries[k]
  {
    if k in d.entries then Some(d.entries[k]) else None
  }

  /** `d[j]` after `d[k] = v`: `v` at `k`, and what `d[j]` was at every other key. */
  lemma LookupPut<V>(d: Dict<V>, k: string, v: V, j: string)
    ensures Lookup(Put(d, k, v), j) == if j == k then Some(v) else Lookup(d, j)
  {
  }

  /** `d[k]` is `v` exactly when `[k, v]` is one of the pairs `Object.keys(d).map(...)` lists. */
  lemma LookupPairs<V>(d: Dict<V>, k: string, v: V)
    ensures Lookup(d, k) == Some(v) <==> (k, v) in Pairs(d)
  {
    if Lookup(d, k) == Some(v) {
      var i :| 0 <= i < |d.keys| && d.keys[i] == k;
      assert Pairs(d)[i] == (k, v);
    }
  }

  /** `Object.values(d)` after `d[k] = v`: a new key's value is appended, an existing key's value replaced in place. */
  lemma ValuesPut<V>(d: Dict<V>, k: string, v: V)
    ensures k !in d.entries ==> Values(Put(d, k, v)) == Values(d) + [v]
    ensures forall i :: 0 <= i < |d.keys| && d.keys[i] == k ==> Values(Put(d, k, v)) == Values(d)[i := v]
  {
    var r := Put(d, k, v);
    if k !in d.entries {
      assert Values(r) == Values(d) + [v];
    }
    forall i | 0 <= i < |d.keys| && d.keys[i] == k
      ensures Values(r) == Values(d)[i := v]
    {
      forall j | 0 <= j < |d.keys| && j != i ensures d.keys[j] != k { }
    }
  }

  // ----- key order -----

  /** The names of `names` that are not in `seen`, each once, in the order of their first appearance. */
  function NewNames(seen: seq<string>, names: seq<string>): seq<string>
    decreases |names|
  {
    if |names| == 0 then []
    else if names[0] in seen then NewNames(seen, names[1..])
    else [names[0]] + NewNames(seen + [names[0]], names[1..])
  }

  /** The position of the first occurrence of `x` in `names`. */
  function FirstIndex(names: seq<string>, x: string): (i: nat)
    requires x in names
    ensures i < |names| && names[i] == x && forall j :: 0 <= j < i ==> names[j] != x
  {
    if names[0] == x then 0 else 1 + FirstIndex(names[1..], x)
  }

  /**
   * `NewNames` holds exactly the names of `names` outside `seen`, without
   * repetition, ordered by where each first appears in `names`.
   */
  lemma {:induction false} NewNamesSpec(seen: seq<string>, names: seq<string>)
    ensures var r := NewNames(seen, names);
      && (forall x :: x in r <==> x in names && x !in seen)
      && NoDup(r)
      && forall i, j :: 0 <= i < j < |r| ==> FirstIndex(names, r[i]) < FirstIndex(names, r[j])
    decreases |names|
  {
    if |names| == 0 {
      return;
    }
    var n, rest := names[0], names[1..];
    var r := NewNames(seen, names);
    if n in seen {
      NewNamesSpec(seen, rest);
      assert forall x :: x in names <==> x == n || x in rest;
      forall i | 0 <= i < |r| ensures FirstIndex(names, r[i]) == 1 + FirstIndex(rest, r[i]) {
        assert r[i] != n;
      }
    } else {
      var tail := NewNames(seen + [n], rest);
      NewNamesSpec(seen + [n], rest);
      assert r == [n] + tail;
      assert forall x :: x in names <==> x == n || x in rest;
      forall i | 0 <= i < |tail| ensures FirstIndex(names, tail[i]) == 1 + FirstIndex(rest, tail[i]) {
        assert tail[i] in tail && n in seen + [n];
      }
      forall i, j | 0 <= i < j < |r| ensures FirstIndex(names, r[i]) < FirstIndex(names, r[j]) {
        assert r[j] == tail[j - 1];
        if i > 0 {
          assert r[i] == tail[i - 1];
        }
      }
    }
  }

  /** The keys after `d[k] = v`: `k` is added last unless it is already a key. */
  lemma PutKeys<V>(d: Dict<V>, k: string, v: V)
    ensures Put(d, k, v).keys == d.keys + NewNames(d.keys, [k])
  {
    assert [k][1..] == [];
  }

  /** One name more at the front: the seen keys grow by it unless already present. */
  lemma NewNamesCons(seen: seq<string>, n: string, rest: seq<string>)
    ensures var seen' := if n in seen then seen else seen + [n];
      seen + NewNames(seen, [n] + rest) == seen' + NewNames(seen', rest)
  {
    assert ([n] + rest)[1..] == rest;
  }

  /** Two sequences without repetitions that hold the same elements are permutations of each other. */
  lemma NoDupSameElements<T>(s: seq<T>, t: seq<T>)
    requires NoDup(s) && NoDup(t)
    requires forall x :: x in s <==> x in t
    ensures multiset(s) == multiset(t)
  {
    forall x ensures multiset(s)[x] == multiset(t)[x] {
      NoDupCount(s, x);
      NoDupCount(t, x);
    }
  }

  lemma {:induction false} NoDupCount<T>(s: seq<T>, x: T)
    requires NoDup(s)
    ensures multiset(s)[x] == if x in s then 1 else 0
  {
    if |s| > 0 {
      assert s == [s[0]] + s[1..];
      NoDupCount(s[1..], x);
    }
  }

  /**
   * Two dictionaries holding the same entries, in whatever insertion order,
   * list the same key/value pairs up to order.
   */
  lemma PairsSameEntries<V>(d1: Dict<V>, d2: Dict<V>)
    requires d1.entries == d2.entries
    ensures multiset(Pairs(d1)) == multiset(Pairs(d2))
  {
    var p1, p2 := Pairs(d1), Pairs(d2);
    forall x ensures x in p1 <==> x in p2 {
      if x in p1 {
        var i :| 0 <= i < |p1| && p1[i] == x;
        assert d1.keys[i] in d2.keys;
        var j :| 0 <= j < |d2.keys| && d2.keys[j] == d1.keys[i];
        assert p2[j] == x;
      }
      if x in p2 {
        var i :| 0 <= i < |p2| && p2[i] == x;
        assert d2.keys[i] in d1.keys;
        var j :| 0 <= j < |d1.keys| && d1.keys[j] == d2.keys[i];
        assert p1[j] == x;
      }
    }
    NoDupSameElements(p1, p2);
  }
}
