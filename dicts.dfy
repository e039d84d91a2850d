/**
 * Python dictionaries keep the order in which their keys were first inserted,
 * and the integration iterates over them (`values()`, `keys()`), so a
 * dictionary is modelled as its key order plus the key-to-value map.
 */
module Dicts {

  datatype Dict<K, V> = Dict(keys: seq<K>, entries: map<K, V>)

  predicate Distinct<K(==)>(s: seq<K>) {
    forall i, j :: 0 <= i < j < |s| ==> s[i] != s[j]
  }

  /** Every key appears once in the order, and the order lists exactly the mapped keys. */
  predicate Valid<K(==), V>(d: Dict<K, V>) {
    && Distinct(d.keys)
    && d.entries.Keys == (set k | k in d.keys)
  }

  type ValidDict<K(==), V> = d: Dict<K, V> | Valid(d) witness Dict([], map[])

  /** `d[k] = v`: a new key goes to the end of the order, an existing key keeps its place. */
  function Put<K(==), V>(d: Dict<K, V>, k: K, v: V): (r: Dict<K, V>)
    requires Valid(d)
    ensures Valid(r)
    ensures r.entries == d.entries[k := v]
    ensures k in d.entries ==> r.keys == d.keys
    ensures k !in d.entries ==> r.keys == d.keys + [k]
  {
    if k in d.entries then Dict(d.keys, d.entries[k := v])
    else Dict(d.keys + [k], d.entries[k := v])
  }

  /** `d.values()`, in iteration order. */
  function Values<K(==), V>(d: Dict<K, V>): (r: seq<V>)
    requires Valid(d)
    ensures |r| == |d.keys|
    ensures forall i :: 0 <= i < |r| ==> r[i] == d.entries[d.keys[i]]
    ensures forall k :: k in d.entries ==> d.entries[k] in r
    ensures forall v :: v in r ==> exists k :: k in d.entries && d.entries[k] == v
  {
    seq(|d.keys|, i requires 0 <= i < |d.keys| => d.entries[d.keys[i]])
  }

  /** The keys of the elements of `xs`. */
  function KeysOf<K(==), V>(xs: seq<V>, key: V -> K): set<K> {
    set i | 0 <= i < |xs| :: key(xs[i])
  }

  /**
   * The comprehension `{key(x): x for x in xs}`: the elements of `xs` are
   * inserted in order, so the keys are exactly the keys of the elements and
   * every value sits under its own key.
   */
  function ByKey<K(==), V>(xs: seq<V>, key: V -> K): (d: Dict<K, V>)
    ensures Valid(d)
    ensures d.entries.Keys == KeysOf(xs, key)
    ensures forall k :: k in d.entries ==> key(d.entries[k]) == k
    decreases |xs|
  {
    if xs == [] then Dict([], map[])
    else
      var init := xs[..|xs| - 1];
      var x := xs[|xs| - 1];
      assert KeysOf(xs, key) == KeysOf(init, key) + {key(x)} by {
        forall k | k in KeysOf(xs, key) ensures k in KeysOf(init, key) + {key(x)} {
          var i :| 0 <= i < |xs| && key(xs[i]) == k;
          if i < |init| { assert init[i] == xs[i]; }
        }
        forall k | k in KeysOf(init, key) ensures k in KeysOf(xs, key) {
          var i :| 0 <= i < |init| && key(init[i]) == k;
          assert xs[i] == init[i];
        }
      }
      Put(ByKey(init, key), key(x), x)
  }

  /** Duplicate keys: the value kept is the LAST element of `xs` with that key. */
  lemma {:induction false} ByKeyLastWins<K, V>(xs: seq<V>, key: V -> K, k: K)
    requires k in ByKey(xs, key).entries
    ensures exists i :: 0 <= i < |xs| && xs[i] == ByKey(xs, key).entries[k]
              && forall j :: i < j < |xs| ==> key(xs[j]) != k
    decreases |xs|
  {
    var init := xs[..|xs| - 1];
    var x := xs[|xs| - 1];
    var d0 := ByKey(init, key);
    assert ByKey(xs, key) == Put(d0, key(x), x);
    if key(x) == k {
      assert xs[|xs| - 1] == ByKey(xs, key).entries[k];
    } else {
      assert k in d0.entries && ByKey(xs, key).entries[k] == d0.entries[k];
      ByKeyLastWins(init, key, k);
      var i :| 0 <= i < |init| && init[i] == d0.entries[k]
                && forall j :: i < j < |init| ==> key(init[j]) != k;
      NoKeyAfter(xs, init, key, k, i);
    }
  }

  /** Extends "no element after `i` has key `k`" from `init` to `init + [x]`. */
  lemma NoKeyAfter<K, V>(xs: seq<V>, init: seq<V>, key: V -> K, k: K, i: nat)
    requires 0 < |xs| && init == xs[..|xs| - 1]
    requires i < |init| && key(xs[|xs| - 1]) != k
    requires forall j :: i < j < |init| ==> key(init[j]) != k
    ensures xs[i] == init[i]
    ensures forall j :: i < j < |xs| ==> key(xs[j]) != k
  {
    forall j | i < j < |xs| ensures key(xs[j]) != k {
      if j < |init| { assert xs[j] == init[j]; }
    }
  }

  /** The key order is the order of first occurrence: an earlier key occurs before any occurrence of a later one. */
  lemma {:induction false} ByKeyOrder<K, V>(xs: seq<V>, key: V -> K, a: nat, b: nat)
    requires a < b < |ByKey(xs, key).keys|
    ensures exists i :: 0 <= i < |xs| && key(xs[i]) == ByKey(xs, key).keys[a]
              && forall j :: 0 <= j <= i ==> key(xs[j]) != ByKey(xs, key).keys[b]
    decreases |xs|
  {
    var init := xs[..|xs| - 1];
    var x := xs[|xs| - 1];
    var d0 := ByKey(init, key);
    var d := ByKey(xs, key);
    if b < |d0.keys| {
      assert d.keys[a] == d0.keys[a] && d.keys[b] == d0.keys[b];
      ByKeyOrder(init, key, a, b);
      var i :| 0 <= i < |init| && key(init[i]) == d0.keys[a]
                && forall j :: 0 <= j <= i ==> key(init[j]) != d0.keys[b];
      assert xs[i] == init[i];
      assert forall j :: 0 <= j <= i ==> key(xs[j]) != d.keys[b] by {
        forall j | 0 <= j <= i ensures key(xs[j]) != d.keys[b] { assert xs[j] == init[j]; }
      }
    } else {
      // the last key was new: it is the key of x and no element of init has it
      assert key(x) !in d0.entries && d.keys == d0.keys + [key(x)] && b == |d0.keys|;
      assert d.keys[a] == d0.keys[a] && d0.keys[a] in d0.entries;
      var i :| 0 <= i < |init| && key(init[i]) == d0.keys[a];
      assert xs[i] == init[i];
      forall j | 0 <= j <= i ensures key(xs[j]) != d.keys[b] {
        assert xs[j] == init[j];
      }
    }
  }
}
