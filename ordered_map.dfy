/**
 * The insertion-ordered map of JavaScript, as `new Map(entries)` and `Object.fromEntries(entries)`
 * build it from a list of key/value pairs: a key keeps the position of its first occurrence and
 * holds the value of its last one. A map is a sequence of entries with pairwise distinct keys.
 */
module OrderedMap {
  import opened Wrappers

  function Keys<K, V>(m: seq<(K, V)>): (ks: seq<K>)
    ensures |ks| == |m|
    ensures forall i :: 0 <= i < |m| ==> ks[i] == m[i].0
    ensures forall i :: 0 <= i < |m| ==> m[i].0 in ks
  {
    var ks := seq(|m|, i requires 0 <= i < |m| => m[i].0);
    assert forall i :: 0 <= i < |m| ==> ks[i] == m[i].0;
    ks
  }

  function Values<K, V>(m: seq<(K, V)>): (vs: seq<V>)
    ensures |vs| == |m| && forall i :: 0 <= i < |m| ==> vs[i] == m[i].1
  {
    seq(|m|, i requires 0 <= i < |m| => m[i].1)
  }

  ghost predicate DistinctKeys<K, V>(m: seq<(K, V)>) {
    forall i, j :: 0 <= i < j < |m| ==> m[i].0 != m[j].0
  }

  /** The position of key `k` in `m`, if `k` is a key of `m`. */
  function IndexOf<K(==), V>(m: seq<(K, V)>, k: K): (r: Option<nat>)
    ensures r.Some? ==> r.value < |m| && m[r.value].0 == k
    ensures r.None? <==> k !in Keys(m)
  {
    if m == [] then None
    else if m[0].0 == k then Some(0)
    else
      var r := IndexOf(m[1..], k);
      assert Keys(m) == [m[0].0] + Keys(m[1..]);
      match r
      case Some(i) => Some(i + 1)
      case None => None
  }

  /** Map.prototype.get: the value stored under `k`, or absent. */
  function Get<K(==), V>(m: seq<(K, V)>, k: K): Option<V> {
    match IndexOf(m, k)
    case Some(i) => Some(m[i].1)
    case None => None
  }

  /** Map.prototype.set: overwrite the value of an existing key in place, or append a new entry. */
  function Set<K(==), V>(m: seq<(K, V)>, k: K, v: V): (r: seq<(K, V)>)
    requires DistinctKeys(m)
    ensures DistinctKeys(r)
    ensures k in Keys(m) ==> |r| == |m| && Keys(r) == Keys(m)
    ensures k in Keys(m) ==> forall j :: 0 <= j < |m| ==> r[j] == if m[j].0 == k then (k, v) else m[j]
    ensures k !in Keys(m) ==> r == m + [(k, v)]
  {
    match IndexOf(m, k)
    case Some(i) =>
      var r := m[i := (k, v)];
      assert Keys(r) == Keys(m);
      r
    case None =>
      var r := m + [(k, v)];
      r
  }

  /** `new Map(entries)`: set every entry, left to right. */
  function FromEntries<K(==), V>(es: seq<(K, V)>): (m: seq<(K, V)>)
    ensures DistinctKeys(m)
  {
    if es == [] then [] else Set(FromEntries(es[..|es| - 1]), es[|es| - 1].0, es[|es| - 1].1)
  }

  /** The position of the first occurrence of `k` in `ks`. */
  function FirstIndex<K(==)>(ks: seq<K>, k: K): (i: nat)
    requires k in ks
    ensures i < |ks| && ks[i] == k && k !in ks[..i]
  {
    var n := |ks| - 1;
    assert ks == ks[..n] + [ks[n]];
    if k in ks[..n] then
      var i := FirstIndex(ks[..n], k);
      assert ks[..n][..i] == ks[..i];
      i
    else n
  }

  /** The position of the last occurrence of `k` in `ks`. */
  function LastIndex<K(==)>(ks: seq<K>, k: K): (i: nat)
    requires k in ks
    ensures i < |ks| && ks[i] == k && k !in ks[i + 1..]
  {
    var n := |ks| - 1;
    assert ks == ks[..n] + [ks[n]];
    if ks[n] == k then n
    else
      var i := LastIndex(ks[..n], k);
      assert ks[i + 1..] == ks[..n][i + 1..] + [ks[n]];
      i
  }

  lemma KeysPrefix<K, V>(es: seq<(K, V)>, n: nat)
    requires n <= |es|
    ensures Keys(es[..n]) == Keys(es)[..n]
  {
  }

  /** The keys of `new Map(es)` are exactly the keys occurring in `es`. */
  lemma {:induction false} FromEntriesKeys<K, V>(es: seq<(K, V)>)
    ensures forall k :: k in Keys(FromEntries(es)) <==> k in Keys(es)
  {
    if es != [] {
      var n := |es| - 1;
      var p := es[..n];
      FromEntriesKeys(p);
      KeysPrefix(es, n);
      assert Keys(es) == Keys(p) + [es[n].0];
      var m' := FromEntries(p);
      if es[n].0 !in Keys(m') {
        assert Keys(m' + [es[n]]) == Keys(m') + [es[n].0];
      }
    }
  }

  /** Keys of `new Map(es)` are ordered by their first occurrence in `es`. */
  lemma {:induction false} FromEntriesOrder<K, V>(es: seq<(K, V)>)
    ensures forall k :: k in Keys(FromEntries(es)) ==> k in Keys(es)
    ensures var m := FromEntries(es);
      forall i, j :: 0 <= i < j < |m| ==> FirstIndex(Keys(es), m[i].0) < FirstIndex(Keys(es), m[j].0)
  {
    FromEntriesKeys(es);
    if es != [] {
      var p := es[..|es| - 1];
      FromEntriesOrder(p);
      FromEntriesKeys(p);
      var m := FromEntries(es);
      forall i, j | 0 <= i < j < |m|
        ensures FirstIndex(Keys(es), m[i].0) < FirstIndex(Keys(es), m[j].0)
      {
        FirstOccurrenceOrder(es, i, j);
      }
    }
  }

  /** The induction step of FromEntriesOrder for one pair of entries of the map. */
  lemma FirstOccurrenceOrder<K, V>(es: seq<(K, V)>, i: nat, j: nat)
    requires es != []
    requires forall k :: k in Keys(FromEntries(es)) <==> k in Keys(es)
    requires var p := es[..|es| - 1]; var m' := FromEntries(p);
      (forall k :: k in Keys(m') <==> k in Keys(p)) &&
      forall a, b :: 0 <= a < b < |m'| ==> FirstIndex(Keys(p), m'[a].0) < FirstIndex(Keys(p), m'[b].0)
    requires i < j < |FromEntries(es)|
    ensures FirstIndex(Keys(es), FromEntries(es)[i].0) < FirstIndex(Keys(es), FromEntries(es)[j].0)
  {
    var n := |es| - 1;
    var p := es[..n];
    var k := es[n].0;
    var ks := Keys(es);
    KeysPrefix(es, n);
    assert ks[..n] == Keys(p);
    var m' := FromEntries(p);
    var m := FromEntries(es);
    assert m == Set(m', k, es[n].1);
    assert m[i].0 == m'[i].0;
    assert m'[i].0 in Keys(p);
    assert FirstIndex(ks, m[i].0) == FirstIndex(Keys(p), m[i].0);
    if j < |m'| {
      assert m[j].0 == m'[j].0;
      assert m'[j].0 in Keys(p);
      assert FirstIndex(ks, m[j].0) == FirstIndex(Keys(p), m[j].0);
    } else {
      assert k !in Keys(m') && m[j].0 == k;
      assert FirstIndex(ks, k) == n;
    }
  }

  /** The value stored under a key of `new Map(es)` is the value of its last occurrence in `es`. */
  lemma {:induction false} FromEntriesValues<K, V>(es: seq<(K, V)>)
    ensures forall k :: k in Keys(FromEntries(es)) ==> k in Keys(es)
    ensures var m := FromEntries(es);
      forall i :: 0 <= i < |m| ==> m[i].1 == es[LastIndex(Keys(es), m[i].0)].1
  {
    FromEntriesKeys(es);
    if es != [] {
      var n := |es| - 1;
      var p := es[..n];
      FromEntriesValues(p);
      FromEntriesKeys(p);
      var m := FromEntries(es);
      forall i | 0 <= i < |m| ensures m[i].1 == es[LastIndex(Keys(es), m[i].0)].1 {
        LastEntryValue(es, i);
      }
    }
  }

  /** The induction step of FromEntriesValues for one entry of the map. */
  lemma LastEntryValue<K, V>(es: seq<(K, V)>, i: nat)
    requires es != []
    requires forall k :: k in Keys(FromEntries(es)) <==> k in Keys(es)
    requires var p := es[..|es| - 1]; var m' := FromEntries(p);
      (forall k :: k in Keys(m') <==> k in Keys(p)) &&
      forall j :: 0 <= j < |m'| ==> m'[j].1 == p[LastIndex(Keys(p), m'[j].0)].1
    requires i < |FromEntries(es)|
    ensures FromEntries(es)[i].1 == es[LastIndex(Keys(es), FromEntries(es)[i].0)].1
  {
    var n := |es| - 1;
    var p := es[..n];
    var k := es[n].0;
    var ks := Keys(es);
    KeysPrefix(es, n);
    assert ks[..n] == Keys(p);
    var m' := FromEntries(p);
    var m := FromEntries(es);
    assert m == Set(m', k, es[n].1);
    var x := m[i].0;
    if x == k {
      assert LastIndex(ks, k) == n;
      if k in Keys(m') {
        assert m[i] == (k, es[n].1);
      } else {
        assert i == |m'|;
      }
    } else {
      assert LastIndex(ks, x) == LastIndex(Keys(p), x);
      assert m[i] == m'[i];
      assert es[LastIndex(Keys(p), x)] == p[LastIndex(Keys(p), x)];
    }
  }

  /** `new Map(es).get(k)`: absent iff `k` never occurs, otherwise the last value given for `k`. */
  lemma GetFromEntries<K, V>(es: seq<(K, V)>, k: K)
    ensures Get(FromEntries(es), k).None? <==> k !in Keys(es)
    ensures k in Keys(es) ==> Get(FromEntries(es), k) == Some(es[LastIndex(Keys(es), k)].1)
  {
    FromEntriesKeys(es);
    FromEntriesValues(es);
  }

  /** One entry of `new Map(es)`: its key occurs in `es`, and its value is that of the key's last occurrence. */
  lemma FromEntriesEntry<K, V>(es: seq<(K, V)>, i: nat)
    requires i < |FromEntries(es)|
    ensures FromEntries(es)[i].0 in Keys(es)
    ensures FromEntries(es)[i] == es[LastIndex(Keys(es), FromEntries(es)[i].0)]
  {
    var m := FromEntries(es);
    FromEntriesValues(es);
    assert m[i].0 in Keys(m);
    var j := LastIndex(Keys(es), m[i].0);
    assert es[j].0 == m[i].0;
  }

  /** Two entries of `new Map(es)`, in the order of their keys' first occurrences in `es`. */
  lemma FromEntriesPairOrder<K, V>(es: seq<(K, V)>, i: nat, j: nat)
    requires i < j < |FromEntries(es)|
    ensures FromEntries(es)[i].0 in Keys(es) && FromEntries(es)[j].0 in Keys(es)
    ensures FirstIndex(Keys(es), FromEntries(es)[i].0) < FirstIndex(Keys(es), FromEntries(es)[j].0)
  {
    var m := FromEntries(es);
    FromEntriesOrder(es);
    assert m[i].0 in Keys(m) && m[j].0 in Keys(m);
  }
}
