/**
 * A JavaScript `Map`: a finite mapping whose iteration order is the order in
 * which its keys were first inserted. `set` on a present key replaces the value
 * where it stands; `set` on a new key appends; `delete` removes the entry.
 */
module JsMaps {
  import opened Wrappers

  /** The entries of the map in iteration order. */
  type JsMap<K, V> = seq<(K, V)>

  /** What `m.keys()` iterates over. */
  function Keys<K, V>(m: JsMap<K, V>): (ks: seq<K>)
    ensures |ks| == |m| && forall i :: 0 <= i < |m| ==> ks[i] == m[i].0
  {
    seq(|m|, i requires 0 <= i < |m| => m[i].0)
  }

  /** What `m.values()` (and `m.forEach`) iterates over. */
  function Values<K, V>(m: JsMap<K, V>): (vs: seq<V>)
    ensures |vs| == |m| && forall i :: 0 <= i < |m| ==> vs[i] == m[i].1
  {
    seq(|m|, i requires 0 <= i < |m| => m[i].1)
  }

  /** `m.has(k)`. */
  predicate Has<K(==), V>(m: JsMap<K, V>, k: K) {
    exists i :: 0 <= i < |m| && m[i].0 == k
  }

  /** No key occurs twice: the shape every map built by `Set` and `Delete` keeps. */
  predicate DistinctKeys<K(==), V>(m: JsMap<K, V>) {
    forall i, j :: 0 <= i < j < |m| ==> m[i].0 != m[j].0
  }

  /** `m.get(k)`: the value stored under `k`, or undefined. */
  function Get<K(==), V>(m: JsMap<K, V>, k: K): (r: Option<V>)
    ensures r.Some? <==> Has(m, k)
    ensures r.Some? ==> exists i :: 0 <= i < |m| && m[i] == (k, r.value)
  {
    if m == [] then None
    else if m[0].0 == k then Some(m[0].1)
    else
      var r := Get(m[1..], k);
      assert Has(m[1..], k) ==> Has(m, k) by {
        if Has(m[1..], k) {
          var i :| 0 <= i < |m[1..]| && m[1..][i].0 == k;
          assert m[i + 1].0 == k;
        }
      }
      assert r.Some? ==> exists i :: 0 <= i < |m| && m[i] == (k, r.value) by {
        if r.Some? {
          var i :| 0 <= i < |m[1..]| && m[1..][i] == (k, r.value);
          assert m[i + 1] == (k, r.value);
        }
      }
      r
  }

  /** `m.set(k, v)`. */
  function Set<K(==), V>(m: JsMap<K, V>, k: K, v: V): JsMap<K, V> {
    if m == [] then [(k, v)]
    else if m[0].0 == k then [(k, v)] + m[1..]
    else [m[0]] + Set(m[1..], k, v)
  }

  /** `m.delete(k)`. */
  function Delete<K(==), V>(m: JsMap<K, V>, k: K): JsMap<K, V> {
    if m == [] then []
    else if m[0].0 == k then Delete(m[1..], k)
    else [m[0]] + Delete(m[1..], k)
  }

  /** After `set(k, v)` the key maps to `v`, and every other key keeps its value. */
  lemma {:induction false} GetSet<K, V>(m: JsMap<K, V>, k: K, v: V, k': K)
    ensures Get(Set(m, k, v), k') == if k' == k then Some(v) else Get(m, k')
  {
    if m != [] && m[0].0 != k {
      GetSet(m[1..], k, v, k');
    }
  }

  /** `set` of a new key appends it at the end of the iteration order. */
  lemma {:induction false} SetNewAppends<K, V>(m: JsMap<K, V>, k: K, v: V)
    requires !Has(m, k)
    ensures Set(m, k, v) == m + [(k, v)]
  {
    if m != [] {
      HasTail(m, k);
      SetNewAppends(m[1..], k, v);
      assert m == [m[0]] + m[1..];
    }
  }

  /** `set` of a present key keeps the iteration order of the keys. */
  lemma {:induction false} SetPresentKeepsKeys<K, V>(m: JsMap<K, V>, k: K, v: V)
    requires Has(m, k)
    ensures Keys(Set(m, k, v)) == Keys(m)
  {
    if m[0].0 != k {
      HasTail(m, k);
      SetPresentKeepsKeys(m[1..], k, v);
    }
  }

  /** `set` keeps the keys distinct. */
  lemma {:induction false} SetDistinct<K, V>(m: JsMap<K, V>, k: K, v: V)
    requires DistinctKeys(m)
    ensures DistinctKeys(Set(m, k, v))
  {
    if m != [] && m[0].0 != k {
      SetDistinct(m[1..], k, v);
      var r := Set(m[1..], k, v);
      forall i | 0 <= i < |r| ensures r[i].0 != m[0].0 {
        HasOfSet(m[1..], k, v, r[i].0, i);
      }
    }
  }

  /** Every key of `Set(m, k, v)` is `k` or a key of `m`. */
  lemma {:induction false} HasOfSet<K, V>(m: JsMap<K, V>, k: K, v: V, k': K, i: nat)
    requires i < |Set(m, k, v)| && Set(m, k, v)[i].0 == k'
    ensures k' == k || exists j :: 0 <= j < |m| && m[j].0 == k'
  {
    if m != [] && m[0].0 != k && i > 0 {
      HasOfSet(m[1..], k, v, k', i - 1);
      if k' != k {
        var j :| 0 <= j < |m[1..]| && m[1..][j].0 == k';
        assert m[j + 1].0 == k';
      }
    } else if m != [] && m[0].0 == k && i > 0 {
      assert m[i].0 == k';
    }
  }

  /** After `delete(k)` the key is gone, and every other key keeps its value. */
  lemma {:induction false} GetDelete<K, V>(m: JsMap<K, V>, k: K, k': K)
    ensures Get(Delete(m, k), k') == if k' == k then None else Get(m, k')
  {
    if m != [] {
      GetDelete(m[1..], k, k');
    }
  }

  /** `delete` keeps the remaining entries in their order: it is a filter. */
  lemma {:induction false} DeleteIsFilter<K, V>(m: JsMap<K, V>, k: K)
    ensures |Delete(m, k)| <= |m|
    ensures forall i :: 0 <= i < |Delete(m, k)| ==> Delete(m, k)[i].0 != k
    ensures !Has(m, k) ==> Delete(m, k) == m
  {
    if m != [] {
      DeleteIsFilter(m[1..], k);
      HasTail(m, k);
      assert m == [m[0]] + m[1..];
    }
  }

  /** A key is in a non-empty map iff it is the first key or a key of the rest. */
  lemma HasTail<K, V>(m: JsMap<K, V>, k: K)
    requires m != []
    ensures Has(m, k) <==> m[0].0 == k || Has(m[1..], k)
  {
    if Has(m[1..], k) {
      var i :| 0 <= i < |m[1..]| && m[1..][i].0 == k;
      assert m[i + 1].0 == k;
    }
    if Has(m, k) && m[0].0 != k {
      var i :| 0 <= i < |m| && m[i].0 == k;
      assert m[1..][i - 1].0 == k;
    }
  }

  /** The position of the first entry under `k`. */
  function IndexOf<K(==), V>(m: JsMap<K, V>, k: K): (i: nat)
    requires Has(m, k)
    ensures i < |m| && m[i].0 == k
  {
    HasTail(m, k);
    if m[0].0 == k then 0 else 1 + IndexOf(m[1..], k)
  }

  /** On a map with distinct keys, deleting a present key removes exactly its one entry. */
  lemma {:induction false} DeleteDistinct<K, V>(m: JsMap<K, V>, k: K)
    requires DistinctKeys(m) && Has(m, k)
    ensures Delete(m, k) == m[..IndexOf(m, k)] + m[IndexOf(m, k) + 1..]
  {
    HasTail(m, k);
    if m[0].0 == k {
      forall j | 0 <= j < |m[1..]| ensures m[1..][j].0 != k {
        assert m[1..][j] == m[j + 1];
      }
      DeleteIsFilter(m[1..], k);
    } else {
      DeleteDistinct(m[1..], k);
      var i := IndexOf(m[1..], k);
      assert m[1..][..i] == m[1..i + 1];
      assert m[1..][i + 1..] == m[i + 2..];
      assert [m[0]] + m[1..i + 1] == m[..i + 1];
    }
  }
}
