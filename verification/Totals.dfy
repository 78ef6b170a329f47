// Sums over the entries of a map, as the canister forms them when it folds a BTreeMap.
module Totals {

  // The sum of w(k, m[k]) over every key k of m, whatever the order of the keys.
  ghost function Total<K(!new), V(!new)>(m: map<K, V>, w: (K, V) -> int): int
    decreases |m|
  {
    if m == map[] then 0
    else
      var k :| k in m;
      w(k, m[k]) + Total(m - {k}, w)
  }

  ghost function At<K(!new), V(!new)>(m: map<K, V>, k: K, w: (K, V) -> int): int {
    if k in m then w(k, m[k]) else 0
  }

  lemma {:induction false} TotalRemove<K(!new), V(!new)>(m: map<K, V>, k: K, w: (K, V) -> int)
    ensures Total(m - {k}, w) == Total(m, w) - At(m, k, w)
    decreases |m|
  {
    if k !in m {
      assert m - {k} == m;
    } else {
      var j :| j in m && Total(m, w) == w(j, m[j]) + Total(m - {j}, w);
      if j != k {
        TotalRemove(m - {j}, k, w);
        TotalRemove(m - {k}, j, w);
        assert m - {j} - {k} == m - {k} - {j};
      }
    }
  }

  lemma {:induction false} TotalPut<K(!new), V(!new)>(m: map<K, V>, k: K, v: V, w: (K, V) -> int)
    ensures Total(m[k := v], w) == Total(m, w) - At(m, k, w) + w(k, v)
  {
    TotalRemove(m, k, w);
    TotalRemove(m[k := v], k, w);
    assert m[k := v] - {k} == m - {k};
  }

  lemma TotalPutTwo<K(!new), V(!new)>(m: map<K, V>, k0: K, v0: V, k1: K, v1: V, w: (K, V) -> int)
    requires k0 != k1
    ensures Total(m[k0 := v0][k1 := v1], w) == Total(m, w) - At(m, k0, w) - At(m, k1, w) + w(k0, v0) + w(k1, v1)
  {
    TotalPut(m, k0, v0, w);
    TotalPut(m[k0 := v0], k1, v1, w);
  }

  // Two weights that agree on the entries of m give the same total.
  lemma {:induction false} TotalAgree<K(!new), V(!new)>(m: map<K, V>, w: (K, V) -> int, w': (K, V) -> int)
    requires forall k :: k in m ==> w(k, m[k]) == w'(k, m[k])
    ensures Total(m, w) == Total(m, w')
    decreases |m|
  {
    if m == map[] {
    } else {
      var k :| k in m;
      TotalRemove(m, k, w);
      TotalRemove(m, k, w');
      TotalAgree(m - {k}, w, w');
    }
  }

  lemma {:induction false} TotalSum<K(!new), V(!new)>(
      m: map<K, V>, w: (K, V) -> int, w0: (K, V) -> int, w1: (K, V) -> int)
    requires forall k :: k in m ==> w(k, m[k]) == w0(k, m[k]) + w1(k, m[k])
    ensures Total(m, w) == Total(m, w0) + Total(m, w1)
    decreases |m|
  {
    if m == map[] {
    } else {
      var k :| k in m;
      TotalRemove(m, k, w);
      TotalRemove(m, k, w0);
      TotalRemove(m, k, w1);
      TotalSum(m - {k}, w, w0, w1);
    }
  }

  lemma {:induction false} TotalScale<K(!new), V(!new)>(m: map<K, V>, w: (K, V) -> int, a: int, w0: (K, V) -> int)
    requires forall k :: k in m ==> w(k, m[k]) == a * w0(k, m[k])
    ensures Total(m, w) == a * Total(m, w0)
    decreases |m|
  {
    if m == map[] {
    } else {
      var k :| k in m;
      TotalRemove(m, k, w);
      TotalRemove(m, k, w0);
      TotalScale(m - {k}, w, a, w0);
      Distribute(a, w0(k, m[k]), Total(m - {k}, w0));
    }
  }

  lemma Distribute(a: int, x: int, y: int)
    ensures a * (x + y) == a * x + a * y
  {
  }

  lemma {:induction false} TotalMonotone<K(!new), V(!new)>(m: map<K, V>, w: (K, V) -> int, w': (K, V) -> int)
    requires forall k :: k in m ==> w(k, m[k]) <= w'(k, m[k])
    ensures Total(m, w) <= Total(m, w')
    decreases |m|
  {
    if m == map[] {
    } else {
      var k :| k in m;
      TotalRemove(m, k, w);
      TotalRemove(m, k, w');
      TotalMonotone(m - {k}, w, w');
    }
  }

  lemma {:induction false} TotalNonNegative<K(!new), V(!new)>(m: map<K, V>, w: (K, V) -> int)
    requires forall k :: k in m ==> w(k, m[k]) >= 0
    ensures Total(m, w) >= 0
    ensures forall k :: k in m ==> w(k, m[k]) <= Total(m, w)
    decreases |m|
  {
    if m == map[] {
    } else {
      var j :| j in m && Total(m, w) == w(j, m[j]) + Total(m - {j}, w);
      TotalNonNegative(m - {j}, w);
      assert forall k :: k in m && k != j ==> k in m - {j};
    }
  }

  // Removing one key at a time takes off exactly the weights of the keys removed.
  ghost function SumAt<K(!new), V(!new)>(keys: seq<K>, m: map<K, V>, w: (K, V) -> int): int {
    if keys == [] then 0 else SumAt(keys[..|keys| - 1], m, w) + At(m, keys[|keys| - 1], w)
  }

  lemma {:induction false} TotalRemoveAll<K(!new), V(!new)>(m: map<K, V>, keys: seq<K>, w: (K, V) -> int)
    requires forall i, j :: 0 <= i < j < |keys| ==> keys[i] != keys[j]
    ensures Total(m - (set k | k in keys), w) == Total(m, w) - SumAt(keys, m, w)
  {
    if keys == [] {
      assert m - (set k | k in keys) == m;
    } else {
      var n := |keys| - 1;
      var last, rest := keys[n], keys[..n];
      TotalRemoveAll(m, rest, w);
      var left := m - (set k | k in rest);
      TotalRemove(left, last, w);
      assert (set k | k in keys) == (set k | k in rest) + {last};
      assert left - {last} == m - (set k | k in keys);
      assert last !in rest;
    }
  }

  ghost function SeqSum<T(!new)>(s: seq<T>, w: T -> int): int {
    if s == [] then 0 else w(s[0]) + SeqSum(s[1..], w)
  }

  lemma {:induction false} SeqSumAppend<T(!new)>(s: seq<T>, t: seq<T>, w: T -> int)
    ensures SeqSum(s + t, w) == SeqSum(s, w) + SeqSum(t, w)
  {
    if s == [] {
      assert s + t == t;
    } else {
      SeqSumAppend(s[1..], t, w);
      assert (s + t)[1..] == s[1..] + t;
    }
  }

  lemma SeqSumExtend<T(!new)>(s: seq<T>, lo: nat, hi: nat, w: T -> int)
    requires lo < hi <= |s|
    ensures SeqSum(s[lo..hi], w) == SeqSum(s[lo..hi - 1], w) + w(s[hi - 1])
  {
    assert s[lo..hi] == s[lo..hi - 1] + [s[hi - 1]];
    SeqSumAppend(s[lo..hi - 1], [s[hi - 1]], w);
  }

  lemma {:induction false} SeqSumNonNegative<T(!new)>(s: seq<T>, w: T -> int)
    requires forall i :: 0 <= i < |s| ==> w(s[i]) >= 0
    ensures SeqSum(s, w) >= 0
  {
    if s == [] {
    } else {
      SeqSumNonNegative(s[1..], w);
    }
  }

  lemma {:induction false} SeqSumAgree<T(!new)>(s: seq<T>, w: T -> int, w': T -> int)
    requires forall i :: 0 <= i < |s| ==> w(s[i]) == w'(s[i])
    ensures SeqSum(s, w) == SeqSum(s, w')
  {
    if s == [] {
    } else {
      SeqSumAgree(s[1..], w, w');
    }
  }

  lemma {:induction false} SumAtSum<K(!new), V(!new)>(keys: seq<K>, m: map<K, V>, w: (K, V) -> int, w0: (K, V) -> int, w1: (K, V) -> int)
    requires forall i :: 0 <= i < |keys| ==> keys[i] in m && w(keys[i], m[keys[i]]) == w0(keys[i], m[keys[i]]) + w1(keys[i], m[keys[i]])
    ensures SumAt(keys, m, w) == SumAt(keys, m, w0) + SumAt(keys, m, w1)
    decreases |keys|
  {
    if keys == [] {
    } else {
      SumAtSum(keys[..|keys| - 1], m, w, w0, w1);
    }
  }

  // Listing every key with a weight gives the whole total.
  lemma SumAtAll<K(!new), V(!new)>(keys: seq<K>, m: map<K, V>, w: (K, V) -> int)
    requires forall i, j :: 0 <= i < j < |keys| ==> keys[i] != keys[j]
    requires forall k :: k in m && k !in keys ==> w(k, m[k]) == 0
    ensures SumAt(keys, m, w) == Total(m, w)
  {
    TotalRemoveAll(m, keys, w);
    TotalOfZero(m - (set k | k in keys), w);
  }

  lemma {:induction false} TotalOfZero<K(!new), V(!new)>(m: map<K, V>, w: (K, V) -> int)
    requires forall k :: k in m ==> w(k, m[k]) == 0
    ensures Total(m, w) == 0
    decreases |m|
  {
    if m == map[] {
    } else {
      var k :| k in m && Total(m, w) == w(k, m[k]) + Total(m - {k}, w);
      TotalOfZero(m - {k}, w);
    }
  }

  // Two maps over the same keys whose entries weigh the same have the same total.
  lemma {:induction false} TotalSameKeys<K(!new), V(!new), U(!new)>(m: map<K, V>, w: (K, V) -> int, m': map<K, U>, w': (K, U) -> int)
    requires m.Keys == m'.Keys
    requires forall k :: k in m ==> w(k, m[k]) == w'(k, m'[k])
    ensures Total(m, w) == Total(m', w')
    decreases |m|
  {
    if m == map[] {
      assert m' == map[];
    } else {
      var k :| k in m;
      TotalRemove(m, k, w);
      TotalRemove(m', k, w');
      assert (m - {k}).Keys == m.Keys - {k} && (m' - {k}).Keys == m'.Keys - {k};
      TotalSameKeys(m - {k}, w, m' - {k}, w');
    }
  }
}
