/** Counting dictionaries: a Python `defaultdict(int)` is a map from keys to
    counts in which a missing key reads as 0, and `d[k] += 1` creates the key. */
module Histograms {

  /** The count of `k`, 0 when `k` was never counted. */
  function Get<K>(m: map<K, nat>, k: K): nat
  {
    if k in m then m[k] else 0
  }

  /** `m[k] += 1` on a defaultdict(int). */
  function Inc<K>(m: map<K, nat>, k: K): map<K, nat>
  {
    m[k := Get(m, k) + 1]
  }

  /** An increment creates the key if needed, raises its count by one and
      leaves every other count as it was. */
  lemma IncEffect<K>(m: map<K, nat>, k: K)
    ensures Inc(m, k).Keys == m.Keys + {k}
    ensures Get(Inc(m, k), k) == Get(m, k) + 1
    ensures forall j :: j != k ==> Get(Inc(m, k), j) == Get(m, j)
  {
  }

  /** Counts every key of `ks` in turn, left to right. */
  function IncAll<K>(m: map<K, nat>, ks: seq<K>): map<K, nat>
  {
    if |ks| == 0 then m else Inc(IncAll(m, ks[..|ks| - 1]), ks[|ks| - 1])
  }

  /** The sum of all counts (`sum(d.values())`). */
  ghost function Total<K>(m: map<K, nat>): nat
    decreases |m|
  {
    if |m| == 0 then 0
    else
      var k :| k in m;
      m[k] + Total(m - {k})
  }

  lemma TotalEmpty<K>(m: map<K, nat>)
    requires m == map[]
    ensures Total(m) == 0
  {
  }

  /** Any key can be taken out first when summing. */
  lemma {:induction false} TotalRemove<K>(m: map<K, nat>, k: K)
    requires k in m
    ensures Total(m) == m[k] + Total(m - {k})
    decreases |m|
  {
    assert |m| != 0 by { assert k in m.Keys; }
    var j :| j in m && Total(m) == m[j] + Total(m - {j});
    if j != k {
      var mj, mk := m - {j}, m - {k};
      SmallerWithout(m, j);
      SmallerWithout(m, k);
      assert k in mj && mj[k] == m[k];
      assert j in mk && mk[j] == m[j];
      TotalRemove(mj, k);
      TotalRemove(mk, j);
      RemoveTwo(m, j, k);
      var rest := mj - {k};
      assert Total(mj) == m[k] + Total(rest);
      assert Total(mk) == m[j] + Total(rest);
    }
  }

  lemma SmallerWithout<K>(m: map<K, nat>, k: K)
    requires k in m
    ensures |m - {k}| == |m| - 1
  {
    assert (m - {k}).Keys == m.Keys - {k};
  }

  lemma RemoveTwo<K>(m: map<K, nat>, j: K, k: K)
    ensures (m - {j}) - {k} == (m - {k}) - {j}
  {
  }

  /** One increment adds exactly one to the total. */
  lemma TotalInc<K>(m: map<K, nat>, k: K)
    ensures Total(Inc(m, k)) == Total(m) + 1
  {
    var r := Inc(m, k);
    TotalRemove(r, k);
    if k in m {
      TotalRemove(m, k);
      assert r - {k} == m - {k};
    } else {
      assert r - {k} == m;
    }
  }

  /** Counting a sequence of keys adds its length to the total. */
  lemma {:induction false} TotalIncAll<K>(m: map<K, nat>, ks: seq<K>)
    ensures Total(IncAll(m, ks)) == Total(m) + |ks|
  {
    if |ks| > 0 {
      TotalIncAll(m, ks[..|ks| - 1]);
      TotalInc(IncAll(m, ks[..|ks| - 1]), ks[|ks| - 1]);
    }
  }

  /** Counting one more key at the end is one more increment. */
  lemma IncAllSnoc<K>(m: map<K, nat>, ks: seq<K>, k: K)
    ensures IncAll(m, ks + [k]) == Inc(IncAll(m, ks), k)
  {
    assert (ks + [k])[..|ks|] == ks;
  }

  /** `d.items()`: every key with its count, each key once, in an order the
      map does not fix. */
  method Items<K>(m: map<K, nat>) returns (r: seq<(K, nat)>)
    ensures |r| == |m|
    ensures forall p :: p in r <==> p.0 in m && m[p.0] == p.1
    ensures forall i, j :: 0 <= i < j < |r| ==> r[i].0 != r[j].0
  {
    r := [];
    var rest := m;
    while |rest| > 0
      invariant forall k :: k in rest ==> k in m && rest[k] == m[k]
      invariant |r| + |rest| == |m|
      invariant forall p :: p in r <==> p.0 in m && p.0 !in rest && m[p.0] == p.1
      invariant forall i, j :: 0 <= i < j < |r| ==> r[i].0 != r[j].0
      decreases |rest|
    {
      var k :| k in rest;
      assert forall i :: 0 <= i < |r| ==> r[i].0 != k by {
        forall i | 0 <= i < |r| ensures r[i].0 != k { assert r[i] in r; }
      }
      SmallerWithout(rest, k);
      r := r + [(k, rest[k])];
      rest := rest - {k};
    }
  }
}
