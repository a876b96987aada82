// Python counters (a `defaultdict(int)` or a `Counter`) as maps from key to
// count, and the total of a counter's values.
module Counters {
  /** One more for `k`, as `counter[k] += 1` on a defaultdict. */
  function Bump<K>(m: map<K, nat>, k: K): (r: map<K, nat>)
    ensures r.Keys == m.Keys + {k}
  {
    m[k := (if k in m then m[k] else 0) + 1]
  }

  /** The total of a counter's values. */
  ghost function MapSum<K>(m: map<K, nat>): nat
    decreases |m|
  {
    if m == map[] then 0
    else
      var k :| k in m;
      m[k] + MapSum(m - {k})
  }

  /** The total does not depend on which key is taken out first. */
  lemma {:induction false} MapSumRemove<K>(m: map<K, nat>, k: K)
    requires k in m
    ensures MapSum(m) == m[k] + MapSum(m - {k})
    decreases |m|
  {
    var j :| j in m && MapSum(m) == m[j] + MapSum(m - {j});
    if j != k {
      var mj, mk := m - {j}, m - {k};
      assert mj.Keys == m.Keys - {j} && mk.Keys == m.Keys - {k};
      assert |mj| < |m| && |mk| < |m|;
      MapSumRemove(mj, k);
      MapSumRemove(mk, j);
      assert mj - {k} == mk - {j};
    }
  }

  /** Adding one to a counter adds one to the total. */
  lemma MapSumBump<K>(m: map<K, nat>, k: K)
    ensures MapSum(Bump(m, k)) == MapSum(m) + 1
  {
    var b := Bump(m, k);
    MapSumRemove(b, k);
    if k in m {
      MapSumRemove(m, k);
      assert b - {k} == m - {k};
    } else {
      assert b - {k} == m;
    }
  }
}
