/** Sums over the values of a table. */
module Sums {
  /** The sum of a table over some of its keys; keys it lacks count zero. */
  ghost function Sum<K(!new)>(keys: set<K>, table: map<K, nat>): nat {
    if keys == {} then 0
    else
      var k :| k in keys;
      (if k in table then table[k] else 0) + Sum(keys - {k}, table)
  }

  lemma {:induction false} SumSplit<K(!new)>(keys: set<K>, table: map<K, nat>, k: K)
    requires k in keys
    ensures Sum(keys, table) == (if k in table then table[k] else 0) + Sum(keys - {k}, table)
  {
    var j :| j in keys && Sum(keys, table) == (if j in table then table[j] else 0) + Sum(keys - {j}, table);
    if j != k {
      SumSplit(keys - {j}, table, k);
      SumSplit(keys - {k}, table, j);
      assert keys - {j} - {k} == keys - {k} - {j};
    }
  }

  lemma {:induction false} SumFrame<K(!new)>(keys: set<K>, table: map<K, nat>, table': map<K, nat>)
    requires forall k :: k in keys ==> (if k in table then table[k] else 0) == (if k in table' then table'[k] else 0)
    ensures Sum(keys, table) == Sum(keys, table')
  {
    if keys != {} {
      var k :| k in keys;
      SumSplit(keys, table, k);
      SumSplit(keys, table', k);
      SumFrame(keys - {k}, table, table');
    }
  }
}
