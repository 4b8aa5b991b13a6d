/** Sums over the values of a map. */
module Totals {
  lemma {:induction false} Least(keys: set<nat>) returns (least: nat)
    requires keys != {}
    ensures least in keys && forall j | j in keys :: least <= j
  {
    least :| least in keys;
    if keys == {least} {
    } else {
      var other := Least(keys - {least});
      assert keys == (keys - {least}) + {least};
      least := if least < other then least else other;
    }
  }

  lemma LeastExists(keys: set<nat>)
    requires keys != {}
    ensures exists k :: k in keys && forall j | j in keys :: k <= j
  {
    var k := Least(keys);
  }

  function LeastKey(m: map<nat, nat>): (k: nat)
    requires m != map[]
    ensures k in m
  {
    LeastExists(m.Keys);
    var k :| k in m.Keys && forall j | j in m.Keys :: k <= j;
    k
  }

  function Total(m: map<nat, nat>): nat
  {
    if m == map[] then 0 else
      var k := LeastKey(m);
      m[k] + Total(m - {k})
  }

  /** Which key is taken out first does not matter. */
  lemma {:induction false} TotalRemove(m: map<nat, nat>, k: nat)
    requires k in m
    ensures Total(m) == m[k] + Total(m - {k})
  {
    var j := LeastKey(m);
    if j != k {
      TotalRemove(m - {j}, k);
      TotalRemove(m - {k}, j);
      assert m - {j} - {k} == m - {k} - {j};
    }
  }

  lemma TotalAdd(m: map<nat, nat>, k: nat, v: nat)
    requires k !in m
    ensures Total(m[k := v]) == v + Total(m)
  {
    TotalRemove(m[k := v], k);
    assert m[k := v] - {k} == m;
  }

  lemma TotalUpdate(m: map<nat, nat>, k: nat, v: nat)
    requires k in m
    ensures Total(m[k := v]) + m[k] == v + Total(m)
  {
    TotalRemove(m, k);
    TotalAdd(m - {k}, k, v);
    assert (m - {k})[k := v] == m[k := v];
  }

  /** Renaming keys injectively into a map of at least the same values cannot lower the total. */
  lemma {:induction false} TotalInjective(small: map<nat, nat>, big: map<nat, nat>, name: map<nat, nat>)
    requires forall j | j in small :: j in name && name[j] in big && small[j] <= big[name[j]]
    requires forall i, j | i in small && j in small && name[i] == name[j] :: i == j
    ensures Total(small) <= Total(big)
    decreases |small|
  {
    if small == map[] {
    } else {
      var j :| j in small;
      TotalRemove(small, j);
      TotalRemove(big, name[j]);
      assert |(small - {j}).Keys| < |small.Keys| by {
        assert (small - {j}).Keys == small.Keys - {j};
      }
      TotalInjective(small - {j}, big - {name[j]}, name);
    }
  }

  lemma TotalSubmap(small: map<nat, nat>, big: map<nat, nat>)
    requires forall k | k in small :: k in big && small[k] <= big[k]
    ensures Total(small) <= Total(big)
  {
    TotalInjective(small, big, map k | k in small :: k);
  }
}
