/** Counting the entries of a finite map that satisfy a property.

    Reference counts, pool counters and failure tallies are all compared with how many
    contexts, references or threads are in a given condition. `Count` is that number, and
    the lemmas say how it moves when one entry is added, changed or removed. */
module Counting {

  function Matching<K, V>(m: map<K, V>, p: V -> bool): (r: set<K>) {
    set k | k in m && p(m[k])
  }

  function Count<K, V>(m: map<K, V>, p: V -> bool): (n: nat) {
    |Matching(m, p)|
  }

  /** What one present-or-absent entry contributes. */
  function Weight(b: bool): (n: nat) {
    if b then 1 else 0
  }

  lemma CountUpdate<K, V>(m: map<K, V>, k: K, v: V, p: V -> bool)
    ensures Count(m[k := v], p) == Count(m, p) - Weight(k in m && p(m[k])) + Weight(p(v))
  {
    var rest := Matching(m, p) - {k};
    assert Matching(m, p) == if k in m && p(m[k]) then rest + {k} else rest;
    assert Matching(m[k := v], p) == if p(v) then rest + {k} else rest;
  }

  lemma CountRemove<K, V>(m: map<K, V>, k: K, p: V -> bool)
    ensures Count(m - {k}, p) == Count(m, p) - Weight(k in m && p(m[k]))
  {
    var rest := Matching(m, p) - {k};
    assert Matching(m, p) == if k in m && p(m[k]) then rest + {k} else rest;
    assert Matching(m - {k}, p) == rest;
  }

  lemma CountPositive<K, V>(m: map<K, V>, k: K, p: V -> bool)
    requires k in m && p(m[k])
    ensures Count(m, p) >= 1
  {
    assert k in Matching(m, p);
  }

  lemma CountTwo<K, V>(m: map<K, V>, j: K, k: K, p: V -> bool)
    requires j != k && j in m && k in m && p(m[j]) && p(m[k])
    ensures Count(m, p) >= 2
  {
    CountPositive(m - {j}, k, p);
    CountRemove(m, j, p);
  }

  lemma CountNone<K, V>(m: map<K, V>, p: V -> bool)
    requires forall k :: k in m ==> !p(m[k])
    ensures Count(m, p) == 0
  {
    assert Matching(m, p) == {};
  }

  lemma CountBound<K, V>(m: map<K, V>, p: V -> bool)
    ensures Count(m, p) <= |m|
  {
    CardinalityMonotone(Matching(m, p), m.Keys);
  }

  lemma {:induction false} CardinalityMonotone<K>(small: set<K>, large: set<K>)
    requires small <= large
    ensures |small| <= |large|
  {
    if k :| k in small {
      CardinalityMonotone(small - {k}, large - {k});
    }
  }
}
