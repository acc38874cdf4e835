/** Sums over the entries of a finite map. */
module Sums {

  ghost function Sum<K(!new)>(m: map<K, int>): int
    decreases m.Keys
  {
    if m.Keys == {} then 0
    else var k :| k in m.Keys; (assert (m - {k}).Keys < m.Keys; m[k] + Sum(m - {k}))
  }

  lemma {:induction false} SumExtract<K(!new)>(m: map<K, int>, k: K)
    requires k in m
    ensures Sum(m) == m[k] + Sum(m - {k})
    decreases m.Keys
  {
    var j :| j in m.Keys && Sum(m) == m[j] + Sum(m - {j});
    if j != k {
      SumExtract(m - {j}, k);
      SumExtract(m - {k}, j);
      assert m - {j} - {k} == m - {k} - {j};
    }
  }

  lemma SumUpdate<K(!new)>(m: map<K, int>, k: K, v: int)
    ensures Sum(m[k := v]) == Sum(m) - (if k in m then m[k] else 0) + v
  {
    SumExtract(m[k := v], k);
    assert m[k := v] - {k} == m - {k};
    if k in m { SumExtract(m, k); } else { assert m - {k} == m; }
  }

  lemma {:induction false} SumNonNegative<K(!new)>(m: map<K, int>)
    requires forall k :: k in m ==> 0 <= m[k]
    ensures 0 <= Sum(m)
    decreases m.Keys
  {
    if m.Keys != {} {
      var k :| k in m.Keys && Sum(m) == m[k] + Sum(m - {k});
      SumNonNegative(m - {k});
    }
  }

  /** f matches every entry of m with an entry of n of the same value, no two with the same. */
  ghost predicate Embeds<K(!new), L(!new)>(m: map<K, int>, n: map<L, int>, f: map<K, L>) {
    && (forall k :: k in m ==> k in f && f[k] in n && n[f[k]] == m[k])
    && (forall k, j :: k in m && j in m && k in f && j in f && f[k] == f[j] ==> k == j)
  }

  /** Nothing of n is left over. */
  ghost predicate Covers<K(!new), L(!new)>(m: map<K, int>, n: map<L, int>, f: map<K, L>) {
    forall l :: l in n ==> exists k :: k in m && k in f && f[k] == l
  }

  lemma CoversWithout<K(!new), L(!new)>(m: map<K, int>, n: map<L, int>, f: map<K, L>, k: K)
    requires Embeds(m, n, f) && k in m
    ensures Covers(m, n, f) <==> Covers(m - {k}, n - {f[k]}, f)
  {
    if Covers(m, n, f) {
      forall l | l in n - {f[k]} ensures exists j :: j in m - {k} && j in f && f[j] == l {
        var j :| j in m && j in f && f[j] == l;
        assert j in m - {k};
      }
    }
    if Covers(m - {k}, n - {f[k]}, f) {
      forall l | l in n ensures exists j :: j in m && j in f && f[j] == l {
        if l != f[k] {
          assert l in n - {f[k]};
          var j :| j in m - {k} && j in f && f[j] == l;
        }
      }
    }
  }

  /** A sum embedded in a sum of positive entries is smaller, and equal exactly if nothing is left over. */
  lemma {:induction false} SumEmbedded<K(!new), L(!new)>(m: map<K, int>, n: map<L, int>, f: map<K, L>)
    requires Embeds(m, n, f) && forall l :: l in n ==> 0 < n[l]
    ensures Sum(m) <= Sum(n)
    ensures Sum(m) == Sum(n) <==> Covers(m, n, f)
    decreases m.Keys
  {
    if m.Keys == {} {
      SumNonNegative(n);
      if n.Keys != {} {
        var l :| l in n.Keys;
        SumExtract(n, l);
        SumNonNegative(n - {l});
        assert !Covers(m, n, f);
      }
    } else {
      var k :| k in m.Keys;
      SumExtract(m, k);
      SumExtract(n, f[k]);
      SumEmbedded(m - {k}, n - {f[k]}, f);
      CoversWithout(m, n, f, k);
    }
  }
}
