/** Sizes of finite sets and maps. */
module Sizes {
  /** The naturals below `k`. */
  function Below(k: nat): (r: set<nat>)
    ensures forall i: nat :: i in r <==> i < k
    ensures |r| == k
  {
    if k == 0 then {} else Below(k - 1) + {k - 1}
  }

  lemma SubsetSize<T>(a: set<T>, b: set<T>)
    requires a <= b
    ensures |a| <= |b| && (a < b ==> |a| < |b|)
  {
    assert b == a + (b - a);
    if a < b {
      assert b - a != {};
    }
  }

  /** An injective map has as many values as keys. */
  lemma {:induction false} InjectiveSize(m: map<nat, nat>)
    requires forall g, h | g in m && h in m && m[g] == m[h] :: g == h
    ensures |m.Values| == |m|
  {
    if m != map[] {
      var g :| g in m;
      var rest := m - {g};
      InjectiveSize(rest);
      assert m == rest[g := m[g]];
      assert m.Values == rest.Values + {m[g]};
      assert m.Keys == rest.Keys + {g};
      assert |m.Keys| == |m| && |rest.Keys| == |rest|;
    }
  }
}
