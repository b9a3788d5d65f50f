/** SUM over the rows of a keyed table, and distinct counts of unions. */
module Sums {

  ghost function Total<K(!new)>(m: map<K, nat>): nat
    decreases |m|
  {
    if m == map[] then 0
    else
      var k :| k in m;
      m[k] + Total(m - {k})
  }

  lemma {:induction false} TotalPick<K(!new)>(m: map<K, nat>, k: K)
    requires k in m
    ensures Total(m) == m[k] + Total(m - {k})
    decreases |m|
  {
    var c :| c in m && Total(m) == m[c] + Total(m - {c});
    if c != k {
      TotalPick(m - {c}, k);
      TotalPick(m - {k}, c);
      assert m - {c} - {k} == m - {k} - {c};
    }
  }

  lemma TotalUpdate<K(!new)>(m: map<K, nat>, k: K, v: nat)
    ensures Total(m[k := v]) == Total(m - {k}) + v
    ensures Total(m) == Total(m - {k}) + if k in m then m[k] else 0
  {
    TotalPick(m[k := v], k);
    assert m[k := v] - {k} == m - {k};
    if k in m {
      TotalPick(m, k);
    } else {
      assert m - {k} == m;
    }
  }

  // ---- GROUP BY over a column, and the total of the groups ----

  ghost function Part<K(!new), L(!new)>(m: map<K, nat>, tag: K -> L, l: L): map<K, nat> {
    map k | k in m && tag(k) == l :: m[k]
  }

  ghost function Grouped<K(!new), L(!new)>(m: map<K, nat>, tag: K -> L): map<L, nat> {
    map l | l in (set k | k in m :: tag(k)) :: Total(Part(m, tag, l))
  }

  lemma OtherPart<K(!new), L(!new)>(m: map<K, nat>, tag: K -> L, k: K, v: nat, j: L)
    requires k !in m && j != tag(k)
    ensures Part(m[k := v], tag, j) == Part(m, tag, j)
  {
  }

  lemma GrownPart<K(!new), L(!new)>(m: map<K, nat>, tag: K -> L, k: K, v: nat)
    requires k !in m
    ensures Total(Part(m[k := v], tag, tag(k))) == Total(Part(m, tag, tag(k))) + v
  {
    var l := tag(k);
    assert Part(m[k := v], tag, l) == Part(m, tag, l)[k := v];
    TotalUpdate(Part(m, tag, l), k, v);
  }

  lemma NoPart<K(!new), L(!new)>(m: map<K, nat>, tag: K -> L, l: L)
    ensures if l in Grouped(m, tag) then Grouped(m, tag)[l] == Total(Part(m, tag, l)) else Total(Part(m, tag, l)) == 0
  {
    if l !in Grouped(m, tag) {
      assert Part(m, tag, l) == map[];
    }
  }

  lemma GroupedAdd<K(!new), L(!new)>(m: map<K, nat>, tag: K -> L, k: K, v: nat)
    requires k !in m
    ensures var g, l := Grouped(m, tag), tag(k);
            Grouped(m[k := v], tag) == g[l := (if l in g then g[l] else 0) + v]
  {
    var after, g, l := Grouped(m[k := v], tag), Grouped(m, tag), tag(k);
    assert after.Keys == g.Keys + {l};
    forall j | j in after && j != l ensures after[j] == g[j] {
      OtherPart(m, tag, k, v, j);
    }
    GrownPart(m, tag, k, v);
    NoPart(m, tag, l);
  }

  lemma {:induction false} GroupedTotal<K(!new), L(!new)>(m: map<K, nat>, tag: K -> L)
    ensures Total(Grouped(m, tag)) == Total(m)
    decreases |m|
  {
    if m == map[] {
      assert Grouped(m, tag) == map[];
    } else {
      var k :| k in m;
      var rest := m - {k};
      GroupedTotal(rest, tag);
      assert m == rest[k := m[k]];
      GroupedAdd(rest, tag, k, m[k]);
      TotalPick(m, k);
      TotalUpdate(Grouped(rest, tag), tag(k), Grouped(m, tag)[tag(k)]);
    }
  }

  // ---- Distinct counts ----

  ghost function Union<K(!new), V>(m: map<K, set<V>>): set<V>
    decreases |m|
  {
    if m == map[] then {}
    else
      var k :| k in m;
      m[k] + Union(m - {k})
  }

  ghost function Sizes<K(!new), V>(m: map<K, set<V>>): map<K, nat> { map k | k in m :: |m[k]| }

  ghost predicate PairwiseDisjoint<K(!new), V>(m: map<K, set<V>>) {
    forall j, k :: j in m && k in m && j != k ==> m[j] !! m[k]
  }

  lemma {:induction false} UnionMember<K(!new), V>(m: map<K, set<V>>, v: V)
    ensures v in Union(m) <==> exists k :: k in m && v in m[k]
    decreases |m|
  {
    if m != map[] {
      var c :| c in m && Union(m) == m[c] + Union(m - {c});
      UnionMember(m - {c}, v);
      if k :| k in m && v in m[k] {
        assert k == c || k in m - {c};
      }
    }
  }

  lemma CardUnion<V>(a: set<V>, b: set<V>)
    ensures |a + b| <= |a| + |b|
    ensures |a + b| == |a| + |b| <==> a !! b
  {
    assert a + b == a + (b - a);
    assert b == (b - a) + (a * b);
    assert |a + b| == |a| + |b - a|;
    assert |b| == |b - a| + |a * b|;
    assert a !! b <==> a * b == {};
  }

  lemma {:induction false} DistinctCountsAdd<K(!new), V(!new)>(m: map<K, set<V>>)
    ensures |Union(m)| <= Total(Sizes(m))
    ensures |Union(m)| == Total(Sizes(m)) <==> PairwiseDisjoint(m)
    decreases |m|
  {
    if m == map[] {
      assert Sizes(m) == map[];
    } else {
      var c :| c in m && Union(m) == m[c] + Union(m - {c});
      var rest := m - {c};
      DistinctCountsAdd(rest);
      assert Sizes(m) - {c} == Sizes(rest);
      TotalPick(Sizes(m), c);
      CardUnion(m[c], Union(rest));
      DisjointFromRest(m, c);
    }
  }

  lemma DisjointFromRest<K(!new), V(!new)>(m: map<K, set<V>>, c: K)
    requires c in m
    ensures PairwiseDisjoint(m) <==> PairwiseDisjoint(m - {c}) && m[c] !! Union(m - {c})
  {
    var rest := m - {c};
    forall v ensures v in Union(rest) <==> exists k :: k in rest && v in rest[k] {
      UnionMember(rest, v);
    }
    if PairwiseDisjoint(rest) && m[c] !! Union(rest) {
      forall k | k in m && k != c ensures m[c] !! m[k] {
        assert k in rest && rest[k] <= Union(rest);
      }
      forall j, k | j in m && k in m && j != k ensures m[j] !! m[k] {
        if j != c && k != c {
          assert j in rest && k in rest;
        }
      }
    }
    if PairwiseDisjoint(m) {
      forall v | v in Union(rest) ensures v !in m[c] {
        var k :| k in rest && v in rest[k];
        assert m[c] !! m[k];
      }
      forall j, k | j in rest && k in rest && j != k ensures rest[j] !! rest[k] {
        assert m[j] !! m[k];
      }
    }
  }
}
