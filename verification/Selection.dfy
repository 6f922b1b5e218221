/** Oldest-first selection, `select ... order by key for update skip locked limit n`. */
module Selection {
  import opened Prelude

  ghost predicate SortedBy<K(!new)>(s: seq<K>, key: K -> Option<int>) {
    forall i, j :: 0 <= i < j < |s| ==> SortsBefore(key(s[i]), key(s[j]))
  }

  ghost predicate OldestIn<K(!new)>(key: K -> Option<int>, best: K, pool: set<K>) {
    forall d :: d in pool ==> SortsBefore(key(best), key(d))
  }

  /** Part of a selection: what is chosen sorts no later than what is left. */
  ghost predicate Selecting<K(!new)>(eligible: set<K>, key: K -> Option<int>, chosen: seq<K>, pool: set<K>) {
    && Distinct(chosen) && |Elements(chosen)| == |chosen|
    && SortedBy(chosen, key)
    && Elements(chosen) <= eligible && pool == eligible - Elements(chosen)
    && forall i :: 0 <= i < |chosen| ==> OldestIn(key, chosen[i], pool)
  }

  lemma SelectNext<K(!new)>(eligible: set<K>, key: K -> Option<int>, chosen: seq<K>, pool: set<K>, c: K)
    requires Selecting(eligible, key, chosen, pool)
    requires c in pool && OldestIn(key, c, pool)
    ensures Selecting(eligible, key, chosen + [c], pool - {c})
  {
    assert Elements(chosen + [c]) == Elements(chosen) + {c};
  }

  lemma SelectionDone<K(!new)>(eligible: set<K>, key: K -> Option<int>, limit: nat, chosen: seq<K>, pool: set<K>)
    requires Selecting(eligible, key, chosen, pool)
    requires |chosen| <= limit && (|chosen| < limit ==> pool == {})
    ensures OldestFirst(eligible, key, limit, Elements(chosen))
  {
    if pool == {} {
      assert forall d :: d in eligible ==> d in pool || d in Elements(chosen);
      assert Elements(chosen) == eligible;
    }
    forall c, d | c in Elements(chosen) && d in eligible && d !in Elements(chosen)
      ensures SortsBefore(key(c), key(d))
    {
      var i :| 0 <= i < |chosen| && chosen[i] == c;
      assert OldestIn(key, chosen[i], pool) && d in pool;
    }
  }

  /** An element of the pool that sorts no later than any other. */
  method Oldest<K(==, !new)>(pool: set<K>, key: K -> Option<int>) returns (best: K)
    requires pool != {}
    ensures best in pool && OldestIn(key, best, pool)
  {
    best :| best in pool;
    var rest := pool - {best};
    while rest != {}
      invariant rest <= pool && best in pool
      invariant OldestIn(key, best, pool - rest)
      decreases |rest|
    {
      var c :| c in rest;
      if !SortsBefore(key(best), key(c)) {
        best := c;
      }
      rest := rest - {c};
    }
  }

  method SelectOldest<K(==, !new)>(eligible: set<K>, key: K -> Option<int>, limit: nat) returns (chosen: seq<K>)
    ensures Distinct(chosen) && |Elements(chosen)| == |chosen| && SortedBy(chosen, key)
    ensures OldestFirst(eligible, key, limit, Elements(chosen))
    ensures limit >= |eligible| ==> Elements(chosen) == eligible
  {
    var pool := eligible;
    chosen := [];
    while |chosen| < limit && pool != {}
      invariant |chosen| <= limit
      invariant Selecting(eligible, key, chosen, pool)
      decreases |pool|
    {
      var c := Oldest(pool, key);
      SelectNext(eligible, key, chosen, pool, c);
      chosen := chosen + [c];
      pool := pool - {c};
    }
    SelectionDone(eligible, key, limit, chosen, pool);
    AllChosen(eligible, key, limit, Elements(chosen));
  }

  lemma AllChosen<K(!new)>(eligible: set<K>, key: K -> Option<int>, limit: nat, chosen: set<K>)
    requires OldestFirst(eligible, key, limit, chosen)
    ensures limit >= |eligible| ==> chosen == eligible
  {
    if limit >= |eligible| && chosen != eligible {
      SubsetSize(chosen, eligible);
    }
  }

  lemma {:induction false} SubsetSize<K(!new)>(a: set<K>, b: set<K>)
    requires a <= b
    ensures |a| <= |b| && (a != b ==> |a| < |b|)
  {
    if a != {} {
      var k :| k in a;
      SubsetSize(a - {k}, b - {k});
      assert a == a - {k} + {k} && b == b - {k} + {k};
    } else if b != {} {
      var k :| k in b;
      assert |b| >= 1;
    }
  }
}
