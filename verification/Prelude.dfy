/** Small shared vocabulary: optional values, outcomes, bounded oldest-first
    selection, and sums over finite sets. */
module Prelude {

  datatype Option<+T> = None | Some(value: T)

  datatype Result<+T, +E> = Ok(value: T) | Err(error: E)

  /** `a` sorts no later than `b` in an ascending SQL ORDER BY, where nulls come last. */
  predicate SortsBefore(a: Option<int>, b: Option<int>) {
    b.None? || (a.Some? && a.value <= b.value)
  }

  /** `chosen` is what `... order by key for update skip locked limit n` may return out
      of the rows `eligible`: at most `n` rows, all of them when there are fewer, and
      none left behind that sorts strictly earlier. */
  ghost predicate OldestFirst<K(!new)>(eligible: set<K>, key: K -> Option<int>, limit: nat, chosen: set<K>) {
    && chosen <= eligible
    && |chosen| <= limit
    && (|chosen| < limit ==> chosen == eligible)
    && forall c, d :: c in chosen && d in eligible && d !in chosen ==> SortsBefore(key(c), key(d))
  }

  ghost predicate Distinct<T(!new)>(s: seq<T>) {
    forall i, j :: 0 <= i < j < |s| ==> s[i] != s[j]
  }

  function Elements<T>(s: seq<T>): set<T> {
    set x | x in s
  }

  /** Sum of a weight over a finite set of keys. */
  ghost function Sum<K(!new)>(keys: set<K>, w: K -> nat): nat
    decreases |keys|
  {
    if keys == {} then 0
    else
      var k :| k in keys;
      w(k) + Sum(keys - {k}, w)
  }

  lemma {:induction false} SumSplit<K(!new)>(keys: set<K>, w: K -> nat, k: K)
    requires k in keys
    ensures Sum(keys, w) == w(k) + Sum(keys - {k}, w)
    decreases |keys|
  {
    var p :| p in keys && Sum(keys, w) == w(p) + Sum(keys - {p}, w);
    if p != k {
      SumSplit(keys - {p}, w, k);
      SumSplit(keys - {k}, w, p);
      assert keys - {p} - {k} == keys - {k} - {p};
    }
  }

  /** Pointwise smaller weights have a smaller sum, strictly so when one of them is. */
  lemma {:induction false} SumMonotone<K(!new)>(keys: set<K>, w: K -> nat, v: K -> nat)
    requires forall k :: k in keys ==> w(k) <= v(k)
    ensures Sum(keys, w) <= Sum(keys, v)
    ensures (exists k :: k in keys && w(k) < v(k)) ==> Sum(keys, w) < Sum(keys, v)
    decreases |keys|
  {
    if keys != {} {
      var k :| k in keys;
      if j :| j in keys && w(j) < v(j) {
        k := j;
      }
      SumSplit(keys, w, k);
      SumSplit(keys, v, k);
      SumMonotone(keys - {k}, w, v);
    }
  }

  lemma {:induction false} SumPositive<K(!new)>(keys: set<K>, w: K -> nat)
    ensures Sum(keys, w) == 0 <==> forall k :: k in keys ==> w(k) == 0
    decreases |keys|
  {
    if keys != {} {
      var k :| k in keys;
      if j :| j in keys && w(j) != 0 {
        k := j;
      }
      SumSplit(keys, w, k);
      SumPositive(keys - {k}, w);
    }
  }
}
