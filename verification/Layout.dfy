/** The graph pages' layout: classes are put in layers by relaxing the property graph in
    place, individuals in rows of their class's layer, projected nodes in grids by kind. */
module Layout {
  import opened Prelude

  datatype Property = Property(domain: string, range: string)

  const DEEPEST: nat := 4

  function Min(a: nat, b: nat): nat {
    if a <= b then a else b
  }

  // ---- Relaxation ---------------------------------------------------------------------------

  type Depths = map<string, nat>

  function Depth(d: Depths, c: string): nat {
    if c in d then d[c] else 0
  }

  function Relax(d: Depths, p: Property): Depths {
    var next := Min(Depth(d, p.domain) + 1, DEEPEST);
    if next > Depth(d, p.range) then d[p.range := next] else d
  }

  function RelaxAll(d: Depths, ps: seq<Property>): Depths
    decreases |ps|
  {
    if ps == [] then d else RelaxAll(Relax(d, ps[0]), ps[1..])
  }

  function Passes(d: Depths, ps: seq<Property>, n: nat): Depths
    decreases n
  {
    if n == 0 then d else Passes(RelaxAll(d, ps), ps, n - 1)
  }

  function Flat(classes: seq<string>): Depths {
    map c | c in classes :: 0
  }

  function Layers(classes: seq<string>, ps: seq<Property>): Depths {
    Passes(Flat(classes), ps, |classes|)
  }

  /** As many passes over the properties as there are classes, in place. */
  method ComputeDepths(classes: seq<string>, ps: seq<Property>) returns (depths: Depths)
    ensures depths == Layers(classes, ps)
  {
    depths := map c | c in classes :: 0;
    for pass := 0 to |classes|
      invariant Layers(classes, ps) == Passes(depths, ps, |classes| - pass)
    {
      var i := 0;
      ghost var before := depths;
      while i < |ps|
        invariant 0 <= i <= |ps|
        invariant RelaxAll(before, ps) == RelaxAll(depths, ps[i..])
      {
        var p := ps[i];
        assert ps[i..][0] == p && ps[i..][1..] == ps[i + 1..];
        var nextDepth := Min((if p.domain in depths then depths[p.domain] else 0) + 1, DEEPEST);
        if nextDepth > (if p.range in depths then depths[p.range] else 0) {
          depths := depths[p.range := nextDepth];
        }
        i := i + 1;
      }
    }
  }

  // ---- Chains of properties ---------------------------------------------------------------------

  predicate Linked(ps: seq<Property>, a: string, b: string) {
    Property(a, b) in ps
  }

  /** A chain: each class is the domain of a property whose range is the next. */
  predicate IsChain(ps: seq<Property>, chain: seq<string>) {
    && chain != []
    && forall i :: 0 <= i < |chain| - 1 ==> Linked(ps, chain[i], chain[i + 1])
  }

  /** Some chain of `k` properties ends at `c`. */
  ghost predicate EndsChain(ps: seq<Property>, c: string, k: nat) {
    exists chain: seq<string> :: IsChain(ps, chain) && |chain| == k + 1 && chain[k] == c
  }

  lemma NoPropertyChain(ps: seq<Property>, c: string)
    ensures EndsChain(ps, c, 0)
  {
    assert IsChain(ps, [c]);
  }

  lemma PartOfChain(ps: seq<Property>, chain: seq<string>, lo: nat, hi: nat)
    requires IsChain(ps, chain) && lo < hi <= |chain|
    ensures IsChain(ps, chain[lo..hi])
  {
    var part := chain[lo..hi];
    forall i | 0 <= i < |part| - 1 ensures Linked(ps, part[i], part[i + 1]) {
      assert Linked(ps, chain[lo + i], chain[lo + i + 1]);
    }
  }

  lemma LongerChain(ps: seq<Property>, p: Property, k: nat)
    requires p in ps && EndsChain(ps, p.domain, k)
    ensures EndsChain(ps, p.range, k + 1)
  {
    var chain :| IsChain(ps, chain) && |chain| == k + 1 && chain[k] == p.domain;
    var longer := chain + [p.range];
    forall i | 0 <= i < |longer| - 1 ensures Linked(ps, longer[i], longer[i + 1]) {
      if i < k {
        assert Linked(ps, chain[i], chain[i + 1]);
      }
    }
    assert IsChain(ps, longer);
  }

  lemma LastProperty(ps: seq<Property>, c: string, k: nat) returns (p: Property)
    requires EndsChain(ps, c, k + 1)
    ensures p in ps && p.range == c && EndsChain(ps, p.domain, k)
  {
    var chain :| IsChain(ps, chain) && |chain| == k + 2 && chain[k + 1] == c;
    p := Property(chain[k], chain[k + 1]);
    assert Linked(ps, chain[k], chain[k + 1]);
    PartOfChain(ps, chain, 0, k + 1);
  }

  lemma ShorterChain(ps: seq<Property>, c: string, k: nat)
    requires EndsChain(ps, c, k + 1)
    ensures EndsChain(ps, c, k)
  {
    var chain :| IsChain(ps, chain) && |chain| == k + 2 && chain[k + 1] == c;
    PartOfChain(ps, chain, 1, k + 2);
  }

  lemma {:induction false} AnyShorterChain(ps: seq<Property>, c: string, j: nat, k: nat)
    requires EndsChain(ps, c, k) && j <= k
    ensures EndsChain(ps, c, j)
    decreases k
  {
    if j < k {
      ShorterChain(ps, c, k - 1);
      AnyShorterChain(ps, c, j, k - 1);
    }
  }

  // ---- Every depth is witnessed by a chain ---------------------------------------------------------

  ghost predicate Witnessed(ps: seq<Property>, d: Depths) {
    forall c :: Depth(d, c) <= DEEPEST && EndsChain(ps, c, Depth(d, c))
  }

  lemma RelaxWitnessed(ps: seq<Property>, d: Depths, p: Property)
    requires Witnessed(ps, d) && p in ps
    ensures Witnessed(ps, Relax(d, p))
  {
    var next := Min(Depth(d, p.domain) + 1, DEEPEST);
    LongerChain(ps, p, Depth(d, p.domain));
    AnyShorterChain(ps, p.range, next, Depth(d, p.domain) + 1);
    forall c ensures Depth(Relax(d, p), c) <= DEEPEST && EndsChain(ps, c, Depth(Relax(d, p), c)) {
      assert EndsChain(ps, c, Depth(d, c));
    }
  }

  lemma {:induction false} PassWitnessed(ps: seq<Property>, d: Depths, rest: seq<Property>)
    requires Witnessed(ps, d) && forall p :: p in rest ==> p in ps
    ensures Witnessed(ps, RelaxAll(d, rest))
    decreases |rest|
  {
    if rest != [] {
      RelaxWitnessed(ps, d, rest[0]);
      PassWitnessed(ps, Relax(d, rest[0]), rest[1..]);
    }
  }

  // ---- Every pass settles one more layer --------------------------------------------------------------

  /** Chains of up to `t` properties are accounted for. */
  ghost predicate SettledTo(ps: seq<Property>, d: Depths, t: nat) {
    forall c, k: nat :: k <= t && k <= DEEPEST && EndsChain(ps, c, k) ==> k <= Depth(d, c)
  }

  /** A pass lowers nothing, and lifts the range of each property above its domain. */
  lemma {:induction false} PassLifts(d: Depths, ps: seq<Property>)
    ensures forall c :: Depth(d, c) <= Depth(RelaxAll(d, ps), c)
    ensures forall p :: p in ps ==> Min(Depth(d, p.domain) + 1, DEEPEST) <= Depth(RelaxAll(d, ps), p.range)
    decreases |ps|
  {
    if ps != [] {
      var e := Relax(d, ps[0]);
      PassLifts(e, ps[1..]);
      assert forall c :: Depth(d, c) <= Depth(e, c);
      forall p | p in ps ensures Min(Depth(d, p.domain) + 1, DEEPEST) <= Depth(RelaxAll(d, ps), p.range) {
        if p == ps[0] {
          assert Min(Depth(d, p.domain) + 1, DEEPEST) <= Depth(e, p.range);
        } else {
          assert p in ps[1..] && Depth(d, p.domain) <= Depth(e, p.domain);
        }
      }
    }
  }

  lemma PassSettles(ps: seq<Property>, d: Depths, t: nat)
    requires SettledTo(ps, d, t)
    ensures SettledTo(ps, RelaxAll(d, ps), t + 1)
  {
    PassLifts(d, ps);
    forall c, k: nat | k <= t + 1 && k <= DEEPEST && EndsChain(ps, c, k) ensures k <= Depth(RelaxAll(d, ps), c) {
      if k > 0 {
        var p := LastProperty(ps, c, k - 1);
        assert k - 1 <= Depth(d, p.domain);
      }
    }
  }

  lemma {:induction false} PassesSettle(ps: seq<Property>, d: Depths, t: nat, n: nat)
    requires Witnessed(ps, d) && SettledTo(ps, d, t)
    ensures Witnessed(ps, Passes(d, ps, n)) && SettledTo(ps, Passes(d, ps, n), t + n)
    decreases n
  {
    if n > 0 {
      PassWitnessed(ps, d, ps);
      PassSettles(ps, d, t);
      PassesSettle(ps, RelaxAll(d, ps), t + 1, n - 1);
    }
  }

  lemma LayersSettle(classes: seq<string>, ps: seq<Property>)
    ensures Witnessed(ps, Layers(classes, ps)) && SettledTo(ps, Layers(classes, ps), |classes|)
  {
    var d := Flat(classes);
    forall c ensures Depth(d, c) <= DEEPEST && EndsChain(ps, c, Depth(d, c)) {
      NoPropertyChain(ps, c);
    }
    PassesSettle(ps, d, 0, |classes|);
  }

  // ---- The layers are right ------------------------------------------------------------------------------

  /** `k` is the length of the longest chain ending at `c`, capped at the fourth layer. */
  ghost predicate IsLayer(ps: seq<Property>, c: string, k: nat) {
    && k <= 4
    && EndsChain(ps, c, k)
    && (k < 4 ==> !EndsChain(ps, c, k + 1))
  }

  ghost predicate Layered(classes: seq<string>, ps: seq<Property>) {
    forall c :: IsLayer(ps, c, Depth(Layers(classes, ps), c))
  }

  /** Property ends are classes of the ontology. */
  predicate Closed(classes: seq<string>, ps: seq<Property>) {
    forall p :: p in ps ==> p.domain in classes && p.range in classes
  }

  ghost predicate Acyclic(ps: seq<Property>) {
    forall chain: seq<string> :: IsChain(ps, chain) && |chain| >= 2 ==> chain[0] != chain[|chain| - 1]
  }

  lemma EnoughPasses(classes: seq<string>, ps: seq<Property>)
    requires |classes| >= DEEPEST
    ensures Layered(classes, ps)
  {
    LayersSettle(classes, ps);
    var d := Layers(classes, ps);
    forall c ensures IsLayer(ps, c, Depth(d, c)) {
      assert EndsChain(ps, c, Depth(d, c));
    }
  }

  lemma ChainIsSimple(ps: seq<Property>, chain: seq<string>, i: nat, j: nat)
    requires Acyclic(ps) && IsChain(ps, chain) && i < j < |chain|
    ensures chain[i] != chain[j]
  {
    PartOfChain(ps, chain, i, j + 1);
    var part := chain[i..j + 1];
    assert part[0] == chain[i] && part[|part| - 1] == chain[j];
  }

  lemma {:induction false} DistinctFits(s: seq<string>, t: set<string>)
    requires (forall i, j :: 0 <= i < j < |s| ==> s[i] != s[j]) && forall x :: x in s ==> x in t
    ensures |s| <= |t|
    decreases |s|
  {
    if s != [] {
      DistinctFits(s[1..], t - {s[0]});
    }
  }

  lemma {:induction false} ClassCount(classes: seq<string>)
    ensures |Elements(classes)| <= |classes|
  {
    if classes != [] {
      ClassCount(classes[1..]);
      assert Elements(classes) == Elements(classes[1..]) + {classes[0]};
    }
  }

  /** In an acyclic ontology of `n` classes no chain has more than `n - 1` properties. */
  lemma AcyclicChainsAreShort(classes: seq<string>, ps: seq<Property>, c: string, k: nat)
    requires Closed(classes, ps) && Acyclic(ps) && EndsChain(ps, c, k) && k > 0
    ensures k < |classes|
  {
    var chain :| IsChain(ps, chain) && |chain| == k + 1 && chain[k] == c;
    forall i, j | 0 <= i < j < |chain| ensures chain[i] != chain[j] {
      ChainIsSimple(ps, chain, i, j);
    }
    forall x | x in chain ensures x in Elements(classes) {
      var i :| 0 <= i < |chain| && chain[i] == x;
      if i < k {
        assert Linked(ps, chain[i], chain[i + 1]);
      } else {
        assert Linked(ps, chain[i - 1], chain[i]);
      }
    }
    DistinctFits(chain, Elements(classes));
    ClassCount(classes);
  }

  /** With four classes or more, or without a cycle, every class ends in the layer of its
      longest chain, capped at four, and some chain of that length witnesses it. */
  lemma LayersAreRight(classes: seq<string>, ps: seq<Property>)
    requires Closed(classes, ps) && (|classes| >= DEEPEST || Acyclic(ps))
    ensures Layered(classes, ps)
  {
    if |classes| >= DEEPEST {
      EnoughPasses(classes, ps);
    } else {
      LayersSettle(classes, ps);
      var d := Layers(classes, ps);
      forall c ensures IsLayer(ps, c, Depth(d, c)) {
        var k := Depth(d, c);
        assert EndsChain(ps, c, k);
        if k < DEEPEST && EndsChain(ps, c, k + 1) {
          AcyclicChainsAreShort(classes, ps, c, k + 1);
        }
      }
    }
  }

  // ---- When the number of passes is too small ---------------------------------------------------------

  /** A class that relates to itself ends chains of every length. */
  lemma {:induction false} SelfLoopChains(c: string, k: nat)
    ensures EndsChain([Property(c, c)], c, k)
  {
    if k == 0 {
      NoPropertyChain([Property(c, c)], c);
    } else {
      SelfLoopChains(c, k - 1);
      LongerChain([Property(c, c)], Property(c, c), k - 1);
    }
  }

  lemma {:induction false} SelfLoopPasses(d: Depths, c: string, n: nat)
    requires c in d && d[c] + n <= DEEPEST
    ensures Depth(Passes(d, [Property(c, c)], n), c) == d[c] + n
    decreases n
  {
    if n > 0 {
      var loop := [Property(c, c)];
      assert loop[1..] == [] && RelaxAll(d, loop) == RelaxAll(Relax(d, loop[0]), []);
      SelfLoopPasses(Relax(d, loop[0]), c, n - 1);
    }
  }

  /** One to three classes of which one relates to itself: the passes stop short of layer four. */
  lemma TooFewPasses(classes: seq<string>)
    requires 1 <= |classes| < DEEPEST
    ensures Closed(classes, [Property(classes[0], classes[0])])
    ensures !Layered(classes, [Property(classes[0], classes[0])])
  {
    var c := classes[0];
    SelfLoopPasses(Flat(classes), c, |classes|);
    SelfLoopChains(c, |classes| + 1);
    assert !IsLayer([Property(c, c)], c, Depth(Layers(classes, [Property(c, c)]), c));
  }

  function Names(n: nat): seq<string> {
    seq(n, i => "class")
  }

  /** The number of classes alone decides whether the layers can be relied on: every ontology
      of `n` classes is layered right exactly when there are none or at least four. */
  lemma ClassCountDecides(n: nat)
    ensures (forall classes: seq<string>, ps: seq<Property> :: |classes| == n && Closed(classes, ps) ==> Layered(classes, ps))
            <==> n == 0 || n >= DEEPEST
  {
    if n == 0 || n >= DEEPEST {
      forall classes: seq<string>, ps: seq<Property> | |classes| == n && Closed(classes, ps) ensures Layered(classes, ps) {
        if n == 0 {
          NoClasses(classes, ps);
        }
        LayersAreRight(classes, ps);
      }
    } else {
      TooFewPasses(Names(n));
    }
  }

  lemma NoClasses(classes: seq<string>, ps: seq<Property>)
    requires classes == [] && Closed(classes, ps)
    ensures Acyclic(ps)
  {
    forall chain: seq<string> ensures IsChain(ps, chain) ==> |chain| < 2 {
      if |chain| >= 2 {
        assert !Linked(ps, chain[0], chain[1]);
      }
    }
  }

  // ---- Placement -------------------------------------------------------------------------------------------

  datatype Point = Point(x: int, y: int)

  /** How many earlier items share the key of item `i`. */
  function Rank<K(==)>(keys: seq<K>, i: nat): nat
    requires i < |keys|
  {
    Occurrences(keys[..i], keys[i])
  }

  function Occurrences<K(==)>(keys: seq<K>, k: K): nat {
    if keys == [] then 0 else Occurrences(keys[..|keys| - 1], k) + if keys[|keys| - 1] == k then 1 else 0
  }

  lemma {:induction false} OccurrencesGrow<K>(keys: seq<K>, i: nat, j: nat, k: K)
    requires i <= j <= |keys|
    ensures Occurrences(keys[..i], k) <= Occurrences(keys[..j], k)
    ensures i < j && keys[i] == k ==> Occurrences(keys[..i], k) < Occurrences(keys[..j], k)
    decreases j
  {
    if i < j {
      assert keys[..j][..j - 1] == keys[..j - 1];
      OccurrencesGrow(keys, i, j - 1, k);
    }
  }

  /** Items with the same key have different ranks. */
  lemma RanksDiffer<K>(keys: seq<K>, i: nat, j: nat)
    requires i < j < |keys| && keys[i] == keys[j]
    ensures Rank(keys, i) < Rank(keys, j)
  {
    OccurrencesGrow(keys, i, j, keys[i]);
  }

  datatype Individual = Individual(name: string, className: string)

  function LayerKeys(individuals: seq<Individual>, depths: Depths): seq<nat> {
    seq(|individuals|, i requires 0 <= i < |individuals| => Depth(depths, individuals[i].className))
  }

  function SourcePoint(layer: nat, row: nat): Point {
    Point(layer * 260, row * 105)
  }

  /** Each individual goes below the ones already in its layer. */
  method PlaceIndividuals(individuals: seq<Individual>, depths: Depths) returns (points: seq<Point>)
    ensures |points| == |individuals|
    ensures var keys := LayerKeys(individuals, depths);
            forall i :: 0 <= i < |points| ==> points[i] == SourcePoint(keys[i], Rank(keys, i))
    ensures var keys := LayerKeys(individuals, depths);
            forall i :: 0 <= i < |points| ==> points[i].x == 260 * keys[i] && points[i].y == 105 * Rank(keys, i)
  {
    var rowsByDepth: map<nat, nat> := map[];
    ghost var keys := LayerKeys(individuals, depths);
    points := [];
    for n := 0 to |individuals|
      invariant |points| == n
      invariant forall d: nat :: CountOf(rowsByDepth, d) == Occurrences(keys[..n], d)
      invariant forall i :: 0 <= i < n ==> points[i] == SourcePoint(keys[i], Rank(keys, i))
    {
      var depth := Depth(depths, individuals[n].className);
      var row := CountOf(rowsByDepth, depth);
      rowsByDepth := rowsByDepth[depth := row + 1];
      points := points + [SourcePoint(depth, row)];
      assert keys[..n + 1][..n] == keys[..n];
    }
  }

  function CountOf<K>(rows: map<K, nat>, d: K): nat {
    if d in rows then rows[d] else 0
  }

  /** No two individuals get the same position. */
  lemma IndividualsApart(individuals: seq<Individual>, depths: Depths, i: nat, j: nat)
    requires i < j < |individuals|
    ensures var keys := LayerKeys(individuals, depths);
            SourcePoint(keys[i], Rank(keys, i)) != SourcePoint(keys[j], Rank(keys, j))
  {
    var keys := LayerKeys(individuals, depths);
    if keys[i] == keys[j] {
      RanksDiffer(keys, i, j);
    }
  }

  datatype Grid = Grid(x: int, columns: nat)

  function GridOf(kind: string): (g: Grid)
    ensures g.columns > 0
  {
    if kind == "Class" then Grid(0, 2)
    else if kind == "Property" then Grid(390, 2)
    else if kind == "Individual" then Grid(780, 3)
    else Grid(1170, 2)
  }

  predicate Known(kind: string) {
    kind in {"Class", "Property", "Individual"}
  }

  function GridPoint(kind: string, index: nat): Point {
    var g := GridOf(kind);
    Point(g.x + (index % g.columns) * 180, (index / g.columns) * 100)
  }

  /** Each projected node takes the next place in the grid of its kind. */
  method PlaceNodes(kinds: seq<string>) returns (points: seq<Point>)
    ensures |points| == |kinds|
    ensures forall i :: 0 <= i < |points| ==> points[i] == GridPoint(kinds[i], Rank(kinds, i))
  {
    var indexes: map<string, nat> := map[];
    points := [];
    for n := 0 to |kinds|
      invariant |points| == n
      invariant forall k :: CountOf(indexes, k) == Occurrences(kinds[..n], k)
      invariant forall i :: 0 <= i < n ==> points[i] == GridPoint(kinds[i], Rank(kinds, i))
    {
      var index := CountOf(indexes, kinds[n]);
      indexes := indexes[kinds[n] := index + 1];
      var group := GridOf(kinds[n]);
      points := points + [Point(group.x + (index % group.columns) * 180, (index / group.columns) * 100)];
      assert kinds[..n + 1][..n] == kinds[..n];
    }
  }

  /** The grids stand side by side, two, two and three columns wide; unknown kinds share a fourth. */
  lemma CellOf(kind: string, index: nat)
    ensures var p := GridPoint(kind, index);
      && p.y == 100 * (if kind == "Individual" then index / 3 else index / 2)
      && p.x == (if kind == "Class" then 0 else if kind == "Property" then 390 else if kind == "Individual" then 780 else 1170)
                + 180 * (if kind == "Individual" then index % 3 else index % 2)
  {
  }

  lemma SameCell(a: nat, b: nat, columns: nat)
    requires columns > 0 && a % columns == b % columns && a / columns == b / columns
    ensures a == b
  {
    assert a == columns * (a / columns) + a % columns;
    assert b == columns * (b / columns) + b % columns;
  }

  lemma GridPointsDiffer(kind: string, a: nat, other: string, b: nat)
    ensures GridPoint(kind, a) == GridPoint(other, b) <==> GridOf(kind) == GridOf(other) && a == b
  {
    var g, h := GridOf(kind), GridOf(other);
    assert 0 <= a % g.columns < g.columns <= 3 && 0 <= b % h.columns < h.columns <= 3;
    if GridPoint(kind, a) == GridPoint(other, b) {
      assert g == h;
      SameCell(a, b, g.columns);
    }
  }

  /** Two projected nodes get the same position exactly when both are of kinds the page does
      not know, of different ones, and each as far along in its kind as the other. */
  lemma NodesApart(kinds: seq<string>, i: nat, j: nat)
    requires i < j < |kinds|
    ensures GridPoint(kinds[i], Rank(kinds, i)) == GridPoint(kinds[j], Rank(kinds, j)) <==>
              !Known(kinds[i]) && !Known(kinds[j]) && kinds[i] != kinds[j] && Rank(kinds, i) == Rank(kinds, j)
  {
    GridPointsDiffer(kinds[i], Rank(kinds, i), kinds[j], Rank(kinds, j));
    if kinds[i] == kinds[j] {
      RanksDiffer(kinds, i, j);
    }
  }
}
