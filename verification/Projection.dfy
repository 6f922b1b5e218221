/** From the four query results to the graph: the projected nodes and relations, the
    all-or-nothing replacement in Neo4j, and what it means for a graph to mirror the
    ontology. */
module Projection {
  import opened Prelude
  import opened Ids
  import opened Ontology

  datatype Node = Node(id: string, kind: string, name: string, description: string, className: Option<string>, externalId: Option<string>)

  datatype Arc = Arc(id: nat, subjectId: string, name: string, targetId: string)

  /** An edge joins two nodes of the graph, given by their places in `nodes`. */
  datatype Edge = Edge(id: nat, name: string, start: nat, end: nat)

  datatype Graph = Graph(nodes: seq<Node>, edges: seq<Edge>)

  /** What graph_projection_status tells of the last rebuild. */
  datatype Status = NotBuilt | Running | Built(nodeCount: nat, relationCount: nat) | Failed

  // ---- Projected nodes and relations ------------------------------------------------------------

  function ClassId(id: nat): string { "Class:" + Decimal(id) }
  function PropertyId(id: nat): string { "Property:" + Decimal(id) }
  function IndividualId(id: nat): string { "Individual:" + Decimal(id) }

  function ClassNode(r: ClassRow): Node {
    Node(ClassId(r.id), "Class", r.name, r.description, None, None)
  }

  function PropertyNode(r: PropertyRow): Node {
    Node(PropertyId(r.id), "Property", r.name, r.description, Some(r.signature), None)
  }

  function IndividualNode(r: IndividualRow): Node {
    Node(IndividualId(r.id), "Individual", r.name, r.description, Some(r.className), r.externalId)
  }

  function RelationArc(r: RelationRow): Arc {
    Arc(r.id, IndividualId(r.subject), r.propertyName, IndividualId(r.target))
  }

  function ClassNodes(cs: seq<ClassRow>): seq<Node> {
    seq(|cs|, k requires 0 <= k < |cs| => ClassNode(cs[k]))
  }

  function PropertyNodes(ps: seq<PropertyRow>): seq<Node> {
    seq(|ps|, k requires 0 <= k < |ps| => PropertyNode(ps[k]))
  }

  function IndividualNodes(ns: seq<IndividualRow>): seq<Node> {
    seq(|ns|, k requires 0 <= k < |ns| => IndividualNode(ns[k]))
  }

  function NodesOf(cs: seq<ClassRow>, ps: seq<PropertyRow>, ns: seq<IndividualRow>): seq<Node> {
    ClassNodes(cs) + PropertyNodes(ps) + IndividualNodes(ns)
  }

  function ArcsOf(rs: seq<RelationRow>): seq<Arc> {
    seq(|rs|, k requires 0 <= k < |rs| => RelationArc(rs[k]))
  }

  // ---- Node ids are namespaced ----------------------------------------------------------------------

  lemma DecimalInjective(m: nat, n: nat)
    requires Decimal(m) == Decimal(n)
    ensures m == n
  {
    DecimalRoundTrip(m);
    DecimalRoundTrip(n);
  }

  lemma PrefixedInjective(p: string, m: nat, n: nat)
    ensures p + Decimal(m) == p + Decimal(n) <==> m == n
  {
    if p + Decimal(m) == p + Decimal(n) {
      PrefixCancels(p, Decimal(m), Decimal(n));
      DecimalInjective(m, n);
    }
  }

  lemma KindsApart(m: nat, n: nat)
    ensures ClassId(m) != PropertyId(n) && PropertyId(m) != IndividualId(n) && ClassId(m) != IndividualId(n)
  {
    assert ClassId(m)[0] == 'C' && PropertyId(m)[0] == 'P';
    assert PropertyId(n)[0] == 'P' && IndividualId(n)[0] == 'I';
  }

  /** No two entities of the ontology share a node id, whatever their kinds and numbers. */
  lemma NodeIdsInjective(m: nat, n: nat)
    ensures ClassId(m) == ClassId(n) <==> m == n
    ensures PropertyId(m) == PropertyId(n) <==> m == n
    ensures IndividualId(m) == IndividualId(n) <==> m == n
    ensures ClassId(m) != PropertyId(n) && PropertyId(m) != IndividualId(n) && ClassId(m) != IndividualId(n)
  {
    PrefixedInjective("Class:", m, n);
    PrefixedInjective("Property:", m, n);
    PrefixedInjective("Individual:", m, n);
    KindsApart(m, n);
  }

  // ---- The replacement in Neo4j ---------------------------------------------------------------------

  /** MATCH (subject {id: ...}), (target {id: ...}) CREATE: one edge for every pair of nodes
      that match, from place (i, j) on. */
  function EdgesFrom(nodes: seq<Node>, arc: Arc, i: nat, j: nat): seq<Edge>
    requires i <= |nodes| && j <= |nodes|
    decreases |nodes| - i, |nodes| - j
  {
    if i == |nodes| then []
    else if nodes[i].id != arc.subjectId || j == |nodes| then EdgesFrom(nodes, arc, i + 1, 0)
    else if nodes[j].id == arc.targetId then [Edge(arc.id, arc.name, i, j)] + EdgesFrom(nodes, arc, i, j + 1)
    else EdgesFrom(nodes, arc, i, j + 1)
  }

  function AllEdges(nodes: seq<Node>, arcs: seq<Arc>): seq<Edge> {
    if arcs == [] then [] else AllEdges(nodes, arcs[..|arcs| - 1]) + EdgesFrom(nodes, arcs[|arcs| - 1], 0, 0)
  }

  function Replacement(nodes: seq<Node>, arcs: seq<Arc>): Graph {
    Graph(nodes, AllEdges(nodes, arcs))
  }

  class Neo4j {
    var nodes: seq<Node>
    var edges: seq<Edge>

    function Contents(): Graph
      reads this
    {
      Graph(nodes, edges)
    }

    constructor ()
      ensures Contents() == Graph([], [])
    {
      nodes, edges := [], [];
    }

    /** Delete everything, create the nodes, match the end points of each relation. */
    method ReplaceProjection(projected: seq<Node>, arcs: seq<Arc>)
      modifies this
      ensures Contents() == Replacement(projected, arcs)
    {
      nodes, edges := [], [];
      var n := 0;
      while n < |projected|
        invariant 0 <= n <= |projected| && nodes == projected[..n] && edges == []
      {
        nodes := nodes + [projected[n]];
        n := n + 1;
      }
      assert nodes == projected;
      n := 0;
      while n < |arcs|
        invariant 0 <= n <= |arcs| && nodes == projected
        invariant edges == AllEdges(nodes, arcs[..n])
      {
        Connect(arcs[n]);
        assert arcs[..n + 1][..n] == arcs[..n];
        n := n + 1;
      }
      assert arcs[..n] == arcs;
    }

    method Connect(arc: Arc)
      modifies this`edges
      ensures edges == old(edges) + EdgesFrom(nodes, arc, 0, 0)
    {
      var i := 0;
      while i < |nodes|
        invariant 0 <= i <= |nodes|
        invariant old(edges) + EdgesFrom(nodes, arc, 0, 0) == edges + EdgesFrom(nodes, arc, i, 0)
      {
        if nodes[i].id == arc.subjectId {
          var j := 0;
          while j < |nodes|
            invariant 0 <= j <= |nodes|
            invariant old(edges) + EdgesFrom(nodes, arc, 0, 0) == edges + EdgesFrom(nodes, arc, i, j)
          {
            if nodes[j].id == arc.targetId {
              edges := edges + [Edge(arc.id, arc.name, i, j)];
            }
            j := j + 1;
          }
        }
        i := i + 1;
      }
    }
  }

  // ---- What a rebuild captures ------------------------------------------------------------------------

  /** The nodes and relations the ontology stands for. */
  function NodeImage(o: Tables): set<Node> {
    (set c | c in o.classes :: ClassNode(ClassRowOf(o, c)))
      + (set p | p in JoinedProperties(o) :: PropertyNode(PropertyRowOf(o, p)))
      + (set i | i in JoinedIndividuals(o) :: IndividualNode(IndividualRowOf(o, i)))
  }

  function ArcImage(o: Tables): set<Arc> {
    set r | r in JoinedRelations(o) :: RelationArc(RelationRowOf(o, r))
  }

  predicate WellPlaced(g: Graph) {
    forall k :: 0 <= k < |g.edges| ==> g.edges[k].start < |g.nodes| && g.edges[k].end < |g.nodes|
  }

  /** The graph's edges as relations between node ids. */
  function ArcsIn(g: Graph): seq<Arc>
    requires WellPlaced(g)
  {
    seq(|g.edges|, k requires 0 <= k < |g.edges| =>
      Arc(g.edges[k].id, g.nodes[g.edges[k].start].id, g.edges[k].name, g.nodes[g.edges[k].end].id))
  }

  predicate DistinctNodes(nodes: seq<Node>) {
    forall i, j :: 0 <= i < j < |nodes| ==> nodes[i].id != nodes[j].id
  }

  /** The graph is exactly the image of the ontology: every class, property and individual is
      one node, every relation one edge between the nodes of its subject and target, and
      there is nothing else. */
  ghost predicate Mirrors(g: Graph, o: Tables) {
    && DistinctNodes(g.nodes) && Elements(g.nodes) == NodeImage(o)
    && WellPlaced(g) && Elements(ArcsIn(g)) == ArcImage(o)
    && forall i, j :: 0 <= i < j < |g.edges| ==> g.edges[i].id != g.edges[j].id
  }

  predicate RowsAscend(cs: seq<ClassRow>, ps: seq<PropertyRow>, ns: seq<IndividualRow>) {
    && (forall i, j :: 0 <= i < j < |cs| ==> cs[i].id < cs[j].id)
    && (forall i, j :: 0 <= i < j < |ps| ==> ps[i].id < ps[j].id)
    && (forall i, j :: 0 <= i < j < |ns| ==> ns[i].id < ns[j].id)
  }

  lemma QueriesAscend(o: Tables, cs: seq<ClassRow>, ps: seq<PropertyRow>, ns: seq<IndividualRow>)
    requires ClassQuery(o, cs) && PropertyQuery(o, ps) && IndividualQuery(o, ns)
    ensures RowsAscend(cs, ps, ns)
  {
  }

  /** The id of the node in place `k`. */
  function IdAt(cs: seq<ClassRow>, ps: seq<PropertyRow>, ns: seq<IndividualRow>, k: nat): string
    requires k < |cs| + |ps| + |ns|
  {
    if k < |cs| then ClassId(cs[k].id)
    else if k < |cs| + |ps| then PropertyId(ps[k - |cs|].id)
    else IndividualId(ns[k - |cs| - |ps|].id)
  }

  lemma JoinedAt<T>(a: seq<T>, b: seq<T>, c: seq<T>, k: nat)
    requires k < |a| + |b| + |c|
    ensures (a + b + c)[k] == if k < |a| then a[k] else if k < |a| + |b| then b[k - |a|] else c[k - |a| - |b|]
  {
  }

  lemma NodeIdAt(cs: seq<ClassRow>, ps: seq<PropertyRow>, ns: seq<IndividualRow>, k: nat)
    requires k < |cs| + |ps| + |ns|
    ensures |NodesOf(cs, ps, ns)| == |cs| + |ps| + |ns| && NodesOf(cs, ps, ns)[k].id == IdAt(cs, ps, ns, k)
  {
    JoinedAt(ClassNodes(cs), PropertyNodes(ps), IndividualNodes(ns), k);
  }

  lemma ClassesDiffer(cs: seq<ClassRow>, ps: seq<PropertyRow>, ns: seq<IndividualRow>, i: nat, j: nat)
    requires RowsAscend(cs, ps, ns) && i < j < |cs| + |ps| + |ns| && i < |cs|
    ensures IdAt(cs, ps, ns, i) != IdAt(cs, ps, ns, j)
  {
    if j < |cs| {
      NodeIdsInjective(cs[i].id, cs[j].id);
    } else if j < |cs| + |ps| {
      KindsApart(cs[i].id, ps[j - |cs|].id);
    } else {
      KindsApart(cs[i].id, ns[j - |cs| - |ps|].id);
    }
  }

  lemma PropertiesDiffer(cs: seq<ClassRow>, ps: seq<PropertyRow>, ns: seq<IndividualRow>, i: nat, j: nat)
    requires RowsAscend(cs, ps, ns) && i < j < |cs| + |ps| + |ns| && |cs| <= i < |cs| + |ps|
    ensures IdAt(cs, ps, ns, i) != IdAt(cs, ps, ns, j)
  {
    if j < |cs| + |ps| {
      NodeIdsInjective(ps[i - |cs|].id, ps[j - |cs|].id);
    } else {
      KindsApart(ps[i - |cs|].id, ns[j - |cs| - |ps|].id);
    }
  }

  lemma IndividualsDiffer(cs: seq<ClassRow>, ps: seq<PropertyRow>, ns: seq<IndividualRow>, i: nat, j: nat)
    requires RowsAscend(cs, ps, ns) && |cs| + |ps| <= i < j < |cs| + |ps| + |ns|
    ensures IdAt(cs, ps, ns, i) != IdAt(cs, ps, ns, j)
  {
    NodeIdsInjective(ns[i - |cs| - |ps|].id, ns[j - |cs| - |ps|].id);
  }

  lemma NodesDiffer(cs: seq<ClassRow>, ps: seq<PropertyRow>, ns: seq<IndividualRow>, i: nat, j: nat)
    requires RowsAscend(cs, ps, ns) && i < j < |cs| + |ps| + |ns|
    ensures IdAt(cs, ps, ns, i) != IdAt(cs, ps, ns, j)
  {
    if i < |cs| {
      ClassesDiffer(cs, ps, ns, i, j);
    } else if i < |cs| + |ps| {
      PropertiesDiffer(cs, ps, ns, i, j);
    } else {
      IndividualsDiffer(cs, ps, ns, i, j);
    }
  }

  lemma CapturedNodes(o: Tables, cs: seq<ClassRow>, ps: seq<PropertyRow>, ns: seq<IndividualRow>)
    requires ClassQuery(o, cs) && PropertyQuery(o, ps) && IndividualQuery(o, ns)
    ensures DistinctNodes(NodesOf(cs, ps, ns))
  {
    QueriesAscend(o, cs, ps, ns);
    forall i, j | 0 <= i < j < |NodesOf(cs, ps, ns)| ensures NodesOf(cs, ps, ns)[i].id != NodesOf(cs, ps, ns)[j].id {
      NodeIdAt(cs, ps, ns, i);
      NodeIdAt(cs, ps, ns, j);
      NodesDiffer(cs, ps, ns, i, j);
    }
  }

  lemma CapturedWithin(o: Tables, cs: seq<ClassRow>, ps: seq<PropertyRow>, ns: seq<IndividualRow>, k: nat)
    requires ClassQuery(o, cs) && PropertyQuery(o, ps) && IndividualQuery(o, ns) && k < |NodesOf(cs, ps, ns)|
    ensures NodesOf(cs, ps, ns)[k] in NodeImage(o)
  {
    if k < |cs| {
      assert cs[k].id in o.classes && NodesOf(cs, ps, ns)[k] == ClassNode(ClassRowOf(o, cs[k].id));
    } else if k < |cs| + |ps| {
      var q := k - |cs|;
      assert ps[q].id in JoinedProperties(o) && NodesOf(cs, ps, ns)[k] == PropertyNode(PropertyRowOf(o, ps[q].id));
    } else {
      var q := k - |cs| - |ps|;
      assert ns[q].id in JoinedIndividuals(o) && NodesOf(cs, ps, ns)[k] == IndividualNode(IndividualRowOf(o, ns[q].id));
    }
  }

  lemma CapturedImage(o: Tables, cs: seq<ClassRow>, ps: seq<PropertyRow>, ns: seq<IndividualRow>)
    requires ClassQuery(o, cs) && PropertyQuery(o, ps) && IndividualQuery(o, ns)
    ensures Elements(NodesOf(cs, ps, ns)) == NodeImage(o)
  {
    var nodes := NodesOf(cs, ps, ns);
    forall n | n in nodes ensures n in NodeImage(o) {
      var k :| 0 <= k < |nodes| && nodes[k] == n;
      CapturedWithin(o, cs, ps, ns, k);
    }
    ClassesCaptured(o, cs, ps, ns);
    PropertiesCaptured(o, cs, ps, ns);
    IndividualsCaptured(o, cs, ps, ns);
  }

  lemma ClassesCaptured(o: Tables, cs: seq<ClassRow>, ps: seq<PropertyRow>, ns: seq<IndividualRow>)
    requires ClassQuery(o, cs)
    ensures forall c :: c in o.classes ==> ClassNode(ClassRowOf(o, c)) in NodesOf(cs, ps, ns)
  {
    var ids: seq<nat> :| Enumerates(ids, o.classes.Keys) && (forall c :: c in ids ==> c in o.classes) && cs == ClassRows(o, ids);
    forall c | c in o.classes ensures ClassNode(ClassRowOf(o, c)) in NodesOf(cs, ps, ns) {
      assert c in Elements(ids);
      var k :| 0 <= k < |ids| && ids[k] == c;
      assert NodesOf(cs, ps, ns)[k] == ClassNode(ClassRowOf(o, c));
    }
  }

  lemma PropertiesCaptured(o: Tables, cs: seq<ClassRow>, ps: seq<PropertyRow>, ns: seq<IndividualRow>)
    requires PropertyQuery(o, ps)
    ensures forall p :: p in JoinedProperties(o) ==> PropertyNode(PropertyRowOf(o, p)) in NodesOf(cs, ps, ns)
  {
    var ids: seq<nat> :| Enumerates(ids, JoinedProperties(o)) && (forall p :: p in ids ==> p in JoinedProperties(o)) && ps == PropertyRows(o, ids);
    forall p | p in JoinedProperties(o) ensures PropertyNode(PropertyRowOf(o, p)) in NodesOf(cs, ps, ns) {
      assert p in Elements(ids);
      var k :| 0 <= k < |ids| && ids[k] == p;
      JoinedAt(ClassNodes(cs), PropertyNodes(ps), IndividualNodes(ns), |cs| + k);
      assert NodesOf(cs, ps, ns)[|cs| + k] == PropertyNode(PropertyRowOf(o, p));
    }
  }

  lemma IndividualsCaptured(o: Tables, cs: seq<ClassRow>, ps: seq<PropertyRow>, ns: seq<IndividualRow>)
    requires IndividualQuery(o, ns)
    ensures forall i :: i in JoinedIndividuals(o) ==> IndividualNode(IndividualRowOf(o, i)) in NodesOf(cs, ps, ns)
  {
    var ids: seq<nat> :| Enumerates(ids, JoinedIndividuals(o)) && (forall i :: i in ids ==> i in JoinedIndividuals(o)) && ns == IndividualRows(o, ids);
    forall i | i in JoinedIndividuals(o) ensures IndividualNode(IndividualRowOf(o, i)) in NodesOf(cs, ps, ns) {
      assert i in Elements(ids);
      var k :| 0 <= k < |ids| && ids[k] == i;
      JoinedAt(ClassNodes(cs), PropertyNodes(ps), IndividualNodes(ns), |cs| + |ps| + k);
      assert NodesOf(cs, ps, ns)[|cs| + |ps| + k] == IndividualNode(IndividualRowOf(o, i));
    }
  }

  // ---- What Neo4j makes of it ----------------------------------------------------------------------------

  /** With distinct node ids, matching finds the one pair of end points. */
  lemma {:induction false} OneEdge(nodes: seq<Node>, arc: Arc, a: nat, b: nat, i: nat, j: nat)
    requires DistinctNodes(nodes) && a < |nodes| && b < |nodes| && nodes[a].id == arc.subjectId && nodes[b].id == arc.targetId
    requires i <= |nodes| && j <= |nodes|
    ensures EdgesFrom(nodes, arc, i, j) ==
              if i < a || (i == a && j <= b) then [Edge(arc.id, arc.name, a, b)] else []
    decreases |nodes| - i, |nodes| - j
  {
    if i < |nodes| {
      if nodes[i].id != arc.subjectId || j == |nodes| {
        OneEdge(nodes, arc, a, b, i + 1, 0);
      } else {
        OneEdge(nodes, arc, a, b, i, j + 1);
      }
    }
  }

  ghost predicate Anchored(nodes: seq<Node>, arc: Arc) {
    && (exists a :: 0 <= a < |nodes| && nodes[a].id == arc.subjectId)
    && (exists b :: 0 <= b < |nodes| && nodes[b].id == arc.targetId)
  }

  /** When both ends of every relation are among the nodes, every relation becomes one edge. */
  lemma {:induction false} EveryArcOneEdge(nodes: seq<Node>, arcs: seq<Arc>)
    requires DistinctNodes(nodes) && forall k :: 0 <= k < |arcs| ==> Anchored(nodes, arcs[k])
    ensures WellPlaced(Replacement(nodes, arcs)) && ArcsIn(Replacement(nodes, arcs)) == arcs
    decreases |arcs|
  {
    if arcs != [] {
      var init, last := arcs[..|arcs| - 1], arcs[|arcs| - 1];
      EveryArcOneEdge(nodes, init);
      assert Anchored(nodes, last);
      var a :| 0 <= a < |nodes| && nodes[a].id == last.subjectId;
      var b :| 0 <= b < |nodes| && nodes[b].id == last.targetId;
      OneEdge(nodes, last, a, b, 0, 0);
      assert ArcsIn(Replacement(nodes, arcs)) == ArcsIn(Replacement(nodes, init)) + [last];
    }
  }

  lemma {:induction false} NoEdge(nodes: seq<Node>, arc: Arc, i: nat, j: nat)
    requires !Anchored(nodes, arc) && i <= |nodes| && j <= |nodes|
    ensures EdgesFrom(nodes, arc, i, j) == []
    decreases |nodes| - i, |nodes| - j
  {
    if i < |nodes| {
      if nodes[i].id != arc.subjectId || j == |nodes| {
        NoEdge(nodes, arc, i + 1, 0);
      } else {
        NoEdge(nodes, arc, i, j + 1);
      }
    }
  }

  /** A relation becomes one edge exactly when both its ends were captured; otherwise, as when
      they were added after the nodes were read, it silently becomes none. */
  lemma EdgeIffAnchored(nodes: seq<Node>, arc: Arc)
    requires DistinctNodes(nodes)
    ensures |EdgesFrom(nodes, arc, 0, 0)| == if Anchored(nodes, arc) then 1 else 0
  {
    if Anchored(nodes, arc) {
      var a :| 0 <= a < |nodes| && nodes[a].id == arc.subjectId;
      var b :| 0 <= b < |nodes| && nodes[b].id == arc.targetId;
      OneEdge(nodes, arc, a, b, 0, 0);
    } else {
      NoEdge(nodes, arc, 0, 0);
    }
  }

  lemma RelationsInOrder(o: Tables, rs: seq<RelationRow>, i: nat, j: nat)
    requires RelationQuery(o, rs) && i < j < |rs|
    ensures rs[i].id < rs[j].id
  {
  }

  lemma ArcsAnchored(o: Tables, cs: seq<ClassRow>, ps: seq<PropertyRow>, ns: seq<IndividualRow>, rs: seq<RelationRow>, k: nat)
    requires Sound(o) && IndividualQuery(o, ns) && RelationQuery(o, rs) && k < |rs|
    ensures Anchored(NodesOf(cs, ps, ns), ArcsOf(rs)[k])
  {
    IndividualsCaptured(o, cs, ps, ns);
    assert rs[k].id in JoinedRelations(o) && rs[k] == RelationRowOf(o, rs[k].id);
    assert IndividualNode(IndividualRowOf(o, rs[k].subject)) in NodesOf(cs, ps, ns);
    assert IndividualNode(IndividualRowOf(o, rs[k].target)) in NodesOf(cs, ps, ns);
  }

  lemma ArcsCaptured(o: Tables, rs: seq<RelationRow>)
    requires RelationQuery(o, rs)
    ensures Elements(ArcsOf(rs)) == ArcImage(o)
  {
    var ids: seq<nat> :| Enumerates(ids, JoinedRelations(o)) && (forall r :: r in ids ==> r in JoinedRelations(o)) && rs == RelationRows(o, ids);
    forall r | r in JoinedRelations(o) ensures RelationArc(RelationRowOf(o, r)) in ArcsOf(rs) {
      assert r in Elements(ids);
      var k :| 0 <= k < |ids| && ids[k] == r;
      assert ArcsOf(rs)[k] == RelationArc(RelationRowOf(o, r));
    }
    forall x | x in ArcsOf(rs) ensures x in ArcImage(o) {
      var k :| 0 <= k < |rs| && ArcsOf(rs)[k] == x;
      assert ids[k] in JoinedRelations(o) && x == RelationArc(RelationRowOf(o, ids[k]));
    }
  }

  /** Four reads of one and the same ontology give a graph that mirrors it. */
  lemma ConsistentReadsMirror(o: Tables, cs: seq<ClassRow>, ps: seq<PropertyRow>, ns: seq<IndividualRow>, rs: seq<RelationRow>)
    requires Sound(o) && ClassQuery(o, cs) && PropertyQuery(o, ps) && IndividualQuery(o, ns) && RelationQuery(o, rs)
    ensures Mirrors(Replacement(NodesOf(cs, ps, ns), ArcsOf(rs)), o)
    ensures |NodesOf(cs, ps, ns)| == |Replacement(NodesOf(cs, ps, ns), ArcsOf(rs)).nodes|
    ensures |rs| == |Replacement(NodesOf(cs, ps, ns), ArcsOf(rs)).edges|
  {
    var nodes, arcs := NodesOf(cs, ps, ns), ArcsOf(rs);
    CapturedNodes(o, cs, ps, ns);
    CapturedImage(o, cs, ps, ns);
    forall k | 0 <= k < |arcs| ensures Anchored(nodes, arcs[k]) {
      ArcsAnchored(o, cs, ps, ns, rs, k);
    }
    ArcsCaptured(o, rs);
    EveryArcOneEdge(nodes, arcs);
    var g := Replacement(nodes, arcs);
    forall i, j | 0 <= i < j < |g.edges| ensures g.edges[i].id != g.edges[j].id {
      RelationsInOrder(o, rs, i, j);
      assert ArcsIn(g)[i] == arcs[i] && ArcsIn(g)[j] == arcs[j];
    }
  }

  // ---- project --------------------------------------------------------------------------------------------

  /** The worker's own loop over the four results. */
  method Project(neo4j: Neo4j, cs: seq<ClassRow>, ps: seq<PropertyRow>, ns: seq<IndividualRow>, rs: seq<RelationRow>)
    returns (nodeCount: nat, relationCount: nat)
    modifies neo4j
    ensures neo4j.Contents() == Replacement(NodesOf(cs, ps, ns), ArcsOf(rs))
    ensures nodeCount == |cs| + |ps| + |ns| && relationCount == |rs|
  {
    var nodes: seq<Node> := [];
    for k := 0 to |cs|
      invariant nodes == NodesOf(cs[..k], [], [])
    {
      nodes := nodes + [ClassNode(cs[k])];
    }
    assert cs[..|cs|] == cs;
    for k := 0 to |ps|
      invariant nodes == NodesOf(cs, ps[..k], [])
    {
      nodes := nodes + [PropertyNode(ps[k])];
    }
    assert ps[..|ps|] == ps;
    for k := 0 to |ns|
      invariant nodes == NodesOf(cs, ps, ns[..k])
    {
      nodes := nodes + [IndividualNode(ns[k])];
    }
    assert ns[..|ns|] == ns;
    var relations := ArcsOf(rs);
    neo4j.ReplaceProjection(nodes, relations);
    return |nodes|, |relations|;
  }

  /** The row of graph_projection_status. */
  class StatusRow {
    var rebuildId: string
    var status: Status

    constructor ()
      ensures status == NotBuilt
    {
      rebuildId, status := "", NotBuilt;
    }
  }

  /** What fails in a rebuild, if anything: one of the three status updates, a read, or the
      replacement, which may have been committed all the same. */
  datatype Faults = Faults(running: bool, read: bool, replace: bool, replaced: bool, ready: bool, failed: bool)

  /** The four reads, one after the other. */
  ghost predicate Reads(o: Tables, cs: seq<ClassRow>, ps: seq<PropertyRow>, ns: seq<IndividualRow>, rs: seq<RelationRow>) {
    ClassQuery(o, cs) && PropertyQuery(o, ps) && IndividualQuery(o, ns) && RelationQuery(o, rs)
  }

  method ReadAll(postgres: OntologyStore) returns (cs: seq<ClassRow>, ps: seq<PropertyRow>, ns: seq<IndividualRow>, rs: seq<RelationRow>)
    ensures Reads(postgres.Snapshot(), cs, ps, ns, rs)
  {
    cs := postgres.QueryClasses();
    ps := postgres.QueryProperties();
    ns := postgres.QueryIndividuals();
    rs := postgres.QueryRelations();
  }

  lemma ReplacedIsMirror(o: Tables, g: Graph, cs: seq<ClassRow>, ps: seq<PropertyRow>, ns: seq<IndividualRow>, rs: seq<RelationRow>)
    requires Sound(o) && Reads(o, cs, ps, ns, rs) && g == Replacement(NodesOf(cs, ps, ns), ArcsOf(rs))
    ensures Mirrors(g, o) && |g.nodes| == |cs| + |ps| + |ns| && |g.edges| == |rs|
  {
    ConsistentReadsMirror(o, cs, ps, ns, rs);
  }

  /** The four reads and the replacement. */
  method ReadAndReplace(postgres: OntologyStore, neo4j: Neo4j, faults: Faults) returns (counts: Option<(nat, nat)>)
    requires Sound(postgres.Snapshot())
    modifies neo4j
    ensures counts.Some? <==> !faults.read && !faults.replace
    ensures counts.Some? ==> counts.value == (|neo4j.nodes|, |neo4j.edges|)
    ensures if faults.read || (faults.replace && !faults.replaced) then neo4j.Contents() == old(neo4j.Contents())
            else Mirrors(neo4j.Contents(), postgres.Snapshot())
  {
    if faults.read {
      return None;
    }
    var cs, ps, ns, rs := ReadAll(postgres);
    if faults.replace && !faults.replaced {
      return None;
    }
    var nodeCount, relationCount := Project(neo4j, cs, ps, ns, rs);
    ReplacedIsMirror(postgres.Snapshot(), neo4j.Contents(), cs, ps, ns, rs);
    if faults.replace {
      return None;
    }
    return Some((nodeCount, relationCount));
  }

  /** A whole rebuild that no mutation comes between. When it succeeds, Neo4j holds the exact
      image of the ontology and the status tells its size. When it fails, Neo4j holds what it
      held before or the exact image, never anything in between, and the status is `Failed`,
      or still `Running` if the database could not be told. */
  method Rebuild(postgres: OntologyStore, neo4j: Neo4j, row: StatusRow, rebuildId: string, faults: Faults) returns (ok: bool)
    requires Sound(postgres.Snapshot())
    modifies neo4j, row
    ensures ok ==> Mirrors(neo4j.Contents(), postgres.Snapshot())
    ensures ok ==> row.rebuildId == rebuildId && row.status == Built(|neo4j.nodes|, |neo4j.edges|)
    ensures neo4j.Contents() == old(neo4j.Contents()) || Mirrors(neo4j.Contents(), postgres.Snapshot())
    ensures !ok && faults.running ==>
              neo4j.Contents() == old(neo4j.Contents()) && row.rebuildId == old(row.rebuildId) && row.status == old(row.status)
    ensures !ok && !faults.running ==> row.rebuildId == rebuildId
    ensures !ok && !faults.running && (faults.read || faults.replace) ==> row.status == if faults.failed then Running else Failed
    ensures !ok && !faults.running && !faults.read && !faults.replace ==>
              row.status == Running && Mirrors(neo4j.Contents(), postgres.Snapshot())
    ensures ok <==> !faults.running && !faults.read && !faults.replace && !faults.ready
  {
    if faults.running {
      return false;
    }
    row.rebuildId, row.status := rebuildId, Running;
    var counts := ReadAndReplace(postgres, neo4j, faults);
    if counts.None? {
      if !faults.failed {
        row.status := Failed;
      }
      return false;
    }
    if faults.ready {
      return false;
    }
    row.status := Built(counts.value.0, counts.value.1);
    return true;
  }
}
