/** What a graph that mirrors the ontology looks like, told by the rows of its four tables. */
module ProjectedGraph {
  import opened Prelude
  import opened Ids
  import opened Ontology
  import opened Projection
  import C = Convergence

  /** The graph has this node, and no other with its id. */
  ghost predicate ShownOnce(g: Graph, n: Node) {
    exists k :: 0 <= k < |g.nodes| && g.nodes[k] == n && OnlyNode(g, k)
  }

  ghost predicate OnlyNode(g: Graph, k: nat)
    requires k < |g.nodes|
  {
    forall j :: 0 <= j < |g.nodes| && g.nodes[j].id == g.nodes[k].id ==> j == k
  }

  /** The graph has one edge with this id, and it goes from `start` to `end`. */
  ghost predicate JoinedOnce(g: Graph, id: nat, start: string, name: string, end: string) {
    exists k :: 0 <= k < |g.edges| && Joins(g, g.edges[k], start, end) && g.edges[k].id == id && g.edges[k].name == name && OnlyEdge(g, k)
  }

  predicate Joins(g: Graph, e: Edge, start: string, end: string) {
    e.start < |g.nodes| && e.end < |g.nodes| && g.nodes[e.start].id == start && g.nodes[e.end].id == end
  }

  ghost predicate OnlyEdge(g: Graph, k: nat)
    requires k < |g.edges|
  {
    forall j :: 0 <= j < |g.edges| && g.edges[j].id == g.edges[k].id ==> j == k
  }

  predicate Names(o: Tables, id: string) {
    || (exists c :: c in o.classes && id == "Class:" + Decimal(c))
    || (exists p :: p in o.properties && id == "Property:" + Decimal(p))
    || (exists i :: i in o.individuals && id == "Individual:" + Decimal(i))
  }

  /** Every class, property and individual is one node with its own id text, kind, name and
      description, a property with the names of its domain and range, an individual with its
      class's name and its external id. Every relation is one edge, named by its property,
      from its subject's node to its target's. There are no other nodes and no other edges. */
  ghost predicate Depicts(g: Graph, o: Tables)
    requires Sound(o)
  {
    && (forall c :: c in o.classes ==>
         ShownOnce(g, Node("Class:" + Decimal(c), "Class", o.classes[c].name, o.classes[c].description, None, None)))
    && (forall p :: p in o.properties ==>
         ShownOnce(g, Node("Property:" + Decimal(p), "Property", o.properties[p].name, o.properties[p].description,
           Some(o.classes[o.properties[p].domain].name + " -> " + o.classes[o.properties[p].range].name), None)))
    && (forall i :: i in o.individuals ==>
         ShownOnce(g, Node("Individual:" + Decimal(i), "Individual", o.individuals[i].name, o.individuals[i].description,
           Some(o.classes[o.individuals[i].classId].name), o.individuals[i].externalId)))
    && (forall k :: 0 <= k < |g.nodes| ==> Names(o, g.nodes[k].id))
    && (forall r :: r in o.relations ==>
         JoinedOnce(g, r, "Individual:" + Decimal(o.relations[r].subject), o.properties[o.relations[r].property].name,
           "Individual:" + Decimal(o.relations[r].target)))
    && (forall k :: 0 <= k < |g.edges| ==> g.edges[k].id in o.relations)
  }

  lemma ImageShown(g: Graph, o: Tables, n: Node)
    requires Mirrors(g, o) && n in NodeImage(o)
    ensures ShownOnce(g, n)
  {
    assert n in Elements(g.nodes);
    var k :| 0 <= k < |g.nodes| && g.nodes[k] == n;
    assert OnlyNode(g, k);
  }

  lemma ShownIsNamed(g: Graph, o: Tables, k: nat)
    requires Mirrors(g, o) && k < |g.nodes|
    ensures Names(o, g.nodes[k].id)
  {
    assert g.nodes[k] in Elements(g.nodes);
    assert g.nodes[k] in NodeImage(o);
  }

  lemma ArcJoined(g: Graph, o: Tables, a: Arc)
    requires Mirrors(g, o) && a in ArcImage(o)
    ensures JoinedOnce(g, a.id, a.subjectId, a.name, a.targetId)
  {
    assert a in Elements(ArcsIn(g));
    var k :| 0 <= k < |ArcsIn(g)| && ArcsIn(g)[k] == a;
    assert Joins(g, g.edges[k], a.subjectId, a.targetId) && OnlyEdge(g, k);
  }

  lemma EdgeIsRelation(g: Graph, o: Tables, k: nat)
    requires Mirrors(g, o) && k < |g.edges|
    ensures g.edges[k].id in o.relations
  {
    assert ArcsIn(g)[k] in Elements(ArcsIn(g));
    assert ArcsIn(g)[k] in ArcImage(o);
  }

  lemma ClassesDepicted(g: Graph, o: Tables, c: nat)
    requires Mirrors(g, o) && c in o.classes
    ensures ShownOnce(g, Node("Class:" + Decimal(c), "Class", o.classes[c].name, o.classes[c].description, None, None))
  {
    ImageShown(g, o, ClassNode(ClassRowOf(o, c)));
  }

  lemma PropertiesDepicted(g: Graph, o: Tables, p: nat)
    requires Sound(o) && Mirrors(g, o) && p in o.properties
    ensures ShownOnce(g, Node("Property:" + Decimal(p), "Property", o.properties[p].name, o.properties[p].description,
              Some(o.classes[o.properties[p].domain].name + " -> " + o.classes[o.properties[p].range].name), None))
  {
    assert p in JoinedProperties(o);
    ImageShown(g, o, PropertyNode(PropertyRowOf(o, p)));
  }

  lemma IndividualsDepicted(g: Graph, o: Tables, i: nat)
    requires Sound(o) && Mirrors(g, o) && i in o.individuals
    ensures ShownOnce(g, Node("Individual:" + Decimal(i), "Individual", o.individuals[i].name, o.individuals[i].description,
              Some(o.classes[o.individuals[i].classId].name), o.individuals[i].externalId))
  {
    assert i in JoinedIndividuals(o);
    ImageShown(g, o, IndividualNode(IndividualRowOf(o, i)));
  }

  lemma RelationsDepicted(g: Graph, o: Tables, r: nat)
    requires Sound(o) && Mirrors(g, o) && r in o.relations
    ensures JoinedOnce(g, r, "Individual:" + Decimal(o.relations[r].subject), o.properties[o.relations[r].property].name,
              "Individual:" + Decimal(o.relations[r].target))
  {
    assert r in JoinedRelations(o);
    ArcJoined(g, o, RelationArc(RelationRowOf(o, r)));
  }

  /** A graph mirrors a sound ontology only if it depicts it, row by row. */
  lemma MirrorsDepicts(g: Graph, o: Tables)
    requires Sound(o) && Mirrors(g, o)
    ensures Depicts(g, o)
  {
    forall c | c in o.classes
      ensures ShownOnce(g, Node("Class:" + Decimal(c), "Class", o.classes[c].name, o.classes[c].description, None, None))
    {
      ClassesDepicted(g, o, c);
    }
    forall p | p in o.properties
      ensures ShownOnce(g, Node("Property:" + Decimal(p), "Property", o.properties[p].name, o.properties[p].description,
                Some(o.classes[o.properties[p].domain].name + " -> " + o.classes[o.properties[p].range].name), None))
    {
      PropertiesDepicted(g, o, p);
    }
    forall i | i in o.individuals
      ensures ShownOnce(g, Node("Individual:" + Decimal(i), "Individual", o.individuals[i].name, o.individuals[i].description,
                Some(o.classes[o.individuals[i].classId].name), o.individuals[i].externalId))
    {
      IndividualsDepicted(g, o, i);
    }
    forall k | 0 <= k < |g.nodes| ensures Names(o, g.nodes[k].id) {
      ShownIsNamed(g, o, k);
    }
    forall r | r in o.relations
      ensures JoinedOnce(g, r, "Individual:" + Decimal(o.relations[r].subject), o.properties[o.relations[r].property].name,
                "Individual:" + Decimal(o.relations[r].target))
    {
      RelationsDepicted(g, o, r);
    }
    forall k | 0 <= k < |g.edges| ensures g.edges[k].id in o.relations {
      EdgeIsRelation(g, o, k);
    }
  }

  /** So once some rebuild was requested, with the outbox drained and the topic committed, Neo4j
      holds the rows of the tables and nothing else. */
  lemma ConvergedGraphDepicts(s: C.System)
    requires C.Reachable(s) && s.outbox != [] && C.Settled(s)
    ensures Sound(s.tables) && Depicts(s.graph, s.tables)
    ensures s.status == Built(|s.graph.nodes|, |s.graph.edges|)
  {
    C.ReachableInv(s);
    C.ProjectionConverges(s);
    MirrorsDepicts(s.graph, s.tables);
  }
}
