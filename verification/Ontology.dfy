/** The ontology tables: insertions that keep their references intact, and the four queries
    a graph rebuild reads. */
module Ontology {
  import opened Prelude
  import opened Selection

  datatype Class = Class(name: string, description: string)
  datatype Property = Property(name: string, domain: nat, range: nat, description: string)
  datatype Individual = Individual(name: string, classId: nat, description: string, externalId: Option<string>)
  datatype Relation = Relation(subject: nat, property: nat, target: nat)

  datatype Tables = Tables(
    classes: map<nat, Class>,
    properties: map<nat, Property>,
    individuals: map<nat, Individual>,
    relations: map<nat, Relation>)

  /** The foreign keys. */
  ghost predicate Sound(o: Tables) {
    && (forall p :: p in o.properties ==> o.properties[p].domain in o.classes && o.properties[p].range in o.classes)
    && (forall i :: i in o.individuals ==> o.individuals[i].classId in o.classes)
    && (forall r :: r in o.relations ==>
         && o.relations[r].subject in o.individuals
         && o.relations[r].property in o.properties
         && o.relations[r].target in o.individuals)
  }

  // ---- Mutations ------------------------------------------------------------------------------

  datatype Mutation =
    | CreateClass(name: string, description: string)
    | CreateProperty(name: string, domain: nat, range: nat, description: string)
    | CreateIndividual(name: string, classId: nat, description: string)
    | CreateRelation(subject: nat, property: nat, target: nat)

  datatype MutationError = AlreadyExists | MissingReference

  /** The row goes in under the id the sequence hands out, unless a unique key or a foreign
      key is violated. */
  function Insert(o: Tables, m: Mutation, id: nat): Result<Tables, MutationError> {
    match m
    case CreateClass(name, description) =>
      if exists c :: c in o.classes && o.classes[c].name == name then Err(AlreadyExists)
      else Ok(o.(classes := o.classes[id := Class(name, description)]))
    case CreateProperty(name, domain, range, description) =>
      if exists p :: p in o.properties && o.properties[p].name == name then Err(AlreadyExists)
      else if domain !in o.classes || range !in o.classes then Err(MissingReference)
      else Ok(o.(properties := o.properties[id := Property(name, domain, range, description)]))
    case CreateIndividual(name, classId, description) =>
      if exists i :: i in o.individuals && o.individuals[i].name == name then Err(AlreadyExists)
      else if classId !in o.classes then Err(MissingReference)
      else Ok(o.(individuals := o.individuals[id := Individual(name, classId, description, None)]))
    case CreateRelation(subject, property, target) =>
      if exists r :: r in o.relations && o.relations[r] == Relation(subject, property, target) then Err(AlreadyExists)
      else if subject !in o.individuals || property !in o.properties || target !in o.individuals then Err(MissingReference)
      else Ok(o.(relations := o.relations[id := Relation(subject, property, target)]))
  }

  /** Ids come from a sequence per table and are never reused. */
  predicate FreshId(o: Tables, m: Mutation, id: nat) {
    match m
    case CreateClass(_, _) => id !in o.classes
    case CreateProperty(_, _, _, _) => id !in o.properties
    case CreateIndividual(_, _, _) => id !in o.individuals
    case CreateRelation(_, _, _) => id !in o.relations
  }

  lemma InsertSound(o: Tables, m: Mutation, id: nat)
    requires Sound(o) && FreshId(o, m, id) && Insert(o, m, id).Ok?
    ensures Sound(Insert(o, m, id).value)
  {
  }

  /** The unique keys. */
  ghost predicate Unique(o: Tables) {
    UniqueClasses(o.classes) && UniqueProperties(o.properties) && UniqueIndividuals(o.individuals) && UniqueRelations(o.relations)
  }

  ghost predicate UniqueClasses(cs: map<nat, Class>) {
    forall a, b :: a in cs && b in cs && cs[a].name == cs[b].name ==> a == b
  }

  ghost predicate UniqueProperties(ps: map<nat, Property>) {
    forall a, b :: a in ps && b in ps && ps[a].name == ps[b].name ==> a == b
  }

  ghost predicate UniqueIndividuals(ns: map<nat, Individual>) {
    && (forall a, b :: a in ns && b in ns && ns[a].name == ns[b].name ==> a == b)
    && (forall a, b :: a in ns && b in ns && ns[a].externalId.Some? && ns[a].externalId == ns[b].externalId ==> a == b)
  }

  ghost predicate UniqueRelations(rs: map<nat, Relation>) {
    forall a, b :: a in rs && b in rs && rs[a] == rs[b] ==> a == b
  }

  lemma InsertUnique(o: Tables, m: Mutation, id: nat)
    requires Unique(o) && FreshId(o, m, id) && Insert(o, m, id).Ok?
    ensures Unique(Insert(o, m, id).value)
  {
  }

  /** The row a mutation adds, and nothing else changes: `t` is `o` with it. */
  ghost predicate Adds(o: Tables, m: Mutation, id: nat, t: Tables) {
    match m
    case CreateClass(name, description) => t == o.(classes := o.classes[id := Class(name, description)])
    case CreateProperty(name, domain, range, description) => t == o.(properties := o.properties[id := Property(name, domain, range, description)])
    case CreateIndividual(name, classId, description) => t == o.(individuals := o.individuals[id := Individual(name, classId, description, None)])
    case CreateRelation(subject, property, target) => t == o.(relations := o.relations[id := Relation(subject, property, target)])
  }

  /** How a mutation ends, in terms of the tables with its row. */
  ghost predicate EndsBy(o: Tables, m: Mutation, id: nat, t: Tables) {
    && (Insert(o, m, id) == Ok(t) <==> Sound(t) && Unique(t))
    && (Insert(o, m, id) == Err(AlreadyExists) <==> !Unique(t))
    && (Insert(o, m, id) == Err(MissingReference) <==> Unique(t) && !Sound(t))
  }

  lemma ClassRefused(o: Tables, m: Mutation, id: nat, t: Tables)
    requires Sound(o) && Unique(o) && FreshId(o, m, id) && Adds(o, m, id, t) && m.CreateClass?
    ensures EndsBy(o, m, id, t)
  {
    NewClassUnique(o.classes, id, Class(m.name, m.description));
  }

  lemma NewClassUnique(cs: map<nat, Class>, id: nat, c: Class)
    requires UniqueClasses(cs) && id !in cs
    ensures UniqueClasses(cs[id := c]) <==> forall a :: a in cs ==> cs[a].name != c.name
  {
    var cs' := cs[id := c];
    assert cs'[id] == c && forall a :: a in cs ==> cs'[a] == cs[a];
  }

  lemma PropertyRefused(o: Tables, m: Mutation, id: nat, t: Tables)
    requires Sound(o) && Unique(o) && FreshId(o, m, id) && Adds(o, m, id, t) && m.CreateProperty?
    ensures EndsBy(o, m, id, t)
  {
    var p := Property(m.name, m.domain, m.range, m.description);
    NewPropertyUnique(o.properties, id, p);
    NewPropertySound(o, id, p);
  }

  lemma NewPropertyUnique(ps: map<nat, Property>, id: nat, p: Property)
    requires UniqueProperties(ps) && id !in ps
    ensures UniqueProperties(ps[id := p]) <==> forall a :: a in ps ==> ps[a].name != p.name
  {
    var ps' := ps[id := p];
    assert ps'[id] == p && forall a :: a in ps ==> ps'[a] == ps[a];
  }

  lemma NewPropertySound(o: Tables, id: nat, p: Property)
    requires Sound(o) && id !in o.properties
    ensures Sound(o.(properties := o.properties[id := p])) <==> p.domain in o.classes && p.range in o.classes
  {
    assert o.properties[id := p][id] == p;
  }

  lemma IndividualRefused(o: Tables, m: Mutation, id: nat, t: Tables)
    requires Sound(o) && Unique(o) && FreshId(o, m, id) && Adds(o, m, id, t) && m.CreateIndividual?
    ensures EndsBy(o, m, id, t)
  {
    var n := Individual(m.name, m.classId, m.description, None);
    NewIndividualUnique(o.individuals, id, n);
    NewIndividualSound(o, id, n);
  }

  lemma NewIndividualUnique(ns: map<nat, Individual>, id: nat, n: Individual)
    requires UniqueIndividuals(ns) && id !in ns && n.externalId.None?
    ensures UniqueIndividuals(ns[id := n]) <==> forall a :: a in ns ==> ns[a].name != n.name
  {
    var ns' := ns[id := n];
    assert ns'[id] == n && forall a :: a in ns ==> ns'[a] == ns[a];
  }

  lemma NewIndividualSound(o: Tables, id: nat, n: Individual)
    requires Sound(o) && id !in o.individuals
    ensures Sound(o.(individuals := o.individuals[id := n])) <==> n.classId in o.classes
  {
    assert o.individuals[id := n][id] == n;
  }

  lemma RelationRefused(o: Tables, m: Mutation, id: nat, t: Tables)
    requires Sound(o) && Unique(o) && FreshId(o, m, id) && Adds(o, m, id, t) && m.CreateRelation?
    ensures EndsBy(o, m, id, t)
  {
    var r := Relation(m.subject, m.property, m.target);
    NewRelationUnique(o.relations, id, r);
    NewRelationSound(o, id, r);
  }

  lemma NewRelationUnique(rs: map<nat, Relation>, id: nat, r: Relation)
    requires UniqueRelations(rs) && id !in rs
    ensures UniqueRelations(rs[id := r]) <==> forall a :: a in rs ==> rs[a] != r
  {
    var rs' := rs[id := r];
    assert rs'[id] == r && forall a :: a in rs ==> rs'[a] == rs[a];
  }

  lemma NewRelationSound(o: Tables, id: nat, r: Relation)
    requires Sound(o) && id !in o.relations
    ensures Sound(o.(relations := o.relations[id := r])) <==> r.subject in o.individuals && r.property in o.properties && r.target in o.individuals
  {
    assert o.relations[id := r][id] == r;
  }

  /** A mutation is refused exactly if the tables with its row would break a unique key or a
      foreign key, and it says which; otherwise it adds its row. */
  lemma RefusedIffBroken(o: Tables, m: Mutation, id: nat, t: Tables)
    requires Sound(o) && Unique(o) && FreshId(o, m, id) && Adds(o, m, id, t)
    ensures Insert(o, m, id) == Ok(t) <==> Sound(t) && Unique(t)
    ensures Insert(o, m, id) == Err(AlreadyExists) <==> !Unique(t)
    ensures Insert(o, m, id) == Err(MissingReference) <==> Unique(t) && !Sound(t)
  {
    match m
    case CreateClass(_, _) => ClassRefused(o, m, id, t);
    case CreateProperty(_, _, _, _) => PropertyRefused(o, m, id, t);
    case CreateIndividual(_, _, _) => IndividualRefused(o, m, id, t);
    case CreateRelation(_, _, _) => RelationRefused(o, m, id, t);
  }

  // ---- The four queries of a rebuild ------------------------------------------------------------

  datatype ClassRow = ClassRow(id: nat, name: string, description: string)
  datatype PropertyRow = PropertyRow(id: nat, name: string, description: string, signature: string)
  datatype IndividualRow = IndividualRow(id: nat, name: string, description: string, className: string, externalId: Option<string>)
  datatype RelationRow = RelationRow(id: nat, subject: nat, propertyName: string, target: nat)

  function ClassRowOf(o: Tables, c: nat): ClassRow
    requires c in o.classes
  {
    ClassRow(c, o.classes[c].name, o.classes[c].description)
  }

  /** The inner joins leave out a row whose partner is missing. */
  function JoinedProperties(o: Tables): set<nat> {
    set p | p in o.properties && o.properties[p].domain in o.classes && o.properties[p].range in o.classes
  }

  function PropertyRowOf(o: Tables, p: nat): PropertyRow
    requires p in JoinedProperties(o)
  {
    var property := o.properties[p];
    PropertyRow(p, property.name, property.description, o.classes[property.domain].name + " -> " + o.classes[property.range].name)
  }

  function JoinedIndividuals(o: Tables): set<nat> {
    set i | i in o.individuals && o.individuals[i].classId in o.classes
  }

  function IndividualRowOf(o: Tables, i: nat): IndividualRow
    requires i in JoinedIndividuals(o)
  {
    var individual := o.individuals[i];
    IndividualRow(i, individual.name, individual.description, o.classes[individual.classId].name, individual.externalId)
  }

  function JoinedRelations(o: Tables): set<nat> {
    set r | r in o.relations && o.relations[r].property in o.properties
  }

  function RelationRowOf(o: Tables, r: nat): RelationRow
    requires r in JoinedRelations(o)
  {
    RelationRow(r, o.relations[r].subject, o.properties[o.relations[r].property].name, o.relations[r].target)
  }

  predicate Ascending(ids: seq<nat>) {
    forall i, j :: 0 <= i < j < |ids| ==> ids[i] < ids[j]
  }

  /** `ids` lists `keys` in ascending order. */
  ghost predicate Enumerates(ids: seq<nat>, keys: set<nat>) {
    Ascending(ids) && Elements(ids) == keys
  }

  function ClassRows(o: Tables, ids: seq<nat>): seq<ClassRow>
    requires forall c :: c in ids ==> c in o.classes
  {
    seq(|ids|, i requires 0 <= i < |ids| => ClassRowOf(o, ids[i]))
  }

  function PropertyRows(o: Tables, ids: seq<nat>): seq<PropertyRow>
    requires forall p :: p in ids ==> p in JoinedProperties(o)
  {
    seq(|ids|, i requires 0 <= i < |ids| => PropertyRowOf(o, ids[i]))
  }

  function IndividualRows(o: Tables, ids: seq<nat>): seq<IndividualRow>
    requires forall i :: i in ids ==> i in JoinedIndividuals(o)
  {
    seq(|ids|, i requires 0 <= i < |ids| => IndividualRowOf(o, ids[i]))
  }

  function RelationRows(o: Tables, ids: seq<nat>): seq<RelationRow>
    requires forall r :: r in ids ==> r in JoinedRelations(o)
  {
    seq(|ids|, i requires 0 <= i < |ids| => RelationRowOf(o, ids[i]))
  }

  /** `rows` is what the query returns, ordered by id. */
  ghost predicate ClassQuery(o: Tables, rows: seq<ClassRow>) {
    exists ids: seq<nat> :: Enumerates(ids, o.classes.Keys) && (forall c :: c in ids ==> c in o.classes) && rows == ClassRows(o, ids)
  }

  ghost predicate PropertyQuery(o: Tables, rows: seq<PropertyRow>) {
    exists ids: seq<nat> :: Enumerates(ids, JoinedProperties(o)) && (forall p :: p in ids ==> p in JoinedProperties(o)) && rows == PropertyRows(o, ids)
  }

  ghost predicate IndividualQuery(o: Tables, rows: seq<IndividualRow>) {
    exists ids: seq<nat> :: Enumerates(ids, JoinedIndividuals(o)) && (forall i :: i in ids ==> i in JoinedIndividuals(o)) && rows == IndividualRows(o, ids)
  }

  ghost predicate RelationQuery(o: Tables, rows: seq<RelationRow>) {
    exists ids: seq<nat> :: Enumerates(ids, JoinedRelations(o)) && (forall r :: r in ids ==> r in JoinedRelations(o)) && rows == RelationRows(o, ids)
  }

  // ---- The store -----------------------------------------------------------------------------------

  function IdKey(id: nat): Option<int> {
    Some(id)
  }

  /** order by id */
  method Enumerate(keys: set<nat>) returns (ids: seq<nat>)
    ensures Enumerates(ids, keys)
    ensures forall k :: k in ids ==> k in keys
  {
    ids := SelectOldest(keys, IdKey, |keys|);
    assert forall k :: k in ids ==> k in Elements(ids);
    assert forall i, j :: 0 <= i < j < |ids| ==> SortsBefore(IdKey(ids[i]), IdKey(ids[j]));
  }

  /** What insertOutbox adds for every mutation: a rebuild request that is not published yet. */
  datatype OutboxRow = OutboxRow(rebuildId: string, published: bool)

  /** The outbox as a queue: the requests still to be relayed, oldest first. */
  function Queue(rows: seq<OutboxRow>): seq<string> {
    if rows == [] then [] else Waiting(rows[0]) + Queue(rows[1..])
  }

  function Waiting(row: OutboxRow): seq<string> {
    if row.published then [] else [row.rebuildId]
  }

  lemma Regroup(a: seq<string>, b: seq<string>, c: seq<string>)
    ensures (a + b) + c == a + (b + c)
  {
  }

  lemma QueueSplit(row: OutboxRow, rows: seq<OutboxRow>)
    ensures Queue([row] + rows) == Waiting(row) + Queue(rows)
  {
    assert ([row] + rows)[0] == row && ([row] + rows)[1..] == rows;
  }

  lemma {:induction false} QueueJoin(a: seq<OutboxRow>, b: seq<OutboxRow>)
    ensures Queue(a + b) == Queue(a) + Queue(b)
    decreases |a|
  {
    if a == [] {
      assert a + b == b;
    } else {
      var row, rest := a[0], a[1..];
      QueueJoin(rest, b);
      assert a == [row] + rest && a + b == [row] + (rest + b);
      QueueSplit(row, rest);
      QueueSplit(row, rest + b);
      Regroup(Waiting(row), Queue(rest), Queue(b));
    }
  }

  /** The outcome of a Create transaction: the row and its rebuild request commit together, or
      neither does. */
  function Transaction(o: Tables, outbox: seq<OutboxRow>, m: Mutation, id: nat, rebuildId: string)
    : (Result<nat, MutationError>, Tables, seq<OutboxRow>)
  {
    match Insert(o, m, id)
    case Ok(inserted) => (Ok(id), inserted, outbox + [OutboxRow(rebuildId, false)])
    case Err(e) => (Err(e), o, outbox)
  }

  class OntologyStore {
    var classes: map<nat, Class>
    var properties: map<nat, Property>
    var individuals: map<nat, Individual>
    var relations: map<nat, Relation>
    var outbox: seq<OutboxRow>

    function Snapshot(): Tables
      reads this
    {
      Tables(classes, properties, individuals, relations)
    }

    constructor (o: Tables)
      ensures Snapshot() == o && outbox == []
    {
      classes, properties, individuals, relations := o.classes, o.properties, o.individuals, o.relations;
      outbox := [];
    }

    method CreateClass(name: string, description: string, id: nat, rebuildId: string) returns (outcome: Result<nat, MutationError>)
      requires id !in classes
      modifies this
      ensures (outcome, Snapshot(), outbox) == Transaction(old(Snapshot()), old(outbox), Mutation.CreateClass(name, description), id, rebuildId)
    {
      if exists c :: c in classes && classes[c].name == name {
        return Err(AlreadyExists);
      }
      classes := classes[id := Class(name, description)];
      EnqueueOutbox(rebuildId);
      return Ok(id);
    }

    method CreateProperty(name: string, domain: nat, range: nat, description: string, id: nat, rebuildId: string)
      returns (outcome: Result<nat, MutationError>)
      requires id !in properties
      modifies this
      ensures (outcome, Snapshot(), outbox) == Transaction(old(Snapshot()), old(outbox), Mutation.CreateProperty(name, domain, range, description), id, rebuildId)
    {
      if exists p :: p in properties && properties[p].name == name {
        return Err(AlreadyExists);
      }
      if domain !in classes || range !in classes {
        return Err(MissingReference);
      }
      properties := properties[id := Property(name, domain, range, description)];
      EnqueueOutbox(rebuildId);
      return Ok(id);
    }

    method CreateIndividual(name: string, classId: nat, description: string, id: nat, rebuildId: string)
      returns (outcome: Result<nat, MutationError>)
      requires id !in individuals
      modifies this
      ensures (outcome, Snapshot(), outbox) == Transaction(old(Snapshot()), old(outbox), Mutation.CreateIndividual(name, classId, description), id, rebuildId)
    {
      if exists i :: i in individuals && individuals[i].name == name {
        return Err(AlreadyExists);
      }
      if classId !in classes {
        return Err(MissingReference);
      }
      individuals := individuals[id := Individual(name, classId, description, None)];
      EnqueueOutbox(rebuildId);
      return Ok(id);
    }

    method CreateRelation(subject: nat, property: nat, target: nat, id: nat, rebuildId: string)
      returns (outcome: Result<nat, MutationError>)
      requires id !in relations
      modifies this
      ensures (outcome, Snapshot(), outbox) == Transaction(old(Snapshot()), old(outbox), Mutation.CreateRelation(subject, property, target), id, rebuildId)
    {
      if exists r :: r in relations && relations[r] == Relation(subject, property, target) {
        return Err(AlreadyExists);
      }
      if subject !in individuals || property !in properties || target !in individuals {
        return Err(MissingReference);
      }
      relations := relations[id := Relation(subject, property, target)];
      EnqueueOutbox(rebuildId);
      return Ok(id);
    }

    /** The request waits behind every earlier one; rows already there stay as they are. */
    method EnqueueOutbox(rebuildId: string)
      modifies this`outbox
      ensures Queue(outbox) == old(Queue(outbox)) + [rebuildId]
      ensures outbox == old(outbox) + [OutboxRow(rebuildId, false)]
    {
      QueueJoin(outbox, [OutboxRow(rebuildId, false)]);
      outbox := outbox + [OutboxRow(rebuildId, false)];
    }

    method QueryClasses() returns (rows: seq<ClassRow>)
      ensures ClassQuery(Snapshot(), rows)
    {
      var ids := Enumerate(classes.Keys);
      rows := ClassRows(Snapshot(), ids);
    }

    method QueryProperties() returns (rows: seq<PropertyRow>)
      ensures PropertyQuery(Snapshot(), rows)
    {
      var ids := Enumerate(JoinedProperties(Snapshot()));
      rows := PropertyRows(Snapshot(), ids);
    }

    method QueryIndividuals() returns (rows: seq<IndividualRow>)
      ensures IndividualQuery(Snapshot(), rows)
    {
      var ids := Enumerate(JoinedIndividuals(Snapshot()));
      rows := IndividualRows(Snapshot(), ids);
    }

    method QueryRelations() returns (rows: seq<RelationRow>)
      ensures RelationQuery(Snapshot(), rows)
    {
      var ids := Enumerate(JoinedRelations(Snapshot()));
      rows := RelationRows(Snapshot(), ids);
    }
  }
}
