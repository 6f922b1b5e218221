/** The projection pipeline as a state machine: mutations with their outbox rows, any number
    of relays, the rebuild topic, and one graph worker whose four reads, graph replacement
    and offset commit are separate steps that anything may come between. */
module Convergence {
  import opened Prelude
  import opened Ontology
  import opened Projection

  datatype Row = Row(published: bool, version: nat)

  /** A message of the rebuild topic: the request of an outbox row, or one from elsewhere. */
  datatype Entry = FromOutbox(row: nat) | Foreign(valid: bool)

  /** A relay holds the row it read, and knows whether its publish went through. */
  datatype Relay = Holding(row: nat, sent: bool)

  datatype Worker =
    | Idle
    | Started(offset: nat, since: nat)
    | ReadClasses(offset: nat, since: nat, cs: seq<ClassRow>)
    | ReadProperties(offset: nat, since: nat, cs: seq<ClassRow>, ps: seq<PropertyRow>)
    | ReadIndividuals(offset: nat, since: nat, cs: seq<ClassRow>, ps: seq<PropertyRow>, ns: seq<IndividualRow>)
    | ReadAll(offset: nat, since: nat, cs: seq<ClassRow>, ps: seq<PropertyRow>, ns: seq<IndividualRow>, rs: seq<RelationRow>)
    | Replaced(offset: nat, since: nat, nodeCount: nat, relationCount: nat)
    | Ready(offset: nat, since: nat)

  /** `version` counts the mutations; an outbox row and a rebuild remember the version they
      began at. No step looks at versions. */
  datatype System = System(
    tables: Tables,
    version: nat,
    outbox: seq<Row>,
    relays: map<nat, Relay>,
    log: seq<Entry>,
    committed: nat,
    worker: Worker,
    status: Status,
    graph: Graph,
    graphSince: Option<nat>)

  datatype Step =
    | Mutate(mutation: Mutation, id: nat)
    | Request
    | Fetch(relay: nat, row: nat)
    | Send(relay: nat, logged: bool, ok: bool)
    | MarkSent(relay: nat)
    | RelayCrash(relay: nat)
    | Produce(valid: bool)
    | Receive
    | QueryClasses(classes: seq<ClassRow>)
    | QueryProperties(properties: seq<PropertyRow>)
    | QueryIndividuals(individuals: seq<IndividualRow>)
    | QueryRelations(relations: seq<RelationRow>)
    | Replace
    | RebuildFails
    | MarkReady
    | Commit
    | WorkerCrash

  ghost predicate Init(s: System) {
    && Sound(s.tables) && s.version == 0 && s.outbox == [] && s.relays == map[] && s.log == []
    && s.committed == 0 && s.worker == Idle && s.graphSince == None
  }

  predicate NextUnpublished(outbox: seq<Row>, row: nat) {
    && row < |outbox| && !outbox[row].published
    && forall i :: 0 <= i < row ==> outbox[i].published
  }

  predicate Acceptable(e: Entry) {
    e.FromOutbox? || e.valid
  }

  ghost predicate Enabled(s: System, step: Step) {
    match step
    case Mutate(m, id) => FreshId(s.tables, m, id)
    case Request => true
    case Fetch(r, row) => NextUnpublished(s.outbox, row)
    case Send(r, logged, ok) => r in s.relays && !s.relays[r].sent && (ok ==> logged)
    case MarkSent(r) => r in s.relays && s.relays[r].sent && s.relays[r].row < |s.outbox|
    case RelayCrash(r) => true
    case Produce(_) => true
    case Receive => s.worker.Idle? && s.committed < |s.log| && Acceptable(s.log[s.committed])
    case QueryClasses(rows) => s.worker.Started? && ClassQuery(s.tables, rows)
    case QueryProperties(rows) => s.worker.ReadClasses? && PropertyQuery(s.tables, rows)
    case QueryIndividuals(rows) => s.worker.ReadProperties? && IndividualQuery(s.tables, rows)
    case QueryRelations(rows) => s.worker.ReadIndividuals? && RelationQuery(s.tables, rows)
    case Replace => s.worker.ReadAll?
    case RebuildFails => !s.worker.Idle?
    case MarkReady => s.worker.Replaced?
    case Commit => s.worker.Ready?
    case WorkerCrash => true
  }

  function AfterMutate(s: System, m: Mutation, id: nat): System {
    match Insert(s.tables, m, id)
    case Err(_) => s
    case Ok(tables) => s.(tables := tables, version := s.version + 1, outbox := s.outbox + [Row(false, s.version + 1)])
  }

  function AfterSend(s: System, r: nat, logged: bool, ok: bool): System
    requires r in s.relays
  {
    s.(log := if logged then s.log + [FromOutbox(s.relays[r].row)] else s.log,
       relays := if ok then s.relays[r := s.relays[r].(sent := true)] else s.relays - {r})
  }

  function AfterWorker(s: System, step: Step): System
    requires step.Receive? ==> s.worker.Idle?
    requires step.QueryClasses? ==> s.worker.Started?
    requires step.QueryProperties? ==> s.worker.ReadClasses?
    requires step.QueryIndividuals? ==> s.worker.ReadProperties?
    requires step.QueryRelations? ==> s.worker.ReadIndividuals?
    requires step.Replace? ==> s.worker.ReadAll?
    requires step.MarkReady? ==> s.worker.Replaced?
    requires step.Commit? ==> s.worker.Ready?
  {
    var w := s.worker;
    match step
    case Receive => s.(worker := Started(s.committed, s.version), status := Running)
    case QueryClasses(rows) => s.(worker := ReadClasses(w.offset, w.since, rows))
    case QueryProperties(rows) => s.(worker := ReadProperties(w.offset, w.since, w.cs, rows))
    case QueryIndividuals(rows) => s.(worker := ReadIndividuals(w.offset, w.since, w.cs, w.ps, rows))
    case QueryRelations(rows) => s.(worker := ReadAll(w.offset, w.since, w.cs, w.ps, w.ns, rows))
    case Replace =>
      var nodes := NodesOf(w.cs, w.ps, w.ns);
      s.(worker := Replaced(w.offset, w.since, |nodes|, |w.rs|), graph := Replacement(nodes, ArcsOf(w.rs)), graphSince := Some(w.since))
    case RebuildFails => s.(worker := Idle, status := Failed)
    case MarkReady => s.(worker := Ready(w.offset, w.since), status := Built(w.nodeCount, w.relationCount))
    case Commit => s.(worker := Idle, committed := w.offset + 1)
    case _ => s.(worker := Idle)
  }

  ghost function After(s: System, step: Step): System
    requires Enabled(s, step)
  {
    match step
    case Mutate(m, id) => AfterMutate(s, m, id)
    case Request => s.(outbox := s.outbox + [Row(false, s.version)])
    case Fetch(r, row) => s.(relays := s.relays[r := Holding(row, false)])
    case Send(r, logged, ok) => AfterSend(s, r, logged, ok)
    case MarkSent(r) =>
      var row := s.relays[r].row;
      s.(outbox := s.outbox[row := s.outbox[row].(published := true)], relays := s.relays - {r})
    case RelayCrash(r) => s.(relays := s.relays - {r})
    case Produce(valid) => s.(log := s.log + [Foreign(valid)])
    case _ => AfterWorker(s, step)
  }

  ghost predicate RunFrom(s: System, steps: seq<Step>, t: System)
    decreases |steps|
  {
    if steps == [] then s == t
    else Enabled(s, steps[0]) && RunFrom(After(s, steps[0]), steps[1..], t)
  }

  ghost predicate Reachable(s: System) {
    exists s0, steps :: Init(s0) && RunFrom(s0, steps, s)
  }

  // ---- The invariant ------------------------------------------------------------------------------

  ghost predicate InLog(log: seq<Entry>, row: nat) {
    exists o :: 0 <= o < |log| && log[o] == FromOutbox(row)
  }

  /** Every mutation has its request: the newest one carries the newest version. */
  ghost predicate Requested(version: nat, outbox: seq<Row>) {
    && (forall i :: 0 <= i < |outbox| ==> outbox[i].version <= version)
    && (outbox != [] ==> outbox[|outbox| - 1].version == version)
    && (outbox == [] ==> version == 0)
  }

  /** A row is marked published, or a relay is about to mark it, only once it is in the log. */
  ghost predicate Relayed(outbox: seq<Row>, relays: map<nat, Relay>, log: seq<Entry>) {
    && (forall i :: 0 <= i < |outbox| && outbox[i].published ==> InLog(log, i))
    && (forall r :: r in relays ==> relays[r].row < |outbox| && (relays[r].sent ==> InLog(log, relays[r].row)))
    && (forall o :: 0 <= o < |log| && log[o].FromOutbox? ==> log[o].row < |outbox|)
  }

  predicate AtLeast(since: Option<nat>, version: nat) {
    since.Some? && version <= since.value
  }

  /** Whatever was committed has been projected by a rebuild that began no earlier. */
  ghost predicate Projected(outbox: seq<Row>, log: seq<Entry>, committed: nat, graphSince: Option<nat>) {
    && committed <= |log|
    && (committed > 0 ==> graphSince.Some?)
    && forall o :: 0 <= o < committed && log[o].FromOutbox? && log[o].row < |outbox| ==> AtLeast(graphSince, outbox[log[o].row].version)
  }

  /** What the worker has read so far is current, if nothing has changed since it began. */
  ghost predicate Fresh(o: Tables, w: Worker) {
    && (w.ReadClasses? || w.ReadProperties? || w.ReadIndividuals? || w.ReadAll? ==> ClassQuery(o, w.cs))
    && (w.ReadProperties? || w.ReadIndividuals? || w.ReadAll? ==> PropertyQuery(o, w.ps))
    && (w.ReadIndividuals? || w.ReadAll? ==> IndividualQuery(o, w.ns))
    && (w.ReadAll? ==> RelationQuery(o, w.rs))
  }

  ghost predicate WorkerOk(s: System) {
    var w := s.worker;
    !w.Idle? ==>
      && w.offset == s.committed < |s.log|
      && w.since <= s.version
      && (s.log[w.offset].FromOutbox? && s.log[w.offset].row < |s.outbox| ==> s.outbox[s.log[w.offset].row].version <= w.since)
      && (s.graphSince.Some? ==> s.graphSince.value <= w.since)
      && (w.since == s.version ==> Fresh(s.tables, w))
      && (w.Replaced? || w.Ready? ==> s.graphSince == Some(w.since))
      && (w.Replaced? ==> w.nodeCount == |s.graph.nodes| && (w.since == s.version ==> w.relationCount == |s.graph.edges|))
      && (w.Ready? ==> Shown(s))
  }

  /** The status row counts the graph's nodes, and its edges unless the reads were torn. */
  predicate Shown(s: System) {
    && s.status.Built?
    && s.status.nodeCount == |s.graph.nodes|
    && (s.graphSince == Some(s.version) ==> s.status.relationCount == |s.graph.edges|)
  }

  ghost predicate GraphOk(s: System) {
    && (s.graphSince.Some? ==> s.graphSince.value <= s.version)
    && (s.graphSince == Some(s.version) ==> Mirrors(s.graph, s.tables))
  }

  ghost predicate Inv(s: System) {
    && Sound(s.tables)
    && Requested(s.version, s.outbox)
    && Relayed(s.outbox, s.relays, s.log)
    && Projected(s.outbox, s.log, s.committed, s.graphSince)
    && WorkerOk(s)
    && GraphOk(s)
    && (s.committed == |s.log| > 0 ==> Shown(s))
  }

  // ---- Steps keep it ---------------------------------------------------------------------------------

  lemma MutateInv(s: System, m: Mutation, id: nat)
    requires Inv(s) && Enabled(s, Mutate(m, id))
    ensures Inv(AfterMutate(s, m, id))
  {
    if Insert(s.tables, m, id).Ok? {
      InsertSound(s.tables, m, id);
    }
  }

  lemma RequestInv(s: System)
    requires Inv(s)
    ensures Inv(s.(outbox := s.outbox + [Row(false, s.version)]))
  {
  }

  lemma LogKeepsRows(log: seq<Entry>, more: Entry)
    ensures forall i :: InLog(log, i) ==> InLog(log + [more], i)
  {
    forall i | InLog(log, i) ensures InLog(log + [more], i) {
      var o :| 0 <= o < |log| && log[o] == FromOutbox(i);
      assert (log + [more])[o] == FromOutbox(i);
    }
  }

  lemma SendInv(s: System, r: nat, logged: bool, ok: bool)
    requires Inv(s) && Enabled(s, Send(r, logged, ok))
    ensures Inv(AfterSend(s, r, logged, ok))
  {
    var row := s.relays[r].row;
    LogKeepsRows(s.log, FromOutbox(row));
    if logged {
      assert (s.log + [FromOutbox(row)])[|s.log|] == FromOutbox(row);
    }
  }

  lemma MarkSentInv(s: System, r: nat)
    requires Inv(s) && Enabled(s, MarkSent(r))
    ensures Inv(After(s, MarkSent(r)))
  {
  }

  lemma RelayInv(s: System, step: Step)
    requires Inv(s) && Enabled(s, step) && (step.Fetch? || step.RelayCrash?)
    ensures Inv(After(s, step))
  {
  }

  lemma ProduceInv(s: System, valid: bool)
    requires Inv(s)
    ensures Inv(s.(log := s.log + [Foreign(valid)]))
  {
    LogKeepsRows(s.log, Foreign(valid));
  }

  lemma ReadInv(s: System, step: Step)
    requires Inv(s) && Enabled(s, step)
    requires step.Receive? || step.QueryClasses? || step.QueryProperties? || step.QueryIndividuals? || step.QueryRelations?
    ensures Inv(AfterWorker(s, step))
  {
  }

  lemma ReplaceInv(s: System)
    requires Inv(s) && Enabled(s, Replace)
    ensures Inv(AfterWorker(s, Replace))
  {
    var w := s.worker;
    if w.since == s.version {
      ConsistentReadsMirror(s.tables, w.cs, w.ps, w.ns, w.rs);
    }
  }

  lemma FinishInv(s: System, step: Step)
    requires Inv(s) && Enabled(s, step) && (step.MarkReady? || step.Commit? || step.RebuildFails? || step.WorkerCrash?)
    ensures Inv(AfterWorker(s, step))
  {
  }

  lemma StepInv(s: System, step: Step)
    requires Inv(s) && Enabled(s, step)
    ensures Inv(After(s, step))
  {
    match step {
      case Mutate(m, id) => MutateInv(s, m, id);
      case Request => RequestInv(s);
      case Fetch(_, _) => RelayInv(s, step);
      case RelayCrash(_) => RelayInv(s, step);
      case Send(r, logged, ok) => SendInv(s, r, logged, ok);
      case MarkSent(r) => MarkSentInv(s, r);
      case Produce(valid) => ProduceInv(s, valid);
      case Replace => ReplaceInv(s);
      case MarkReady => FinishInv(s, step);
      case Commit => FinishInv(s, step);
      case RebuildFails => FinishInv(s, step);
      case WorkerCrash => FinishInv(s, step);
      case _ => ReadInv(s, step);
    }
  }

  lemma {:induction false} RunInv(s: System, steps: seq<Step>, t: System)
    requires Inv(s) && RunFrom(s, steps, t)
    ensures Inv(t)
    decreases |steps|
  {
    if steps != [] {
      StepInv(s, steps[0]);
      RunInv(After(s, steps[0]), steps[1..], t);
    }
  }

  lemma ReachableInv(s: System)
    requires Reachable(s)
    ensures Inv(s)
  {
    var s0, steps :| Init(s0) && RunFrom(s0, steps, s);
    RunInv(s0, steps, s);
  }

  // ---- Convergence ------------------------------------------------------------------------------------

  predicate Settled(s: System) {
    && (forall i :: 0 <= i < |s.outbox| ==> s.outbox[i].published)
    && s.committed == |s.log|
  }

  /** Once some rebuild was requested, whenever the outbox is drained and the rebuild topic is
      committed, Neo4j holds exactly the image of the ontology, and the status row counts it,
      whatever came between the worker's reads and whoever crashed. */
  lemma ProjectionConverges(s: System)
    requires Reachable(s) && s.outbox != [] && Settled(s)
    ensures Mirrors(s.graph, s.tables)
    ensures s.status == Built(|s.graph.nodes|, |s.graph.edges|)
  {
    ReachableInv(s);
    var last := |s.outbox| - 1;
    assert InLog(s.log, last);
    var o :| 0 <= o < |s.log| && s.log[o] == FromOutbox(last);
    assert AtLeast(s.graphSince, s.outbox[s.log[o].row].version);
  }
}
