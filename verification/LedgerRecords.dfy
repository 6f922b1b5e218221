/** What the telemetry table and the reading events hold: over every run, the same message. */
module LedgerRecords {
  import opened Prelude
  import opened Ids
  import opened Schema
  import opened Commands
  import opened Transactions
  import opened LedgerSafety

  type TelemetryTable = map<string, TelemetryRow>

  /** The reading event of a telemetry message. */
  predicate TellsReading(event: Event, m: Telemetry) {
    && event.kind == SensorReading && event.sourceId == m.sensorId && event.occurredAt == m.measuredAt
    && event.body.ReadingBody?
    && event.body.reading.eventId == m.eventId && event.body.reading.sensorId == m.sensorId && event.body.reading.kind == m.kind
    && event.body.reading.value == m.value && event.body.reading.unit == m.unit && event.body.reading.measuredAt == m.measuredAt
    && (if m.source.Some? then event.body.reading.source == m.source.value else event.body.reading.source == "mqtt")
  }

  predicate RowTold(telemetry: TelemetryTable, events: Events, id: string) {
    id in telemetry ==>
      && telemetry[id].event.eventId == id
      && (ReadingOf(id) in events ==> TellsReading(events[ReadingOf(id)], telemetry[id].event))
  }

  ghost predicate RowsTold(telemetry: TelemetryTable, events: Events) {
    forall id :: RowTold(telemetry, events, id)
  }

  /** No reading event is added or changed. */
  ghost predicate NoNewReading(a: Events, b: Events) {
    forall id :: ReadingOf(id) in b ==> ReadingOf(id) in a && b[ReadingOf(id)] == a[ReadingOf(id)]
  }

  lemma InsertTold(l: Ledger, inserted: multiset<string>, e: Telemetry, position: Position, now: Time)
    requires RowsTold(l.telemetry, l.core.events) && Deduplicated(l.core.events, l.tombstones, l.telemetry, inserted)
    ensures var t := Ingest(l, e, position, now).0; RowsTold(t.telemetry, t.core.events)
  {
    var t := Ingest(l, e, position, now).0;
    PutFrame(l.core.events, l.core.shadowed, ReadingOf(e.eventId), ReadingEvent(e));
    forall id ensures RowTold(t.telemetry, t.core.events, id) {
      assert RowTold(l.telemetry, l.core.events, id);
      if id == e.eventId && id !in l.tombstones {
        assert ReadingOf(id) !in l.core.events;
        assert TellsReading(ReadingEvent(e), e);
      }
    }
  }

  lemma ToldWithout(telemetry: TelemetryTable, events: Events, telemetry': TelemetryTable, events': Events)
    requires RowsTold(telemetry, events) && NoNewReading(events, events')
    requires forall id :: id in telemetry' ==> id in telemetry && telemetry'[id] == telemetry[id]
    ensures RowsTold(telemetry', events')
  {
    forall id ensures RowTold(telemetry', events', id) {
      assert RowTold(telemetry, events, id);
    }
  }

  lemma FireAddsNoReading(l: Ledger, e: Telemetry, r: string, at: Time)
    requires r in l.rules
    ensures var t := Fire(l, e, r, at); NoNewReading(l.core.events, t.core.events) && t.telemetry == l.telemetry
  {
    FireFrame(l, e, r, at);
  }

  lemma {:induction false} RulesAddNoReading(w: World, e: Telemetry, order: seq<string>, at: Time)
    requires forall r :: r in order ==> r in w.ledger.rules
    ensures var t := AfterRules(w, e, order, at);
      NoNewReading(w.ledger.core.events, t.ledger.core.events) && t.ledger.telemetry == w.ledger.telemetry
    decreases |order|
  {
    if order != [] {
      if Skipped(w.ledger, e, order[0], at) {
        RulesAddNoReading(w, e, order[1..], at);
      } else {
        FireAddsNoReading(w.ledger, e, order[0], at);
        RulesAddNoReading(AfterFire(w, e, order[0], at), e, order[1..], at);
      }
    }
  }

  lemma ProtocolAddsNoReading(a: CommandDb, b: CommandDb)
    requires CoreEvolves(a, b)
    ensures NoNewReading(a.events, b.events)
  {
    forall id | ReadingOf(id) in b.events ensures ReadingOf(id) in a.events {
      assert !OfProtocol(ReadingOf(id));
    }
  }

  lemma CleanupAddsNoReading(w: World, retention: Retention, sweep: Sweep)
    ensures var t := AfterCleanup(w, retention, sweep).ledger;
      && NoNewReading(w.ledger.core.events, t.core.events)
      && forall id :: id in t.telemetry ==> id in w.ledger.telemetry && t.telemetry[id] == w.ledger.telemetry[id]
  {
  }

  lemma OthersAddNoReading(w: World, step: Step)
    requires Enabled(w, step) && !step.Insert? && !step.RulePass? && !step.Protocol? && !step.Cleanup?
    ensures var t := After(w, step).ledger; t.core == w.ledger.core && t.telemetry == w.ledger.telemetry
  {
  }

  lemma StepTold(w: World, step: Step)
    requires Inv(w) && RowsTold(w.ledger.telemetry, w.ledger.core.events) && Enabled(w, step)
    ensures var t := After(w, step).ledger; RowsTold(t.telemetry, t.core.events)
  {
    var t := After(w, step).ledger;
    if step.Insert? {
      InsertTold(w.ledger, w.past.inserted, step.event, step.position, w.now);
    } else {
      if step.RulePass? {
        RulesAddNoReading(w, step.event, step.order, step.at);
      } else if step.Protocol? {
        ProtocolAddsNoReading(w.ledger.core, step.after);
      } else if step.Cleanup? {
        CleanupAddsNoReading(w, step.retention, step.sweep);
      } else {
        OthersAddNoReading(w, step);
      }
      ToldWithout(w.ledger.telemetry, w.ledger.core.events, t.telemetry, t.core.events);
    }
  }

  lemma {:induction false} RunTold(w: World, steps: seq<Step>, t: World)
    requires Inv(w) && RowsTold(w.ledger.telemetry, w.ledger.core.events) && RunFrom(w, steps, t)
    ensures RowsTold(t.ledger.telemetry, t.ledger.core.events)
    decreases |steps|
  {
    if steps != [] {
      StepTold(w, steps[0]);
      StepInv(w, steps[0]);
      RunTold(After(w, steps[0]), steps[1..], t);
    }
  }

  /** Whatever is delivered, repeated, passed over and cleaned up: a stored reading event says
      what the stored message of its id says, in every field. */
  lemma ReadingsAgree(w: World, id: string)
    requires Reachable(w) && id in w.ledger.telemetry
    ensures w.ledger.telemetry[id].event.eventId == id
    ensures ReadingOf(id) in w.ledger.core.events ==> TellsReading(w.ledger.core.events[ReadingOf(id)], w.ledger.telemetry[id].event)
  {
    var w0, steps :| Init(w0) && RunFrom(w0, steps, w);
    RunTold(w0, steps, w);
    assert RowTold(w.ledger.telemetry, w.ledger.core.events, id);
  }

  /** The first delivery of a message stores it with its place in the partition and the time,
      and its event unless the id's text is taken; no later delivery changes anything. */
  lemma FirstDeliveryIsStored(w: World, e: Telemetry, position: Position)
    requires Reachable(w) && Enabled(w, Insert(e, position))
    ensures var t := After(w, Insert(e, position)).ledger;
      if e.eventId in w.ledger.tombstones then t == w.ledger
      else
        && e.eventId in t.tombstones && t.tombstones[e.eventId] == w.now
        && t.telemetry == w.ledger.telemetry[e.eventId := TelemetryRow(e, position, w.now)]
        && (ReadingOf(e.eventId) in t.core.events <==> forall j :: j in w.ledger.core.events ==> EventText(j) != EventText(ReadingOf(e.eventId)))
        && (ReadingOf(e.eventId) in t.core.events ==> TellsReading(t.core.events[ReadingOf(e.eventId)], e))
        && (forall j :: j != ReadingOf(e.eventId) ==> (j in t.core.events <==> j in w.ledger.core.events))
  {
    ReachableInv(w);
  }

  /** An edit sets what it is asked to on the one rule, which keeps its clock and its creation
      time, and touches nothing else; an id that is not there is no error. */
  lemma EditSetsItsRule(w: World, step: Step, r: string)
    requires Enabled(w, step) && step.Edit?
    ensures var l, t := w.ledger, After(w, step).ledger;
      && t == l.(rules := t.rules) && t.rules.Keys == l.rules.Keys
      && (r in l.rules && r != step.id ==> t.rules[r] == l.rules[r])
      && (r in l.rules && r == step.id ==>
            t.rules[r] == Rule(step.condition, step.action, step.enabled, step.cooldownSeconds, l.rules[r].lastTriggeredAt, l.rules[r].createdAt))
  {
  }

  /** A switch turns its rule on or off, and that is all. */
  lemma SwitchSetsItsRule(w: World, step: Step, r: string)
    requires Enabled(w, step) && step.Enable?
    ensures var l, t := w.ledger, After(w, step).ledger;
      && t == l.(rules := t.rules) && t.rules.Keys == l.rules.Keys
      && (r in l.rules && r != step.id ==> t.rules[r] == l.rules[r])
      && (r in l.rules && r == step.id ==> t.rules[r].enabled == step.enabled && l.rules[r] == t.rules[r].(enabled := l.rules[r].enabled))
  {
  }
}
