/** The worker's tables and transactions: telemetry ingestion with its deduplication
    tombstone, the deterministic rule pass, retention, dead letters, and rule edits. Each
    transaction is a function of all the tables; one that fails changes nothing. */
module Transactions {
  import opened Prelude
  import opened Ids
  import opened Schema
  import opened Commands
  import opened Rules

  const SECOND: nat := 1_000_000_000
  const DAY: nat := 86_400 * SECOND

  datatype Telemetry = Telemetry(
    eventId: string,
    deviceId: string,
    sensorId: string,
    sequence: nat,
    kind: string,
    value: Value,
    unit: string,
    measuredAt: Time,
    source: Option<string>,
    correlationId: Option<string>)

  datatype Position = Position(topic: string, partition: nat, offset: nat)

  datatype TelemetryRow = TelemetryRow(event: Telemetry, position: Position, processedAt: Time)

  datatype Sensor = Sensor(kind: string, unit: string, enabled: bool)

  datatype Rule = Rule(
    condition: Condition,
    action: Action,
    enabled: bool,
    cooldownSeconds: nat,
    lastTriggeredAt: Option<Time>,
    createdAt: Time)

  datatype AuditBody = MatchAudit(ruleId: string, condition: Condition, action: Action, event: Telemetry, ruleEvent: EventKey, command: CommandId) | OtherAudit

  datatype Audit = Audit(kind: string, occurredAt: Time, correlationId: Option<string>, body: AuditBody)

  datatype DeadLetter = DeadLetter(uuid: string, reason: string, failedAt: Time)

  datatype Ledger = Ledger(
    core: CommandDb,
    tombstones: map<string, Time>,
    telemetry: map<string, TelemetryRow>,
    audits: map<AuditKey, Audit>,
    sensors: map<string, Sensor>,
    rules: map<string, Rule>,
    deadLetters: map<Position, DeadLetter>,
    cleanupStartedAt: Option<Time>)

  // ---- insertTelemetry ---------------------------------------------------------------------

  function ReadingIn(e: Telemetry): Reading {
    Reading(e.eventId, e.sensorId, e.kind, e.value, e.unit, e.measuredAt, if e.source.Some? then e.source.value else "mqtt")
  }

  function ReadingEvent(e: Telemetry): Event {
    Event(SensorReading, e.sensorId, ReadingBody(ReadingIn(e)), e.measuredAt)
  }

  /** The tables after the transaction, and whether the event was a duplicate. */
  function Ingest(l: Ledger, e: Telemetry, position: Position, now: Time): (Ledger, bool) {
    if e.eventId in l.tombstones then (l, true)
    else
      var seen := l.(tombstones := l.tombstones[e.eventId := now]);
      if e.eventId in l.telemetry then (seen, true)
      else
        (seen.(telemetry := l.telemetry[e.eventId := TelemetryRow(e, position, now)],
               core := AddEvent(l.core, ReadingOf(e.eventId), ReadingEvent(e))),
         false)
  }

  // ---- applyDeterministicRules ---------------------------------------------------------------

  datatype RuleError = IncompatibleSensor | UnavailableDevice | BadAction(error: ActionError)

  predicate Compatible(sensors: map<string, Sensor>, e: Telemetry) {
    && e.sensorId in sensors
    && sensors[e.sensorId].enabled
    && sensors[e.sensorId].kind == e.kind
    && sensors[e.sensorId].unit == e.unit
  }

  function Applicable(rules: map<string, Rule>, sensorId: string): set<string> {
    set r | r in rules && rules[r].enabled && rules[r].condition.sensorId == sensorId
  }

  function CreationKey(rules: map<string, Rule>): string -> Option<int> {
    r => if r in rules then Some(rules[r].createdAt) else None
  }

  /** `order by created_at, id`; how ids compare is up to the database's collation, so rules
      created at the same instant may come in any order here. */
  ghost predicate InRuleOrder(rules: map<string, Rule>, order: seq<string>) {
    forall i, j :: 0 <= i < j < |order| ==> SortsBefore(CreationKey(rules)(order[i]), CreationKey(rules)(order[j]))
  }

  ghost predicate RuleQuery(rules: map<string, Rule>, sensorId: string, order: seq<string>) {
    Distinct(order) && Elements(order) == Applicable(rules, sensorId) && InRuleOrder(rules, order)
  }

  function CorrelationOf(e: Telemetry): string {
    if e.correlationId.Some? then e.correlationId.value else e.eventId
  }

  function RuleCommandFor(e: Telemetry, r: string, action: Action, at: Time): Command {
    Command(RuleCommand(e.eventId, r), action.deviceId, action.command, action.value, "rule-engine", at,
      Some(Causation(CorrelationOf(e), r, RuleEventOf(e.eventId, r), e.eventId)))
  }

  function MatchEvent(e: Telemetry, r: string, rule: Rule, at: Time): Event {
    Event(RuleMatched, r, MatchBody(r, rule.condition, rule.action, ReadingIn(e), CorrelationOf(e)), at)
  }

  function MatchAuditRow(e: Telemetry, r: string, rule: Rule, at: Time): Audit {
    Audit("rule.matched", at, Some(CorrelationOf(e)),
      MatchAudit(r, rule.condition, rule.action, e, RuleEventOf(e.eventId, r), RuleCommand(e.eventId, r)))
  }

  /** Everything a match writes: the rule's clock, the rule event, the command with its
      pending event, and the audit row. */
  function Fire(l: Ledger, e: Telemetry, r: string, at: Time): Ledger
    requires r in l.rules
  {
    var rule := l.rules[r];
    var core := AddEvent(l.core, RuleEventOf(e.eventId, r), MatchEvent(e, r, rule, at));
    l.(rules := l.rules[r := rule.(lastTriggeredAt := Some(at))],
       core := CreateCommand(core, rule.action.deviceId, RuleCommandFor(e, r, rule.action, at), at),
       audits := InsertIfAbsent(l.audits, RuleMatchOf(e.eventId, r), MatchAuditRow(e, r, rule, at)))
  }

  predicate CoolingDown(rule: Rule, at: Time) {
    rule.lastTriggeredAt.Some? && at - rule.lastTriggeredAt.value < rule.cooldownSeconds * SECOND
  }

  /** The rule is passed over: already applied, not matched, or cooling down. */
  predicate Skipped(l: Ledger, e: Telemetry, r: string, at: Time)
    requires r in l.rules
  {
    || RuleMatchOf(e.eventId, r) in l.audits
    || !Matches(l.rules[r].condition, e.unit, e.value)
    || CoolingDown(l.rules[r], at)
  }

  /** Why a match cannot be carried out, which aborts the whole pass. */
  function Obstacle(l: Ledger, r: string, at: Time): Option<RuleError>
    requires r in l.rules
  {
    var action := l.rules[r].action;
    if action.deviceId !in l.core.devices || !l.core.devices[action.deviceId].enabled then Some(UnavailableDevice)
    else
      match ApplyAction(l.core.devices[action.deviceId].kind, l.core.devices[action.deviceId].state, action, at)
      case Err(error) => Some(BadAction(error))
      case Ok(_) => None
  }

  /** A pass in progress: the tables so far and the rules matched so far. */
  datatype Pass = Pass(ledger: Ledger, matched: seq<string>)

  function PassRules(p: Pass, e: Telemetry, order: seq<string>, at: Time): Result<Pass, RuleError>
    requires forall r :: r in order ==> r in p.ledger.rules
    decreases |order|
  {
    if order == [] then Ok(p)
    else
      var r := order[0];
      if Skipped(p.ledger, e, r, at) then PassRules(p, e, order[1..], at)
      else if Obstacle(p.ledger, r, at).Some? then Err(Obstacle(p.ledger, r, at).value)
      else PassRules(Pass(Fire(p.ledger, e, r, at), p.matched + [r]), e, order[1..], at)
  }

  function ApplyRules(l: Ledger, e: Telemetry, order: seq<string>, at: Time): Result<Pass, RuleError>
    requires forall r :: r in order ==> r in l.rules
  {
    if Compatible(l.sensors, e) then PassRules(Pass(l, []), e, order, at) else Err(IncompatibleSensor)
  }

  // ---- cleanupRetention ------------------------------------------------------------------------

  datatype Retention = Retention(readingDays: nat, auditDays: nat, interval: nat, batchSize: nat)

  predicate CleanupDue(l: Ledger, retention: Retention, now: Time) {
    l.cleanupStartedAt.None? || l.cleanupStartedAt.value <= now - retention.interval
  }

  function ExpiredTelemetry(l: Ledger, retention: Retention, now: Time): set<string> {
    set e | e in l.telemetry && l.telemetry[e].processedAt < now - retention.readingDays * DAY
  }

  function ExpiredReadings(l: Ledger, retention: Retention, now: Time): set<EventKey> {
    set k | k in l.core.events && l.core.events[k].kind == SensorReading
            && l.core.events[k].occurredAt < now - retention.readingDays * DAY
  }

  function ExpiredAudits(l: Ledger, retention: Retention, now: Time): set<AuditKey> {
    set a | a in l.audits && l.audits[a].kind != "rule.matched" && l.audits[a].occurredAt < now - retention.auditDays * DAY
  }

  function TelemetryKey(l: Ledger): string -> Option<int> {
    e => if e in l.telemetry then Some(l.telemetry[e].processedAt) else None
  }

  function ReadingKey(l: Ledger): EventKey -> Option<int> {
    k => if k in l.core.events then Some(l.core.events[k].occurredAt) else None
  }

  function AuditOrder(l: Ledger): AuditKey -> Option<int> {
    a => if a in l.audits then Some(l.audits[a].occurredAt) else None
  }

  /** What one cleanup deletes. */
  datatype Sweep = Sweep(telemetry: set<string>, readings: set<EventKey>, audits: set<AuditKey>)

  /** The three deletions, `locked` being the rows other transactions hold just then. */
  ghost predicate SweepOf(l: Ledger, retention: Retention, now: Time, locked: Sweep, sweep: Sweep) {
    && OldestFirst(ExpiredTelemetry(l, retention, now) - locked.telemetry, TelemetryKey(l), retention.batchSize, sweep.telemetry)
    && OldestFirst(ExpiredReadings(l, retention, now) - locked.readings, ReadingKey(l), retention.batchSize, sweep.readings)
    && OldestFirst(ExpiredAudits(l, retention, now) - locked.audits, AuditOrder(l), retention.batchSize, sweep.audits)
  }

  function AfterSweep(l: Ledger, now: Time, sweep: Sweep): Ledger {
    l.(cleanupStartedAt := Some(now),
       telemetry := l.telemetry - sweep.telemetry,
       core := l.core.(events := l.core.events - sweep.readings),
       audits := l.audits - sweep.audits)
  }

  // ---- Rule edits --------------------------------------------------------------------------------

  /** What an edit sets. It leaves the rule's clock and its creation time alone. */
  function EditRule(l: Ledger, r: string, condition: Condition, action: Action, enabled: bool, cooldownSeconds: nat): Ledger {
    if r in l.rules then
      l.(rules := l.rules[r := l.rules[r].(condition := condition, action := action, enabled := enabled, cooldownSeconds := cooldownSeconds)])
    else l
  }

  function EnableRule(l: Ledger, r: string, enabled: bool): Ledger {
    if r in l.rules then l.(rules := l.rules[r := l.rules[r].(enabled := enabled)]) else l
  }
}
