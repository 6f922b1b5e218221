/** The worker's database service: each method runs its transaction on the tables in place
    and puts them back as they were when it fails. */
module LedgerStore {
  import opened Prelude
  import opened Selection
  import opened Ids
  import opened Schema
  import opened Commands
  import opened Rules
  import opened Transactions

  class PostgresService {
    var core: CommandDb
    var tombstones: map<string, Time>
    var telemetry: map<string, TelemetryRow>
    var audits: map<AuditKey, Audit>
    var sensors: map<string, Sensor>
    var rules: map<string, Rule>
    var deadLetters: map<Position, DeadLetter>
    var cleanupStartedAt: Option<Time>

    function Snapshot(): Ledger
      reads this
    {
      Ledger(core, tombstones, telemetry, audits, sensors, rules, deadLetters, cleanupStartedAt)
    }

    constructor (l: Ledger)
      ensures Snapshot() == l
    {
      core, tombstones, telemetry, audits := l.core, l.tombstones, l.telemetry, l.audits;
      sensors, rules, deadLetters, cleanupStartedAt := l.sensors, l.rules, l.deadLetters, l.cleanupStartedAt;
    }

    /** insert into workspace_event ... on conflict(event_id) do nothing */
    method InsertEvent(k: EventKey, e: Event)
      modifies this`core
      ensures core == AddEvent(old(core), k, e)
    {
      var shadowed := Shade(core.events, core.shadowed, k);
      if !Taken(core.events, k) {
        core := core.(events := core.events[k := e]);
      }
      core := core.(shadowed := shadowed);
    }

    method InsertTelemetry(e: Telemetry, position: Position, now: Time) returns (duplicate: bool)
      modifies this
      ensures (Snapshot(), duplicate) == Ingest(old(Snapshot()), e, position, now)
    {
      if e.eventId in tombstones {
        return true;
      }
      tombstones := tombstones[e.eventId := now];
      duplicate := e.eventId in telemetry;
      if !duplicate {
        telemetry := telemetry[e.eventId := TelemetryRow(e, position, now)];
        InsertEvent(ReadingOf(e.eventId), ReadingEvent(e));
      }
    }

    /** select ... from rules where enabled and condition->>'sensorId' = ... order by created_at, id */
    method SelectRules(sensorId: string) returns (order: seq<string>)
      ensures RuleQuery(rules, sensorId, order)
      ensures forall r :: r in order ==> r in rules
    {
      var applicable := Applicable(rules, sensorId);
      order := SelectOldest(applicable, CreationKey(rules), |applicable|);
      assert forall r :: r in order ==> r in Elements(order);
    }

    /** The writes of one match. */
    method WriteMatch(e: Telemetry, r: string, at: Time)
      requires r in rules
      modifies this
      ensures Snapshot() == Fire(old(Snapshot()), e, r, at)
    {
      var rule := rules[r];
      var command := RuleCommandFor(e, r, rule.action, at);
      rules := rules[r := rule.(lastTriggeredAt := Some(at))];
      InsertEvent(RuleEventOf(e.eventId, r), MatchEvent(e, r, rule, at));
      if command.commandId !in core.rows {
        core := core.(rows := core.rows[command.commandId := NewRow(rule.action.deviceId, command, at)]);
      }
      InsertEvent(PendingOf(command.commandId), PendingEvent(command, rule.action.deviceId, at));
      if RuleMatchOf(e.eventId, r) !in audits {
        audits := audits[RuleMatchOf(e.eventId, r) := MatchAuditRow(e, r, rule, at)];
      }
    }

    /** One turn of the loop over the selected rules. */
    method ApplyRule(e: Telemetry, r: string, at: Time) returns (outcome: Result<bool, RuleError>)
      requires r in rules
      modifies this
      ensures var l := old(Snapshot());
              match outcome
              case Ok(fired) => if fired then !Skipped(l, e, r, at) && Obstacle(l, r, at).None? && Snapshot() == Fire(l, e, r, at)
                                else Skipped(l, e, r, at) && Snapshot() == l
              case Err(error) => !Skipped(l, e, r, at) && Obstacle(l, r, at) == Some(error) && Snapshot() == l
    {
      if RuleMatchOf(e.eventId, r) in audits {
        return Ok(false);
      }
      var rule := rules[r];
      if !Matches(rule.condition, e.unit, e.value) {
        return Ok(false);
      }
      if rule.lastTriggeredAt.Some? {
        var elapsed := at - rule.lastTriggeredAt.value;
        if elapsed < rule.cooldownSeconds * SECOND {
          return Ok(false);
        }
      }
      if rule.action.deviceId !in core.devices || !core.devices[rule.action.deviceId].enabled {
        return Err(UnavailableDevice);
      }
      var device := core.devices[rule.action.deviceId];
      var applied := ApplyAction(device.kind, device.state, rule.action, at);
      if applied.Err? {
        return Err(BadAction(applied.error));
      }
      WriteMatch(e, r, at);
      return Ok(true);
    }

    method Restore(l: Ledger)
      modifies this
      ensures Snapshot() == l
    {
      core, tombstones, telemetry, audits := l.core, l.tombstones, l.telemetry, l.audits;
      sensors, rules, deadLetters, cleanupStartedAt := l.sensors, l.rules, l.deadLetters, l.cleanupStartedAt;
    }

    /** The rules matched, in the order they were applied; an error rolls everything back. */
    method ApplyDeterministicRules(e: Telemetry, at: Time) returns (outcome: Result<seq<string>, RuleError>, ghost order: seq<string>)
      modifies this
      ensures RuleQuery(old(rules), e.sensorId, order) && forall r :: r in order ==> r in old(rules)
      ensures var a := ApplyRules(old(Snapshot()), e, order, at);
              match outcome
              case Ok(matched) => a == Ok(Pass(Snapshot(), matched))
              case Err(error) => a == Err(error) && Snapshot() == old(Snapshot())
    {
      var saved := Snapshot();
      var selected := SelectRules(e.sensorId);
      order := selected;
      if !Compatible(sensors, e) {
        return Err(IncompatibleSensor), order;
      }
      var matched: seq<string> := [];
      var i := 0;
      while i < |selected|
        invariant 0 <= i <= |selected|
        invariant forall r :: r in selected ==> r in rules
        invariant PassRules(Pass(old(Snapshot()), []), e, selected, at) == PassRules(Pass(Snapshot(), matched), e, selected[i..], at)
      {
        assert selected[i..][0] == selected[i] && selected[i..][1..] == selected[i + 1..];
        var applied := ApplyRule(e, selected[i], at);
        if applied.Err? {
          Restore(saved);
          return Err(applied.error), order;
        }
        if applied.value {
          matched := matched + [selected[i]];
        }
        i := i + 1;
      }
      assert selected[i..] == [];
      return Ok(matched), order;
    }

    /** The rows the three deletions take. */
    method SelectExpired(retention: Retention, now: Time, locked: Sweep) returns (sweep: Sweep)
      ensures SweepOf(Snapshot(), retention, now, locked, sweep)
    {
      var l := Snapshot();
      var expired := SelectOldest(ExpiredTelemetry(l, retention, now) - locked.telemetry, TelemetryKey(l), retention.batchSize);
      var readings := SelectOldest(ExpiredReadings(l, retention, now) - locked.readings, ReadingKey(l), retention.batchSize);
      var incidents := SelectOldest(ExpiredAudits(l, retention, now) - locked.audits, AuditOrder(l), retention.batchSize);
      sweep := Sweep(Elements(expired), Elements(readings), Elements(incidents));
    }

    /** Notes the start and deletes the rows taken. */
    method DeleteExpired(now: Time, taken: Sweep)
      modifies this
      ensures Snapshot() == AfterSweep(old(Snapshot()), now, taken)
    {
      cleanupStartedAt := Some(now);
      telemetry := telemetry - taken.telemetry;
      core := core.(events := core.events - taken.readings);
      audits := audits - taken.audits;
    }

    /** Reports whether this worker got to clean up; if not, nothing has changed. */
    method CleanupRetention(retention: Retention, now: Time, acquired: bool, locked: Sweep) returns (started: bool, ghost sweep: Sweep)
      modifies this
      ensures SweepOf(old(Snapshot()), retention, now, locked, sweep)
      ensures started == (acquired && CleanupDue(old(Snapshot()), retention, now))
      ensures Snapshot() == if started then AfterSweep(old(Snapshot()), now, sweep) else old(Snapshot())
    {
      var taken := SelectExpired(retention, now, locked);
      sweep := taken;
      if !acquired || (cleanupStartedAt.Some? && cleanupStartedAt.value > now - retention.interval) {
        return false, sweep;
      }
      DeleteExpired(now, taken);
      return true, sweep;
    }

    method InsertDeadLetter(position: Position, letter: DeadLetter) returns (duplicate: bool)
      modifies this
      ensures duplicate == (position in old(deadLetters))
      ensures Snapshot() == old(Snapshot()).(deadLetters := InsertIfAbsent(old(deadLetters), position, letter))
    {
      duplicate := position in deadLetters;
      if !duplicate {
        deadLetters := deadLetters[position := letter];
      }
    }
  }
}
