/** What a pass over the rules does to the tables, row by row: which rules fire, whether the
    pass commits, and everything a match writes. Nothing here is said through the functions
    the pass is made of. */
module RulePasses {
  import opened Prelude
  import opened Ids
  import opened Schema
  import opened Commands
  import opened Rules
  import opened Transactions
  import opened LedgerTheorems

  /** The rule is one of the sensor's, the reading satisfies its condition, and its last match
      is a cooldown ago. */
  predicate Due(rule: Rule, e: Telemetry, at: Time) {
    && rule.enabled && rule.condition.sensorId == e.sensorId
    && Satisfies(e.unit, e.value, rule.condition)
    && (rule.lastTriggeredAt.Some? ==> at >= rule.lastTriggeredAt.value + rule.cooldownSeconds * 1_000_000_000)
  }

  predicate Known(sensors: map<string, Sensor>, e: Telemetry) {
    e.sensorId in sensors && sensors[e.sensorId] == Sensor(e.kind, e.unit, true)
  }

  /** What a device of each kind can be told. */
  predicate Feasible(kind: string, action: Action) {
    || (kind in ["led", "relay"] && action.command in ["on", "off"])
    || (kind == "servo" && action.command == "off")
    || (kind == "servo" && action.command == "set-angle" && action.value.Some? && 0.0 <= action.value.value <= 180.0)
    || (kind == "buzzer" && action.command in ["beep", "off"])
  }

  predicate CanAct(devices: map<string, Device>, action: Action) {
    action.deviceId in devices && devices[action.deviceId].enabled && Feasible(devices[action.deviceId].kind, action)
  }

  lemma SkippedIff(l: Ledger, e: Telemetry, order: seq<string>, at: Time, r: string)
    requires RuleQuery(l.rules, e.sensorId, order)
    ensures r in order ==> r in l.rules
    ensures r in order && !Skipped(l, e, r, at) <==> r in l.rules && RuleMatchOf(e.eventId, r) !in l.audits && Due(l.rules[r], e, at)
  {
    assert r in order <==> r in Elements(order);
    if r in l.rules {
      MatchesIffSatisfies(l.rules[r].condition, e.unit, e.value);
    }
  }

  lemma ObstacleIff(l: Ledger, r: string, at: Time)
    requires r in l.rules
    ensures Obstacle(l, r, at).None? <==> CanAct(l.core.devices, l.rules[r].action)
  {
  }

  // ---- Which rules fire ----------------------------------------------------------------------------

  /** A pass commits exactly if the reading comes from a known, enabled sensor in its kind and
      unit, and every rule that is due and not yet applied can act on an enabled device. */
  lemma CommitsIff(l: Ledger, e: Telemetry, order: seq<string>, at: Time)
    requires RuleQuery(l.rules, e.sensorId, order) && forall r :: r in order ==> r in l.rules
    ensures ApplyRules(l, e, order, at).Ok? <==>
      && Known(l.sensors, e)
      && forall r :: r in l.rules && RuleMatchOf(e.eventId, r) !in l.audits && Due(l.rules[r], e, at) ==> CanAct(l.core.devices, l.rules[r].action)
  {
    PassAppliesExactlyTheMatches(l, e, order, at);
    forall r | r in l.rules
      ensures (r in order && !Skipped(l, e, r, at)) <==> (RuleMatchOf(e.eventId, r) !in l.audits && Due(l.rules[r], e, at))
      ensures Obstacle(l, r, at).None? <==> CanAct(l.core.devices, l.rules[r].action)
    {
      SkippedIff(l, e, order, at, r);
      ObstacleIff(l, r, at);
    }
  }

  /** A committed pass records a match of exactly the rules that are due, once each. */
  lemma RecordsExactlyTheDue(l: Ledger, e: Telemetry, order: seq<string>, at: Time, r: string)
    requires RuleQuery(l.rules, e.sensorId, order) && (forall o :: o in order ==> o in l.rules) && ApplyRules(l, e, order, at).Ok?
    ensures RuleMatchOf(e.eventId, r) in ApplyRules(l, e, order, at).value.ledger.audits <==>
              RuleMatchOf(e.eventId, r) in l.audits || (r in l.rules && Due(l.rules[r], e, at))
  {
    PassAppliesExactlyTheMatches(l, e, order, at);
    SkippedIff(l, e, order, at, r);
  }

  /** What the five operators compare: the reading's number on the left, the threshold on the
      right. Any other operator, another unit, or a value that is not a number under an order
      operator matches nothing. */
  lemma OperatorsDecide(l: Ledger, e: Telemetry, order: seq<string>, at: Time, r: string)
    requires RuleQuery(l.rules, e.sensorId, order) && (forall o :: o in order ==> o in l.rules) && ApplyRules(l, e, order, at).Ok?
    requires r in l.rules && l.rules[r].enabled && l.rules[r].condition.sensorId == e.sensorId
    requires l.rules[r].lastTriggeredAt.None? && RuleMatchOf(e.eventId, r) !in l.audits
    ensures var c, fired := l.rules[r].condition, RuleMatchOf(e.eventId, r) in ApplyRules(l, e, order, at).value.ledger.audits;
      && (c.unit != e.unit ==> !fired)
      && (c.operator !in ["gt", "gte", "lt", "lte", "eq"] ==> !fired)
      && (c.operator == "eq" && c.unit == e.unit ==> (fired <==> e.value == c.value))
      && (c.operator != "eq" && !(e.value.Number? && c.value.Number?) ==> !fired)
      && (c.unit == e.unit && e.value.Number? && c.value.Number? ==>
            && (c.operator == "gt" ==> (fired <==> e.value.n > c.value.n))
            && (c.operator == "gte" ==> (fired <==> e.value.n >= c.value.n))
            && (c.operator == "lt" ==> (fired <==> e.value.n < c.value.n))
            && (c.operator == "lte" ==> (fired <==> e.value.n <= c.value.n)))
  {
    RecordsExactlyTheDue(l, e, order, at, r);
  }

  // ---- What a match writes ---------------------------------------------------------------------------

  /** The correlation of a reading, its own id if it brings none. */
  function Thread(e: Telemetry): string {
    if e.correlationId.None? then e.eventId else e.correlationId.value
  }

  function Recorded(e: Telemetry): Reading {
    Reading(e.eventId, e.sensorId, e.kind, e.value, e.unit, e.measuredAt, if e.source.None? then "mqtt" else e.source.value)
  }

  /** The command a match of the rule creates. */
  function Ordered(e: Telemetry, r: string, action: Action, at: Time): Command {
    Command(RuleCommand(e.eventId, r), action.deviceId, action.command, action.value, "rule-engine", at,
      Some(Causation(Thread(e), r, RuleEventOf(e.eventId, r), e.eventId)))
  }

  /** All that one match leaves in the tables: the rule's clock, the audit row, the command,
      and those of its two events whose ids were free. */
  predicate Written(l: Ledger, t: Ledger, e: Telemetry, r: string, at: Time)
    requires r in l.rules
  {
    var rule, k, p, c := l.rules[r], RuleEventOf(e.eventId, r), PendingOf(RuleCommand(e.eventId, r)), RuleCommand(e.eventId, r);
    && r in t.rules && t.rules[r] == rule.(lastTriggeredAt := Some(at))
    && RuleMatchOf(e.eventId, r) in t.audits
    && t.audits[RuleMatchOf(e.eventId, r)] ==
         Audit("rule.matched", at, Some(Thread(e)), MatchAudit(r, rule.condition, rule.action, e, k, c))
    && c in t.core.rows
    && (c !in l.core.rows ==>
         t.core.rows[c] == Row(rule.action.deviceId, Ordered(e, r, rule.action, at), Pending, at, 0,
                               None, None, None, None, None, None, None, None, None))
    && (k in t.core.events && k !in l.core.events ==>
         t.core.events[k] == Event(RuleMatched, r, MatchBody(r, rule.condition, rule.action, Recorded(e), Thread(e)), at))
    && (p in t.core.events && p !in l.core.events ==>
         t.core.events[p] == Event(CommandPending, rule.action.deviceId, PendingBody(Ordered(e, r, rule.action, at)), at))
  }

  lemma FireWrites(l: Ledger, e: Telemetry, r: string, at: Time)
    requires r in l.rules && RuleMatchOf(e.eventId, r) !in l.audits
    ensures Written(l, Fire(l, e, r, at), e, r, at)
  {
  }

  /** The same traces of a match in both tables. */
  predicate SameTraces(l: Ledger, t: Ledger, e: string, r: string) {
    var k, p, c := RuleEventOf(e, r), PendingOf(RuleCommand(e, r)), RuleCommand(e, r);
    && (r in l.rules <==> r in t.rules) && (r in l.rules ==> t.rules[r] == l.rules[r])
    && (RuleMatchOf(e, r) in l.audits <==> RuleMatchOf(e, r) in t.audits)
    && (RuleMatchOf(e, r) in l.audits ==> t.audits[RuleMatchOf(e, r)] == l.audits[RuleMatchOf(e, r)])
    && (c in l.core.rows <==> c in t.core.rows) && (c in l.core.rows ==> t.core.rows[c] == l.core.rows[c])
    && (k in l.core.events <==> k in t.core.events) && (k in l.core.events ==> t.core.events[k] == l.core.events[k])
    && (p in l.core.events <==> p in t.core.events) && (p in l.core.events ==> t.core.events[p] == l.core.events[p])
  }

  lemma FireKeepsTraces(l: Ledger, e: Telemetry, o: string, r: string, at: Time)
    requires o in l.rules && r != o
    ensures SameTraces(l, Fire(l, e, o, at), e.eventId, r)
  {
  }

  lemma SameThrough(l: Ledger, m: Ledger, t: Ledger, e: string, r: string)
    requires SameTraces(l, m, e, r) && SameTraces(m, t, e, r)
    ensures SameTraces(l, t, e, r)
  {
  }

  lemma WrittenThrough(l: Ledger, m: Ledger, t: Ledger, e: Telemetry, r: string, at: Time)
    requires r in l.rules && r in m.rules
    ensures Written(l, m, e, r, at) && SameTraces(m, t, e.eventId, r) ==> Written(l, t, e, r, at)
    ensures SameTraces(l, m, e.eventId, r) && Written(m, t, e, r, at) ==> Written(l, t, e, r, at)
  {
  }

  /** Another rule fires. */
  lemma OtherFires(l: Ledger, e: Telemetry, o: string, r: string, at: Time, t: Ledger)
    requires o in l.rules && r != o && t == Fire(l, e, o, at)
    ensures SameTraces(l, t, e.eventId, r) && t.rules.Keys == l.rules.Keys
    ensures r in l.rules ==> Skipped(t, e, r, at) == Skipped(l, e, r, at)
  {
    FireKeepsTraces(l, e, o, r, at);
    if r in l.rules {
      FireLeavesOthers(l, e, o, r, at);
    }
  }

  lemma {:induction false} PassKeepsTraces(p: Pass, e: Telemetry, order: seq<string>, at: Time, r: string)
    requires (forall o :: o in order ==> o in p.ledger.rules) && PassRules(p, e, order, at).Ok?
    requires r in order ==> r in p.ledger.rules && Skipped(p.ledger, e, r, at)
    ensures SameTraces(p.ledger, PassRules(p, e, order, at).value.ledger, e.eventId, r)
    decreases |order|
  {
    if order != [] {
      var o, rest := order[0], order[1..];
      assert order == [o] + rest;
      if Skipped(p.ledger, e, o, at) {
        PassKeepsTraces(p, e, rest, at, r);
      } else {
        var next := Pass(Fire(p.ledger, e, o, at), p.matched + [o]);
        OtherFires(p.ledger, e, o, r, at, next.ledger);
        PassKeepsTraces(next, e, rest, at, r);
        SameThrough(p.ledger, next.ledger, PassRules(next, e, rest, at).value.ledger, e.eventId, r);
      }
    }
  }

  lemma {:induction false} PassWritesTraces(p: Pass, e: Telemetry, order: seq<string>, at: Time, r: string)
    requires Distinct(order) && (forall o :: o in order ==> o in p.ledger.rules) && PassRules(p, e, order, at).Ok?
    requires r in order && !Skipped(p.ledger, e, r, at)
    ensures Written(p.ledger, PassRules(p, e, order, at).value.ledger, e, r, at)
    decreases |order|
  {
    var o, rest := order[0], order[1..];
    assert order == [o] + rest;
    if Skipped(p.ledger, e, o, at) {
      PassWritesTraces(p, e, rest, at, r);
    } else {
      var next := Pass(Fire(p.ledger, e, o, at), p.matched + [o]);
      var end := PassRules(next, e, rest, at).value.ledger;
      if o == r {
        FireWrites(p.ledger, e, r, at);
        PassKeepsTraces(next, e, rest, at, r);
      } else {
        OtherFires(p.ledger, e, o, r, at, next.ledger);
        PassWritesTraces(next, e, rest, at, r);
      }
      WrittenThrough(p.ledger, next.ledger, end, e, r, at);
    }
  }

  /** A committed pass writes the traces of exactly the rules that are due and not yet applied;
      of every other rule it leaves the row, and whatever there is of a match, as it was. */
  lemma WritesOfAPass(l: Ledger, e: Telemetry, order: seq<string>, at: Time, r: string)
    requires RuleQuery(l.rules, e.sensorId, order) && (forall o :: o in order ==> o in l.rules) && ApplyRules(l, e, order, at).Ok?
    ensures var t := ApplyRules(l, e, order, at).value.ledger;
      if r in l.rules && RuleMatchOf(e.eventId, r) !in l.audits && Due(l.rules[r], e, at) then Written(l, t, e, r, at)
      else SameTraces(l, t, e.eventId, r)
  {
    SkippedIff(l, e, order, at, r);
    if r in order && !Skipped(l, e, r, at) {
      PassWritesTraces(Pass(l, []), e, order, at, r);
    } else {
      PassKeepsTraces(Pass(l, []), e, order, at, r);
    }
  }
}
