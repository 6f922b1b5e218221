/** Why did a device do that? The explanation the gateway assembles for an event it looks up
    by the text of its id, which commands have one, and when it lasts. */
module CausalTrace {
  import opened Prelude
  import opened Ids
  import opened Schema
  import opened Commands
  import opened Rules
  import opened Transactions
  import opened LedgerSafety

  datatype Support = Proven | Derived

  datatype EvidenceId = DeviceExecution | CommandFailure | TriggerReading | MatchedRuleEvidence

  datatype Label =
    | DeviceCommandEvent
    | DeviceCommandFailure | MqttOutboundFailure | AcknowledgementTimeout
    | TriggerSensorReading | MatchedRuleEvent

  datatype Phase = MqttPublish | DeviceAcknowledgement

  datatype StepKind = SensorStep | RuleStep | ExecutionStep

  datatype Missing = MatchedRuleMissing | TriggerReadingMissing

  /** A JSON member read as an object; one that is absent reads as an empty object. */
  datatype Object<T> = Empty | Has(value: T)

  datatype FailureReport = FailureReport(code: string, error: string, attempts: Option<nat>)

  /** Headings and detail texts, as what they are formatted from. */
  datatype Title = Title(deviceId: string, command: string, failed: bool)

  datatype Summary = Summary(complete: bool, deviceId: string, command: string, failure: Option<FailureReport>)

  datatype Detail =
    | Received(deviceId: string, command: string)
    | FailedDuring(command: string, phase: Phase)
    | Fault(error: string, attempts: Option<nat>)
    | Measured(reading: Object<Reading>)
    | Reported(sensorId: string, reading: Object<Reading>)
    | Compared(condition: Object<Condition>)
    | Configured(ruleId: string, deviceId: string, command: string)

  datatype Evidence = Evidence(id: EvidenceId, heading: Label, support: Support, detail: Detail, source: Option<EventKey>)

  datatype TraceStep = TraceStep(kind: StepKind, heading: string, detail: Detail, evidenceId: EvidenceId, support: Support)

  datatype MatchedRule = MatchedRule(ruleId: string, condition: Object<Condition>, action: Object<Action>, event: EventKey)

  datatype Trace =
    | UnknownEvent
    | NotExplainable(event: EventKey)
    | Explained(
        event: EventKey,
        complete: bool,
        title: Title,
        summary: Summary,
        missing: seq<Missing>,
        evidence: seq<Evidence>,
        steps: seq<TraceStep>,
        state: Option<DeviceState>,
        failure: Option<FailureReport>,
        reading: Option<Object<Reading>>,
        matched: Option<MatchedRule>)

  // ---- The pieces of an explanation ----------------------------------------------------------------

  /** select ... from workspace_event where event_id=... */
  ghost function Find(events: map<EventKey, Event>, id: string): (k: Option<EventKey>)
    ensures k.Some? ==> k.value in events && EventText(k.value) == id
    ensures k.None? ==> forall j :: j in events ==> EventText(j) != id
  {
    if exists j :: j in events && EventText(j) == id then
      var j :| j in events && EventText(j) == id;
      Some(j)
    else None
  }

  function TextOf(t: Option<string>): string {
    if t.Some? then t.value else ""
  }

  function DeviceOf(selected: Event): string {
    if selected.body.TerminalBody? then selected.body.command.deviceId else ""
  }

  function NameOf(selected: Event): string {
    if selected.body.TerminalBody? then selected.body.command.name else ""
  }

  function StateOf(selected: Event): Option<DeviceState> {
    if selected.body.TerminalBody? then selected.body.result.state else None
  }

  function ReportOf(selected: Event): FailureReport {
    if selected.body.TerminalBody? then
      var r := selected.body.result;
      FailureReport(if TextOf(r.failureCode) == "" then "device.command.rejected" else TextOf(r.failureCode), TextOf(r.error), r.publishAttempts)
    else FailureReport("device.command.rejected", "", None)
  }

  function FailureLabel(code: string): Label {
    if code == "mqtt.publish.exhausted" then MqttOutboundFailure
    else if code == "device.ack.timeout" then AcknowledgementTimeout
    else DeviceCommandFailure
  }

  function FailurePhase(code: string): Phase {
    if code == "mqtt.publish.exhausted" then MqttPublish else DeviceAcknowledgement
  }

  function ReadingObject(e: Event): Object<Reading> {
    if e.body.MatchBody? then Has(e.body.trigger) else Empty
  }

  function SensorOf(reading: Object<Reading>): string {
    if reading.Has? then reading.value.sensorId else ""
  }

  function RuleObject(k: EventKey, e: Event): MatchedRule {
    if e.body.MatchBody? then MatchedRule(e.body.ruleId, Has(e.body.condition), Has(e.body.action), k)
    else MatchedRule("", Empty, Empty, k)
  }

  function ExecutionDetail(selected: Event): Detail {
    if selected.kind == CommandFailed then FailedDuring(NameOf(selected), FailurePhase(ReportOf(selected).code))
    else Received(DeviceOf(selected), NameOf(selected))
  }

  function FailureOf(selected: Event): Option<FailureReport> {
    if selected.kind == CommandFailed then Some(ReportOf(selected)) else None
  }

  function TitleOf(selected: Event): Title {
    Title(DeviceOf(selected), NameOf(selected), selected.kind == CommandFailed)
  }

  function SummaryOf(selected: Event, complete: bool): Summary {
    Summary(complete, DeviceOf(selected), NameOf(selected), FailureOf(selected))
  }

  function ExecutionEvidence(k: EventKey, selected: Event): seq<Evidence> {
    [Evidence(DeviceExecution, DeviceCommandEvent, Proven, Received(DeviceOf(selected), NameOf(selected)), Some(k))]
    + if selected.kind == CommandFailed then
        var report := ReportOf(selected);
        [Evidence(CommandFailure, FailureLabel(report.code), Proven, Fault(report.error, report.attempts), Some(k))]
      else []
  }

  function LastStep(selected: Event): TraceStep {
    TraceStep(ExecutionStep, DeviceOf(selected), ExecutionDetail(selected), DeviceExecution, Proven)
  }

  // ---- What an explanation is ----------------------------------------------------------------------

  /** The event the command names as its cause, if one is stored under that id. */
  ghost function CauseOf(events: map<EventKey, Event>, selected: Event): (k: Option<EventKey>)
    ensures k.Some? ==> k.value in events
  {
    if selected.body.TerminalBody? && selected.body.command.causation.Some?
    then Find(events, EventText(selected.body.command.causation.value.ruleEvent))
    else None
  }

  function Partial(k: EventKey, selected: Event): Trace {
    Explained(k, false, TitleOf(selected), SummaryOf(selected, false), [MatchedRuleMissing, TriggerReadingMissing],
      ExecutionEvidence(k, selected), [LastStep(selected)],
      StateOf(selected), FailureOf(selected), None, None)
  }

  function Complete(k: EventKey, selected: Event, cause: EventKey, event: Event): Trace {
    var reading, rule := ReadingObject(event), RuleObject(cause, event);
    Explained(k, true, TitleOf(selected), SummaryOf(selected, true), [],
      ExecutionEvidence(k, selected)
        + [Evidence(TriggerReading, TriggerSensorReading, Proven, Reported(SensorOf(reading), reading), None),
           Evidence(MatchedRuleEvidence, MatchedRuleEvent, Proven, Configured(rule.ruleId, DeviceOf(selected), NameOf(selected)), Some(cause))],
      [TraceStep(SensorStep, SensorOf(reading), Measured(reading), TriggerReading, Proven),
       TraceStep(RuleStep, rule.ruleId, Compared(rule.condition), MatchedRuleEvidence, Proven),
       LastStep(selected)],
      StateOf(selected), FailureOf(selected), Some(reading), Some(rule))
  }

  ghost function Explain(events: map<EventKey, Event>, id: string): Trace {
    match Find(events, id)
    case None => UnknownEvent
    case Some(k) =>
      var selected := events[k];
      if selected.kind != CommandSucceeded && selected.kind != CommandFailed then NotExplainable(k)
      else
        match CauseOf(events, selected)
        case None => Partial(k, selected)
        case Some(cause) => Complete(k, selected, cause, events[cause])
  }

  // ---- How the gateway assembles it -------------------------------------------------------------------

  lemma FindStored(events: map<EventKey, Event>, k: EventKey)
    requires UniqueIds(events) && k in events
    ensures Find(events, EventText(k)) == Some(k)
  {
  }

  method GetWorkspaceEvent(events: map<EventKey, Event>, id: string) returns (k: Option<EventKey>)
    requires UniqueIds(events)
    ensures k == Find(events, id)
  {
    if j :| j in events && EventText(j) == id {
      FindStored(events, j);
      return Some(j);
    }
    return None;
  }

  method Assemble(events: map<EventKey, Event>, id: string) returns (trace: Trace)
    requires UniqueIds(events)
    ensures trace == Explain(events, id)
  {
    var found := GetWorkspaceEvent(events, id);
    if found.None? {
      return UnknownEvent;
    }
    var k := found.value;
    var selected := events[k];
    if selected.kind != CommandSucceeded && selected.kind != CommandFailed {
      return NotExplainable(k);
    }
    var ruleEvent: Option<EventKey> := None;
    var reading: Option<Object<Reading>> := None;
    var missing: seq<Missing> := [];
    var proof := Derived;
    if selected.body.TerminalBody? && selected.body.command.causation.Some? {
      ruleEvent := GetWorkspaceEvent(events, EventText(selected.body.command.causation.value.ruleEvent));
      if ruleEvent.Some? {
        reading := Some(ReadingObject(events[ruleEvent.value]));
        proof := Proven;
      }
    }
    if ruleEvent.None? {
      missing := missing + [MatchedRuleMissing];
    }
    if reading.None? {
      missing := missing + [TriggerReadingMissing];
    }
    var device, command, report := DeviceOf(selected), NameOf(selected), ReportOf(selected);
    var executionDetail := Received(device, command);
    var evidence := [Evidence(DeviceExecution, DeviceCommandEvent, Proven, executionDetail, Some(k))];
    var failure: Option<FailureReport> := None;
    if selected.kind == CommandFailed {
      evidence := evidence + [Evidence(CommandFailure, FailureLabel(report.code), Proven, Fault(report.error, report.attempts), Some(k))];
      executionDetail := FailedDuring(command, FailurePhase(report.code));
      failure := Some(report);
    }
    var steps: seq<TraceStep> := [];
    if reading.Some? {
      var sensor := SensorOf(reading.value);
      evidence := evidence + [Evidence(TriggerReading, TriggerSensorReading, proof, Reported(sensor, reading.value), None)];
      steps := steps + [TraceStep(SensorStep, sensor, Measured(reading.value), TriggerReading, proof)];
    }
    var matched: Option<MatchedRule> := None;
    if ruleEvent.Some? {
      var rule := RuleObject(ruleEvent.value, events[ruleEvent.value]);
      evidence := evidence + [Evidence(MatchedRuleEvidence, MatchedRuleEvent, proof, Configured(rule.ruleId, device, command), ruleEvent)];
      steps := steps + [TraceStep(RuleStep, rule.ruleId, Compared(rule.condition), MatchedRuleEvidence, proof)];
      matched := Some(rule);
    }
    steps := steps + [TraceStep(ExecutionStep, device, executionDetail, DeviceExecution, Proven)];
    var complete := |missing| == 0;
    trace := Explained(k, complete, TitleOf(selected), SummaryOf(selected, complete), missing, evidence, steps,
      StateOf(selected), failure, reading, matched);
  }

  // ---- What an explanation shows ----------------------------------------------------------------------

  /** Every step of an explanation cites evidence that is listed with it. */
  lemma StepsCiteEvidence(events: map<EventKey, Event>, id: string, i: nat)
    requires Explain(events, id).Explained? && i < |Explain(events, id).steps|
    ensures var t := Explain(events, id); exists j :: 0 <= j < |t.evidence| && t.evidence[j].id == t.steps[i].evidenceId
  {
    var t := Explain(events, id);
    assert t.evidence[0].id == DeviceExecution;
    if t.complete {
      var n := |t.evidence|;
      assert t.evidence[n - 2].id == TriggerReading && t.evidence[n - 1].id == MatchedRuleEvidence;
    }
  }

  /** The code of a failure, what kind of failure that is, and when it happened: only the two
      codes a gateway reports have a meaning of their own. */
  predicate FailureTold(r: CommandResult, report: FailureReport, heading: Label, phase: Phase) {
    && report.error == (if r.error.Some? then r.error.value else "") && report.attempts == r.publishAttempts
    && report.code == (if r.failureCode in [None, Some("")] then "device.command.rejected" else r.failureCode.value)
    && (heading == MqttOutboundFailure <==> r.failureCode == Some("mqtt.publish.exhausted"))
    && (heading == AcknowledgementTimeout <==> r.failureCode == Some("device.ack.timeout"))
    && heading in [MqttOutboundFailure, AcknowledgementTimeout, DeviceCommandFailure]
    && (phase == MqttPublish <==> r.failureCode == Some("mqtt.publish.exhausted"))
  }

  /** An explanation repeats what the terminal event says: the device, the command and the
      state it reached, and of a failure its code, error, attempts, kind and phase. */
  lemma ExplanationTells(events: map<EventKey, Event>, id: string)
    requires var x := Explain(events, id);
      x.Explained? && events[x.event].body.TerminalBody?
    ensures var x := Explain(events, id);
      var c, r, failed := events[x.event].body.command, events[x.event].body.result, events[x.event].kind == CommandFailed;
      && EventText(x.event) == id && (failed || events[x.event].kind == CommandSucceeded)
      && x.title == Title(c.deviceId, c.name, failed) && x.state == r.state
      && x.summary == Summary(x.complete, c.deviceId, c.name, x.failure) && (x.failure.Some? <==> failed)
      && x.evidence != [] && x.evidence[0] == Evidence(DeviceExecution, DeviceCommandEvent, Proven, Received(c.deviceId, c.name), Some(x.event))
      && x.steps != []
      && (var last := x.steps[|x.steps| - 1];
          && last.kind == ExecutionStep && last.heading == c.deviceId && last.evidenceId == DeviceExecution && last.support == Proven
          && if failed then
               && |x.evidence| >= 2 && last.detail.FailedDuring? && last.detail.command == c.name
               && x.evidence[1] == Evidence(CommandFailure, x.evidence[1].heading, Proven, Fault(x.failure.value.error, r.publishAttempts), Some(x.event))
               && FailureTold(r, x.failure.value, x.evidence[1].heading, last.detail.phase)
             else last.detail == Received(c.deviceId, c.name))
  {
  }

  /** A complete explanation of a stored match repeats the match: reading, rule, condition and
      action, each with the evidence for it, before the command's own step. */
  lemma CompleteTells(events: map<EventKey, Event>, id: string)
    requires var x := Explain(events, id);
      x.Explained? && x.complete && x.matched.Some? && x.matched.value.event in events && events[x.matched.value.event].body.MatchBody?
    requires events[Explain(events, id).event].body.TerminalBody?
    ensures var x := Explain(events, id);
      var k, c, n := x.matched.value.event, events[x.event].body.command, |x.evidence|;
      var b := events[k].body;
      && c.causation.Some? && EventText(k) == EventText(c.causation.value.ruleEvent)
      && x.reading == Some(Has(b.trigger)) && x.matched == Some(MatchedRule(b.ruleId, Has(b.condition), Has(b.action), k))
      && n >= 2 && |x.steps| == 3
      && x.evidence[n - 2] == Evidence(TriggerReading, TriggerSensorReading, Proven, Reported(b.trigger.sensorId, Has(b.trigger)), None)
      && x.evidence[n - 1] == Evidence(MatchedRuleEvidence, MatchedRuleEvent, Proven, Configured(b.ruleId, c.deviceId, c.name), Some(k))
      && x.steps[0] == TraceStep(SensorStep, b.trigger.sensorId, Measured(Has(b.trigger)), TriggerReading, Proven)
      && x.steps[1] == TraceStep(RuleStep, b.ruleId, Compared(Has(b.condition)), MatchedRuleEvidence, Proven)
  {
  }

  /** The explanation names the event and the rule, and the reading it records satisfies the
      condition it records. */
  predicate NamesMatch(x: Trace, e: string, r: string) {
    && x.Explained? && x.complete && x.missing == []
    && x.reading.Some? && x.reading.value.Has? && x.matched.Some? && x.matched.value.condition.Has?
    && x.reading.value.value.eventId == e && x.matched.value.ruleId == r
    && x.reading.value.value.sensorId == x.matched.value.condition.value.sensorId
    && Satisfies(x.reading.value.value.unit, x.reading.value.value.value, x.matched.value.condition.value)
  }

  /** What is stored under the id of a derived event is that event, or a reading. */
  lemma StoredUnder(w: World, k: EventKey)
    requires Reachable(w) && IsDerived(k) && WellFormedKey(k)
    ensures var events, found := w.ledger.core.events, Find(w.ledger.core.events, EventText(k));
      && UniqueIds(events)
      && (k in events ==> found == Some(k))
      && (k !in events && found.Some? ==> found.value.ReadingOf? && events[found.value].kind == SensorReading
                                           && events[found.value].body.ReadingBody?)
  {
    ReachableInv(w);
    var events := w.ledger.core.events;
    if k in events {
      FindStored(events, k);
    } else if Find(events, EventText(k)).Some? {
      var j := Find(events, EventText(k)).value;
      if IsDerived(j) {
        DerivedTextInjective(j, k);
      }
    }
  }

  lemma CommandStory(w: World, c: CommandId)
    requires Reachable(w) && TerminalOf(c) in w.ledger.core.events
    ensures WellFormedCommand(c) && c in w.ledger.core.rows
    ensures IsTerminalEvent(w.ledger.core.events[TerminalOf(c)], w.ledger.core.rows[c].payload)
    ensures c.UserCommand? ==> w.ledger.core.rows[c].payload.causation.None?
    ensures c.RuleCommand? ==> CausedBy(w.ledger.core.rows[c].payload, c.eventId, c.ruleId)
    ensures c.RuleCommand? ==> RuleMatchOf(c.eventId, c.ruleId) in w.ledger.audits
  {
    ReachableInv(w);
  }

  /** A command has an explanation exactly while its terminal event is stored: before it is
      settled there is none, nor ever if a sensor's reading stands under its id. */
  lemma ExplainedIffStored(w: World, c: CommandId)
    requires Reachable(w) && WellFormedCommand(c)
    ensures Explain(w.ledger.core.events, CommandText(c)).Explained? <==> TerminalOf(c) in w.ledger.core.events
    ensures TerminalOf(c) in w.ledger.core.events ==> Explain(w.ledger.core.events, CommandText(c)).event == TerminalOf(c)
  {
    StoredUnder(w, TerminalOf(c));
    if TerminalOf(c) in w.ledger.core.events {
      CommandStory(w, c);
    }
  }

  /** Which event the explanation of a settled rule command is made from. */
  lemma ExplainedFrom(w: World, e: string, r: string)
    requires Reachable(w) && TerminalOf(RuleCommand(e, r)) in w.ledger.core.events
    ensures var events, k := w.ledger.core.events, TerminalOf(RuleCommand(e, r));
      Explain(events, EventText(k)) ==
        match Find(events, EventText(RuleEventOf(e, r)))
        case None => Partial(k, events[k])
        case Some(cause) => Complete(k, events[k], cause, events[cause])
  {
    CommandStory(w, RuleCommand(e, r));
    StoredUnder(w, TerminalOf(RuleCommand(e, r)));
  }

  lemma StoryOfMatch(w: World, e: string, r: string)
    requires Reachable(w) && RuleEventOf(e, r) in w.ledger.core.events
    ensures RuleCommand(e, r) in w.ledger.core.rows
    ensures Explains(w.ledger.core.events[RuleEventOf(e, r)], w.ledger.core.rows[RuleCommand(e, r)].payload, e, r)
  {
    ReachableInv(w);
  }

  lemma StoryNamesMatch(k: EventKey, selected: Event, cause: EventKey, event: Event, payload: Command, e: string, r: string)
    ensures Explains(event, payload, e, r) ==> NamesMatch(Complete(k, selected, cause, event), e, r)
    ensures !event.body.MatchBody? ==> !NamesMatch(Complete(k, selected, cause, event), e, r)
    ensures !NamesMatch(Partial(k, selected), e, r)
  {
  }

  lemma NamesMatchIffStored(w: World, e: string, r: string)
    requires Reachable(w) && TerminalOf(RuleCommand(e, r)) in w.ledger.core.events
    ensures NamesMatch(Explain(w.ledger.core.events, CommandText(RuleCommand(e, r))), e, r)
            <==> RuleEventOf(e, r) in w.ledger.core.events
  {
    var events, k, q := w.ledger.core.events, TerminalOf(RuleCommand(e, r)), RuleEventOf(e, r);
    CommandStory(w, RuleCommand(e, r));
    ExplainedFrom(w, e, r);
    StoredUnder(w, q);
    var payload := w.ledger.core.rows[RuleCommand(e, r)].payload;
    var cause := Find(events, EventText(q));
    StoryNamesMatch(k, events[k], if cause.Some? then cause.value else k, events[if cause.Some? then cause.value else k], payload, e, r);
    if q in events {
      StoryOfMatch(w, e, r);
    }
  }

  lemma NotShadowedIffStored(w: World, e: string, r: string)
    requires Reachable(w) && RuleMatchOf(e, r) in w.ledger.audits
    ensures RuleEventOf(e, r) in w.ledger.core.events <==> RuleEventOf(e, r) !in w.ledger.core.shadowed
    ensures RuleEventOf(e, r) in w.ledger.core.events || EventText(RuleEventOf(e, r)) in w.ledger.tombstones
  {
    ReachableInv(w);
    assert Traced(w.ledger.core.events, w.ledger.core.shadowed, RuleEventOf(e, r), RuleMatchOf(e, r) in w.ledger.audits);
  }

  lemma ReachesOn(w: World, steps: seq<Step>, t: World)
    requires Reachable(w) && RunFrom(w, steps, t)
    ensures Reachable(t)
  {
    var w0, a :| Init(w0) && RunFrom(w0, a, w);
    JoinRuns(w0, a, w, steps, t);
  }

  lemma {:induction false} JoinRuns(w: World, a: seq<Step>, u: World, b: seq<Step>, t: World)
    requires RunFrom(w, a, u) && RunFrom(u, b, t)
    ensures RunFrom(w, a + b, t)
    decreases |a|
  {
    if a == [] {
      assert a + b == b;
    } else {
      JoinRuns(After(w, a[0]), a[1..], u, b, t);
      assert (a + b)[1..] == a[1..] + b;
    }
  }

  /** What a later state still has of a settled rule command. */
  lemma EvidenceStays(w: World, steps: seq<Step>, t: World, e: string, r: string)
    requires Reachable(w) && RunFrom(w, steps, t)
    requires TerminalOf(RuleCommand(e, r)) in w.ledger.core.events
    ensures var p, q, a, b := TerminalOf(RuleCommand(e, r)), RuleEventOf(e, r), w.ledger.core.events, t.ledger.core.events;
      && Reachable(t) && WellFormedKey(q) && RuleMatchOf(e, r) in w.ledger.audits
      && p in b && b[p] == a[p] && (q in b <==> q in a) && (q in a ==> b[q] == a[q])
  {
    ReachesOn(w, steps, t);
    ReachableInv(w);
    RunKeeps(w, steps, t);
    CommandStory(w, RuleCommand(e, r));
  }

  lemma SameExplanation(w: World, t: World, e: string, r: string)
    requires Reachable(w) && Reachable(t)
    requires var p, q, a, b := TerminalOf(RuleCommand(e, r)), RuleEventOf(e, r), w.ledger.core.events, t.ledger.core.events;
      p in a && p in b && b[p] == a[p] && q in a && q in b && b[q] == a[q] && WellFormedKey(q)
    ensures Explain(t.ledger.core.events, CommandText(RuleCommand(e, r))) == Explain(w.ledger.core.events, CommandText(RuleCommand(e, r)))
  {
    ExplainedFrom(w, e, r);
    ExplainedFrom(t, e, r);
    StoredUnder(w, RuleEventOf(e, r));
    StoredUnder(t, RuleEventOf(e, r));
  }

  /** From the moment a rule's command is settled, and after any later run including any number
      of cleanups, its explanation names the event and the rule that caused the command, with a
      reading that satisfies the condition, exactly if the rule event was stored with its match;
      and then it never changes. Only an id that a sensor used for a reading keeps it out. */
  lemma RuleExplanationNeverDecays(w: World, steps: seq<Step>, t: World, e: string, r: string)
    requires Reachable(w) && RunFrom(w, steps, t)
    requires TerminalOf(RuleCommand(e, r)) in w.ledger.core.events
    ensures var id := CommandText(RuleCommand(e, r));
            var x := Explain(t.ledger.core.events, id);
            && x.Explained?
            && (NamesMatch(x, e, r) <==> RuleEventOf(e, r) !in w.ledger.core.shadowed)
            && (NamesMatch(x, e, r) ==> x == Explain(w.ledger.core.events, id))
            && (!NamesMatch(x, e, r) ==> EventText(RuleEventOf(e, r)) in w.ledger.tombstones)
  {
    EvidenceStays(w, steps, t, e, r);
    NotShadowedIffStored(w, e, r);
    NamesMatchIffStored(t, e, r);
    ExplainedFrom(t, e, r);
    if RuleEventOf(e, r) in w.ledger.core.events {
      SameExplanation(w, t, e, r);
    }
  }

  /** A settled command's explanation is complete exactly if a rule issued it and something is
      stored under the id of its rule event; a user's command is never explained completely. */
  lemma CompleteIffFromRule(w: World, c: CommandId)
    requires Reachable(w) && TerminalOf(c) in w.ledger.core.events
    ensures var x := Explain(w.ledger.core.events, CommandText(c));
            && x.Explained?
            && (x.complete <==> c.RuleCommand? && Taken(w.ledger.core.events, RuleEventOf(c.eventId, c.ruleId)))
            && (c.UserCommand? ==> x.missing == [MatchedRuleMissing, TriggerReadingMissing])
            && (c.RuleCommand? && EventText(RuleEventOf(c.eventId, c.ruleId)) !in w.ledger.tombstones ==>
                  x.complete && NamesMatch(x, c.eventId, c.ruleId))
  {
    CommandStory(w, c);
    StoredUnder(w, TerminalOf(c));
    match c
    case UserCommand(n) =>
    case RuleCommand(e, r) =>
      ExplainedFrom(w, e, r);
      NamesMatchIffStored(w, e, r);
      NotShadowedIffStored(w, e, r);
  }
}
