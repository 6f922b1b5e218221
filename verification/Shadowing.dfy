/** Why telemetry ids should not be reserved: whatever event the services are going to derive,
    a sensor that uses its id first keeps it out of the table. Each lemma is a run of one of
    the machines. */
module Shadowing {
  import opened Prelude
  import opened Ids
  import opened Schema
  import opened Commands
  import opened Rules
  import T = Transactions
  import L = LedgerSafety
  import D = Dispatch
  import DS = DispatchSafety
  import A = Adapter
  import CT = CausalTrace
  import Sim = Simulator

  // ---- An event of a match ---------------------------------------------------------------------------

  /** The rule will fire on the event in a world with these devices and sensors. */
  predicate WillFire(l: T.Ledger, rule: T.Rule, e: T.Telemetry, at: Time) {
    && rule.enabled && rule.lastTriggeredAt.None?
    && rule.condition.sensorId == e.sensorId && Satisfies(e.unit, e.value, rule.condition)
    && T.Compatible(l.sensors, e)
    && rule.action.deviceId in l.core.devices && l.core.devices[rule.action.deviceId].enabled
    && ApplyAction(l.core.devices[rule.action.deviceId].kind, l.core.devices[rule.action.deviceId].state, rule.action, at).Ok?
  }

  lemma RunCons(w: L.World, step: L.Step, rest: seq<L.Step>, t: L.World)
    requires L.Enabled(w, step) && L.RunFrom(L.After(w, step), rest, t)
    ensures L.RunFrom(w, [step] + rest, t)
  {
    assert ([step] + rest)[1..] == rest;
  }

  /** A new rule, and a reading under an id of the sensor's choice. */
  lemma Prepared(w: L.World, r: string, rule: T.Rule, spoof: T.Telemetry, position: T.Position) returns (t: L.World)
    requires L.Init(w) && IsRuleId(r) && rule.lastTriggeredAt.None? && spoof.eventId != ""
    ensures forall rest, u :: L.RunFrom(t, rest, u) ==> L.RunFrom(w, [L.NewRule(r, rule)] + ([L.Insert(spoof, position)] + rest), u)
    ensures t.ledger.rules == map[r := rule] && t.ledger.audits == map[] && t.ledger.core.rows == map[]
    ensures t.ledger.core.events.Keys == {ReadingOf(spoof.eventId)}
    ensures t.ledger.sensors == w.ledger.sensors && t.ledger.core.devices == w.ledger.core.devices
    ensures t.past.fired == multiset{}
  {
    var u := L.After(w, L.NewRule(r, rule));
    t := L.After(u, L.Insert(spoof, position));
    forall rest, v | L.RunFrom(t, rest, v) ensures L.RunFrom(w, [L.NewRule(r, rule)] + ([L.Insert(spoof, position)] + rest), v) {
      RunCons(u, L.Insert(spoof, position), rest, v);
      RunCons(w, L.NewRule(r, rule), [L.Insert(spoof, position)] + rest, v);
    }
  }

  /** The pass fires the one rule there is. */
  lemma Passed(w: L.World, r: string, rule: T.Rule, e: T.Telemetry, at: Time)
    requires w.ledger.rules == map[r := rule] && WillFire(w.ledger, rule, e, at) && w.ledger.audits == map[] && e.eventId != ""
    ensures L.Enabled(w, L.RulePass(e, [r], at))
    ensures L.After(w, L.RulePass(e, [r], at)).ledger == T.Fire(w.ledger, e, r, at)
    ensures L.After(w, L.RulePass(e, [r], at)).past.fired == w.past.fired + multiset{(e.eventId, r)}
  {
    MatchesIffSatisfies(rule.condition, e.unit, e.value);
    assert [r][1..] == [] && Elements([r]) == {r} == T.Applicable(w.ledger.rules, e.sensorId);
    assert T.PassRules(T.Pass(w.ledger, []), e, [r], at).Ok?;
    assert L.AfterRules(w, e, [r], at) == L.AfterFire(w, e, r, at);
  }

  /** Of the two events of a match, the one whose id is taken is lost and the other is not. */
  lemma FireShadowed(l: T.Ledger, e: T.Telemetry, r: string, at: Time, k: EventKey)
    requires r in l.rules && e.eventId != "" && IsRuleId(r)
    requires k == RuleEventOf(e.eventId, r) || k == PendingOf(RuleCommand(e.eventId, r))
    requires l.core.events.Keys == {ReadingOf(EventText(k))} && l.core.rows == map[] && l.audits == map[]
    ensures var t := T.Fire(l, e, r, at);
      && k !in t.core.events
      && (forall j :: (j == RuleEventOf(e.eventId, r) || j == PendingOf(RuleCommand(e.eventId, r))) && j != k ==> j in t.core.events)
      && RuleMatchOf(e.eventId, r) in t.audits && RuleCommand(e.eventId, r) in t.core.rows
  {
    DerivedTextInjective(RuleEventOf(e.eventId, r), PendingOf(RuleCommand(e.eventId, r)));
    assert ReadingOf(EventText(k)) in l.core.events;
  }

  /** For every event, every rule that would fire on it, and either event a match writes: if a
      sensor uses that event's id first, the match leaves its audit row, its command and its
      other event, but not this one. */
  lemma MatchEventKeptOut(w: L.World, r: string, rule: T.Rule, e: T.Telemetry, at: Time, k: EventKey, spoof: T.Telemetry, position: T.Position)
    returns (steps: seq<L.Step>, t: L.World)
    requires L.Init(w) && IsRuleId(r) && e.eventId != "" && WillFire(w.ledger, rule, e, at)
    requires k == RuleEventOf(e.eventId, r) || k == PendingOf(RuleCommand(e.eventId, r))
    requires spoof.eventId == EventText(k)
    ensures L.RunFrom(w, steps, t)
    ensures t.past.fired[(e.eventId, r)] == 1
    ensures RuleMatchOf(e.eventId, r) in t.ledger.audits && RuleCommand(e.eventId, r) in t.ledger.core.rows
    ensures k !in t.ledger.core.events
    ensures forall j :: (j == RuleEventOf(e.eventId, r) || j == PendingOf(RuleCommand(e.eventId, r))) && j != k ==> j in t.ledger.core.events
  {
    DerivedIsReserved(k);
    assert spoof.eventId != "" by {
      assert LastColon(spoof.eventId) >= 0;
    }
    var u := Prepared(w, r, rule, spoof, position);
    Passed(u, r, rule, e, at);
    FireShadowed(u.ledger, e, r, at, k);
    var pass := L.RulePass(e, [r], at);
    t := L.After(u, pass);
    assert L.RunFrom(t, [], t);
    RunCons(u, pass, [], t);
    steps := [L.NewRule(r, rule)] + ([L.Insert(spoof, position)] + ([pass] + []));
  }

  // ---- The terminal event of a command -------------------------------------------------------------------

  ghost predicate Goes(cfg: Config, s: D.System, t: D.System) {
    exists steps :: D.RunFrom(cfg, s, steps, t)
  }

  lemma GoesOn(cfg: Config, s: D.System, t: D.System, step: D.Step)
    requires Goes(cfg, s, t) && D.Enabled(cfg, t, step)
    ensures Goes(cfg, s, D.After(cfg, t, step))
  {
    var steps :| D.RunFrom(cfg, s, steps, t);
    A.RunAppend(cfg, s, steps, t, step);
  }

  /** The one command there is, with a reading stored under its id. */
  ghost predicate Occupied(s: D.System, c: CommandId) {
    && s.db.rows.Keys == {c}
    && ReadingOf(CommandText(c)) in s.db.events && s.db.events[ReadingOf(CommandText(c))].kind == SensorReading
    && TerminalOf(c) !in s.db.events
  }

  /** The device runs and has seen no command, and nothing is under way. */
  predicate Quiet(s: D.System) {
    s.device == Sim.Boot() && s.broker == {} && s.acks == {} && s.log == []
  }

  lemma CommandStored(cfg: Config, s: D.System, payload: Command, reading: Event, at: Time) returns (t: D.System)
    requires D.Init(s) && s.db.events == map[] && reading.kind == SensorReading
    requires payload.deviceId in s.db.devices && WellFormedCommand(payload.commandId)
    ensures Goes(cfg, s, t) && Occupied(t, payload.commandId) && Quiet(t) && t.gateways == map[] && t.past.claims == multiset{}
    ensures t.db.rows[payload.commandId] == NewRow(payload.deviceId, payload, at)
  {
    var events: map<EventKey, Event> := map[ReadingOf(CommandText(payload.commandId)) := reading];
    assert D.RunFrom(cfg, s, [], s);
    GoesOn(cfg, s, s, D.Ambient(events, {}));
    var u := D.After(cfg, s, D.Ambient(events, {}));
    GoesOn(cfg, s, u, D.Create(payload, at));
    t := D.After(cfg, u, D.Create(payload, at));
  }

  lemma Started(cfg: Config, s: D.System, t: D.System, g: Owner) returns (u: D.System)
    requires Goes(cfg, s, t)
    ensures Goes(cfg, s, u) && u.db == t.db && u.past == t.past && u.now == t.now
    ensures g in u.gateways && u.gateways[g] == D.IDLE && (Quiet(t) ==> Quiet(u))
  {
    GoesOn(cfg, s, t, D.Start(g));
    u := D.After(cfg, t, D.Start(g));
  }

  /** A stage with nothing to claim. */
  lemma EmptyStage(cfg: Config, s: D.System, t: D.System, g: Owner) returns (u: D.System)
    requires Goes(cfg, s, t) && g in t.gateways && t.gateways[g].batch == [] && !t.gateways[g].claimed && !t.gateways[g].stage.DispatchStage?
    requires Eligible(cfg, t.gateways[g].stage, t.db.rows, t.now) == {}
    ensures Goes(cfg, s, u) && u.db == t.db && u.now == t.now && (Quiet(t) ==> Quiet(u))
    ensures g in u.gateways && u.gateways[g] == t.gateways[g].(stage := NextStage(t.gateways[g].stage), outcome := Unsent)
  {
    var stage := t.gateways[g].stage;
    assert Elements<CommandId>([]) == {} && Eligible(cfg, stage, t.db.rows, t.now) - {} == {};
    var claim := D.ClaimUnseen(g, {}, []);
    GoesOn(cfg, s, t, claim);
    var v := D.After(cfg, t, claim);
    assert ClaimRows(cfg, stage, t.db.rows, {}, g, t.now) == t.db.rows;
    GoesOn(cfg, s, v, D.EndBatch(g));
    u := D.After(cfg, v, D.EndBatch(g));
  }

  lemma Claimed(cfg: Config, s: D.System, t: D.System, g: Owner, c: CommandId) returns (u: D.System)
    requires Goes(cfg, s, t) && Occupied(t, c) && Quiet(t) && t.db.rows[c].status.Pending?
    requires g in t.gateways && t.gateways[g].batch == [] && !t.gateways[g].claimed && t.gateways[g].stage.DispatchStage?
    ensures Goes(cfg, s, u) && Occupied(u, c) && Quiet(u) && u.db.rows[c].status.Publishing?
    ensures u.db.rows[c].payload == t.db.rows[c].payload && u.db.rows[c].deviceId == t.db.rows[c].deviceId
    ensures D.Working(u, g) && u.gateways[g].stage.DispatchStage? && u.gateways[g].outcome == Unsent
    ensures u.gateways[g].batch[0].item.payload == t.db.rows[c].payload
  {
    assert Elements([c]) == {c} == Eligible(cfg, DispatchStage, t.db.rows, t.now) - {};
    var claim := D.Claim(g, {}, [c]);
    GoesOn(cfg, s, t, claim);
    u := D.After(cfg, t, claim);
    assert u.db.rows.Keys == {c};
    assert |u.gateways[g].batch| == 1;
  }

  lemma Dispatched(cfg: Config, s: D.System, t: D.System, g: Owner, c: CommandId) returns (u: D.System)
    requires Goes(cfg, s, t) && Occupied(t, c) && Quiet(t) && t.db.rows[c].status.Publishing?
    requires D.Working(t, g) && t.gateways[g].stage.DispatchStage? && t.gateways[g].outcome == Unsent
    ensures Goes(cfg, s, u) && u.db == t.db && u.device == Sim.Boot() && u.acks == {} && u.log == []
    ensures u.broker == {t.gateways[g].batch[0].item.payload}
  {
    var publish := D.Publish(g, true, true, "");
    GoesOn(cfg, s, t, publish);
    u := D.After(cfg, t, publish);
  }

  lemma Acknowledged(cfg: Config, s: D.System, t: D.System, c: CommandId, payload: Command, at: Time) returns (u: D.System)
    requires Goes(cfg, s, t) && t.device == Sim.Boot() && t.acks == {} && t.log == []
    requires t.broker == {payload} && payload.commandId == c && payload.deviceId in Sim.SEED
    ensures Goes(cfg, s, u) && u.db == t.db && |u.log| == 1
    ensures u.log[0].commandId == c && u.log[0].deviceId == payload.deviceId && (u.log[0].success ==> u.log[0].state.Some?)
  {
    var deliver := D.Deliver(payload, false, at);
    GoesOn(cfg, s, t, deliver);
    var v := D.After(cfg, t, deliver);
    var r := Sim.FirstAnswer(t.device, payload, false, at);
    GoesOn(cfg, s, v, D.Forward(r));
    u := D.After(cfg, v, D.Forward(r));
  }

  lemma Settled(cfg: Config, s: D.System, t: D.System, c: CommandId) returns (u: D.System)
    requires Goes(cfg, s, t) && Occupied(t, c) && |t.log| == 1 && !Terminal(t.db.rows[c].status)
    requires t.log[0].commandId == c && t.log[0].deviceId == t.db.rows[c].deviceId && (t.log[0].success ==> t.log[0].state.Some?)
    ensures Goes(cfg, s, u) && Occupied(u, c) && Terminal(u.db.rows[c].status)
  {
    GoesOn(cfg, s, t, D.Settle(0));
    u := D.After(cfg, t, D.Settle(0));
    assert EventText(ReadingOf(CommandText(c))) == EventText(TerminalOf(c));
  }

  /** For every command and every device: if a sensor uses the command's id first, the command
      is carried out and settled, and has no terminal event. */
  lemma TerminalEventKeptOut(cfg: Config, s: D.System, payload: Command, reading: Event, g: Owner, at: Time) returns (t: D.System)
    requires Commands.ValidConfig(cfg) && D.Init(s) && s.db.events == map[] && reading.kind == SensorReading
    requires payload.deviceId in s.db.devices && payload.deviceId in Sim.SEED && WellFormedCommand(payload.commandId)
    ensures Goes(cfg, s, t)
    ensures payload.commandId in t.db.rows && Terminal(t.db.rows[payload.commandId].status)
    ensures TerminalOf(payload.commandId) !in t.db.events
    ensures CT.Explain(t.db.events, CommandText(payload.commandId)).NotExplainable?
  {
    var c := payload.commandId;
    var t1 := CommandStored(cfg, s, payload, reading, at);
    var t2 := Started(cfg, s, t1, g);
    assert Eligible(cfg, TimeoutStage, t2.db.rows, t2.now) == {} && Eligible(cfg, FailureStage, t2.db.rows, t2.now) == {};
    var t3 := EmptyStage(cfg, s, t2, g);
    var t4 := EmptyStage(cfg, s, t3, g);
    var t5 := Claimed(cfg, s, t4, g, c);
    var t6 := Dispatched(cfg, s, t5, g, c);
    var t7 := Acknowledged(cfg, s, t6, c, payload, at);
    t := Settled(cfg, s, t7, c);
    NoExplanation(cfg, s, t, c);
  }

  lemma NoExplanation(cfg: Config, s: D.System, t: D.System, c: CommandId)
    requires Commands.ValidConfig(cfg) && D.Init(s) && Goes(cfg, s, t) && Occupied(t, c)
    ensures CT.Explain(t.db.events, CommandText(c)).NotExplainable?
  {
    DS.ReachableInv(cfg, t);
    CT.FindStored(t.db.events, ReadingOf(CommandText(c)));
  }
}
