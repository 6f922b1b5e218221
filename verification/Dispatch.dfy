/** The device-command protocol as a state machine: any number of gateways, each running
    one sequential dispatch loop, a broker that may lose, delay and repeat commands, the
    device, the command.result log, and workers that apply any entry of that log at any
    time, any number of times. Every SQL statement or transaction is one step. */
module Dispatch {
  import opened Prelude
  import opened Ids
  import opened Schema
  import opened Commands
  import Sim = Simulator

  /** One claimed command, with the claim it was taken under. */
  datatype Held = Held(item: PendingCommand, epoch: nat, until: Time)

  /** Where a gateway is in its tick. */
  datatype Gateway = Gateway(stage: Stage, claimed: bool, batch: seq<Held>, outcome: Outcome, ticks: nat)

  const IDLE: Gateway := Gateway(TimeoutStage, false, [], Unsent, 0)

  /** What happened so far; no step looks at it. */
  datatype History = History(
    seeded: map<string, Device>,
    claims: multiset<CommandId>,
    reclaims: multiset<CommandId>,
    executions: multiset<(nat, CommandId)>,
    issued: set<(nat, CommandResult)>,
    answers: set<CommandResult>,
    reached: set<(string, DeviceState)>,
    writes: multiset<CommandId>)

  datatype System = System(
    now: Time,
    db: CommandDb,
    gateways: map<Owner, Gateway>,
    broker: set<Command>,
    device: Sim.Process,
    lifetime: nat,
    acks: set<CommandResult>,
    log: seq<CommandResult>,
    past: History)

  datatype Step =
    | Advance(duration: nat)
    | Ambient(events: map<EventKey, Event>, shadowed: set<EventKey>)
    | Create(payload: Command, at: Time)
    | Start(g: Owner)
    | Claim(g: Owner, locked: set<CommandId>, chosen: seq<CommandId>)
    | ClaimUnseen(g: Owner, locked: set<CommandId>, chosen: seq<CommandId>)
    | Report(g: Owner, logged: bool, ok: bool, at: Time)
    | Publish(g: Owner, reached: bool, ok: bool, error: string)
    | Mark(g: Owner, wall: Time)
    | MarkFails(g: Owner)
    | EndBatch(g: Owner)
    | Deliver(command: Command, injected: bool, at: Time)
    | Restart
    | Forward(ack: CommandResult)
    | Settle(offset: nat)

  // ---- Steps -----------------------------------------------------------------------------

  ghost predicate Init(s: System) {
    && s.db.rows == map[]
    && (forall k :: k in s.db.events ==> !IsCommandKey(k)) && UniqueIds(s.db.events) && s.db.shadowed == {}
    && s.gateways == map[] && s.broker == {} && s.device == Sim.Boot() && s.lifetime == 0
    && s.acks == {} && s.log == []
    && s.past == History(s.db.devices, multiset{}, multiset{}, multiset{}, {}, {}, {}, multiset{})
  }

  predicate Working(s: System, g: Owner) {
    g in s.gateways && s.gateways[g].claimed && s.gateways[g].batch != []
  }

  ghost predicate ClaimEnabled(cfg: Config, s: System, g: Owner, locked: set<CommandId>, chosen: seq<CommandId>) {
    && g in s.gateways && !s.gateways[g].claimed
    && Distinct(chosen)
    && (forall c :: c in chosen ==> c in s.db.rows && Claimable(cfg, s.gateways[g].stage, s.db.rows[c], s.now))
    && ClaimTakes(cfg, s.gateways[g].stage, s.db.rows, s.now, locked, Elements(chosen))
  }

  ghost predicate Enabled(cfg: Config, s: System, step: Step) {
    match step
    case Advance(_) => true
    case Ambient(events, shadowed) =>
      && UniqueIds(events)
      && forall k :: IsCommandKey(k) ==>
           && (k in events <==> k in s.db.events) && (k in events ==> events[k] == s.db.events[k])
           && (k in shadowed <==> k in s.db.shadowed)
    case Create(payload, _) => payload.deviceId in s.db.devices && WellFormedCommand(payload.commandId)
    case Start(_) => true
    case Claim(g, locked, chosen) => ClaimEnabled(cfg, s, g, locked, chosen)
    case ClaimUnseen(g, locked, chosen) => ClaimEnabled(cfg, s, g, locked, chosen)
    case Report(g, logged, ok, _) =>
      Working(s, g) && !s.gateways[g].stage.DispatchStage? && s.gateways[g].outcome == Unsent && (ok ==> logged)
    case Publish(g, reached, ok, _) =>
      Working(s, g) && s.gateways[g].stage.DispatchStage? && s.gateways[g].outcome == Unsent && (ok ==> reached)
    case Mark(g, wall) =>
      Working(s, g) && s.gateways[g].outcome != Unsent && wall <= s.now + cfg.skew
      && (s.gateways[g].stage.DispatchStage? ==> s.gateways[g].batch[0].item.publishAttempts >= 1)
    case MarkFails(g) => Working(s, g) && s.gateways[g].outcome != Unsent
    case EndBatch(g) => g in s.gateways && s.gateways[g].claimed && s.gateways[g].batch == []
    case Deliver(command, _, _) => command in s.broker
    case Restart => true
    case Forward(ack) => ack in s.acks
    case Settle(offset) => offset < |s.log|
  }

  function SetGateway(s: System, g: Owner, gw: Gateway): System {
    s.(gateways := s.gateways[g := gw])
  }

  function Pop(gw: Gateway): Gateway
    requires gw.batch != []
  {
    gw.(batch := gw.batch[1..], outcome := Unsent)
  }

  /** The rows after a claim, and the history of who claimed what. */
  function Claimed(cfg: Config, s: System, stage: Stage, g: Owner, chosen: seq<CommandId>): System {
    var ids := Elements(chosen);
    var again := set c | c in ids && c in s.db.rows && stage.DispatchStage? && s.db.rows[c].status.Publishing?;
    s.(db := s.db.(rows := ClaimRows(cfg, stage, s.db.rows, ids, g, s.now)),
       past := s.past.(claims := s.past.claims + multiset(ids), reclaims := s.past.reclaims + multiset(again)))
  }

  function HeldItem(cfg: Config, s: System, stage: Stage, c: CommandId): Held
    requires c in s.db.rows
  {
    Held(Item(stage, c, s.db.rows[c]), s.past.claims[c], s.now + cfg.lease)
  }

  function HeldItems(cfg: Config, s: System, stage: Stage, chosen: seq<CommandId>): seq<Held>
    requires forall c :: c in chosen ==> c in s.db.rows
  {
    seq(|chosen|, i requires 0 <= i < |chosen| => HeldItem(cfg, s, stage, chosen[i]))
  }

  function AfterClaim(cfg: Config, s: System, g: Owner, chosen: seq<CommandId>, seen: bool): System
    requires g in s.gateways
    requires forall c :: c in chosen ==> c in s.db.rows
  {
    var gw := s.gateways[g];
    var t := Claimed(cfg, s, gw.stage, g, chosen);
    SetGateway(t, g, gw.(claimed := true, batch := if seen then HeldItems(cfg, t, gw.stage, chosen) else [], outcome := Unsent))
  }

  function AfterReport(s: System, g: Owner, logged: bool, ok: bool, at: Time): System
    requires Working(s, g)
  {
    var gw := s.gateways[g];
    var report := FailureReport(gw.stage, gw.batch[0].item, at);
    SetGateway(s.(log := if logged then s.log + [report] else s.log), g,
      if ok then gw.(outcome := Sent) else Pop(gw))
  }

  function AfterPublish(s: System, g: Owner, reached: bool, ok: bool, error: string): System
    requires Working(s, g)
  {
    var gw := s.gateways[g];
    SetGateway(s.(broker := if reached then s.broker + {gw.batch[0].item.payload} else s.broker), g,
      gw.(outcome := if ok then Sent else Refused(error)))
  }

  function AfterMark(cfg: Config, s: System, g: Owner, wall: Time): System
    requires Working(s, g)
    requires s.gateways[g].stage.DispatchStage? ==> s.gateways[g].batch[0].item.publishAttempts >= 1
  {
    var gw := s.gateways[g];
    var marked := MarkHead(cfg, s.db, gw.stage, gw.outcome, gw.batch[0].item, g, s.now, wall);
    SetGateway(if marked.Some? then s.(db := marked.value) else s, g, Pop(gw))
  }

  function AfterEndBatch(s: System, g: Owner): System
    requires g in s.gateways
  {
    var gw := s.gateways[g];
    SetGateway(s, g, Gateway(NextStage(gw.stage), false, [], Unsent, if gw.stage.DispatchStage? then gw.ticks + 1 else gw.ticks))
  }

  function AfterDeliver(s: System, command: Command, injected: bool, at: Time): System {
    var (device, answer) := Sim.Answer(s.device, command.deviceId, Sim.Message("command.v1", command), injected, at);
    if answer.None? then s
    else
      var r := answer.value;
      var past := s.past.(issued := s.past.issued + {(s.lifetime, r)}, answers := s.past.answers + {r});
      var past' :=
        if r.success && r.state.Some? && command.commandId !in s.device.results then
          past.(executions := past.executions + multiset{(s.lifetime, command.commandId)},
                reached := past.reached + {(command.deviceId, r.state.value)})
        else past;
      s.(device := device, acks := s.acks + {r}, past := past')
  }

  function AfterSettle(s: System, offset: nat): System
    requires offset < |s.log|
  {
    var r := s.log[offset];
    match ApplyCommandResult(s.db, r)
    case Err(_) => s
    case Ok(db) =>
      var settles := r.commandId in s.db.rows && !Terminal(s.db.rows[r.commandId].status);
      s.(db := db,
         past := s.past.(writes := if settles && r.success && r.deviceId in s.db.devices
                                   then s.past.writes + multiset{r.commandId} else s.past.writes))
  }

  ghost function After(cfg: Config, s: System, step: Step): System
    requires Enabled(cfg, s, step)
  {
    match step
    case Advance(duration) => s.(now := s.now + duration)
    case Ambient(events, shadowed) => s.(db := s.db.(events := events, shadowed := shadowed))
    case Create(payload, at) => s.(db := CreateCommand(s.db, payload.deviceId, payload, at))
    case Start(g) => SetGateway(s, g, IDLE)
    case Claim(g, _, chosen) => AfterClaim(cfg, s, g, chosen, true)
    case ClaimUnseen(g, _, chosen) => AfterClaim(cfg, s, g, chosen, false)
    case Report(g, logged, ok, at) => AfterReport(s, g, logged, ok, at)
    case Publish(g, reached, ok, error) => AfterPublish(s, g, reached, ok, error)
    case Mark(g, wall) => AfterMark(cfg, s, g, wall)
    case MarkFails(g) => SetGateway(s, g, Pop(s.gateways[g]))
    case EndBatch(g) => AfterEndBatch(s, g)
    case Deliver(command, injected, at) => AfterDeliver(s, command, injected, at)
    case Restart => s.(device := Sim.Boot(), lifetime := s.lifetime + 1)
    case Forward(ack) => s.(log := s.log + [ack])
    case Settle(offset) => AfterSettle(s, offset)
  }

  // ---- Runs --------------------------------------------------------------------------------


  ghost predicate RunFrom(cfg: Config, s: System, steps: seq<Step>, t: System)
    decreases |steps|
  {
    if steps == [] then s == t
    else Enabled(cfg, s, steps[0]) && RunFrom(cfg, After(cfg, s, steps[0]), steps[1..], t)
  }

  ghost predicate Reachable(cfg: Config, s: System) {
    exists s0, steps :: Init(s0) && RunFrom(cfg, s0, steps, s)
  }
}
