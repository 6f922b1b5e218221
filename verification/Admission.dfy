/** What the gateway lets through agrees with what the device accepts, and the device's state
    is the one the rule engine's own arithmetic predicts. */
module Admission {
  import opened Prelude
  import opened Ids
  import opened Schema
  import opened Rules
  import opened Transactions
  import Sim = Simulator

  // ---- Admission checks -------------------------------------------------------------------------

  datatype Rejection = DeviceNotFound | InvalidInput

  /** POST /devices/{id}/commands. The id of the command is drawn from `nonce`. */
  function AdmitCommand(devices: map<string, Device>, deviceId: string, name: string, value: Option<real>, nonce: string, at: Time)
    : Result<Command, Rejection>
  {
    if deviceId !in devices || !devices[deviceId].enabled then Err(DeviceNotFound)
    else if name !in AllowedForKind(devices[deviceId].kind) then Err(InvalidInput)
    else if name == "set-angle" && (value.None? || value.value < 0.0 || value.value > 180.0) then Err(InvalidInput)
    else Ok(Command(UserCommand(nonce), deviceId, name, value, "user", at, None))
  }

  /** A rule as submitted; texts count as the number of characters left after trimming. */
  datatype RuleInput = RuleInput(nameLength: nat, descriptionLength: nat, condition: Condition, action: Action, cooldownSeconds: Option<int>)

  datatype SensorItem = SensorItem(id: string, unit: string)

  const OPERATORS := {"gt", "gte", "lt", "lte", "eq"}
  const UNITS := {"celsius", "lux", "centimeter", "boolean"}
  const COMMANDS := {"on", "off", "set-angle", "beep"}

  predicate WellFormedInput(input: RuleInput) {
    && 0 < input.nameLength <= 100 && input.descriptionLength <= 500
    && input.condition.sensorId != "" && input.action.deviceId != ""
    && (input.cooldownSeconds.Some? ==> 0 <= input.cooldownSeconds.value <= 86400)
    && input.condition.operator in OPERATORS && input.condition.unit in UNITS && input.action.command in COMMANDS
  }

  /** The first sensor with the id, as listed, measures in the condition's unit. */
  ghost predicate Measures(sensors: seq<SensorItem>, condition: Condition) {
    exists i :: 0 <= i < |sensors| && sensors[i] == SensorItem(condition.sensorId, condition.unit)
      && forall j :: 0 <= j < i ==> sensors[j].id != condition.sensorId
  }

  predicate Targets(devices: map<string, Device>, action: Action) {
    && action.deviceId in devices && devices[action.deviceId].enabled
    && action.command in AllowedForKind(devices[action.deviceId].kind)
    && (action.command == "set-angle" ==> action.value.Some? && 0.0 <= action.value.value <= 180.0)
  }

  method ValidateRule(input: RuleInput, sensors: seq<SensorItem>, devices: map<string, Device>) returns (valid: bool)
    ensures valid <==> WellFormedInput(input) && Measures(sensors, input.condition) && Targets(devices, input.action)
    ensures valid ==>
              && 1 <= input.nameLength <= 100 && input.descriptionLength <= 500
              && (input.cooldownSeconds.Some? ==> 0 <= input.cooldownSeconds.value <= 86_400)
              && input.condition.operator in ["gt", "gte", "lt", "lte", "eq"]
              && input.condition.unit in ["celsius", "lux", "centimeter", "boolean"]
  {
    if !WellFormedInput(input) {
      return false;
    }
    var found: Option<SensorItem> := None;
    var i := 0;
    while i < |sensors| && found.None?
      invariant 0 <= i <= |sensors|
      invariant found.None? ==> forall j :: 0 <= j < i ==> sensors[j].id != input.condition.sensorId
      invariant found.Some? ==> i > 0 && found.value == sensors[i - 1] && sensors[i - 1].id == input.condition.sensorId
                                && forall j :: 0 <= j < i - 1 ==> sensors[j].id != input.condition.sensorId
    {
      if sensors[i].id == input.condition.sensorId {
        found := Some(sensors[i]);
      }
      i := i + 1;
    }
    if found.None? || found.value.unit != input.condition.unit {
      return false;
    }
    if input.action.deviceId !in devices || !devices[input.action.deviceId].enabled {
      return false;
    }
    if input.action.command !in AllowedForKind(devices[input.action.deviceId].kind) {
      return false;
    }
    if input.action.command == "set-angle" && (input.action.value.None? || input.action.value.value < 0.0 || input.action.value.value > 180.0) {
      return false;
    }
    return true;
  }

  // ---- The device accepts what was admitted ----------------------------------------------------------

  function KindOf(deviceId: string): string {
    if deviceId == "led-01" then "led"
    else if deviceId == "relay-fan-01" then "relay"
    else if deviceId == "servo-01" then "servo"
    else if deviceId == "buzzer-01" then "buzzer"
    else ""
  }

  /** The devices table lists the devices the simulator runs, by their kinds. */
  ghost predicate Seeded(devices: map<string, Device>) {
    devices.Keys == Sim.SEED.Keys && forall d :: d in devices ==> devices[d].kind == KindOf(d)
  }

  /** The gateway and the worker allow exactly the commands the device supports. */
  lemma SameVocabulary(deviceId: string)
    ensures deviceId in Sim.SEED ==> AllowedForKind(KindOf(deviceId)) == Sim.AllowedFor(deviceId)
  {
  }

  predicate Unsupported(answer: Option<CommandResult>) {
    answer.Some? && answer.value.error == Some("unsupported command")
  }

  /** A command is admitted exactly when its device is there and enabled and the simulated
      device would carry it out; so an admitted command is never answered "unsupported". */
  lemma AdmittedIffSupported(devices: map<string, Device>, deviceId: string, name: string, value: Option<real>, nonce: string, at: Time)
    requires Seeded(devices)
    ensures var c := Command(UserCommand(nonce), deviceId, name, value, "user", at, None);
            AdmitCommand(devices, deviceId, name, value, nonce, at) ==
              if deviceId !in devices || !devices[deviceId].enabled then Err(DeviceNotFound)
              else if Sim.Supported(deviceId, c) then Ok(c) else Err(InvalidInput)
  {
    SameVocabulary(deviceId);
  }

  lemma AdmittedNeverUnsupported(devices: map<string, Device>, deviceId: string, name: string, value: Option<real>, nonce: string, at: Time,
                                 p: Sim.Process, injected: bool, later: Time)
    requires Seeded(devices) && AdmitCommand(devices, deviceId, name, value, nonce, at).Ok?
    requires forall c :: c in p.results ==> !Unsupported(Some(p.results[c]))
    ensures var c := AdmitCommand(devices, deviceId, name, value, nonce, at).value;
            !Unsupported(Sim.Answer(p, deviceId, Sim.Message("command.v1", c), injected, later).1)
  {
    AdmittedIffSupported(devices, deviceId, name, value, nonce, at);
  }

  /** A rule that passed validation never stops a pass, as long as its device stays enabled,
      and whatever command a pass creates the device supports. */
  lemma RuleCommandsAreSupported(l: Ledger, e: Telemetry, r: string, at: Time)
    requires Seeded(l.core.devices) && r in l.rules
    ensures Obstacle(l, r, at).None? <==> Targets(l.core.devices, l.rules[r].action)
    ensures Obstacle(l, r, at).None? ==>
              Sim.Supported(l.rules[r].action.deviceId, RuleCommandFor(e, r, l.rules[r].action, at))
  {
    SameVocabulary(l.rules[r].action.deviceId);
  }

  // ---- The device's state is the fold of the actions ---------------------------------------------------

  datatype Delivery = Delivery(command: Command, injected: bool, at: Time)

  function ActionOf(c: Command): Action {
    Action(c.deviceId, c.name, c.value)
  }

  /** The rule engine's prediction of an action is what the device does, and it refuses what
      the device refuses. */
  lemma PredictionAgrees(c: Command, state: DeviceState, at: Time)
    requires c.deviceId in Sim.SEED
    ensures ApplyAction(KindOf(c.deviceId), state, ActionOf(c), at).Ok? <==> Sim.Supported(c.deviceId, c)
    ensures Sim.Supported(c.deviceId, c) ==>
              ApplyAction(KindOf(c.deviceId), state, ActionOf(c), at) == Ok(Sim.NextState(state, c, at))
  {
    SameVocabulary(c.deviceId);
  }

  function Deliver(p: Sim.Process, ds: seq<Delivery>): Sim.Process
    decreases |ds|
  {
    if ds == [] then p
    else
      var d := ds[0];
      Deliver(Sim.Answer(p, d.command.deviceId, Sim.Message("command.v1", d.command), d.injected, d.at).0, ds[1..])
  }

  /** The state of `device` after applying, in order, the action of each first delivery that
      was not an injected failure. `seen` are the commands delivered before. */
  function Fold(device: string, state: DeviceState, seen: set<CommandId>, ds: seq<Delivery>): DeviceState
    decreases |ds|
  {
    if ds == [] then state
    else
      var c := ds[0].command;
      if c.deviceId !in Sim.SEED || c.commandId in seen then Fold(device, state, seen, ds[1..])
      else
        var next :=
          if c.deviceId != device || ds[0].injected then state
          else match ApplyAction(KindOf(device), state, ActionOf(c), ds[0].at)
            case Ok(moved) => moved
            case Err(_) => state;
        Fold(device, next, seen + {c.commandId}, ds[1..])
  }

  lemma {:induction false} DeliverIsFold(p: Sim.Process, ds: seq<Delivery>, device: string)
    requires p.states.Keys == Sim.SEED.Keys && device in Sim.SEED
    ensures Deliver(p, ds).states.Keys == Sim.SEED.Keys
    ensures Deliver(p, ds).states[device] == Fold(device, p.states[device], p.results.Keys, ds)
    decreases |ds|
  {
    if ds != [] {
      var d := ds[0];
      var c := d.command;
      var q := Sim.Answer(p, c.deviceId, Sim.Message("command.v1", c), d.injected, d.at).0;
      if c.deviceId in Sim.SEED {
        PredictionAgrees(c, p.states[c.deviceId], d.at);
        if c.commandId !in p.results {
          assert q.results.Keys == p.results.Keys + {c.commandId};
        }
      }
      assert q.states.Keys == p.states.Keys;
      DeliverIsFold(q, ds[1..], device);
    }
  }

  /** However commands are delivered, repeated and failed, a device ends in the state the
      rule engine's own action function computes from the first deliveries. */
  lemma DeviceStateIsFold(ds: seq<Delivery>, device: string)
    requires device in Sim.SEED
    ensures device in Deliver(Sim.Boot(), ds).states
    ensures Deliver(Sim.Boot(), ds).states[device] == Fold(device, Sim.SEED[device], {}, ds)
  {
    assert Sim.Boot().results.Keys == {};
    DeliverIsFold(Sim.Boot(), ds, device);
  }
}
