/** The simulated device: it executes each command at most once in the life of its
    process and answers every redelivery with the answer it gave first. */
module Simulator {
  import opened Prelude
  import opened Ids
  import opened Schema

  datatype Process = Process(states: map<string, DeviceState>, results: map<CommandId, CommandResult>)

  const SEED: map<string, DeviceState> := map[
    "led-01" := DeviceState("off", None, None),
    "servo-01" := DeviceState("off", Some(90.0), None),
    "buzzer-01" := DeviceState("off", None, None),
    "relay-fan-01" := DeviceState("off", None, None)]

  function Boot(): Process {
    Process(SEED, map[])
  }

  /** An MQTT payload on a command topic: not a JSON document, or a document. */
  datatype Message = Malformed | Message(schemaVersion: string, command: Command)

  function AllowedFor(deviceId: string): set<string> {
    if deviceId == "led-01" || deviceId == "relay-fan-01" then {"on", "off"}
    else if deviceId == "servo-01" then {"set-angle", "off"}
    else if deviceId == "buzzer-01" then {"beep", "off"}
    else {}
  }

  predicate Supported(deviceId: string, command: Command) {
    && command.name in AllowedFor(deviceId)
    && (command.name == "set-angle" ==> command.value.Some? && 0.0 <= command.value.value <= 180.0)
  }

  predicate Accepts(p: Process, topicDevice: string, m: Message) {
    && m.Message?
    && m.schemaVersion == "command.v1"
    && m.command.deviceId == topicDevice
    && topicDevice in p.states
  }

  function NextState(state: DeviceState, command: Command, at: Time): DeviceState {
    var moved :=
      if command.name == "set-angle" then state.(status := "on", angle := command.value)
      else if command.name == "beep" then state.(status := "off")
      else state.(status := command.name);
    moved.(lastCommandAt := Some(at))
  }

  /** The answer to a command seen for the first time. `injected` is the simulated failure. */
  function FirstAnswer(p: Process, command: Command, injected: bool, at: Time): CommandResult
    requires command.deviceId in p.states
  {
    if !Supported(command.deviceId, command) then
      CommandResult(command.commandId, command.deviceId, false, None, Some("unsupported command"), None, None, at)
    else if injected then
      CommandResult(command.commandId, command.deviceId, false, None, Some("simulated device failure"), None, None, at)
    else
      CommandResult(command.commandId, command.deviceId, true,
        Some(NextState(p.states[command.deviceId], command, at)), None, None, None, at)
  }

  /** A first answer names the command, the device and the time. It fails without a state if the
      device does not know the command or the failure is simulated, and else carries the state. */
  lemma FirstAnswerTells(p: Process, command: Command, injected: bool, at: Time)
    requires command.deviceId in p.states
    ensures var r := FirstAnswer(p, command, injected, at);
      && r.commandId == command.commandId && r.deviceId == command.deviceId && r.occurredAt == at
      && r.failureCode.None? && r.publishAttempts.None?
      && (r.success <==> Supported(command.deviceId, command) && !injected)
      && (r.success <==> r.state.Some?) && (r.success <==> r.error.None?)
      && (r.error == Some("unsupported command") <==> !Supported(command.deviceId, command))
      && (r.error == Some("simulated device failure") <==> Supported(command.deviceId, command) && injected)
      && (r.success ==> r.state.value.lastCommandAt == Some(at)
                        && r.state.value.status == (if command.name == "set-angle" then "on" else if command.name == "beep" then "off" else command.name)
                        && r.state.value.angle == if command.name == "set-angle" then command.value else p.states[command.deviceId].angle)
  {
  }

  function Answer(p: Process, topicDevice: string, m: Message, injected: bool, at: Time): (Process, Option<CommandResult>) {
    if !Accepts(p, topicDevice, m) then (p, None)
    else if m.command.commandId in p.results then (p, Some(p.results[m.command.commandId]))
    else
      var r := FirstAnswer(p, m.command, injected, at);
      var states := if r.success then p.states[topicDevice := r.state.value] else p.states;
      (Process(states, p.results[m.command.commandId := r]), Some(r))
  }

  /** The simulator object: two dictionaries that handle_command updates in place. */
  class WorkspaceSimulator {
    var deviceStates: map<string, DeviceState>
    var commandResults: map<CommandId, CommandResult>

    function Snapshot(): Process
      reads this
    {
      Process(deviceStates, commandResults)
    }

    constructor ()
      ensures Snapshot() == Boot()
    {
      deviceStates := SEED;
      commandResults := map[];
    }

    method HandleCommand(topicDevice: string, m: Message, injected: bool, at: Time) returns (answer: Option<CommandResult>)
      modifies this
      ensures (Snapshot(), answer) == Answer(old(Snapshot()), topicDevice, m, injected, at)
    {
      if m.Malformed? {
        return None;
      }
      var command := m.command;
      if m.schemaVersion != "command.v1" || command.deviceId != topicDevice || topicDevice !in deviceStates {
        return None;
      }
      if command.commandId in commandResults {
        return Some(commandResults[command.commandId]);
      }
      var success := !injected;
      var state := deviceStates[topicDevice];
      var error: Option<string> := None;
      if command.name !in AllowedFor(topicDevice)
         || (command.name == "set-angle" && (command.value.None? || !(0.0 <= command.value.value <= 180.0))) {
        success, error := false, Some("unsupported command");
      }
      if success {
        if command.name == "set-angle" {
          state := state.(status := "on", angle := command.value);
        } else if command.name == "beep" {
          state := state.(status := "off");
        } else {
          state := state.(status := command.name);
        }
        state := state.(lastCommandAt := Some(at));
        deviceStates := deviceStates[topicDevice := state];
      } else if error.None? {
        error := Some("simulated device failure");
      }
      var result := CommandResult(command.commandId, topicDevice, success,
        if success then Some(state) else None, error, None, None, at);
      commandResults := commandResults[command.commandId := result];
      return Some(result);
    }
  }
}
