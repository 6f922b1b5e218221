/** The records the gateway, the worker and the device exchange and store. Times are
    integers (nanoseconds); JSON bodies are datatypes. */
module Schema {
  import opened Prelude
  import opened Ids

  type Time = int
  type Owner = string

  datatype Value = Number(n: real) | Flag(b: bool) | Text(s: string)

  datatype Causation = Causation(correlationId: string, ruleId: string, ruleEvent: EventKey, triggerEventId: string)

  datatype Command = Command(
    commandId: CommandId,
    deviceId: string,
    name: string,
    value: Option<real>,
    issuedBy: string,
    issuedAt: Time,
    causation: Option<Causation>)

  datatype DeviceState = DeviceState(status: string, angle: Option<real>, lastCommandAt: Option<Time>)

  datatype CommandResult = CommandResult(
    commandId: CommandId,
    deviceId: string,
    success: bool,
    state: Option<DeviceState>,
    error: Option<string>,
    failureCode: Option<string>,
    publishAttempts: Option<nat>,
    occurredAt: Time)

  datatype Condition = Condition(sensorId: string, operator: string, value: Value, unit: string)

  datatype Action = Action(deviceId: string, command: string, value: Option<real>)

  datatype Reading = Reading(
    eventId: string,
    sensorId: string,
    kind: string,
    value: Value,
    unit: string,
    measuredAt: Time,
    source: string)

  // ---- Tables ---------------------------------------------------------------------

  datatype Status = Pending | Publishing | Retrying | Published | Finalizing | Succeeded | Failed

  predicate Terminal(s: Status) {
    s.Succeeded? || s.Failed?
  }

  /** A row of device_command. */
  datatype Row = Row(
    deviceId: string,
    payload: Command,
    status: Status,
    requestedAt: Time,
    publishAttempts: nat,
    lastAttemptAt: Option<Time>,
    nextAttemptAt: Option<Time>,
    publishedAt: Option<Time>,
    completedAt: Option<Time>,
    dispatchOwner: Option<Owner>,
    leaseUntil: Option<Time>,
    lastError: Option<string>,
    failureCode: Option<string>,
    result: Option<CommandResult>)

  datatype EventKind = SensorReading | RuleMatched | CommandPending | CommandRetrying | CommandSucceeded | CommandFailed

  datatype EventBody =
    | ReadingBody(reading: Reading)
    | MatchBody(ruleId: string, condition: Condition, action: Action, trigger: Reading, correlationId: string)
    | PendingBody(queued: Command)
    | RetryBody(retried: CommandId, attempt: nat, maxAttempts: nat, error: string, nextAttemptAt: Time)
    | TerminalBody(command: Command, result: CommandResult)

  /** A row of workspace_event; the table is keyed by event id. */
  datatype Event = Event(kind: EventKind, sourceId: string, body: EventBody, occurredAt: Time)

  /** A row of devices. */
  datatype Device = Device(kind: string, state: DeviceState, enabled: bool)

  /** The tables every command transaction works on. `shadowed` is history that no statement
      reads: the events that could not be stored because another one has their id. */
  datatype CommandDb = CommandDb(
    rows: map<CommandId, Row>,
    events: map<EventKey, Event>,
    devices: map<string, Device>,
    shadowed: set<EventKey>)

  /** insert ... on conflict do nothing */
  function InsertIfAbsent<K, V>(table: map<K, V>, key: K, value: V): map<K, V> {
    if key in table then table else table[key := value]
  }

  /** The unique key of workspace_event compares the text of the id. */
  predicate Taken(events: map<EventKey, Event>, k: EventKey) {
    k in events || exists j :: j in events && EventText(j) == EventText(k)
  }

  /** insert into workspace_event ... on conflict(event_id) do nothing */
  function PutEvent(events: map<EventKey, Event>, k: EventKey, e: Event): map<EventKey, Event> {
    if Taken(events, k) then events else events[k := e]
  }

  function Shade(events: map<EventKey, Event>, shadowed: set<EventKey>, k: EventKey): set<EventKey> {
    if !Taken(events, k) then shadowed - {k}
    else if k in events then shadowed
    else shadowed + {k}
  }

  function AddEvent(db: CommandDb, k: EventKey, e: Event): CommandDb {
    db.(events := PutEvent(db.events, k, e), shadowed := Shade(db.events, db.shadowed, k))
  }

  /** No two stored events have the same id. */
  ghost predicate UniqueIds(events: map<EventKey, Event>) {
    forall j, k :: j in events && k in events && EventText(j) == EventText(k) ==> j == k
  }

  /** An insertion touches no other event, and ends with its own stored or shadowed. */
  lemma PutFrame(events: map<EventKey, Event>, shadowed: set<EventKey>, k: EventKey, e: Event)
    ensures var events', shadowed' := PutEvent(events, k, e), Shade(events, shadowed, k);
      && (forall j :: j != k ==> (j in events' <==> j in events) && (j in shadowed' <==> j in shadowed))
      && (forall j :: j in events ==> j in events' && events'[j] == events[j])
      && (k in events' || k in shadowed')
      && (k !in shadowed || k !in events ==> k !in shadowed' || k !in events')
      && (k in events' && k !in events ==> events'[k] == e)
  {
  }

  lemma PutKeepsUnique(events: map<EventKey, Event>, k: EventKey, e: Event)
    requires UniqueIds(events)
    ensures UniqueIds(PutEvent(events, k, e))
  {
  }
}
