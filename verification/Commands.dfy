/** The statements the gateways run on device_command, each as a function of the tables,
    and the worker transaction that settles a command. */
module Commands {
  import opened Prelude
  import opened Ids
  import opened Schema
  import Backoff

  /** The gateway's settings, in nanoseconds. `skew` bounds how far a gateway's clock may
      run ahead of the database's. */
  datatype Config = Config(
    lease: nat,
    ackTimeout: nat,
    maxAttempts: nat,
    retryInitial: int,
    retryMax: int,
    skew: nat)

  predicate ValidConfig(cfg: Config) {
    cfg.lease >= 1 && cfg.maxAttempts >= 1 && Backoff.ValidConfig(cfg.retryInitial, cfg.retryMax)
  }

  const CLAIM_LIMIT: nat := 20
  const RESULT_REPUBLISH_DELAY: nat := 2_000_000_000

  /** What a claim returns to the gateway. */
  datatype PendingCommand = PendingCommand(
    commandId: CommandId,
    deviceId: string,
    payload: Command,
    publishAttempts: nat,
    lastError: string)

  // ---- CreateDeviceCommand ---------------------------------------------------------

  function NewRow(deviceId: string, payload: Command, requestedAt: Time): Row {
    Row(deviceId, payload, Pending, requestedAt, 0, None, None, None, None, None, None, None, None, None)
  }

  function PendingEvent(payload: Command, deviceId: string, at: Time): Event {
    Event(CommandPending, deviceId, PendingBody(payload), at)
  }

  function CreateCommand(db: CommandDb, deviceId: string, payload: Command, at: Time): CommandDb {
    AddEvent(db.(rows := InsertIfAbsent(db.rows, payload.commandId, NewRow(deviceId, payload, at))),
      PendingOf(payload.commandId), PendingEvent(payload, deviceId, at))
  }

  // ---- The three claims ----------------------------------------------------------------

  /** The three claims of one dispatch tick, in the order the tick makes them. */
  datatype Stage = TimeoutStage | FailureStage | DispatchStage

  function NextStage(stage: Stage): Stage {
    match stage
    case TimeoutStage => FailureStage
    case FailureStage => DispatchStage
    case DispatchStage => TimeoutStage
  }

  predicate AtMost(t: Option<Time>, now: Time) {
    t.Some? && t.value <= now
  }

  predicate Claimable(cfg: Config, stage: Stage, r: Row, now: Time) {
    match stage
    case TimeoutStage =>
      r.status.Published? && r.publishedAt.Some? && r.publishedAt.value < now - cfg.ackTimeout
      && (r.leaseUntil.None? || r.leaseUntil.value <= now)
    case FailureStage =>
      r.status.Finalizing? && (r.nextAttemptAt.None? || r.nextAttemptAt.value <= now)
      && (r.leaseUntil.None? || r.leaseUntil.value <= now)
    case DispatchStage =>
      || r.status.Pending?
      || (r.status.Retrying? && AtMost(r.nextAttemptAt, now))
      || (r.status.Publishing? && (r.leaseUntil.None? || r.leaseUntil.value <= now))
  }

  function ClaimOrder(stage: Stage, r: Row): Option<Time> {
    match stage
    case TimeoutStage => r.publishedAt
    case FailureStage => r.lastAttemptAt
    case DispatchStage => Some(r.requestedAt)
  }

  /** The status a row has while a claim of the stage is held on it. */
  function HeldStatus(stage: Stage): Status {
    match stage
    case TimeoutStage => Published
    case FailureStage => Finalizing
    case DispatchStage => Publishing
  }

  function ClaimRow(cfg: Config, stage: Stage, r: Row, owner: Owner, now: Time): Row {
    var held := r.(dispatchOwner := Some(owner), leaseUntil := Some(now + cfg.lease));
    if stage.DispatchStage? then
      held.(status := Publishing, publishAttempts := r.publishAttempts + 1, lastAttemptAt := Some(now), nextAttemptAt := None)
    else
      held
  }

  function ClaimRows(cfg: Config, stage: Stage, rows: map<CommandId, Row>, chosen: set<CommandId>, owner: Owner, now: Time)
    : map<CommandId, Row>
  {
    map c | c in rows :: if c in chosen then ClaimRow(cfg, stage, rows[c], owner, now) else rows[c]
  }

  function Eligible(cfg: Config, stage: Stage, rows: map<CommandId, Row>, now: Time): set<CommandId> {
    set c | c in rows && Claimable(cfg, stage, rows[c], now)
  }

  function ClaimKey(stage: Stage, rows: map<CommandId, Row>): CommandId -> Option<Time> {
    c => if c in rows then ClaimOrder(stage, rows[c]) else None
  }

  /** The rows a claim takes, `locked` being the ones other transactions hold just then. */
  ghost predicate ClaimTakes(cfg: Config, stage: Stage, rows: map<CommandId, Row>, now: Time, locked: set<CommandId>, chosen: set<CommandId>) {
    OldestFirst(Eligible(cfg, stage, rows, now) - locked, ClaimKey(stage, rows), CLAIM_LIMIT, chosen)
  }

  /** The returned row; each claim has its own default for a null last_error. */
  function Item(stage: Stage, c: CommandId, r: Row): PendingCommand {
    PendingCommand(c, r.deviceId, r.payload, r.publishAttempts,
      if r.lastError.Some? then r.lastError.value
      else if stage.FailureStage? then "mqtt publish failed" else "")
  }

  // ---- The marks -------------------------------------------------------------------------

  predicate Holds(rows: map<CommandId, Row>, c: CommandId, status: Status, owner: Owner) {
    c in rows && rows[c].status == status && rows[c].dispatchOwner == Some(owner)
  }

  function Release(r: Row): Row {
    r.(dispatchOwner := None, leaseUntil := None)
  }

  /** Each mark updates the claimed row, or no row at all: None is "claim lost". */
  function MarkPublished(db: CommandDb, c: CommandId, owner: Owner, now: Time): Option<CommandDb> {
    if Holds(db.rows, c, Publishing, owner) then
      var r := Release(db.rows[c]).(status := Published, publishedAt := Some(now), lastError := None, nextAttemptAt := None);
      Some(db.(rows := db.rows[c := r]))
    else None
  }

  function MarkPublishExhausted(db: CommandDb, c: CommandId, owner: Owner, error: string, now: Time): Option<CommandDb> {
    if Holds(db.rows, c, Publishing, owner) then
      var r := Release(db.rows[c]).(status := Finalizing, lastError := Some(error),
        failureCode := Some("mqtt.publish.exhausted"), nextAttemptAt := Some(now));
      Some(db.(rows := db.rows[c := r]))
    else None
  }

  function ScheduleRetry(cfg: Config, db: CommandDb, item: PendingCommand, owner: Owner, error: string, nextAttempt: Time, now: Time)
    : Option<CommandDb>
  {
    var c := item.commandId;
    if Holds(db.rows, c, Publishing, owner) then
      var r := Release(db.rows[c]).(status := Retrying, lastError := Some(error),
        nextAttemptAt := Some(nextAttempt), failureCode := Some("mqtt.publish.failed"));
      var e := Event(CommandRetrying, item.deviceId, RetryBody(c, item.publishAttempts, cfg.maxAttempts, error, nextAttempt), now);
      Some(AddEvent(db.(rows := db.rows[c := r]), RetryOf(c, item.publishAttempts), e))
    else None
  }

  function DelayFailureResult(db: CommandDb, c: CommandId, owner: Owner, now: Time): Option<CommandDb> {
    if Holds(db.rows, c, Finalizing, owner) then
      Some(db.(rows := db.rows[c := Release(db.rows[c]).(nextAttemptAt := Some(now + RESULT_REPUBLISH_DELAY))]))
    else None
  }

  function MarkTimeoutNotified(db: CommandDb, c: CommandId, owner: Owner, now: Time): Option<CommandDb> {
    if Holds(db.rows, c, Published, owner) then
      var r := Release(db.rows[c]).(publishedAt := Some(now), lastError := Some("device acknowledgement timeout"));
      Some(db.(rows := db.rows[c := r]))
    else None
  }

  // ---- What the gateway does with one claimed command -----------------------------------

  /** What became of the message the gateway sent for the head of its batch. */
  datatype Outcome = Unsent | Sent | Refused(error: string)

  /** The statement that releases the head of the batch. `wall` is the gateway's own clock. */
  function MarkHead(cfg: Config, db: CommandDb, stage: Stage, outcome: Outcome, item: PendingCommand, owner: Owner, now: Time, wall: Time)
    : Option<CommandDb>
    requires stage.DispatchStage? ==> item.publishAttempts >= 1
  {
    var c := item.commandId;
    match stage
    case TimeoutStage => MarkTimeoutNotified(db, c, owner, now)
    case FailureStage => DelayFailureResult(db, c, owner, now)
    case DispatchStage =>
      if outcome.Refused? then
        if item.publishAttempts >= cfg.maxAttempts then
          MarkPublishExhausted(db, c, owner, outcome.error, now)
        else
          ScheduleRetry(cfg, db, item, owner, outcome.error,
            wall + Backoff.Delay(cfg.retryInitial, cfg.retryMax, item.publishAttempts), now)
      else
        MarkPublished(db, c, owner, now)
  }

  /** The failure a gateway reports for a command it could not get acknowledged or published. */
  function FailureReport(stage: Stage, item: PendingCommand, at: Time): CommandResult {
    if stage.TimeoutStage? then
      CommandResult(item.commandId, item.deviceId, false, None, Some("device acknowledgement timeout"),
        Some("device.ack.timeout"), Some(item.publishAttempts), at)
    else
      CommandResult(item.commandId, item.deviceId, false, None, Some(item.lastError),
        Some("mqtt.publish.exhausted"), Some(item.publishAttempts), at)
  }

  // ---- applyCommandResult ------------------------------------------------------------------

  datatype ResultError = UnknownCommand | DeviceMismatch | MissingState

  function SettledCode(r: CommandResult): Option<string> {
    if r.success then None
    else if r.failureCode.Some? then r.failureCode
    else Some("device.command.rejected")
  }

  /** The result as stored: a failure always carries a code. */
  function SettledResult(r: CommandResult): CommandResult {
    if r.success then r else r.(failureCode := SettledCode(r))
  }

  function SettleRow(row: Row, r: CommandResult): Row {
    var reported := if r.publishAttempts.Some? then r.publishAttempts.value else 0;
    row.(status := if r.success then Succeeded else Failed,
         completedAt := Some(r.occurredAt),
         result := Some(SettledResult(r)),
         lastError := r.error,
         failureCode := SettledCode(r),
         publishAttempts := if row.publishAttempts >= reported then row.publishAttempts else reported)
  }

  function TerminalEvent(payload: Command, r: CommandResult): Event {
    Event(if r.success then CommandSucceeded else CommandFailed, r.deviceId, TerminalBody(payload, SettledResult(r)), r.occurredAt)
  }

  function StoreDeviceState(devices: map<string, Device>, r: CommandResult): map<string, Device> {
    if r.success && r.state.Some? && r.deviceId in devices
    then devices[r.deviceId := devices[r.deviceId].(state := r.state.value)]
    else devices
  }

  function ApplyCommandResult(db: CommandDb, r: CommandResult): Result<CommandDb, ResultError> {
    if r.commandId !in db.rows then Err(UnknownCommand)
    else
      var row := db.rows[r.commandId];
      if row.deviceId != r.deviceId then Err(DeviceMismatch)
      else if Terminal(row.status) then Ok(db)
      else if r.success && r.state.None? then Err(MissingState)
      else
        Ok(AddEvent(
          db.(rows := db.rows[r.commandId := SettleRow(row, r)], devices := StoreDeviceState(db.devices, r)),
          TerminalOf(r.commandId), TerminalEvent(row.payload, r)))
  }
}
