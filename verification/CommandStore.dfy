/** The command tables as the objects that run the statements: each method changes the
    tables in place exactly as its statement says. */
module CommandStore {
  import opened Prelude
  import opened Ids
  import opened Schema
  import opened Commands
  import opened Selection

  /** The rows a claim returns, in the order chosen. */
  function Items(stage: Stage, rows: map<CommandId, Row>, chosen: seq<CommandId>): seq<PendingCommand>
    requires forall c :: c in chosen ==> c in rows
  {
    seq(|chosen|, i requires 0 <= i < |chosen| => Item(stage, chosen[i], rows[chosen[i]]))
  }

  class Store {
    var rows: map<CommandId, Row>
    var events: map<EventKey, Event>
    var devices: map<string, Device>
    ghost var shadowed: set<EventKey>

    ghost function Db(): CommandDb
      reads this
    {
      CommandDb(rows, events, devices, shadowed)
    }

    constructor (db: CommandDb)
      ensures Db() == db
    {
      rows, events, devices, shadowed := db.rows, db.events, db.devices, db.shadowed;
    }

    /** insert into workspace_event ... on conflict(event_id) do nothing */
    method InsertEvent(k: EventKey, e: Event)
      modifies this`events, this`shadowed
      ensures events == PutEvent(old(events), k, e) && shadowed == Shade(old(events), old(shadowed), k)
    {
      shadowed := Shade(events, shadowed, k);
      if !Taken(events, k) {
        events := events[k := e];
      }
    }

    method CreateDeviceCommand(deviceId: string, payload: Command, requestedAt: Time)
      modifies this
      ensures Db() == CreateCommand(old(Db()), deviceId, payload, requestedAt)
    {
      var id := payload.commandId;
      if id !in rows {
        rows := rows[id := NewRow(deviceId, payload, requestedAt)];
      }
      InsertEvent(PendingOf(id), PendingEvent(payload, deviceId, requestedAt));
    }

    // ---- Claims --------------------------------------------------------------------------

    method Claim(cfg: Config, stage: Stage, owner: Owner, now: Time, locked: set<CommandId>)
      returns (items: seq<PendingCommand>, ghost chosen: seq<CommandId>)
      modifies this
      ensures Distinct(chosen)
      ensures forall c :: c in chosen ==> c in old(rows) && c in rows && Claimable(cfg, stage, old(rows)[c], now)
      ensures ClaimTakes(cfg, stage, old(rows), now, locked, Elements(chosen))
      ensures Db() == old(Db()).(rows := ClaimRows(cfg, stage, old(rows), Elements(chosen), owner, now))
      ensures items == Items(stage, rows, chosen)
    {
      var ids := SelectOldest(Eligible(cfg, stage, rows, now) - locked, ClaimKey(stage, rows), CLAIM_LIMIT);
      var taken := Elements(ids);
      assert forall c :: c in ids ==> c in taken;
      rows := map c | c in rows :: if c in taken then ClaimRow(cfg, stage, rows[c], owner, now) else rows[c];
      chosen := ids;
      items := Items(stage, rows, ids);
    }

    // ---- Marks -----------------------------------------------------------------------------

    method MarkCommandPublished(c: CommandId, owner: Owner, now: Time) returns (ok: bool)
      modifies this
      ensures var m := MarkPublished(old(Db()), c, owner, now);
              ok == m.Some? && Db() == if ok then m.value else old(Db())
    {
      if c !in rows || rows[c].status != Publishing || rows[c].dispatchOwner != Some(owner) {
        return false;
      }
      rows := rows[c := rows[c].(status := Published, publishedAt := Some(now), lastError := None, nextAttemptAt := None,
                                 dispatchOwner := None, leaseUntil := None)];
      return true;
    }

    method ScheduleCommandRetry(cfg: Config, item: PendingCommand, owner: Owner, error: string, nextAttempt: Time, now: Time) returns (ok: bool)
      modifies this
      ensures var m := ScheduleRetry(cfg, old(Db()), item, owner, error, nextAttempt, now);
              ok == m.Some? && Db() == if ok then m.value else old(Db())
    {
      var c := item.commandId;
      if c !in rows || rows[c].status != Publishing || rows[c].dispatchOwner != Some(owner) {
        return false;
      }
      rows := rows[c := rows[c].(status := Retrying, lastError := Some(error), nextAttemptAt := Some(nextAttempt),
                                 failureCode := Some("mqtt.publish.failed"), dispatchOwner := None, leaseUntil := None)];
      InsertEvent(RetryOf(c, item.publishAttempts),
        Event(CommandRetrying, item.deviceId, RetryBody(c, item.publishAttempts, cfg.maxAttempts, error, nextAttempt), now));
      return true;
    }

    method MarkCommandPublishExhausted(c: CommandId, owner: Owner, error: string, now: Time) returns (ok: bool)
      modifies this
      ensures var m := MarkPublishExhausted(old(Db()), c, owner, error, now);
              ok == m.Some? && Db() == if ok then m.value else old(Db())
    {
      if c !in rows || rows[c].status != Publishing || rows[c].dispatchOwner != Some(owner) {
        return false;
      }
      rows := rows[c := rows[c].(status := Finalizing, lastError := Some(error), failureCode := Some("mqtt.publish.exhausted"),
                                 nextAttemptAt := Some(now), dispatchOwner := None, leaseUntil := None)];
      return true;
    }

    method DelayCommandFailureResult(c: CommandId, owner: Owner, now: Time) returns (ok: bool)
      modifies this
      ensures var m := DelayFailureResult(old(Db()), c, owner, now);
              ok == m.Some? && Db() == if ok then m.value else old(Db())
    {
      if c !in rows || rows[c].status != Finalizing || rows[c].dispatchOwner != Some(owner) {
        return false;
      }
      rows := rows[c := rows[c].(nextAttemptAt := Some(now + RESULT_REPUBLISH_DELAY), dispatchOwner := None, leaseUntil := None)];
      return true;
    }

    method MarkCommandTimeoutNotified(c: CommandId, owner: Owner, now: Time) returns (ok: bool)
      modifies this
      ensures var m := MarkTimeoutNotified(old(Db()), c, owner, now);
              ok == m.Some? && Db() == if ok then m.value else old(Db())
    {
      if c !in rows || rows[c].status != Published || rows[c].dispatchOwner != Some(owner) {
        return false;
      }
      rows := rows[c := rows[c].(publishedAt := Some(now), lastError := Some("device acknowledgement timeout"),
                                 dispatchOwner := None, leaseUntil := None)];
      return true;
    }

    // ---- The worker's transaction ------------------------------------------------------------

    /** Returns whether the command had been settled before; an error rolls everything back. */
    method ApplyResult(r: CommandResult) returns (outcome: Result<bool, ResultError>)
      modifies this
      ensures var a := ApplyCommandResult(old(Db()), r);
              match outcome
              case Ok(duplicate) => a == Ok(Db()) && duplicate == Terminal(old(rows)[r.commandId].status)
              case Err(e) => a == Err(e) && Db() == old(Db())
      ensures outcome == Err(UnknownCommand) <==> r.commandId !in old(rows)
      ensures outcome == Err(DeviceMismatch) <==> r.commandId in old(rows) && r.deviceId != old(rows)[r.commandId].deviceId
      ensures outcome == Ok(true) <==>
                r.commandId in old(rows) && r.deviceId == old(rows)[r.commandId].deviceId && old(rows)[r.commandId].status in {Succeeded, Failed}
      ensures outcome == Ok(true) ==> Db() == old(Db())
      ensures outcome == Err(MissingState) ==> r.success && r.state.None?
      ensures outcome == Ok(false) && r.success ==> r.state.Some? && (r.deviceId in devices ==> devices[r.deviceId].state == r.state.value)
    {
      var id := r.commandId;
      if id !in rows {
        return Err(UnknownCommand);
      }
      var row := rows[id];
      if row.deviceId != r.deviceId {
        return Err(DeviceMismatch);
      }
      if row.status.Succeeded? || row.status.Failed? {
        return Ok(true);
      }
      if r.success {
        if r.state.None? {
          return Err(MissingState);
        }
        if r.deviceId in devices {
          devices := devices[r.deviceId := devices[r.deviceId].(state := r.state.value)];
        }
      }
      rows := rows[id := SettleRow(row, r)];
      InsertEvent(TerminalOf(id), TerminalEvent(row.payload, r));
      return Ok(false);
    }
  }
}
