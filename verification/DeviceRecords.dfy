/** What the rows say: the devices follow the commands in the order they were settled, a
    settled command tells one entry of the result log, any other why it waits. */
module DeviceRecords {
  import opened Prelude
  import opened Ids
  import opened Schema
  import opened Commands
  import opened Dispatch
  import opened DispatchSafety
  import opened DispatchDiary

  predicate SucceededOn(rows: Rows, c: CommandId, device: string) {
    c in rows && rows[c].status.Succeeded? && rows[c].deviceId == device
  }

  ghost predicate NoneSucceeded(rows: Rows, settled: seq<CommandId>, device: string) {
    forall i :: 0 <= i < |settled| ==> !SucceededOn(rows, settled[i], device)
  }

  ghost predicate LastSuccess(rows: Rows, settled: seq<CommandId>, device: string, i: nat) {
    && i < |settled| && SucceededOn(rows, settled[i], device)
    && forall j :: i < j < |settled| ==> !SucceededOn(rows, settled[j], device)
  }

  /** A device is as it was at the start, but for the state its last success reported. */
  ghost predicate DeviceTold(rows: Rows, settled: seq<CommandId>, device: string, first: Device, now: Device) {
    && now.kind == first.kind && now.enabled == first.enabled
    && (NoneSucceeded(rows, settled, device) ==> now.state == first.state)
    && (forall i: nat :: LastSuccess(rows, settled, device, i) ==>
         rows[settled[i]].result.Some? && rows[settled[i]].result.value.state == Some(now.state))
  }

  ghost predicate DevicesTold(rows: Rows, settled: seq<CommandId>, first: map<string, Device>, devices: map<string, Device>) {
    && devices.Keys == first.Keys
    && forall d :: d in devices ==> DeviceTold(rows, settled, d, first[d], devices[d])
  }

  lemma {:induction false} NoneOrLast(rows: Rows, settled: seq<CommandId>, device: string)
    ensures NoneSucceeded(rows, settled, device) || exists i: nat :: LastSuccess(rows, settled, device, i)
    decreases |settled|
  {
    if settled != [] {
      var n := |settled| - 1;
      if SucceededOn(rows, settled[n], device) {
        assert LastSuccess(rows, settled, device, n);
      } else {
        NoneOrLast(rows, settled[..n], device);
        if i: nat :| LastSuccess(rows, settled[..n], device, i) {
          assert LastSuccess(rows, settled, device, i);
        } else {
          assert forall j :: 0 <= j < n ==> settled[..n][j] == settled[j];
        }
      }
    }
  }

  /** What is settled stays as it is, so its successes do too. */
  lemma ToldStays(rows: Rows, rows': Rows, settled: seq<CommandId>, first: map<string, Device>, devices: map<string, Device>)
    requires DevicesTold(rows, settled, first, devices)
    requires forall c :: c in settled ==> c in rows && c in rows' && rows'[c] == rows[c]
    ensures DevicesTold(rows', settled, first, devices)
  {
    forall d, i | d in devices && 0 <= i < |settled| ensures SucceededOn(rows', settled[i], d) == SucceededOn(rows, settled[i], d) {
    }
    forall d | d in devices ensures DeviceTold(rows', settled, d, first[d], devices[d]) {
      assert NoneSucceeded(rows', settled, d) ==> NoneSucceeded(rows, settled, d);
      forall i: nat | LastSuccess(rows', settled, d, i)
        ensures rows'[settled[i]].result.Some? && rows'[settled[i]].result.value.state == Some(devices[d].state)
      {
        assert LastSuccess(rows, settled, d, i);
      }
    }
  }

  /** One more command is settled: a success moves its own device, and only in its state. */
  lemma ToldNext(rows: Rows, settled: seq<CommandId>, first: map<string, Device>, devices: map<string, Device>, devices': map<string, Device>, c: CommandId)
    requires DevicesTold(rows, settled, first, devices) && c in rows && Terminal(rows[c].status) && devices'.Keys == devices.Keys
    requires forall d :: d in devices && !SucceededOn(rows, c, d) ==> devices'[d] == devices[d]
    requires rows[c].status.Succeeded? && rows[c].deviceId in devices ==>
      && rows[c].result.Some? && rows[c].result.value.state.Some?
      && devices'[rows[c].deviceId] == devices[rows[c].deviceId].(state := rows[c].result.value.state.value)
    ensures DevicesTold(rows, settled + [c], first, devices')
  {
    var settled', n := settled + [c], |settled|;
    assert forall i :: 0 <= i < n ==> settled'[i] == settled[i];
    forall d | d in devices' ensures DeviceTold(rows, settled', d, first[d], devices'[d]) {
      if SucceededOn(rows, c, d) {
        assert settled'[n] == c;
      } else {
        assert NoneSucceeded(rows, settled', d) ==> NoneSucceeded(rows, settled, d);
        forall i: nat | LastSuccess(rows, settled', d, i) ensures LastSuccess(rows, settled, d, i) {
          assert settled'[n] == c;
        }
      }
    }
  }

  /** What a settlement writes to the devices. */
  lemma SettleWrites(cfg: Config, s: System, i: nat)
    requires Commands.ValidConfig(cfg) && Inv(cfg, s) && i < |s.log| && s.log[i].commandId in s.db.rows
    requires !Terminal(s.db.rows[s.log[i].commandId].status)
    ensures var t, c := AfterSettle(s, i), s.log[i].commandId;
      && c in t.db.rows && t.db.devices.Keys == s.db.devices.Keys
      && (forall d :: d in s.db.devices && !SucceededOn(t.db.rows, c, d) ==> t.db.devices[d] == s.db.devices[d])
      && (t.db.rows[c].status.Succeeded? && t.db.rows[c].deviceId in s.db.devices ==>
           && t.db.rows[c].result.Some? && t.db.rows[c].result.value.state.Some?
           && t.db.devices[t.db.rows[c].deviceId] == s.db.devices[t.db.rows[c].deviceId].(state := t.db.rows[c].result.value.state.value))
  {
    assert Credible(s.db.rows, s.past.answers, s.log[i]);
    SettledRow(cfg, s.db, s.log[i], s.now);
  }

  lemma SettleTold(cfg: Config, s: System, d: Diary, i: nat, first: map<string, Device>)
    requires Commands.ValidConfig(cfg) && Inv(cfg, s) && SettledOk(s.db.rows, d.settled) && i < |s.log|
    requires DevicesTold(s.db.rows, d.settled, first, s.db.devices)
    ensures var t := AfterSettle(s, i);
      DevicesTold(t.db.rows, NoteSettle(d, s.db.rows, t.db.rows, s.log[i].commandId).settled, first, t.db.devices)
  {
    var t, c := AfterSettle(s, i), s.log[i].commandId;
    SettleParts(cfg, s, i);
    if !Terminal(s.db.rows[c].status) {
      SettleWrites(cfg, s, i);
      ToldStays(s.db.rows, t.db.rows, d.settled, first, s.db.devices);
      ToldNext(t.db.rows, d.settled, first, s.db.devices, t.db.devices, c);
    }
  }

  lemma QuietDevices(cfg: Config, s: System, step: Step)
    requires Enabled(cfg, s, step) && !step.Settle?
    ensures After(cfg, s, step).db.devices == s.db.devices
  {
  }

  lemma QuietSettled(cfg: Config, s: System, step: Step, d: Diary)
    requires Enabled(cfg, s, step) && !step.Settle?
    ensures Note(cfg, s, step, d).settled == d.settled
  {
    var after := After(cfg, s, step).db.rows;
    if step.Mark? {
      var gw := s.gateways[step.g];
      MarkSettlesNothing(d, s.db.rows, after, gw.batch[0].item, gw.outcome, s.now, step.wall);
    }
  }

  lemma MarkSettlesNothing(d: Diary, before: Rows, after: Rows, item: PendingCommand, outcome: Outcome, now: Time, wall: Time)
    ensures NoteMark(d, before, after, item, outcome, now, wall).settled == d.settled
  {
    var c := item.commandId;
    if c in before && c in after && after[c] != before[c] {
      match after[c].status
      case Retrying =>
      case Published =>
      case Finalizing =>
      case _ =>
    }
  }

  lemma StepTold(cfg: Config, s: System, step: Step, d: Diary, first: map<string, Device>)
    requires Commands.ValidConfig(cfg) && Inv(cfg, s) && SettledOk(s.db.rows, d.settled) && Enabled(cfg, s, step)
    requires DevicesTold(s.db.rows, d.settled, first, s.db.devices)
    ensures var t := After(cfg, s, step); DevicesTold(t.db.rows, Note(cfg, s, step, d).settled, first, t.db.devices)
  {
    if step.Settle? {
      SettleTold(cfg, s, d, step.offset, first);
    } else {
      var t := After(cfg, s, step);
      QuietDevices(cfg, s, step);
      QuietSettled(cfg, s, step, d);
      StepGrows(cfg, s, step);
      forall c | c in d.settled ensures c in s.db.rows && c in t.db.rows && t.db.rows[c] == s.db.rows[c] {
        assert RowGrows(s.db.rows[c], t.db.rows[c]);
      }
      ToldStays(s.db.rows, t.db.rows, d.settled, first, s.db.devices);
    }
  }

  lemma {:induction false} RunTold(cfg: Config, s: System, d: Diary, steps: seq<Step>, t: System, e: Diary, first: map<string, Device>)
    requires Commands.ValidConfig(cfg) && Inv(cfg, s) && DiaryOk(cfg, s, d) && RunNoted(cfg, s, d, steps, t, e)
    requires DevicesTold(s.db.rows, d.settled, first, s.db.devices)
    ensures DevicesTold(t.db.rows, e.settled, first, t.db.devices)
    decreases |steps|
  {
    if steps != [] {
      StepTold(cfg, s, steps[0], d, first);
      StepInv(cfg, s, steps[0]);
      StepDiary(cfg, s, d, steps[0]);
      RunTold(cfg, After(cfg, s, steps[0]), Note(cfg, s, steps[0], d), steps[1..], t, e, first);
    }
  }

  /** In every run each device keeps its kind and whether it is enabled. Its stored state is
      the one in the stored result of the last settled command that succeeded on it, and the
      one it started with if none did. */
  lemma DevicesFollowSettlements(cfg: Config, s0: System, steps: seq<Step>, s: System, d: Diary, device: string)
    requires Commands.ValidConfig(cfg) && Init(s0) && RunNoted(cfg, s0, BLANK, steps, s, d)
    ensures device in s.db.devices <==> device in s0.db.devices
    ensures device in s.db.devices ==>
      var first, now := s0.db.devices[device], s.db.devices[device];
      && now.kind == first.kind && now.enabled == first.enabled
      && (NoneSucceeded(s.db.rows, d.settled, device) || exists i: nat :: LastSuccess(s.db.rows, d.settled, device, i))
      && (NoneSucceeded(s.db.rows, d.settled, device) ==> now.state == first.state)
      && (forall i: nat :: LastSuccess(s.db.rows, d.settled, device, i) ==>
           s.db.rows[d.settled[i]].result.Some? && s.db.rows[d.settled[i]].result.value.state == Some(now.state))
  {
    InitInv(cfg, s0);
    InitDiary(cfg, s0);
    RunTold(cfg, s0, BLANK, steps, s, d, s0.db.devices);
    NoneOrLast(s.db.rows, d.settled, device);
    if device in s.db.devices {
      assert DeviceTold(s.db.rows, d.settled, device, s0.db.devices[device], s.db.devices[device]);
    }
  }

  /** The diary lists exactly the settled commands, each once, in the order of settlement. */
  lemma SettledListed(cfg: Config, s: System, d: Diary, c: CommandId)
    requires Commands.ValidConfig(cfg) && Recorded(cfg, s, d)
    ensures Distinct(d.settled) && (c in d.settled <==> c in s.db.rows && Terminal(s.db.rows[c].status))
  {
    RecordedOk(cfg, s, d);
  }

  // ---- What a settled row says -------------------------------------------------------------------

  /** The row tells one result: its outcome, time and error, and a failure always with a code. */
  predicate TellsResult(r: Row, c: CommandId, e: CommandResult) {
    && e.commandId == c && e.deviceId == r.deviceId
    && r.completedAt == Some(e.occurredAt) && r.lastError == e.error
    && if e.success then r.status == Succeeded && r.failureCode.None? && r.result == Some(e)
       else
         && r.status == Failed
         && r.failureCode == (if e.failureCode.Some? then e.failureCode else Some("device.command.rejected"))
         && r.result == Some(e.(failureCode := r.failureCode))
  }

  ghost predicate InLog(r: Row, c: CommandId, log: seq<CommandResult>) {
    exists i :: 0 <= i < |log| && TellsResult(r, c, log[i])
  }

  ghost predicate RowsInLog(rows: Rows, log: seq<CommandResult>) {
    forall c :: c in rows && Terminal(rows[c].status) ==> InLog(rows[c], c, log)
  }

  lemma LogGrows(rows: Rows, log: seq<CommandResult>, log': seq<CommandResult>)
    requires RowsInLog(rows, log) && log <= log'
    ensures RowsInLog(rows, log')
  {
    forall c | c in rows && Terminal(rows[c].status) ensures InLog(rows[c], c, log') {
      var i :| 0 <= i < |log| && TellsResult(rows[c], c, log[i]);
      assert log'[i] == log[i];
    }
  }

  lemma SettleTells(row: Row, r: CommandResult)
    requires row.deviceId == r.deviceId
    ensures TellsResult(SettleRow(row, r), r.commandId, r)
  {
  }

  lemma SettleInLog(cfg: Config, s: System, i: nat)
    requires Commands.ValidConfig(cfg) && Inv(cfg, s) && i < |s.log| && RowsInLog(s.db.rows, s.log)
    ensures var t := AfterSettle(s, i); RowsInLog(t.db.rows, t.log)
  {
    var t, r := AfterSettle(s, i), s.log[i];
    SettleParts(cfg, s, i);
    assert Credible(s.db.rows, s.past.answers, r);
    if !Terminal(s.db.rows[r.commandId].status) {
      SettleTells(s.db.rows[r.commandId], r);
      forall c | c in t.db.rows && Terminal(t.db.rows[c].status) ensures InLog(t.db.rows[c], c, t.log) {
        if c == r.commandId {
          assert TellsResult(t.db.rows[c], c, t.log[i]);
        } else {
          assert InLog(s.db.rows[c], c, s.log);
        }
      }
    }
  }

  /** Only a settlement settles anything. */
  lemma QuietTerminal(cfg: Config, s: System, step: Step, d: Diary, c: CommandId)
    requires Commands.ValidConfig(cfg) && Inv(cfg, s) && DiaryOk(cfg, s, d) && Enabled(cfg, s, step) && !step.Settle?
    ensures var t := After(cfg, s, step);
      c in t.db.rows && Terminal(t.db.rows[c].status) ==> c in s.db.rows && Terminal(s.db.rows[c].status) && t.db.rows[c] == s.db.rows[c]
  {
    var t := After(cfg, s, step);
    StepDiary(cfg, s, d, step);
    QuietSettled(cfg, s, step, d);
    StepGrows(cfg, s, step);
    if c in t.db.rows && Terminal(t.db.rows[c].status) {
      assert c in d.settled;
      assert RowGrows(s.db.rows[c], t.db.rows[c]);
    }
  }

  lemma QuietLog(cfg: Config, s: System, step: Step)
    requires Enabled(cfg, s, step)
    ensures s.log <= After(cfg, s, step).log
  {
  }

  lemma StepInLog(cfg: Config, s: System, step: Step, d: Diary)
    requires Commands.ValidConfig(cfg) && Inv(cfg, s) && DiaryOk(cfg, s, d) && Enabled(cfg, s, step) && RowsInLog(s.db.rows, s.log)
    ensures var t := After(cfg, s, step); RowsInLog(t.db.rows, t.log)
  {
    if step.Settle? {
      SettleInLog(cfg, s, step.offset);
    } else {
      var t := After(cfg, s, step);
      QuietLog(cfg, s, step);
      LogGrows(s.db.rows, s.log, t.log);
      forall c | c in t.db.rows && Terminal(t.db.rows[c].status) ensures InLog(t.db.rows[c], c, t.log) {
        QuietTerminal(cfg, s, step, d, c);
      }
    }
  }

  lemma {:induction false} RunInLog(cfg: Config, s: System, d: Diary, steps: seq<Step>, t: System, e: Diary)
    requires Commands.ValidConfig(cfg) && Inv(cfg, s) && DiaryOk(cfg, s, d) && RunNoted(cfg, s, d, steps, t, e) && RowsInLog(s.db.rows, s.log)
    ensures RowsInLog(t.db.rows, t.log)
    decreases |steps|
  {
    if steps != [] {
      StepInLog(cfg, s, steps[0], d);
      StepInv(cfg, s, steps[0]);
      StepDiary(cfg, s, d, steps[0]);
      RunInLog(cfg, After(cfg, s, steps[0]), Note(cfg, s, steps[0], d), steps[1..], t, e);
    }
  }

  /** A settled row tells one entry of the result log, with a code of its own if that failure
      came without one. */
  lemma SettledRowTells(cfg: Config, s: System, c: CommandId)
    requires Commands.ValidConfig(cfg) && Reachable(cfg, s) && c in s.db.rows && Terminal(s.db.rows[c].status)
    ensures exists i :: 0 <= i < |s.log| && TellsResult(s.db.rows[c], c, s.log[i])
  {
    ReachableIffRecorded(cfg, s);
    var d :| Recorded(cfg, s, d);
    var s0, steps :| Init(s0) && RunNoted(cfg, s0, BLANK, steps, s, d);
    InitInv(cfg, s0);
    InitDiary(cfg, s0);
    RunInLog(cfg, s0, BLANK, steps, s, d);
    assert InLog(s.db.rows[c], c, s.log);
  }

  // ---- What an unsettled row says ----------------------------------------------------------------

  /** While a command is not settled its row says why it waits: for a repeated publish, for the
      report that its publishes are exhausted, or again for an acknowledgement. */
  predicate SaysWhy(r: Row) {
    match r.status
    case Pending => r.failureCode.None? && r.lastError.None?
    case Retrying => r.failureCode == Some("mqtt.publish.failed")
    case Finalizing => r.failureCode == Some("mqtt.publish.exhausted")
    case Published => r.lastError.None? || r.lastError == Some("device acknowledgement timeout")
    case _ => true
  }

  ghost predicate AllSayWhy(rows: Rows) {
    forall c :: c in rows ==> SaysWhy(rows[c])
  }

  lemma ClaimSaysWhy(cfg: Config, stage: Stage, rows: Rows, ids: set<CommandId>, g: Owner, now: Time)
    requires AllSayWhy(rows) && ClaimMade(cfg, stage, rows, now, ids)
    ensures AllSayWhy(ClaimRows(cfg, stage, rows, ids, g, now))
  {
  }

  lemma MarkSaysWhy(cfg: Config, db: CommandDb, stage: Stage, outcome: Outcome, item: PendingCommand, g: Owner, now: Time, wall: Time)
    requires AllSayWhy(db.rows) && (stage.DispatchStage? ==> item.publishAttempts >= 1)
    ensures var m := MarkHead(cfg, db, stage, outcome, item, g, now, wall); m.Some? ==> AllSayWhy(m.value.rows)
  {
    var m := MarkHead(cfg, db, stage, outcome, item, g, now, wall);
    if m.Some? {
      MarkMeans(cfg, db, stage, outcome, item, g, now, wall);
      assert SaysWhy(db.rows[item.commandId]);
      assert SaysWhy(m.value.rows[item.commandId]);
    }
  }

  lemma SettleSaysWhy(cfg: Config, s: System, i: nat)
    requires Commands.ValidConfig(cfg) && Inv(cfg, s) && i < |s.log| && AllSayWhy(s.db.rows)
    ensures AllSayWhy(AfterSettle(s, i).db.rows)
  {
    SettleLeavesOrSettles(cfg, s, i);
    StillSayWhy(s.db.rows, AfterSettle(s, i).db.rows);
  }

  lemma StillSayWhy(rows: Rows, rows': Rows)
    requires AllSayWhy(rows) && forall c :: c in rows' ==> c in rows && (rows'[c] == rows[c] || Terminal(rows'[c].status))
    ensures AllSayWhy(rows')
  {
  }

  lemma SettleLeavesOrSettles(cfg: Config, s: System, i: nat)
    requires Commands.ValidConfig(cfg) && Inv(cfg, s) && i < |s.log|
    ensures var rows := AfterSettle(s, i).db.rows;
      forall c :: c in rows ==> c in s.db.rows && (rows[c] == s.db.rows[c] || Terminal(rows[c].status))
  {
    SettleParts(cfg, s, i);
  }

  lemma CreateSaysWhy(db: CommandDb, payload: Command, at: Time)
    requires AllSayWhy(db.rows)
    ensures AllSayWhy(CreateCommand(db, payload.deviceId, payload, at).rows)
  {
  }

  lemma QuietRows(cfg: Config, s: System, step: Step)
    requires Enabled(cfg, s, step) && !step.Claim? && !step.ClaimUnseen? && !step.Mark? && !step.Settle? && !step.Create?
    ensures After(cfg, s, step).db.rows == s.db.rows
  {
  }

  lemma ClaimStepSaysWhy(cfg: Config, s: System, g: Owner, locked: set<CommandId>, chosen: seq<CommandId>, seen: bool)
    requires ClaimEnabled(cfg, s, g, locked, chosen) && AllSayWhy(s.db.rows)
    ensures AllSayWhy(AfterClaim(cfg, s, g, chosen, seen).db.rows)
  {
    ClaimSaysWhy(cfg, s.gateways[g].stage, s.db.rows, Elements(chosen), g, s.now);
    ClaimLeavesOthers(cfg, s, g, chosen, seen);
  }

  lemma MarkStepSaysWhy(cfg: Config, s: System, g: Owner, wall: Time)
    requires Enabled(cfg, s, Mark(g, wall)) && AllSayWhy(s.db.rows)
    ensures AllSayWhy(AfterMark(cfg, s, g, wall).db.rows)
  {
    var gw := s.gateways[g];
    MarkSaysWhy(cfg, s.db, gw.stage, gw.outcome, gw.batch[0].item, g, s.now, wall);
    MarkParts(cfg, s, g, wall);
  }

  lemma StepSaysWhy(cfg: Config, s: System, step: Step)
    requires Commands.ValidConfig(cfg) && Inv(cfg, s) && Enabled(cfg, s, step) && AllSayWhy(s.db.rows)
    ensures AllSayWhy(After(cfg, s, step).db.rows)
  {
    match step {
      case Claim(g, locked, chosen) => ClaimStepSaysWhy(cfg, s, g, locked, chosen, true);
      case ClaimUnseen(g, locked, chosen) => ClaimStepSaysWhy(cfg, s, g, locked, chosen, false);
      case Mark(g, wall) => MarkStepSaysWhy(cfg, s, g, wall);
      case Settle(i) => SettleSaysWhy(cfg, s, i);
      case Create(payload, at) => CreateSaysWhy(s.db, payload, at);
      case _ => QuietRows(cfg, s, step);
    }
  }

  lemma {:induction false} RunSaysWhy(cfg: Config, s: System, steps: seq<Step>, t: System)
    requires Commands.ValidConfig(cfg) && Inv(cfg, s) && RunFrom(cfg, s, steps, t) && AllSayWhy(s.db.rows)
    ensures AllSayWhy(t.db.rows)
    decreases |steps|
  {
    if steps != [] {
      StepSaysWhy(cfg, s, steps[0]);
      StepInv(cfg, s, steps[0]);
      RunSaysWhy(cfg, After(cfg, s, steps[0]), steps[1..], t);
    }
  }

  /** In every reachable state an unsettled row's code and error fit its status. */
  lemma UnsettledRowTells(cfg: Config, s: System, c: CommandId)
    requires Commands.ValidConfig(cfg) && Reachable(cfg, s) && c in s.db.rows
    ensures SaysWhy(s.db.rows[c])
  {
    var s0, steps :| Init(s0) && RunFrom(cfg, s0, steps, s);
    InitInv(cfg, s0);
    RunSaysWhy(cfg, s0, steps, s);
  }
}
