/** When commands are claimed, published and reported, in the times an observer wrote down:
    nothing here is said through the conditions and orders the statements use. */
module DispatchTimes {
  import opened Prelude
  import opened Ids
  import opened Schema
  import opened Commands
  import opened Dispatch
  import opened DispatchSafety
  import opened DispatchTheorems
  import opened DispatchDiary
  import Backoff

  /** Gateway `g` is about to claim. */
  predicate AtStage(s: System, g: Owner, stage: Stage) {
    g in s.gateways && !s.gateways[g].claimed && s.gateways[g].stage == stage
  }

  /** Some claim that gateway `g` could make now takes `c`. */
  ghost predicate CanTake(cfg: Config, s: System, g: Owner, c: CommandId) {
    exists locked, chosen :: c in chosen && ClaimEnabled(cfg, s, g, locked, chosen)
  }

  lemma CanTakeIff(cfg: Config, s: System, g: Owner, c: CommandId)
    requires g in s.gateways && !s.gateways[g].claimed
    ensures CanTake(cfg, s, g, c) <==> c in s.db.rows && Claimable(cfg, s.gateways[g].stage, s.db.rows[c], s.now)
  {
    if c in s.db.rows && Claimable(cfg, s.gateways[g].stage, s.db.rows[c], s.now) {
      var locked := Eligible(cfg, s.gateways[g].stage, s.db.rows, s.now) - {c};
      assert Elements([c]) == {c} && Eligible(cfg, s.gateways[g].stage, s.db.rows, s.now) - locked == {c};
      assert ClaimEnabled(cfg, s, g, locked, [c]);
    }
  }

  /** The wait before the attempt after `n`: doubled each time, and capped. */
  function Wait(cfg: Config, n: nat): int
    requires n >= 1
  {
    var doubled := cfg.retryInitial * Backoff.Pow2(n - 1);
    if doubled <= cfg.retryMax then doubled else cfg.retryMax
  }

  /** The doubling stays within 64 bits. */
  predicate InRange(cfg: Config, n: nat)
    requires n >= 1
  {
    cfg.retryInitial * Backoff.Pow2(n - 1) < Backoff.TWO63
  }

  lemma DelayIsWait(cfg: Config, n: nat)
    requires Commands.ValidConfig(cfg) && n >= 1 && InRange(cfg, n)
    ensures Backoff.Delay(cfg.retryInitial, cfg.retryMax, n) == Wait(cfg, n)
  {
    Backoff.DelayExact(cfg.retryInitial, cfg.retryMax, n);
  }

  // ---- A refused publish waits ---------------------------------------------------------------------

  lemma ClaimTakesRetrying(cfg: Config, s: System, g: Owner, locked: set<CommandId>, chosen: seq<CommandId>, seen: bool, c: CommandId)
    requires ClaimEnabled(cfg, s, g, locked, chosen) && c in s.db.rows && s.db.rows[c].status.Retrying?
    ensures var t := AfterClaim(cfg, s, g, chosen, seen);
      c in t.db.rows && (t.db.rows[c] == s.db.rows[c] || t.db.rows[c].publishAttempts > s.db.rows[c].publishAttempts)
  {
    ClaimLeavesOthers(cfg, s, g, chosen, seen);
    if c in chosen {
      ClaimMeans(cfg, s.gateways[g].stage, s.db.rows[c], g, s.now);
    }
  }

  lemma MarkLeavesRetrying(cfg: Config, s: System, g: Owner, wall: Time, c: CommandId)
    requires Commands.ValidConfig(cfg) && Inv(cfg, s) && Enabled(cfg, s, Mark(g, wall))
    requires c in s.db.rows && s.db.rows[c].status.Retrying?
    ensures var t := AfterMark(cfg, s, g, wall); c in t.db.rows && t.db.rows[c] == s.db.rows[c]
  {
    var gw := s.gateways[g];
    assert RowOk(cfg, s.db.rows[c]);
    MarkMeans(cfg, s.db, gw.stage, gw.outcome, gw.batch[0].item, g, s.now, wall);
  }

  lemma SettleLeavesRetrying(cfg: Config, s: System, i: nat, c: CommandId)
    requires Commands.ValidConfig(cfg) && Inv(cfg, s) && i < |s.log| && c in s.db.rows
    ensures var t := AfterSettle(s, i); c in t.db.rows && (t.db.rows[c] == s.db.rows[c] || Terminal(t.db.rows[c].status))
  {
    SettleParts(cfg, s, i);
  }

  lemma OthersLeaveRetrying(cfg: Config, s: System, step: Step, c: CommandId)
    requires Enabled(cfg, s, step) && c in s.db.rows
    requires !step.Claim? && !step.ClaimUnseen? && !step.Mark? && !step.Settle?
    ensures var t := After(cfg, s, step); c in t.db.rows && t.db.rows[c] == s.db.rows[c]
  {
    if step.Create? {
      CreateParts(s.db, step.payload, step.at);
    }
  }

  /** A waiting row stays as it is until it is claimed for its next attempt, or settled. */
  lemma RetryingStays(cfg: Config, s: System, step: Step, c: CommandId)
    requires Commands.ValidConfig(cfg) && Inv(cfg, s) && Enabled(cfg, s, step)
    requires c in s.db.rows && s.db.rows[c].status.Retrying?
    ensures var t := After(cfg, s, step);
      && c in t.db.rows
      && (t.db.rows[c] == s.db.rows[c] || t.db.rows[c].publishAttempts > s.db.rows[c].publishAttempts || Terminal(t.db.rows[c].status))
  {
    match step {
      case Claim(g, locked, chosen) => ClaimTakesRetrying(cfg, s, g, locked, chosen, true, c);
      case ClaimUnseen(g, locked, chosen) => ClaimTakesRetrying(cfg, s, g, locked, chosen, false, c);
      case Mark(g, wall) => MarkLeavesRetrying(cfg, s, g, wall, c);
      case Settle(i) => SettleLeavesRetrying(cfg, s, i, c);
      case _ => OthersLeaveRetrying(cfg, s, step, c);
    }
  }

  lemma {:induction false} RunGrows(cfg: Config, s: System, steps: seq<Step>, t: System)
    requires Commands.ValidConfig(cfg) && Inv(cfg, s) && RunFrom(cfg, s, steps, t)
    ensures RowsGrow(s.db.rows, t.db.rows)
    decreases |steps|
  {
    if steps != [] {
      var u := After(cfg, s, steps[0]);
      StepInv(cfg, s, steps[0]);
      StepGrows(cfg, s, steps[0]);
      RunGrows(cfg, u, steps[1..], t);
      forall c | c in s.db.rows ensures c in t.db.rows && RowGrows(s.db.rows[c], t.db.rows[c]) {
        assert RowGrows(s.db.rows[c], u.db.rows[c]) && RowGrows(u.db.rows[c], t.db.rows[c]);
      }
    }
  }

  lemma {:induction false} WaitsUnchanged(cfg: Config, s: System, steps: seq<Step>, t: System, c: CommandId)
    requires Commands.ValidConfig(cfg) && Inv(cfg, s) && RunFrom(cfg, s, steps, t)
    requires c in s.db.rows && s.db.rows[c].status.Retrying?
    requires c in t.db.rows && t.db.rows[c].status.Retrying? && t.db.rows[c].publishAttempts == s.db.rows[c].publishAttempts
    ensures t.db.rows[c] == s.db.rows[c]
    decreases |steps|
  {
    if steps != [] {
      var u := After(cfg, s, steps[0]);
      StepInv(cfg, s, steps[0]);
      RetryingStays(cfg, s, steps[0], c);
      RunGrows(cfg, u, steps[1..], t);
      assert RowGrows(u.db.rows[c], t.db.rows[c]);
      WaitsUnchanged(cfg, u, steps[1..], t, c);
    }
  }

  /** The gateway that holds the claim records a refused publish of attempt `n`. From then on,
      and for as long as the row waits for attempt n + 1, a claim can take it exactly if the
      doubled and capped delay has passed since the gateway's clock at the refusal. */
  lemma RefusedWaits(cfg: Config, s: System, g: Owner, wall: Time, steps: seq<Step>, t: System, o: Owner)
    requires Commands.ValidConfig(cfg) && Reachable(cfg, s) && Enabled(cfg, s, Mark(g, wall))
    requires s.gateways[g].stage.DispatchStage? && s.gateways[g].outcome.Refused?
    requires var h := Flight(s, g, 0);
      && h.item.commandId in s.db.rows && !Terminal(s.db.rows[h.item.commandId].status)
      && h.epoch == s.past.claims[h.item.commandId] && h.item.publishAttempts < cfg.maxAttempts && InRange(cfg, h.item.publishAttempts)
    requires RunFrom(cfg, After(cfg, s, Mark(g, wall)), steps, t) && AtStage(t, o, DispatchStage)
    ensures var u, c, n := After(cfg, s, Mark(g, wall)), Flight(s, g, 0).item.commandId, Flight(s, g, 0).item.publishAttempts;
      && c in u.db.rows && u.db.rows[c].status.Retrying? && u.db.rows[c].publishAttempts == n
      && c in t.db.rows
      && (t.db.rows[c].status.Retrying? && t.db.rows[c].publishAttempts == n ==>
            (CanTake(cfg, t, o, c) <==> t.now >= wall + Wait(cfg, n)))
  {
    var u, c := After(cfg, s, Mark(g, wall)), Flight(s, g, 0).item.commandId;
    ReachableInv(cfg, s);
    StepInv(cfg, s, Mark(g, wall));
    RefusedRow(cfg, s, g, wall);
    WaitingUntilTaken(cfg, u, steps, t, o, c);
  }

  /** While a row waits, a claim can take it exactly from the time it is told to wait for. */
  lemma WaitingUntilTaken(cfg: Config, s: System, steps: seq<Step>, t: System, o: Owner, c: CommandId)
    requires Commands.ValidConfig(cfg) && Inv(cfg, s) && RunFrom(cfg, s, steps, t) && AtStage(t, o, DispatchStage)
    requires c in s.db.rows && s.db.rows[c].status.Retrying? && s.db.rows[c].nextAttemptAt.Some?
    ensures c in t.db.rows
    ensures t.db.rows[c].status.Retrying? && t.db.rows[c].publishAttempts == s.db.rows[c].publishAttempts ==>
              (CanTake(cfg, t, o, c) <==> t.now >= s.db.rows[c].nextAttemptAt.value)
  {
    RunGrows(cfg, s, steps, t);
    if t.db.rows[c].status.Retrying? && t.db.rows[c].publishAttempts == s.db.rows[c].publishAttempts {
      WaitsUnchanged(cfg, s, steps, t, c);
      WaitingTakenIff(cfg, t, o, c);
    }
  }

  lemma WaitingTakenIff(cfg: Config, s: System, g: Owner, c: CommandId)
    requires AtStage(s, g, DispatchStage) && c in s.db.rows && s.db.rows[c].status.Retrying? && s.db.rows[c].nextAttemptAt.Some?
    ensures CanTake(cfg, s, g, c) <==> s.now >= s.db.rows[c].nextAttemptAt.value
  {
    CanTakeIff(cfg, s, g, c);
  }

  lemma RefusedRow(cfg: Config, s: System, g: Owner, wall: Time)
    requires Commands.ValidConfig(cfg) && Reachable(cfg, s) && Enabled(cfg, s, Mark(g, wall))
    requires s.gateways[g].stage.DispatchStage? && s.gateways[g].outcome.Refused?
    requires var h := Flight(s, g, 0);
      && h.item.commandId in s.db.rows && !Terminal(s.db.rows[h.item.commandId].status)
      && h.epoch == s.past.claims[h.item.commandId] && h.item.publishAttempts < cfg.maxAttempts && InRange(cfg, h.item.publishAttempts)
    ensures var t, c, n := AfterMark(cfg, s, g, wall), Flight(s, g, 0).item.commandId, Flight(s, g, 0).item.publishAttempts;
      && c in t.db.rows && t.db.rows[c].status.Retrying? && t.db.rows[c].publishAttempts == n
      && t.db.rows[c].nextAttemptAt == Some(wall + Wait(cfg, n))
  {
    var gw, h := s.gateways[g], Flight(s, g, 0);
    FlightOk(cfg, s, g, 0);
    MarkSucceedsIffStillClaimed(cfg, s, g, wall);
    MarkParts(cfg, s, g, wall);
    MarkedWaits(cfg, s.db, gw.outcome, h.item, g, s.now, wall);
  }

  lemma MarkedWaits(cfg: Config, db: CommandDb, outcome: Outcome, item: PendingCommand, g: Owner, now: Time, wall: Time)
    requires Commands.ValidConfig(cfg) && outcome.Refused? && 1 <= item.publishAttempts < cfg.maxAttempts && InRange(cfg, item.publishAttempts)
    ensures var m, c := MarkHead(cfg, db, DispatchStage, outcome, item, g, now, wall), item.commandId;
      m.Some? ==>
        && c in db.rows && c in m.value.rows && m.value.rows[c].status.Retrying?
        && m.value.rows[c].publishAttempts == db.rows[c].publishAttempts
        && m.value.rows[c].nextAttemptAt == Some(wall + Wait(cfg, item.publishAttempts))
  {
    MarkMeans(cfg, db, DispatchStage, outcome, item, g, now, wall);
    DelayIsWait(cfg, item.publishAttempts);
  }

  // ---- Who can be claimed --------------------------------------------------------------------------

  /** Nobody has a claim on the row that is still running. */
  predicate Unleased(cfg: Config, s: System, d: Diary, c: CommandId)
    requires c in s.db.rows
  {
    s.db.rows[c].dispatchOwner.None? || (c in d.claimed && d.claimed[c] + cfg.lease <= s.now)
  }

  lemma UnleasedIff(cfg: Config, s: System, d: Diary, c: CommandId)
    requires Commands.ValidConfig(cfg) && Recorded(cfg, s, d) && c in s.db.rows
    ensures Unleased(cfg, s, d, c) <==> s.db.rows[c].leaseUntil.None? || s.db.rows[c].leaseUntil.value <= s.now
  {
    RecordedOk(cfg, s, d);
    assert RowOk(cfg, s.db.rows[c]);
  }

  /** A timeout claim can take exactly a published command without a running claim whose
      publication, or last noted timeout, is more than the acknowledgement timeout ago. */
  lemma TimeoutClaimIff(cfg: Config, s: System, d: Diary, g: Owner, c: CommandId)
    requires Commands.ValidConfig(cfg) && Recorded(cfg, s, d) && AtStage(s, g, TimeoutStage)
    ensures CanTake(cfg, s, g, c) <==>
      && c in s.db.rows && s.db.rows[c].status.Published? && Unleased(cfg, s, d, c)
      && c in d.noted && s.now - d.noted[c] > cfg.ackTimeout
  {
    RecordedOk(cfg, s, d);
    CanTakeIff(cfg, s, g, c);
    if c in s.db.rows {
      UnleasedIff(cfg, s, d, c);
    }
  }

  /** A failure claim can take exactly a finalizing command without a running claim whose
      report is due: at once when it runs out of attempts, two seconds after each report. */
  lemma FailureClaimIff(cfg: Config, s: System, d: Diary, g: Owner, c: CommandId)
    requires Commands.ValidConfig(cfg) && Recorded(cfg, s, d) && AtStage(s, g, FailureStage)
    ensures CanTake(cfg, s, g, c) <==>
      && c in s.db.rows && s.db.rows[c].status.Finalizing? && Unleased(cfg, s, d, c)
      && c in d.failing && d.failing[c].due <= s.now
  {
    RecordedOk(cfg, s, d);
    CanTakeIff(cfg, s, g, c);
    if c in s.db.rows {
      UnleasedIff(cfg, s, d, c);
    }
  }

  /** The moment a waiting command is due. */
  function DueAt(cfg: Config, d: Diary, c: CommandId, n: nat): Time
    requires n >= 1 && (c, n) in d.retries
  {
    d.retries[(c, n)].wall + Wait(cfg, n)
  }

  /** A dispatch claim can take exactly a new command, one whose backoff is over, or one whose
      publisher let its claim run out. */
  lemma DispatchClaimIff(cfg: Config, s: System, d: Diary, g: Owner, c: CommandId)
    requires Commands.ValidConfig(cfg) && Recorded(cfg, s, d) && AtStage(s, g, DispatchStage)
    requires c in s.db.rows && s.db.rows[c].status.Retrying? && s.db.rows[c].publishAttempts >= 1 ==> InRange(cfg, s.db.rows[c].publishAttempts)
    ensures CanTake(cfg, s, g, c) <==>
      && c in s.db.rows
      && match s.db.rows[c].status
         case Pending => true
         case Retrying =>
           var n := s.db.rows[c].publishAttempts;
           n >= 1 && (c, n) in d.retries && DueAt(cfg, d, c, n) <= s.now
         case Publishing => Unleased(cfg, s, d, c)
         case _ => false
  {
    RecordedOk(cfg, s, d);
    CanTakeIff(cfg, s, g, c);
    if c in s.db.rows {
      UnleasedIff(cfg, s, d, c);
      assert RowOk(cfg, s.db.rows[c]);
      if s.db.rows[c].status.Retrying? {
        DelayIsWait(cfg, s.db.rows[c].publishAttempts);
      }
    }
  }

  lemma RecordedWaits(cfg: Config, s: System, d: Diary)
    requires Commands.ValidConfig(cfg) && Recorded(cfg, s, d)
    ensures WaitingOk(cfg, s.db.rows, d.retries)
  {
    RecordedOk(cfg, s, d);
  }

  /** At the first attempt whose doubling leaves 64 bits nothing is waited for: the command can
      be taken from the moment of its refusal. */
  lemma OverflowSkipsTheWait(cfg: Config, s: System, d: Diary, g: Owner, c: CommandId)
    requires Commands.ValidConfig(cfg) && Recorded(cfg, s, d) && AtStage(s, g, DispatchStage)
    requires c in s.db.rows && s.db.rows[c].status.Retrying? && s.db.rows[c].publishAttempts >= 2
    requires InRange(cfg, s.db.rows[c].publishAttempts - 1) && !InRange(cfg, s.db.rows[c].publishAttempts)
    ensures (c, s.db.rows[c].publishAttempts) in d.retries
    ensures d.retries[(c, s.db.rows[c].publishAttempts)].wall <= s.now ==> CanTake(cfg, s, g, c)
  {
    RecordedWaits(cfg, s, d);
    CanTakeIff(cfg, s, g, c);
    Backoff.FirstOverflowIsNegative(cfg.retryInitial, cfg.retryMax, s.db.rows[c].publishAttempts);
  }

  /** How long a command has waited: since its publication or last timeout, since its last
      attempt, since its creation. */
  function WaitingSince(s: System, d: Diary, stage: Stage, c: CommandId): Option<Time> {
    match stage
    case TimeoutStage => if c in d.noted then Some(d.noted[c]) else None
    case FailureStage =>
      if c in s.db.rows && (c, s.db.rows[c].publishAttempts) in d.tries then Some(d.tries[(c, s.db.rows[c].publishAttempts)].at) else None
    case DispatchStage => if c in d.created then Some(d.created[c]) else None
  }

  lemma WaitingIsOrder(cfg: Config, s: System, d: Diary, stage: Stage, c: CommandId)
    requires Commands.ValidConfig(cfg) && Recorded(cfg, s, d) && c in s.db.rows && Claimable(cfg, stage, s.db.rows[c], s.now)
    ensures WaitingSince(s, d, stage, c).Some? && ClaimOrder(stage, s.db.rows[c]) == WaitingSince(s, d, stage, c)
  {
    RecordedOk(cfg, s, d);
    assert RowOk(cfg, s.db.rows[c]);
  }

  /** A claim takes at most twenty commands, and passes one over that it could take and nobody
      holds locked only if it is full of commands that have waited at least as long. */
  lemma ClaimsTakeTheOldest(cfg: Config, s: System, d: Diary, g: Owner, locked: set<CommandId>, chosen: seq<CommandId>, c: CommandId, x: CommandId)
    requires Commands.ValidConfig(cfg) && Recorded(cfg, s, d) && ClaimEnabled(cfg, s, g, locked, chosen)
    requires c in chosen && x !in chosen && x !in locked && CanTake(cfg, s, g, x)
    ensures |Elements(chosen)| == 20
    ensures var stage := s.gateways[g].stage;
      && WaitingSince(s, d, stage, c).Some? && WaitingSince(s, d, stage, x).Some?
      && WaitingSince(s, d, stage, c).value <= WaitingSince(s, d, stage, x).value
  {
    var stage := s.gateways[g].stage;
    CanTakeIff(cfg, s, g, x);
    WaitingIsOrder(cfg, s, d, stage, c);
    WaitingIsOrder(cfg, s, d, stage, x);
    assert c in Elements(chosen) && x in Eligible(cfg, stage, s.db.rows, s.now) - locked;
    var key := ClaimKey(stage, s.db.rows);
    assert SortsBefore(key(c), key(x));
  }

  // ---- Publishes -----------------------------------------------------------------------------------

  /** No attempt is published twice. */
  lemma OnePublishPerAttempt(cfg: Config, s: System, d: Diary, step: Step)
    requires Commands.ValidConfig(cfg) && Recorded(cfg, s, d) && Enabled(cfg, s, step) && step.Publish?
    ensures var item := s.gateways[step.g].batch[0].item; (item.commandId, item.publishAttempts) !in d.sends
  {
    RecordedOk(cfg, s, d);
    PublishIsNew(cfg, s, d, step);
  }

  /** Attempt n + 1 of a command that was never reclaimed is published only after attempt `n`
      was published and refused, and not before the doubled and capped delay has passed since
      the gateway's clock at the refusal. */
  lemma PublishesApart(cfg: Config, s: System, d: Diary, c: CommandId, n: nat)
    requires Commands.ValidConfig(cfg) && Recorded(cfg, s, d) && s.past.reclaims[c] == 0
    requires n >= 1 && InRange(cfg, n) && (c, n + 1) in d.sends
    ensures (c, n) in d.sends && (c, n) in d.retries
    ensures d.sends[(c, n)] <= d.retries[(c, n)].at <= d.sends[(c, n + 1)]
    ensures d.retries[(c, n)].wall + Wait(cfg, n) <= d.sends[(c, n + 1)]
  {
    RecordedOk(cfg, s, d);
    SendsApart(cfg, s.db.rows, s.now, s.past.reclaims, d.tries, d.sends, d.retries, c, n);
    DelayIsWait(cfg, n);
  }

  lemma SendsApart(cfg: Config, rows: Rows, now: Time, reclaims: Count, tries: Tries, sends: Sends, retries: Retries, c: CommandId, n: nat)
    requires RetriesOk(rows, retries, sends, now) && SendsOk(sends, tries, now) && Spaced(cfg, reclaims, tries, retries)
    requires n >= 1 && reclaims[c] == 0 && (c, n + 1) in sends
    ensures (c, n) in sends && (c, n) in retries && sends[(c, n)] <= retries[(c, n)].at <= sends[(c, n + 1)]
    ensures retries[(c, n)].wall + Backoff.Delay(cfg.retryInitial, cfg.retryMax, n) <= sends[(c, n + 1)]
  {
    assert (c, n + 1) in tries;
    assert Apart(cfg, tries, retries, c, n + 1);
  }

  /** If the gateway's clock at the refusal was at most `lag` behind the database's, the two
      publishes are that delay apart, less the lag. */
  lemma PublishGap(cfg: Config, s: System, d: Diary, c: CommandId, n: nat, lag: int)
    requires Commands.ValidConfig(cfg) && Recorded(cfg, s, d) && s.past.reclaims[c] == 0
    requires n >= 1 && InRange(cfg, n) && (c, n + 1) in d.sends
    requires (c, n) in d.retries ==> d.retries[(c, n)].wall >= d.retries[(c, n)].at - lag
    ensures (c, n) in d.sends && d.sends[(c, n + 1)] - d.sends[(c, n)] >= Wait(cfg, n) - lag
  {
    PublishesApart(cfg, s, d, c, n);
  }

  // ---- Reports -------------------------------------------------------------------------------------

  /** Every entry of the result log is a device's own answer, which carries no failure code, or
      what a gateway reported of a command it had taken. A timeout is reported only of a command
      whose publication, or last noted timeout, was more than the acknowledgement timeout before
      the claim; exhaustion only of one that has used all its attempts, with the error of the
      last refusal. */
  lemma ResultsAreTold(cfg: Config, s: System, d: Diary, i: nat)
    requires Commands.ValidConfig(cfg) && Recorded(cfg, s, d) && i < |s.log|
    ensures var r := s.log[i];
      || (r in s.past.answers && r.failureCode.None? && r.publishAttempts.None?)
      || (exists k :: k in d.reports && ReportedTimeout(cfg, k, r))
      || (exists k :: k in d.reports && ReportedExhaustion(cfg, k, r))
  {
    RecordedOk(cfg, s, d);
    var r := s.log[i];
    if r !in s.past.answers {
      var k :| k in d.reports && Tells(k, r);
      assert ReportedTimeout(cfg, k, r) || ReportedExhaustion(cfg, k, r);
    }
  }

  predicate ReportedTimeout(cfg: Config, k: Take, r: CommandResult) {
    && k.command == r.commandId && !r.success && r.state.None? && r.publishAttempts == Some(k.attempt)
    && r.failureCode == Some("device.ack.timeout") && r.error == Some("device acknowledgement timeout")
    && k.since.Some? && k.at - k.since.value > cfg.ackTimeout
  }

  predicate ReportedExhaustion(cfg: Config, k: Take, r: CommandResult) {
    && k.command == r.commandId && !r.success && r.state.None? && r.publishAttempts == Some(k.attempt)
    && r.failureCode == Some("mqtt.publish.exhausted") && r.error == Some(k.error)
    && k.attempt >= cfg.maxAttempts
  }

  /** So an acknowledgement timeout is in the log only if the device really had that long. */
  lemma TimeoutReportIsDue(cfg: Config, s: System, d: Diary, i: nat)
    requires Commands.ValidConfig(cfg) && Recorded(cfg, s, d) && i < |s.log| && s.log[i].failureCode == Some("device.ack.timeout")
    ensures exists k :: k in d.reports && k.stage.TimeoutStage? && k.command == s.log[i].commandId
                        && k.since.Some? && k.at - k.since.value > cfg.ackTimeout
  {
    RecordedOk(cfg, s, d);
    var k :| k in d.reports && Tells(k, s.log[i]);
    assert k.stage.TimeoutStage?;
  }

  /** What one report adds to the log, if anything: what was found of the command when it was
      claimed, at the gateway's time. */
  lemma ReportSays(cfg: Config, s: System, d: Diary, step: Step)
    requires Commands.ValidConfig(cfg) && Recorded(cfg, s, d) && Enabled(cfg, s, step) && step.Report?
    ensures var item, log := s.gateways[step.g].batch[0].item, After(cfg, s, step).log;
      if !step.logged then log == s.log
      else
        && |log| == |s.log| + 1 && log[..|s.log|] == s.log
        && log[|s.log|].commandId == item.commandId && log[|s.log|].deviceId == item.deviceId
        && log[|s.log|].occurredAt == step.at && log[|s.log|].publishAttempts == Some(item.publishAttempts)
        && exists k :: k in d.reports && k.stage == s.gateways[step.g].stage && Tells(k, log[|s.log|])
  {
    RecordedOk(cfg, s, d);
    var gw := s.gateways[step.g];
    assert HoldsTake(gw, 0, d.reports);
    var k :| k in d.reports && TakenFor(k, gw.stage, gw.batch[0].item);
    ReportGives(s, step.g, step.logged, step.ok, step.at, k);
  }

  lemma ReportGives(s: System, g: Owner, logged: bool, ok: bool, at: Time, k: Take)
    requires Working(s, g) && !s.gateways[g].stage.DispatchStage? && TakenFor(k, s.gateways[g].stage, s.gateways[g].batch[0].item)
    ensures var item, r, log := s.gateways[g].batch[0].item, FailureReport(s.gateways[g].stage, s.gateways[g].batch[0].item, at), AfterReport(s, g, logged, ok, at).log;
      && log == (if logged then s.log + [r] else s.log) && Tells(k, r)
      && r.commandId == item.commandId && r.deviceId == item.deviceId && r.occurredAt == at && r.publishAttempts == Some(item.publishAttempts)
  {
  }
}
