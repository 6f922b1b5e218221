/** As long as one gateway and Kafka stay up and the worker is not too far behind, every command
    has its result after a bounded number of ticks, whatever the broker and the device do. */
module DispatchProgress {
  import opened Prelude
  import opened Ids
  import opened Schema
  import opened Commands
  import opened Dispatch
  import opened DispatchSafety

  // ---- Live runs -------------------------------------------------------------------------------

  /** The steps of a run in which `g` is the one gateway that stays up: its claims find no
      lock, its reports reach Kafka, its marks reach the database; the broker, the device
      and the clock do what they like; no new command arrives. */
  ghost predicate LiveStep(cfg: Config, s: System, step: Step, g: Owner) {
    && Enabled(cfg, s, step)
    && match step
       case Advance(_) => true
       case Ambient(_, _) => true
       case Deliver(_, _, _) => true
       case Restart => true
       case Forward(_) => true
       case Settle(_) => true
       case Claim(o, locked, _) => o == g && locked == {}
       case Report(o, _, ok, _) => o == g && ok
       case Publish(o, _, _, _) => o == g
       case Mark(o, _) => o == g
       case EndBatch(o) => o == g
       case _ => false
  }

  ghost predicate LiveRun(cfg: Config, s: System, steps: seq<Step>, t: System, g: Owner)
    decreases |steps|
  {
    if steps == [] then s == t
    else LiveStep(cfg, s, steps[0], g) && LiveRun(cfg, After(cfg, s, steps[0]), steps[1..], t, g)
  }

  // ---- The measure ---------------------------------------------------------------------------------

  ghost predicate Reported(log: seq<CommandResult>, c: CommandId) {
    exists i :: 0 <= i < |log| && log[i].commandId == c
  }

  /** `g` has the latest claim of `c` in its batch. */
  ghost predicate HeldNow(claims: Count, batch: seq<Held>, c: CommandId) {
    exists i :: 0 <= i < |batch| && batch[i].item.commandId == c && batch[i].epoch == claims[c]
  }

  function Left(cfg: Config, attempts: nat): nat {
    if attempts <= cfg.maxAttempts then cfg.maxAttempts - attempts else 0
  }

  /** How much dispatching an unsettled, unreported row still needs. */
  function RowRank(cfg: Config, r: Row, held: bool): nat {
    match r.status
    case Pending => 3 + 2 * Left(cfg, r.publishAttempts)
    case Retrying => 3 + 2 * Left(cfg, r.publishAttempts)
    case Publishing => (if held then 3 else 4) + 2 * Left(cfg, r.publishAttempts)
    case Published => if held then 1 else 2
    case Finalizing => if held then 1 else 2
    case Succeeded => 0
    case Failed => 0
  }

  ghost function Rank(cfg: Config, s: System, g: Owner, c: CommandId): nat {
    if c !in s.db.rows || g !in s.gateways || Reported(s.log, c) then 0
    else RowRank(cfg, s.db.rows[c], HeldNow(s.past.claims, s.gateways[g].batch, c))
  }

  ghost function Ranks(cfg: Config, s: System, g: Owner): CommandId -> nat {
    c => Rank(cfg, s, g, c)
  }

  ghost function Measure(cfg: Config, s: System, g: Owner): nat {
    Sum(s.db.rows.Keys, Ranks(cfg, s, g))
  }

  /** A gateway that has sent its report for the head of its batch has it in the log. */
  ghost predicate Announced(s: System, g: Owner) {
    && g in s.gateways
    && var gw := s.gateways[g];
       !gw.stage.DispatchStage? && gw.batch != [] && gw.outcome != Unsent ==> Reported(s.log, gw.batch[0].item.commandId)
  }

  lemma ReportedGrows(log: seq<CommandResult>, r: CommandResult, c: CommandId)
    ensures Reported(log + [r], c) <==> Reported(log, c) || r.commandId == c
  {
    var log' := log + [r];
    assert log'[|log|] == r;
    if Reported(log, c) {
      var i :| 0 <= i < |log| && log[i].commandId == c;
      assert log'[i] == log[i];
    }
  }

  lemma ClaimRank(cfg: Config, stage: Stage, r: Row, g: Owner, now: Time)
    requires Commands.ValidConfig(cfg) && RowOk(cfg, r) && Claimable(cfg, stage, r, now)
    ensures RowRank(cfg, ClaimRow(cfg, stage, r, g, now), true) < RowRank(cfg, r, false)
  {
  }

  lemma HeldAfterClaim(cfg: Config, s: System, g: Owner, chosen: seq<CommandId>, c: CommandId)
    requires ClaimEnabled(cfg, s, g, {}, chosen)
    ensures var t := AfterClaim(cfg, s, g, chosen, true);
            HeldNow(t.past.claims, t.gateways[g].batch, c) <==> c in chosen
  {
    var t := AfterClaim(cfg, s, g, chosen, true);
    var batch := t.gateways[g].batch;
    assert |batch| == |chosen|;
    assert forall i :: 0 <= i < |batch| ==> batch[i].item.commandId == chosen[i] && batch[i].epoch == t.past.claims[chosen[i]];
    if c in chosen {
      var i :| 0 <= i < |chosen| && chosen[i] == c;
      assert batch[i].item.commandId == c;
    }
  }

  /** A claim lowers the rank of every unreported row it takes and of no other row. */
  lemma RankClaim(cfg: Config, s: System, g: Owner, chosen: seq<CommandId>, c: CommandId)
    requires Commands.ValidConfig(cfg) && ClaimEnabled(cfg, s, g, {}, chosen)
    requires s.gateways[g].batch == []
    requires c in s.db.rows ==> RowOk(cfg, s.db.rows[c])
    ensures var t := AfterClaim(cfg, s, g, chosen, true);
            && Rank(cfg, t, g, c) <= Rank(cfg, s, g, c)
            && (c in chosen && !Reported(s.log, c) ==> Rank(cfg, t, g, c) < Rank(cfg, s, g, c))
  {
    HeldAfterClaim(cfg, s, g, chosen, c);
    var t := AfterClaim(cfg, s, g, chosen, true);
    assert c in chosen <==> c in Elements(chosen);
    assert !HeldNow(s.past.claims, s.gateways[g].batch, c);
    assert c in s.db.rows ==>
      t.db.rows[c] == if c in chosen then ClaimRow(cfg, s.gateways[g].stage, s.db.rows[c], g, s.now) else s.db.rows[c];
    if c in chosen {
      ClaimRank(cfg, s.gateways[g].stage, s.db.rows[c], g, s.now);
    }
  }

  lemma MarkRank(cfg: Config, db: CommandDb, stage: Stage, outcome: Outcome, item: PendingCommand, g: Owner, now: Time, wall: Time)
    requires Commands.ValidConfig(cfg) && item.publishAttempts >= 1 && wall <= now + cfg.skew
    requires stage.DispatchStage? && item.commandId in db.rows
    ensures var m := MarkHead(cfg, db, stage, outcome, item, g, now, wall);
            m.Some? ==> RowRank(cfg, m.value.rows[item.commandId], false) <= RowRank(cfg, db.rows[item.commandId], true)
  {
  }

  lemma HeldAfterPop(claims: Count, batch: seq<Held>, c: CommandId)
    requires batch != [] && BatchDistinct(batch)
    ensures HeldNow(claims, batch[1..], c) <==> HeldNow(claims, batch, c) && c != batch[0].item.commandId
  {
    var rest := batch[1..];
    if HeldNow(claims, batch, c) && c != batch[0].item.commandId {
      var i :| 0 <= i < |batch| && batch[i].item.commandId == c && batch[i].epoch == claims[c];
      assert rest[i - 1] == batch[i];
    }
    if HeldNow(claims, rest, c) {
      var i :| 0 <= i < |rest| && rest[i].item.commandId == c && rest[i].epoch == claims[c];
      assert batch[i + 1] == rest[i];
    }
  }

  /** Marking the head of the batch never raises a rank: a report mark finds the command
      already in the log, and a dispatch mark spends the claim. */
  lemma RankMark(cfg: Config, s: System, g: Owner, wall: Time, c: CommandId)
    requires Commands.ValidConfig(cfg) && Enabled(cfg, s, Mark(g, wall)) && Announced(s, g)
    requires Shape(cfg, s.db.rows, s.db.devices, s.now)
    requires GatewayOk(s.db.rows, s.past.claims, s.now, g, s.gateways[g])
    ensures Rank(cfg, AfterMark(cfg, s, g, wall), g, c) <= Rank(cfg, s, g, c)
  {
    var gw := s.gateways[g];
    var h := gw.batch[0];
    var d := h.item.commandId;
    assert HeldOk(s.db.rows, s.past.claims, s.now, g, gw.stage, h);
    HeldAfterPop(s.past.claims, gw.batch, c);
    MarkedRow(cfg, s.db, gw.stage, gw.outcome, h.item, g, s.now, wall);
    if c == d && gw.stage.DispatchStage? {
      RankMarkedHead(cfg, s, g, wall);
    }
  }

  lemma RankMarkedHead(cfg: Config, s: System, g: Owner, wall: Time)
    requires Commands.ValidConfig(cfg) && Enabled(cfg, s, Mark(g, wall)) && s.gateways[g].stage.DispatchStage?
    requires Shape(cfg, s.db.rows, s.db.devices, s.now)
    requires GatewayOk(s.db.rows, s.past.claims, s.now, g, s.gateways[g])
    ensures var c := s.gateways[g].batch[0].item.commandId;
            Rank(cfg, AfterMark(cfg, s, g, wall), g, c) <= Rank(cfg, s, g, c)
  {
    var gw := s.gateways[g];
    var h := gw.batch[0];
    var c := h.item.commandId;
    assert HeldOk(s.db.rows, s.past.claims, s.now, g, gw.stage, h);
    HeldAfterPop(s.past.claims, gw.batch, c);
    MarkRank(cfg, s.db, gw.stage, gw.outcome, h.item, g, s.now, wall);
    if Holds(s.db.rows, c, Publishing, g) {
      assert HeldNow(s.past.claims, gw.batch, c);
    }
  }

  lemma RankSettle(cfg: Config, s: System, g: Owner, i: nat, c: CommandId)
    requires Commands.ValidConfig(cfg) && i < |s.log|
    requires Shape(cfg, s.db.rows, s.db.devices, s.now) && Credible(s.db.rows, s.past.answers, s.log[i])
    requires s.log[i].success ==> s.log[i].state.Some?
    ensures var t := AfterSettle(s, i);
            && t.db.rows.Keys == s.db.rows.Keys
            && Rank(cfg, t, g, c) <= Rank(cfg, s, g, c)
            && (Terminal(s.db.rows[s.log[i].commandId].status) ==> t.db == s.db)
  {
    SettledRow(cfg, s.db, s.log[i], s.now);
  }

  lemma RankReport(cfg: Config, s: System, g: Owner, logged: bool, at: Time, c: CommandId)
    requires Enabled(cfg, s, Report(g, logged, true, at))
    ensures var t := AfterReport(s, g, logged, true, at);
            && Rank(cfg, t, g, c) <= Rank(cfg, s, g, c)
            && Announced(t, g)
  {
    var gw := s.gateways[g];
    ReportedGrows(s.log, FailureReport(gw.stage, gw.batch[0].item, at), c);
    ReportedGrows(s.log, FailureReport(gw.stage, gw.batch[0].item, at), gw.batch[0].item.commandId);
  }

  lemma RankForward(cfg: Config, s: System, g: Owner, r: CommandResult, c: CommandId)
    ensures Rank(cfg, s.(log := s.log + [r]), g, c) <= Rank(cfg, s, g, c)
    ensures c == r.commandId ==> Rank(cfg, s.(log := s.log + [r]), g, c) == 0
  {
    ReportedGrows(s.log, r, c);
  }

  /** No live step raises a rank. */
  lemma LiveStepRank(cfg: Config, s: System, step: Step, g: Owner, c: CommandId)
    requires Commands.ValidConfig(cfg) && Inv(cfg, s) && Announced(s, g) && LiveStep(cfg, s, step, g)
    ensures Rank(cfg, After(cfg, s, step), g, c) <= Rank(cfg, s, g, c)
  {
    assert GatewayOk(s.db.rows, s.past.claims, s.now, g, s.gateways[g]);
    match step {
      case Claim(_, _, chosen) => RankClaim(cfg, s, g, chosen, c);
      case Report(_, logged, _, at) => RankReport(cfg, s, g, logged, at, c);
      case Mark(_, wall) => RankMark(cfg, s, g, wall, c);
      case Forward(ack) => RankForward(cfg, s, g, ack, c);
      case Settle(i) =>
        assert Credible(s.db.rows, s.past.answers, s.log[i]);
        RankSettle(cfg, s, g, i, c);
      case _ => RankQuiet(cfg, s, step, g, c);
    }
  }

  lemma RankQuiet(cfg: Config, s: System, step: Step, g: Owner, c: CommandId)
    requires LiveStep(cfg, s, step, g)
    requires !step.Claim? && !step.Report? && !step.Mark? && !step.Forward? && !step.Settle?
    ensures Rank(cfg, After(cfg, s, step), g, c) <= Rank(cfg, s, g, c)
  {
  }

  lemma ReportFrame(cfg: Config, s: System, g: Owner, logged: bool, at: Time)
    requires LiveStep(cfg, s, Report(g, logged, true, at), g)
    ensures var t := AfterReport(s, g, logged, true, at); t.db == s.db && Announced(t, g) && t.now == s.now
  {
    RankReport(cfg, s, g, logged, at, s.gateways[g].batch[0].item.commandId);
  }

  lemma ForwardFrame(s: System, g: Owner, r: CommandResult)
    requires Announced(s, g)
    ensures Announced(s.(log := s.log + [r]), g)
  {
    if s.gateways[g].batch != [] {
      ReportedGrows(s.log, r, s.gateways[g].batch[0].item.commandId);
    }
  }

  lemma SettleKeepsKeys(cfg: Config, s: System, i: nat)
    requires Commands.ValidConfig(cfg) && Inv(cfg, s) && i < |s.log|
    ensures AfterSettle(s, i).db.rows.Keys == s.db.rows.Keys
  {
    assert Credible(s.db.rows, s.past.answers, s.log[i]);
    SettledRow(cfg, s.db, s.log[i], s.now);
  }

  lemma SettleFrame(cfg: Config, s: System, g: Owner, i: nat)
    requires Commands.ValidConfig(cfg) && Inv(cfg, s) && Announced(s, g) && i < |s.log|
    ensures var t := AfterSettle(s, i); t.db.rows.Keys == s.db.rows.Keys && Announced(t, g) && t.now == s.now
  {
    SettleKeepsKeys(cfg, s, i);
  }

  lemma ClaimFrame(cfg: Config, s: System, g: Owner, chosen: seq<CommandId>)
    requires ClaimEnabled(cfg, s, g, {}, chosen)
    ensures var t := AfterClaim(cfg, s, g, chosen, true); t.db.rows.Keys == s.db.rows.Keys && Announced(t, g) && t.now == s.now
  {
  }

  lemma QuietFrame(cfg: Config, s: System, step: Step, g: Owner)
    requires LiveStep(cfg, s, step, g) && Announced(s, g)
    requires !step.Claim? && !step.Report? && !step.Mark? && !step.Forward? && !step.Settle?
    ensures var t := After(cfg, s, step); t.db.rows == s.db.rows && t.log == s.log && Announced(t, g) && t.now >= s.now
  {
  }

  /** No live step adds a row or breaks what the gateway announced. */
  lemma LiveStepFrame(cfg: Config, s: System, step: Step, g: Owner)
    requires Commands.ValidConfig(cfg) && Inv(cfg, s) && Announced(s, g) && LiveStep(cfg, s, step, g)
    ensures var t := After(cfg, s, step);
            t.db.rows.Keys == s.db.rows.Keys && Announced(t, g) && t.now >= s.now
  {
    match step {
      case Claim(_, _, chosen) => ClaimFrame(cfg, s, g, chosen);
      case Mark(_, wall) =>
        assert GatewayOk(s.db.rows, s.past.claims, s.now, g, s.gateways[g]);
        MarkFrame(cfg, s, g, wall);
      case Report(_, logged, _, at) => ReportFrame(cfg, s, g, logged, at);
      case Forward(ack) => ForwardFrame(s, g, ack);
      case Settle(i) => SettleFrame(cfg, s, g, i);
      case _ => QuietFrame(cfg, s, step, g);
    }
  }

  lemma MarkFrame(cfg: Config, s: System, g: Owner, wall: Time)
    requires Commands.ValidConfig(cfg) && Enabled(cfg, s, Mark(g, wall))
    requires Shape(cfg, s.db.rows, s.db.devices, s.now)
    requires GatewayOk(s.db.rows, s.past.claims, s.now, g, s.gateways[g])
    ensures var t := AfterMark(cfg, s, g, wall); t.db.rows.Keys == s.db.rows.Keys && Announced(t, g) && t.now == s.now
  {
    var gw := s.gateways[g];
    assert HeldOk(s.db.rows, s.past.claims, s.now, g, gw.stage, gw.batch[0]);
    MarkedRow(cfg, s.db, gw.stage, gw.outcome, gw.batch[0].item, g, s.now, wall);
  }

  lemma MeasureStep(cfg: Config, s: System, step: Step, g: Owner)
    requires Commands.ValidConfig(cfg) && Inv(cfg, s) && Announced(s, g) && LiveStep(cfg, s, step, g)
    ensures var t := After(cfg, s, step);
            && Measure(cfg, t, g) <= Measure(cfg, s, g)
            && forall c :: c in s.db.rows && Rank(cfg, t, g, c) < Rank(cfg, s, g, c) ==> Measure(cfg, t, g) < Measure(cfg, s, g)
  {
    var t := After(cfg, s, step);
    LiveStepFrame(cfg, s, step, g);
    forall c | c in s.db.rows.Keys ensures Ranks(cfg, t, g)(c) <= Ranks(cfg, s, g)(c) {
      LiveStepRank(cfg, s, step, g, c);
    }
    SumMonotone(s.db.rows.Keys, Ranks(cfg, t, g), Ranks(cfg, s, g));
    forall c | c in s.db.rows && Rank(cfg, t, g, c) < Rank(cfg, s, g, c) ensures Measure(cfg, t, g) < Measure(cfg, s, g) {
      assert Ranks(cfg, t, g)(c) < Ranks(cfg, s, g)(c);
    }
  }

  // ---- One round ---------------------------------------------------------------------------------

  /** The commands still to be settled whose result is not in the log. */
  ghost function Waiting(s: System): set<CommandId> {
    set c | c in s.db.rows && !Terminal(s.db.rows[c].status) && !Reported(s.log, c)
  }

  /** The commands the worker is behind with: their result is in the log, but not applied. */
  ghost function Lagging(s: System): set<CommandId> {
    set c | c in s.db.rows && !Terminal(s.db.rows[c].status) && Reported(s.log, c)
  }

  /** The worker is behind with fewer commands than a claim may take. */
  ghost predicate KeepsUp(s: System) {
    |Lagging(s)| < CLAIM_LIMIT
  }

  /** Every result in the log has been applied. */
  ghost predicate Drained(s: System) {
    forall i :: 0 <= i < |s.log| ==> s.log[i].commandId in s.db.rows && Terminal(s.db.rows[s.log[i].commandId].status)
  }

  predicate Idle(s: System, g: Owner) {
    g in s.gateways && s.gateways[g].stage.TimeoutStage? && !s.gateways[g].claimed && s.gateways[g].batch == []
  }

  const SECOND: nat := 1_000_000_000

  /** A full tick of the gateway, at least a second long, at whose start the worker is behind
      with fewer than twenty commands. */
  ghost predicate Round(cfg: Config, s: System, t: System, g: Owner) {
    && Idle(s, g) && KeepsUp(s)
    && Idle(t, g)
    && t.gateways[g].ticks > s.gateways[g].ticks
    && t.now >= s.now + SECOND
    && exists steps :: LiveRun(cfg, s, steps, t, g)
  }

  function StageIndex(stage: Stage): nat {
    match stage
    case TimeoutStage => 0
    case FailureStage => 1
    case DispatchStage => 2
  }

  /** How far a gateway's loop has come, counted in claims made and batches ended. */
  function Position(gw: Gateway): nat {
    6 * gw.ticks + 2 * StageIndex(gw.stage) + (if gw.claimed then 1 else 0)
  }

  /** From `s` to `t` nothing has happened to any waiting command, and the worker has fallen
      behind with no further one. */
  ghost predicate Still(s: System, t: System) {
    && t.db.rows.Keys == s.db.rows.Keys
    && Waiting(t) == Waiting(s) && Lagging(t) <= Lagging(s)
    && forall c :: c in Waiting(s) ==> t.db.rows[c] == s.db.rows[c]
  }

  /** Since `s0` no waiting command has been touched, and none was due at any stage the loop
      has passed since then. */
  ghost predicate Unmoved(cfg: Config, s0: System, s: System, g: Owner) {
    && g in s0.gateways && g in s.gateways
    && Still(s0, s) && s.now >= s0.now
    && (forall i :: 0 <= i < |s.gateways[g].batch| ==> s.gateways[g].batch[i].item.commandId !in Waiting(s0))
    && Position(s.gateways[g]) >= Position(s0.gateways[g])
    && Passed(cfg, s0, Position(s.gateways[g]), g)
  }

  ghost predicate Passed(cfg: Config, s0: System, position: nat, g: Owner)
    requires g in s0.gateways
  {
    forall stage, c :: position > Position(s0.gateways[g]) + 2 * StageIndex(stage) && c in Waiting(s0) ==>
      !Claimable(cfg, stage, s0.db.rows[c], s0.now)
  }

  ghost predicate Tracks(cfg: Config, s0: System, s: System, g: Owner) {
    || Measure(cfg, s, g) < Measure(cfg, s0, g)
    || (Measure(cfg, s, g) <= Measure(cfg, s0, g) && Unmoved(cfg, s0, s, g))
  }

  lemma ClaimableStays(cfg: Config, stage: Stage, r: Row, now: Time, now': Time)
    requires now <= now' && Claimable(cfg, stage, r, now)
    ensures Claimable(cfg, stage, r, now')
  {
  }

  lemma RankOfWaiting(cfg: Config, s: System, g: Owner, c: CommandId)
    requires g in s.gateways && c in Waiting(s)
    ensures Rank(cfg, s, g, c) > 0
  {
  }

  lemma StillFrom(s: System, t: System)
    requires t.db.rows.Keys == s.db.rows.Keys
    requires forall c :: c in s.db.rows && Terminal(s.db.rows[c].status) ==> Terminal(t.db.rows[c].status)
    requires forall c :: c in Waiting(s) ==> t.db.rows[c] == s.db.rows[c]
    requires forall c :: c in s.db.rows && !Terminal(s.db.rows[c].status) ==> (Reported(t.log, c) <==> Reported(s.log, c))
    ensures Still(s, t)
  {
  }

  lemma StillThrough(s: System, t: System, u: System)
    requires Still(s, t) && Still(t, u)
    ensures Still(s, u)
  {
  }

  /** A claim that takes a waiting command lowers the measure. */
  lemma FullClaim(cfg: Config, s: System, g: Owner, chosen: seq<CommandId>, c: CommandId)
    requires Commands.ValidConfig(cfg) && Inv(cfg, s) && Announced(s, g) && LiveStep(cfg, s, Claim(g, {}, chosen), g)
    requires s.gateways[g].batch == [] && c in chosen && c in Waiting(s)
    ensures Measure(cfg, AfterClaim(cfg, s, g, chosen, true), g) < Measure(cfg, s, g)
  {
    RankClaim(cfg, s, g, chosen, c);
    MeasureStep(cfg, s, Claim(g, {}, chosen), g);
  }

  /** A claim that takes only commands the worker is behind with finds room for every other one
      that is due, so none is. */
  lemma LaggingClaimTakesAll(cfg: Config, s: System, g: Owner, chosen: seq<CommandId>, c: CommandId)
    requires ClaimEnabled(cfg, s, g, {}, chosen) && KeepsUp(s)
    requires forall d :: d in chosen ==> d in Lagging(s)
    requires c in Waiting(s)
    ensures !Claimable(cfg, s.gateways[g].stage, s.db.rows[c], s.now)
  {
    var stage := s.gateways[g].stage;
    var eligible := Eligible(cfg, stage, s.db.rows, s.now);
    assert eligible - {} == eligible;
    assert Elements(chosen) <= Lagging(s);
    SubsetSize(Elements(chosen), Lagging(s));
    assert c !in Elements(chosen);
  }

  lemma {:induction false} SubsetSize<T>(a: set<T>, b: set<T>)
    requires a <= b
    ensures |a| <= |b|
    decreases |a|
  {
    if a != {} {
      var x :| x in a;
      SubsetSize(a - {x}, b - {x});
    }
  }

  lemma ClaimStill(cfg: Config, s: System, g: Owner, chosen: seq<CommandId>)
    requires ClaimEnabled(cfg, s, g, {}, chosen)
    requires forall d :: d in chosen ==> d !in Waiting(s)
    ensures Still(s, AfterClaim(cfg, s, g, chosen, true))
  {
    var t := AfterClaim(cfg, s, g, chosen, true);
    assert forall d :: d in Elements(chosen) <==> d in chosen;
    StillFrom(s, t);
  }

  lemma ChosenLags(cfg: Config, s: System, g: Owner, chosen: seq<CommandId>)
    requires ClaimEnabled(cfg, s, g, {}, chosen)
    requires forall d :: d in chosen ==> d !in Waiting(s)
    ensures forall d :: d in chosen ==> d in Lagging(s)
  {
    forall d | d in chosen ensures d in Lagging(s) {
      assert Claimable(cfg, s.gateways[g].stage, s.db.rows[d], s.now);
    }
  }

  /** None of the waiting commands was due when the claim was made. */
  lemma IdleClaimPasses(cfg: Config, s0: System, s: System, g: Owner, chosen: seq<CommandId>, c: CommandId)
    requires ClaimEnabled(cfg, s, g, {}, chosen) && KeepsUp(s0) && Still(s0, s) && s0.now <= s.now
    requires forall d :: d in chosen ==> d !in Waiting(s)
    requires c in Waiting(s0)
    ensures !Claimable(cfg, s.gateways[g].stage, s0.db.rows[c], s0.now)
  {
    ChosenLags(cfg, s, g, chosen);
    SubsetSize(Lagging(s), Lagging(s0));
    LaggingClaimTakesAll(cfg, s, g, chosen, c);
    if Claimable(cfg, s.gateways[g].stage, s0.db.rows[c], s0.now) {
      ClaimableStays(cfg, s.gateways[g].stage, s0.db.rows[c], s0.now, s.now);
    }
  }

  /** A claim takes the loop past its own stage and no other. */
  lemma PassedNext(cfg: Config, s0: System, gw: Gateway, g: Owner)
    requires Idle(s0, g) && !gw.claimed && Position(gw) >= Position(s0.gateways[g])
    requires Passed(cfg, s0, Position(gw), g)
    requires forall c :: c in Waiting(s0) ==> !Claimable(cfg, gw.stage, s0.db.rows[c], s0.now)
    ensures Passed(cfg, s0, Position(gw) + 1, g)
  {
    forall stage, c | Position(gw) + 1 > Position(s0.gateways[g]) + 2 * StageIndex(stage) && c in Waiting(s0)
      ensures !Claimable(cfg, stage, s0.db.rows[c], s0.now)
    {
      if Position(gw) == Position(s0.gateways[g]) + 2 * StageIndex(stage) {
        assert stage == gw.stage;
      }
    }
  }

  lemma IdleClaim(cfg: Config, s0: System, s: System, g: Owner, chosen: seq<CommandId>)
    requires ClaimEnabled(cfg, s, g, {}, chosen) && Idle(s0, g) && KeepsUp(s0) && Unmoved(cfg, s0, s, g)
    requires forall d :: d in chosen ==> d !in Waiting(s)
    ensures Unmoved(cfg, s0, AfterClaim(cfg, s, g, chosen, true), g)
  {
    forall c | c in Waiting(s0) ensures !Claimable(cfg, s.gateways[g].stage, s0.db.rows[c], s0.now) {
      IdleClaimPasses(cfg, s0, s, g, chosen, c);
    }
    PassedNext(cfg, s0, s.gateways[g], g);
    ClaimStill(cfg, s, g, chosen);
    HeldChosen(cfg, s, g, chosen);
    UnmovedByClaim(cfg, s0, s, g, chosen);
  }

  lemma UnmovedByClaim(cfg: Config, s0: System, s: System, g: Owner, chosen: seq<CommandId>)
    requires ClaimEnabled(cfg, s, g, {}, chosen) && Unmoved(cfg, s0, s, g)
    requires forall d :: d in chosen ==> d !in Waiting(s)
    requires Passed(cfg, s0, Position(s.gateways[g]) + 1, g)
    requires var t := AfterClaim(cfg, s, g, chosen, true);
      Still(s, t) && forall i :: 0 <= i < |t.gateways[g].batch| ==> t.gateways[g].batch[i].item.commandId in chosen
    ensures Unmoved(cfg, s0, AfterClaim(cfg, s, g, chosen, true), g)
  {
    StillThrough(s0, s, AfterClaim(cfg, s, g, chosen, true));
  }

  lemma HeldChosen(cfg: Config, s: System, g: Owner, chosen: seq<CommandId>)
    requires ClaimEnabled(cfg, s, g, {}, chosen)
    ensures var batch := AfterClaim(cfg, s, g, chosen, true).gateways[g].batch;
            forall i :: 0 <= i < |batch| ==> batch[i].item.commandId in chosen
  {
    var batch := AfterClaim(cfg, s, g, chosen, true).gateways[g].batch;
    assert forall i :: 0 <= i < |batch| ==> batch[i].item.commandId == chosen[i];
  }

  /** A result for a command that is not waiting changes nothing about who waits. */
  lemma LogStill(s: System, t: System, r: CommandResult)
    requires t.db == s.db && (t.log == s.log || t.log == s.log + [r])
    requires r.commandId !in Waiting(s)
    ensures Still(s, t)
  {
    forall c | c in s.db.rows && !Terminal(s.db.rows[c].status) ensures Reported(t.log, c) <==> Reported(s.log, c) {
      ReportedGrows(s.log, r, c);
    }
    StillFrom(s, t);
  }

  /** One that does come for a waiting command lowers the measure. */
  lemma ForwardLowers(cfg: Config, s: System, g: Owner, r: CommandResult)
    requires Commands.ValidConfig(cfg) && Inv(cfg, s) && Announced(s, g) && r in s.acks && r.commandId in Waiting(s)
    ensures Measure(cfg, s.(log := s.log + [r]), g) < Measure(cfg, s, g)
  {
    RankOfWaiting(cfg, s, g, r.commandId);
    RankForward(cfg, s, g, r, r.commandId);
    MeasureStep(cfg, s, Forward(r), g);
  }

  lemma ReportUnmoved(cfg: Config, s0: System, s: System, g: Owner, logged: bool, at: Time)
    requires LiveStep(cfg, s, Report(g, logged, true, at), g) && Unmoved(cfg, s0, s, g)
    ensures Unmoved(cfg, s0, AfterReport(s, g, logged, true, at), g)
  {
    var t := AfterReport(s, g, logged, true, at);
    LogStill(s, t, FailureReport(s.gateways[g].stage, s.gateways[g].batch[0].item, at));
    StillThrough(s0, s, t);
  }

  lemma MarkedOnlyRow(cfg: Config, s: System, g: Owner, wall: Time)
    requires Commands.ValidConfig(cfg) && Enabled(cfg, s, Mark(g, wall))
    requires Shape(cfg, s.db.rows, s.db.devices, s.now)
    requires GatewayOk(s.db.rows, s.past.claims, s.now, g, s.gateways[g])
    ensures var t, d := AfterMark(cfg, s, g, wall), s.gateways[g].batch[0].item.commandId;
      && t.db.rows.Keys == s.db.rows.Keys && d in s.db.rows
      && (forall c :: c in s.db.rows && c != d ==> t.db.rows[c] == s.db.rows[c])
      && (Terminal(s.db.rows[d].status) ==> Terminal(t.db.rows[d].status))
  {
    var gw := s.gateways[g];
    assert HeldOk(s.db.rows, s.past.claims, s.now, g, gw.stage, gw.batch[0]);
    MarkedRow(cfg, s.db, gw.stage, gw.outcome, gw.batch[0].item, g, s.now, wall);
  }

  lemma MarkStill(cfg: Config, s: System, g: Owner, wall: Time)
    requires Commands.ValidConfig(cfg) && Inv(cfg, s) && LiveStep(cfg, s, Mark(g, wall), g)
    requires s.gateways[g].batch[0].item.commandId !in Waiting(s)
    ensures Still(s, AfterMark(cfg, s, g, wall))
  {
    assert GatewayOk(s.db.rows, s.past.claims, s.now, g, s.gateways[g]);
    MarkedOnlyRow(cfg, s, g, wall);
    StillButOne(s, AfterMark(cfg, s, g, wall), s.gateways[g].batch[0].item.commandId);
  }

  lemma UnmovedByPop(cfg: Config, s0: System, s: System, t: System, g: Owner)
    requires Unmoved(cfg, s0, s, g) && Still(s, t) && t.now == s.now && s.gateways[g].batch != []
    requires g in t.gateways && t.gateways[g] == Pop(s.gateways[g])
    ensures Unmoved(cfg, s0, t, g)
  {
    StillThrough(s0, s, t);
    var batch := s.gateways[g].batch;
    assert forall i :: 0 <= i < |batch[1..]| ==> batch[1..][i] == batch[i + 1];
  }

  lemma MarkUnmoved(cfg: Config, s0: System, s: System, g: Owner, wall: Time)
    requires Commands.ValidConfig(cfg) && Inv(cfg, s) && LiveStep(cfg, s, Mark(g, wall), g) && Unmoved(cfg, s0, s, g)
    ensures Unmoved(cfg, s0, AfterMark(cfg, s, g, wall), g)
  {
    MarkStill(cfg, s, g, wall);
    UnmovedByPop(cfg, s0, s, AfterMark(cfg, s, g, wall), g);
  }

  /** Only the row of a command that is not waiting changes. */
  lemma StillButOne(s: System, t: System, d: CommandId)
    requires t.db.rows.Keys == s.db.rows.Keys && t.log == s.log && d !in Waiting(s)
    requires forall c :: c in s.db.rows && c != d ==> t.db.rows[c] == s.db.rows[c]
    requires d in s.db.rows && Terminal(s.db.rows[d].status) ==> Terminal(t.db.rows[d].status)
    ensures Still(s, t)
  {
    StillFrom(s, t);
  }

  lemma SettleStill(cfg: Config, s: System, i: nat)
    requires Commands.ValidConfig(cfg) && Inv(cfg, s) && i < |s.log|
    ensures Still(s, AfterSettle(s, i))
  {
    assert Credible(s.db.rows, s.past.answers, s.log[i]);
    SettledOnlyRow(cfg, s.db, s.log[i], s.now);
    assert Reported(s.log, s.log[i].commandId);
    StillButOne(s, AfterSettle(s, i), s.log[i].commandId);
  }

  lemma SettledOnlyRow(cfg: Config, db: CommandDb, r: CommandResult, now: Time)
    requires Commands.ValidConfig(cfg) && Shape(cfg, db.rows, db.devices, now)
    requires Known(db.rows, r) && (r.success ==> r.state.Some?)
    ensures var a := ApplyCommandResult(db, r);
      && a.Ok? && a.value.rows.Keys == db.rows.Keys
      && (forall d :: d in db.rows && d != r.commandId ==> a.value.rows[d] == db.rows[d])
      && (Terminal(db.rows[r.commandId].status) ==> Terminal(a.value.rows[r.commandId].status))
  {
    SettledRow(cfg, db, r, now);
  }

  /** Steps that neither claim, report, mark nor settle leave the rows and the log as they were. */
  lemma QuietUnmoved(cfg: Config, s0: System, s: System, step: Step, g: Owner)
    requires LiveStep(cfg, s, step, g) && Announced(s, g) && Unmoved(cfg, s0, s, g) && Idle(s0, g)
    requires !step.Claim? && !step.Report? && !step.Mark? && !step.Forward? && !step.Settle?
    ensures Unmoved(cfg, s0, After(cfg, s, step), g)
  {
    var t := After(cfg, s, step);
    QuietFrame(cfg, s, step, g);
    StillFrom(s, t);
    StillThrough(s0, s, t);
  }

  lemma ClaimMoves(cfg: Config, s0: System, s: System, g: Owner, chosen: seq<CommandId>)
    requires Commands.ValidConfig(cfg) && Inv(cfg, s) && Announced(s, g) && LiveStep(cfg, s, Claim(g, {}, chosen), g)
    requires Idle(s0, g) && KeepsUp(s0) && Unmoved(cfg, s0, s, g)
    ensures var t := AfterClaim(cfg, s, g, chosen, true); Measure(cfg, t, g) < Measure(cfg, s, g) || Unmoved(cfg, s0, t, g)
  {
    assert GatewayOk(s.db.rows, s.past.claims, s.now, g, s.gateways[g]);
    if c :| c in chosen && c in Waiting(s) {
      FullClaim(cfg, s, g, chosen, c);
    } else {
      IdleClaim(cfg, s0, s, g, chosen);
    }
  }

  lemma ForwardMoves(cfg: Config, s0: System, s: System, g: Owner, r: CommandResult)
    requires Commands.ValidConfig(cfg) && Inv(cfg, s) && Announced(s, g) && r in s.acks && Unmoved(cfg, s0, s, g)
    ensures var t := s.(log := s.log + [r]); Measure(cfg, t, g) < Measure(cfg, s, g) || Unmoved(cfg, s0, t, g)
  {
    if r.commandId in Waiting(s) {
      ForwardLowers(cfg, s, g, r);
    } else {
      LogStill(s, s.(log := s.log + [r]), r);
      StillThrough(s0, s, s.(log := s.log + [r]));
    }
  }

  lemma SettleUnmoved(cfg: Config, s0: System, s: System, g: Owner, i: nat)
    requires Commands.ValidConfig(cfg) && Inv(cfg, s) && i < |s.log| && Unmoved(cfg, s0, s, g)
    ensures Unmoved(cfg, s0, AfterSettle(s, i), g)
  {
    SettleStill(cfg, s, i);
    StillThrough(s0, s, AfterSettle(s, i));
  }

  lemma UnmovedStep(cfg: Config, s0: System, s: System, step: Step, g: Owner)
    requires Commands.ValidConfig(cfg) && Inv(cfg, s) && Announced(s, g) && LiveStep(cfg, s, step, g)
    requires Idle(s0, g) && KeepsUp(s0) && Unmoved(cfg, s0, s, g)
    ensures Measure(cfg, After(cfg, s, step), g) < Measure(cfg, s, g) || Unmoved(cfg, s0, After(cfg, s, step), g)
  {
    match step {
      case Claim(_, _, chosen) => ClaimMoves(cfg, s0, s, g, chosen);
      case Report(_, logged, _, at) => ReportUnmoved(cfg, s0, s, g, logged, at);
      case Mark(_, wall) => MarkUnmoved(cfg, s0, s, g, wall);
      case Forward(ack) => ForwardMoves(cfg, s0, s, g, ack);
      case Settle(i) => SettleUnmoved(cfg, s0, s, g, i);
      case _ => QuietUnmoved(cfg, s0, s, step, g);
    }
  }

  lemma TracksStep(cfg: Config, s0: System, s: System, step: Step, g: Owner)
    requires Commands.ValidConfig(cfg) && Inv(cfg, s) && Announced(s, g) && LiveStep(cfg, s, step, g)
    requires Idle(s0, g) && KeepsUp(s0) && Tracks(cfg, s0, s, g)
    ensures Tracks(cfg, s0, After(cfg, s, step), g)
  {
    MeasureStep(cfg, s, step, g);
    if !(Measure(cfg, s, g) < Measure(cfg, s0, g)) {
      UnmovedStep(cfg, s0, s, step, g);
    }
  }

  lemma {:induction false} TracksRun(cfg: Config, s0: System, s: System, steps: seq<Step>, t: System, g: Owner)
    requires Commands.ValidConfig(cfg) && Inv(cfg, s) && Announced(s, g) && LiveRun(cfg, s, steps, t, g)
    requires Idle(s0, g) && KeepsUp(s0) && Tracks(cfg, s0, s, g)
    ensures Inv(cfg, t) && Announced(t, g) && Tracks(cfg, s0, t, g) && t.db.rows.Keys == s.db.rows.Keys
    decreases |steps|
  {
    if steps != [] {
      StepInv(cfg, s, steps[0]);
      LiveStepFrame(cfg, s, steps[0], g);
      TracksStep(cfg, s0, s, steps[0], g);
      TracksRun(cfg, s0, After(cfg, s, steps[0]), steps[1..], t, g);
    }
  }

  lemma UnmovedHere(cfg: Config, s: System, g: Owner)
    requires Idle(s, g)
    ensures Unmoved(cfg, s, s, g)
  {
    assert forall stage :: StageIndex(stage) >= 0;
  }

  lemma NothingWasDue(cfg: Config, s: System, t: System, g: Owner, stage: Stage, c: CommandId)
    requires Idle(s, g) && Idle(t, g) && t.gateways[g].ticks > s.gateways[g].ticks
    requires Passed(cfg, s, Position(t.gateways[g]), g) && c in Waiting(s)
    ensures !Claimable(cfg, stage, s.db.rows[c], s.now)
  {
    assert StageIndex(stage) <= 2;
  }

  /** A round lowers the measure, or leaves every waiting command as it was because none was
      due. */
  lemma RoundProgress(cfg: Config, s: System, t: System, g: Owner)
    requires Commands.ValidConfig(cfg) && Inv(cfg, s) && Round(cfg, s, t, g)
    ensures Inv(cfg, t) && t.db.rows.Keys == s.db.rows.Keys
    ensures Measure(cfg, t, g) < Measure(cfg, s, g)
            || (Still(s, t) && forall stage, c :: c in Waiting(s) ==> !Claimable(cfg, stage, s.db.rows[c], s.now))
    ensures Measure(cfg, t, g) <= Measure(cfg, s, g)
  {
    var steps :| LiveRun(cfg, s, steps, t, g);
    UnmovedHere(cfg, s, g);
    TracksRun(cfg, s, s, steps, t, g);
    if !(Measure(cfg, t, g) < Measure(cfg, s, g)) {
      forall stage, c | c in Waiting(s) ensures !Claimable(cfg, stage, s.db.rows[c], s.now) {
        NothingWasDue(cfg, s, t, g, stage, c);
      }
    }
  }

  lemma {:induction false} DistinctSize<T(!new)>(s: seq<T>)
    requires Distinct(s)
    ensures |Elements(s)| == |s|
    decreases |s|
  {
    if s != [] {
      var rest := s[1..];
      DistinctSize(rest);
      assert s == [s[0]] + rest && Elements(s) == {s[0]} + Elements(rest);
      assert s[0] !in rest;
    }
  }

  /** Why fewer than twenty: twenty commands that only wait for the worker, when they come
      first, fill a claim, and a command that is due stays as it is. */
  lemma TwentyBehindFillAClaim(cfg: Config, s: System, g: Owner, behind: seq<CommandId>, c: CommandId)
    requires g in s.gateways && !s.gateways[g].claimed && Distinct(behind) && |behind| == CLAIM_LIMIT
    requires forall d :: d in behind ==> d in Lagging(s) && Claimable(cfg, s.gateways[g].stage, s.db.rows[d], s.now)
    requires forall d, x :: d in behind && x in Eligible(cfg, s.gateways[g].stage, s.db.rows, s.now) && x !in behind ==>
               SortsBefore(ClaimKey(s.gateways[g].stage, s.db.rows)(d), ClaimKey(s.gateways[g].stage, s.db.rows)(x))
    requires c in Waiting(s) && Claimable(cfg, s.gateways[g].stage, s.db.rows[c], s.now)
    ensures LiveStep(cfg, s, Claim(g, {}, behind), g)
    ensures var t := AfterClaim(cfg, s, g, behind, true);
      Still(s, t) && c in Waiting(t) && t.db.rows[c] == s.db.rows[c]
  {
    var eligible := Eligible(cfg, s.gateways[g].stage, s.db.rows, s.now);
    assert eligible - {} == eligible;
    DistinctSize(behind);
    assert forall d :: d in Elements(behind) <==> d in behind;
    ClaimStill(cfg, s, g, behind);
  }

  // ---- Enough rounds settle everything ---------------------------------------------------------------

  /** After this long an unsettled row that nobody touched is due. */
  function Horizon(cfg: Config): nat
    requires Commands.ValidConfig(cfg)
  {
    cfg.lease + cfg.ackTimeout + Patience(cfg) + 1
  }

  /** Rounds that may pass before the measure drops. */
  function RoundsPerDrop(cfg: Config): nat
    requires Commands.ValidConfig(cfg)
  {
    Horizon(cfg) / SECOND + 2
  }

  function DueStage(r: Row): Stage {
    if r.status.Published? then TimeoutStage else if r.status.Finalizing? then FailureStage else DispatchStage
  }

  lemma UnsettledBecomesDue(cfg: Config, r: Row, now: Time, later: Time)
    requires Commands.ValidConfig(cfg) && RowOk(cfg, r) && RowTimely(cfg, r, now) && !Terminal(r.status)
    requires later >= now + Horizon(cfg)
    ensures Claimable(cfg, DueStage(r), r, later)
  {
  }

  ghost predicate Rounds(cfg: Config, g: Owner, states: seq<System>) {
    && states != []
    && forall i :: 0 <= i < |states| - 1 ==> Round(cfg, states[i], states[i + 1], g)
  }

  /** What `k` rounds leave: the measure has dropped, or nobody waiting has been touched. */
  ghost predicate Lasted(cfg: Config, g: Owner, s: System, t: System, k: nat) {
    && t.db.rows.Keys == s.db.rows.Keys
    && Measure(cfg, t, g) <= Measure(cfg, s, g)
    && (Measure(cfg, t, g) == Measure(cfg, s, g) ==> Still(s, t) && t.now >= s.now + k * SECOND)
  }

  lemma RoundLasts(cfg: Config, g: Owner, s: System, t: System)
    requires Commands.ValidConfig(cfg) && Inv(cfg, s) && Round(cfg, s, t, g)
    ensures Inv(cfg, t) && Lasted(cfg, g, s, t, 1)
  {
    RoundProgress(cfg, s, t, g);
  }

  lemma LastedThrough(cfg: Config, g: Owner, s: System, t: System, u: System, j: nat, k: nat)
    requires Lasted(cfg, g, s, t, j) && Lasted(cfg, g, t, u, k)
    ensures Lasted(cfg, g, s, u, j + k)
  {
    if Measure(cfg, u, g) == Measure(cfg, s, g) {
      StillThrough(s, t, u);
    }
  }

  lemma {:induction false} RoundsKeep(cfg: Config, g: Owner, states: seq<System>, k: nat)
    requires Commands.ValidConfig(cfg) && Rounds(cfg, g, states) && Inv(cfg, states[0]) && k < |states|
    ensures Inv(cfg, states[k]) && Lasted(cfg, g, states[0], states[k], k)
  {
    if k > 0 {
      RoundsKeep(cfg, g, states, k - 1);
      assert Round(cfg, states[k - 1], states[k - 1 + 1], g);
      RoundLasts(cfg, g, states[k - 1], states[k]);
      LastedThrough(cfg, g, states[0], states[k - 1], states[k], k - 1, 1);
    }
  }

  lemma MeasureZero(cfg: Config, s: System, g: Owner)
    requires g in s.gateways
    ensures Measure(cfg, s, g) == 0 <==> Waiting(s) == {}
  {
    SumPositive(s.db.rows.Keys, Ranks(cfg, s, g));
    if Measure(cfg, s, g) == 0 {
      forall c | c in s.db.rows ensures c !in Waiting(s) {
        assert Ranks(cfg, s, g)(c) == 0;
        if c in Waiting(s) {
          RankOfWaiting(cfg, s, g, c);
        }
      }
    } else {
      var c :| c in s.db.rows.Keys && Ranks(cfg, s, g)(c) != 0;
      assert c in Waiting(s);
    }
  }

  lemma DueInTime(cfg: Config, s: System, t: System, c: CommandId)
    requires Commands.ValidConfig(cfg) && Inv(cfg, s) && Still(s, t) && c in Waiting(s) && t.now >= s.now + Horizon(cfg)
    ensures exists stage :: Claimable(cfg, stage, t.db.rows[c], t.now)
  {
    UnsettledBecomesDue(cfg, s.db.rows[c], s.now, t.now);
  }

  /** While anything waits, the measure drops within RoundsPerDrop rounds. */
  lemma MeasureDrops(cfg: Config, g: Owner, states: seq<System>)
    requires Commands.ValidConfig(cfg) && Rounds(cfg, g, states) && Inv(cfg, states[0])
    requires |states| > RoundsPerDrop(cfg) && Measure(cfg, states[0], g) > 0
    ensures Measure(cfg, states[RoundsPerDrop(cfg)], g) < Measure(cfg, states[0], g)
  {
    var d := RoundsPerDrop(cfg);
    var s := states[d - 1];
    assert Round(cfg, states[0], states[0 + 1], g);
    assert Round(cfg, states[d - 1], states[d - 1 + 1], g);
    RoundsKeep(cfg, g, states, d - 1);
    RoundProgress(cfg, s, states[d], g);
    MeasureZero(cfg, states[0], g);
    var c :| c in Waiting(states[0]);
    if Measure(cfg, s, g) == Measure(cfg, states[0], g) {
      assert (d - 1) * SECOND >= Horizon(cfg);
      DueInTime(cfg, states[0], s, c);
    }
  }

  /** The worker will settle every command: it is settled, or its result is in the log. */
  ghost predicate AllAnswered(s: System) {
    forall c :: c in s.db.rows ==> Terminal(s.db.rows[c].status) || Reported(s.log, c)
  }

  /** The outcome of a series of rounds from `s`. */
  ghost predicate Answered(s: System, t: System) {
    && t.db.rows.Keys == s.db.rows.Keys && AllAnswered(t)
    && (Drained(t) ==> forall c :: c in t.db.rows ==> Terminal(t.db.rows[c].status))
  }

  lemma AnsweredBefore(s: System, t: System, u: System)
    requires t.db.rows.Keys == s.db.rows.Keys && Answered(t, u)
    ensures Answered(s, u)
  {
  }

  /** Progress. From any reachable state in which gateway `g` is idle, RoundsPerDrop rounds for
      each unit of the measure bring a result for every command; and once the worker has
      caught up, every command is settled. */
  lemma {:induction false} EveryCommandSettles(cfg: Config, g: Owner, states: seq<System>)
    requires Commands.ValidConfig(cfg) && Rounds(cfg, g, states) && Inv(cfg, states[0]) && Idle(states[0], g)
    requires |states| > RoundsPerDrop(cfg) * Measure(cfg, states[0], g)
    ensures Answered(states[0], states[|states| - 1])
    decreases Measure(cfg, states[0], g)
  {
    if Measure(cfg, states[0], g) == 0 {
      AnsweredAtZero(cfg, g, states);
    } else {
      var d := RoundsPerDrop(cfg);
      DropOnce(cfg, g, states);
      EveryCommandSettles(cfg, g, states[d..]);
      LastOfRest(states, d);
      AnsweredBefore(states[0], states[d], states[|states| - 1]);
    }
  }

  lemma LastOfRest(states: seq<System>, d: nat)
    requires d < |states|
    ensures states[d..][0] == states[d] && states[d..][|states[d..]| - 1] == states[|states| - 1]
  {
  }

  lemma AnsweredAtZero(cfg: Config, g: Owner, states: seq<System>)
    requires Commands.ValidConfig(cfg) && Rounds(cfg, g, states) && Inv(cfg, states[0]) && Idle(states[0], g)
    requires Measure(cfg, states[0], g) == 0
    ensures Answered(states[0], states[|states| - 1])
  {
    RoundsKeep(cfg, g, states, |states| - 1);
    LastIdle(cfg, g, states);
    NoneWaiting(cfg, states[|states| - 1], g);
  }

  lemma NoneWaiting(cfg: Config, s: System, g: Owner)
    requires g in s.gateways && Measure(cfg, s, g) == 0
    ensures AllAnswered(s) && (Drained(s) ==> forall c :: c in s.db.rows ==> Terminal(s.db.rows[c].status))
  {
    MeasureZero(cfg, s, g);
    forall c | c in s.db.rows ensures Terminal(s.db.rows[c].status) || Reported(s.log, c) {
      assert c !in Waiting(s);
    }
  }

  /** Spending RoundsPerDrop rounds leaves enough of them for the measure that remains. */
  lemma DropOnce(cfg: Config, g: Owner, states: seq<System>)
    requires Commands.ValidConfig(cfg) && Rounds(cfg, g, states) && Inv(cfg, states[0])
    requires Measure(cfg, states[0], g) > 0
    requires |states| > RoundsPerDrop(cfg) * Measure(cfg, states[0], g)
    ensures var d := RoundsPerDrop(cfg);
            && |states| > d
            && Inv(cfg, states[d]) && states[d].db.rows.Keys == states[0].db.rows.Keys
            && Rounds(cfg, g, states[d..]) && Idle(states[d], g)
            && Measure(cfg, states[d], g) < Measure(cfg, states[0], g)
            && |states[d..]| > d * Measure(cfg, states[d], g)
  {
    var d := RoundsPerDrop(cfg);
    Budget(|states|, d, Measure(cfg, states[0], g), 0);
    MeasureDrops(cfg, g, states);
    RoundsKeep(cfg, g, states, d);
    RoundsSuffix(cfg, g, states, d);
    Budget(|states|, d, Measure(cfg, states[0], g), Measure(cfg, states[d], g));
  }

  lemma Budget(n: nat, d: nat, m: nat, m': nat)
    requires m' < m && n > d * m
    ensures n > d && n - d > d * m'
  {
    assert d * m == d * m' + d * (m - m');
    assert d * (m - m') == d * (m - m' - 1) + d;
  }

  lemma RoundsSuffix(cfg: Config, g: Owner, states: seq<System>, d: nat)
    requires Rounds(cfg, g, states) && 0 < d < |states|
    ensures Rounds(cfg, g, states[d..]) && Idle(states[d], g)
  {
    assert Round(cfg, states[d - 1], states[d - 1 + 1], g);
    forall i | 0 <= i < |states[d..]| - 1 ensures Round(cfg, states[d..][i], states[d..][i + 1], g) {
      assert Round(cfg, states[d + i], states[d + i + 1], g);
    }
  }

  lemma LastIdle(cfg: Config, g: Owner, states: seq<System>)
    requires Rounds(cfg, g, states) && Idle(states[0], g)
    ensures Idle(states[|states| - 1], g)
  {
    var n := |states|;
    if n > 1 {
      assert Round(cfg, states[n - 2], states[n - 2 + 1], g);
    }
  }
}
