/** Progress is not an empty promise: from every reachable state the one gateway that stays up
    can finish its tick, the worker can catch up, and round can follow round until every
    command is settled. */
module DispatchRounds {
  import opened Prelude
  import opened Ids
  import opened Schema
  import opened Commands
  import opened Dispatch
  import opened DispatchSafety
  import opened DispatchProgress

  // ---- A claim can always be made -----------------------------------------------------------------

  lemma {:induction false} OldestExists<K(!new)>(eligible: set<K>, key: K -> Option<int>) returns (best: K)
    requires eligible != {}
    ensures best in eligible && forall d :: d in eligible ==> SortsBefore(key(best), key(d))
    decreases |eligible|
  {
    best :| best in eligible;
    var rest := eligible - {best};
    if rest != {} {
      var other := OldestExists(rest, key);
      if !SortsBefore(key(best), key(other)) {
        best := other;
      }
    }
  }

  lemma {:induction false} SelectionExists<K(!new)>(eligible: set<K>, key: K -> Option<int>, limit: nat) returns (chosen: seq<K>)
    ensures Distinct(chosen) && OldestFirst(eligible, key, limit, Elements(chosen))
    ensures forall c :: c in chosen ==> c in eligible
    decreases |eligible|
  {
    if eligible == {} || limit == 0 {
      chosen := [];
      assert Elements(chosen) == {};
    } else {
      var best := OldestExists(eligible, key);
      var rest := SelectionExists(eligible - {best}, key, limit - 1);
      chosen := [best] + rest;
      assert Elements(chosen) == {best} + Elements(rest);
      assert best !in Elements(rest);
    }
  }

  lemma ClaimExists(cfg: Config, s: System, g: Owner) returns (chosen: seq<CommandId>)
    requires g in s.gateways && !s.gateways[g].claimed
    ensures ClaimEnabled(cfg, s, g, {}, chosen)
  {
    var stage := s.gateways[g].stage;
    chosen := SelectionExists(Eligible(cfg, stage, s.db.rows, s.now), ClaimKey(stage, s.db.rows), CLAIM_LIMIT);
    assert Eligible(cfg, stage, s.db.rows, s.now) - {} == Eligible(cfg, stage, s.db.rows, s.now);
  }

  // ---- Live runs, step by step -------------------------------------------------------------------------

  ghost predicate Lives(cfg: Config, s: System, t: System, g: Owner) {
    exists steps :: LiveRun(cfg, s, steps, t, g)
  }

  lemma {:induction false} LiveAppend(cfg: Config, s: System, steps: seq<Step>, t: System, step: Step, g: Owner)
    requires LiveRun(cfg, s, steps, t, g) && LiveStep(cfg, t, step, g)
    ensures LiveRun(cfg, s, steps + [step], After(cfg, t, step), g)
    decreases |steps|
  {
    if steps == [] {
      var u := After(cfg, t, step);
      assert ([step])[1..] == [];
      assert LiveRun(cfg, u, [], u, g);
    } else {
      LiveAppend(cfg, After(cfg, s, steps[0]), steps[1..], t, step, g);
      assert (steps + [step])[1..] == steps[1..] + [step];
    }
  }

  /** `t` is a reachable state of a live run from `s`. */
  ghost predicate Live(cfg: Config, s: System, t: System, g: Owner)
    requires Commands.ValidConfig(cfg)
  {
    Inv(cfg, t) && Lives(cfg, s, t, g)
  }

  lemma LiveThen(cfg: Config, s: System, t: System, step: Step, g: Owner)
    requires Commands.ValidConfig(cfg) && Live(cfg, s, t, g) && LiveStep(cfg, t, step, g)
    ensures Live(cfg, s, After(cfg, t, step), g)
  {
    var steps :| LiveRun(cfg, s, steps, t, g);
    LiveAppend(cfg, s, steps, t, step, g);
    StepInv(cfg, t, step);
  }

  // ---- The gateway finishes what it has begun -------------------------------------------------------------

  lemma MarkIsEnabled(cfg: Config, s: System, g: Owner)
    requires Commands.ValidConfig(cfg) && Inv(cfg, s) && Working(s, g) && s.gateways[g].outcome != Unsent
    ensures LiveStep(cfg, s, Mark(g, s.now), g)
  {
    assert GatewayOk(s.db.rows, s.past.claims, s.now, g, s.gateways[g]);
    assert HeldOk(s.db.rows, s.past.claims, s.now, g, s.gateways[g].stage, s.gateways[g].batch[0]);
  }

  lemma MarkNext(cfg: Config, s0: System, s: System, g: Owner) returns (t: System)
    requires Commands.ValidConfig(cfg) && Live(cfg, s0, s, g) && Working(s, g) && s.gateways[g].outcome != Unsent
    ensures Live(cfg, s0, t, g) && t.now == s.now && g in t.gateways && t.gateways[g] == Pop(s.gateways[g])
  {
    MarkIsEnabled(cfg, s, g);
    LiveThen(cfg, s0, s, Mark(g, s.now), g);
    t := After(cfg, s, Mark(g, s.now));
  }

  lemma SendNext(cfg: Config, s0: System, s: System, g: Owner) returns (t: System)
    requires Commands.ValidConfig(cfg) && Live(cfg, s0, s, g) && Working(s, g) && s.gateways[g].outcome == Unsent
    ensures Live(cfg, s0, t, g) && t.now == s.now && g in t.gateways && t.gateways[g] == s.gateways[g].(outcome := Sent)
  {
    if s.gateways[g].stage.DispatchStage? {
      LiveThen(cfg, s0, s, Publish(g, true, true, ""), g);
      t := AfterPublish(s, g, true, true, "");
    } else {
      LiveThen(cfg, s0, s, Report(g, true, true, s.now), g);
      t := AfterReport(s, g, true, true, s.now);
    }
  }

  lemma {:induction false} FinishBatch(cfg: Config, s0: System, s: System, g: Owner) returns (t: System)
    requires Commands.ValidConfig(cfg) && Live(cfg, s0, s, g) && g in s.gateways && s.gateways[g].claimed
    ensures Live(cfg, s0, t, g) && t.now == s.now && g in t.gateways
    ensures t.gateways[g].claimed && t.gateways[g].batch == []
    ensures t.gateways[g].stage == s.gateways[g].stage && t.gateways[g].ticks == s.gateways[g].ticks
    decreases |s.gateways[g].batch|, if s.gateways[g].outcome == Unsent then 1 else 0
  {
    if s.gateways[g].batch == [] {
      t := s;
    } else if s.gateways[g].outcome == Unsent {
      t := SendNext(cfg, s0, s, g);
      t := FinishBatch(cfg, s0, t, g);
    } else {
      t := MarkNext(cfg, s0, s, g);
      t := FinishBatch(cfg, s0, t, g);
    }
  }

  /** Between stages. */
  predicate Between(s: System, g: Owner, stage: Stage, ticks: nat) {
    && g in s.gateways
    && s.gateways[g].stage == stage && s.gateways[g].ticks == ticks
    && !s.gateways[g].claimed && s.gateways[g].batch == []
  }

  lemma EndStage(cfg: Config, s0: System, s: System, g: Owner) returns (t: System)
    requires Commands.ValidConfig(cfg) && Live(cfg, s0, s, g) && g in s.gateways && s.gateways[g].claimed
    ensures Live(cfg, s0, t, g) && t.now == s.now
    ensures Between(t, g, NextStage(s.gateways[g].stage), if s.gateways[g].stage.DispatchStage? then s.gateways[g].ticks + 1 else s.gateways[g].ticks)
  {
    var u := FinishBatch(cfg, s0, s, g);
    LiveThen(cfg, s0, u, EndBatch(g), g);
    t := After(cfg, u, EndBatch(g));
  }

  lemma RunStage(cfg: Config, s0: System, s: System, g: Owner, stage: Stage, ticks: nat) returns (t: System)
    requires Commands.ValidConfig(cfg) && Live(cfg, s0, s, g) && Between(s, g, stage, ticks)
    ensures Live(cfg, s0, t, g) && t.now == s.now
    ensures Between(t, g, NextStage(stage), if stage.DispatchStage? then ticks + 1 else ticks)
  {
    var chosen := ClaimExists(cfg, s, g);
    LiveThen(cfg, s0, s, Claim(g, {}, chosen), g);
    t := EndStage(cfg, s0, After(cfg, s, Claim(g, {}, chosen)), g);
  }

  // ---- The worker catches up ---------------------------------------------------------------------------------

  predicate SettledTo(s: System, k: nat) {
    forall i :: 0 <= i < k && i < |s.log| ==> s.log[i].commandId in s.db.rows && Terminal(s.db.rows[s.log[i].commandId].status)
  }

  lemma SettledNow(cfg: Config, db: CommandDb, now: Time, r: CommandResult)
    requires Commands.ValidConfig(cfg) && Shape(cfg, db.rows, db.devices, now) && Known(db.rows, r) && (r.success ==> r.state.Some?)
    ensures var a := ApplyCommandResult(db, r);
            a.Ok? && RowsGrow(db.rows, a.value.rows) && r.commandId in a.value.rows && Terminal(a.value.rows[r.commandId].status)
  {
    SettleKeepsRows(cfg, db, now, r);
  }

  lemma SettleOne(cfg: Config, s: System, k: nat)
    requires Commands.ValidConfig(cfg) && Shape(cfg, s.db.rows, s.db.devices, s.now) && k < |s.log| && SettledTo(s, k)
    requires Known(s.db.rows, s.log[k]) && (s.log[k].success ==> s.log[k].state.Some?)
    ensures SettledTo(AfterSettle(s, k), k + 1)
  {
    var t := AfterSettle(s, k);
    SettledNow(cfg, s.db, s.now, s.log[k]);
    forall i | 0 <= i < k ensures s.log[i].commandId in t.db.rows && Terminal(t.db.rows[s.log[i].commandId].status) {
      assert RowGrows(s.db.rows[s.log[i].commandId], t.db.rows[s.log[i].commandId]);
    }
  }

  lemma LogKnown(cfg: Config, s: System, k: nat)
    requires Commands.ValidConfig(cfg) && Inv(cfg, s) && k < |s.log|
    ensures Shape(cfg, s.db.rows, s.db.devices, s.now)
    ensures Known(s.db.rows, s.log[k]) && (s.log[k].success ==> s.log[k].state.Some?)
  {
    assert Credible(s.db.rows, s.past.answers, s.log[k]);
  }

  lemma SettleFrameOnly(s: System, k: nat)
    requires k < |s.log|
    ensures var t := AfterSettle(s, k); t.log == s.log && t.gateways == s.gateways && t.now == s.now
  {
  }

  lemma SettleNext(cfg: Config, s0: System, s: System, g: Owner, k: nat) returns (t: System)
    requires Commands.ValidConfig(cfg) && Live(cfg, s0, s, g) && k < |s.log| && SettledTo(s, k)
    ensures Live(cfg, s0, t, g) && SettledTo(t, k + 1) && t.log == s.log && t.gateways == s.gateways && t.now == s.now
  {
    LogKnown(cfg, s, k);
    SettleOne(cfg, s, k);
    SettleFrameOnly(s, k);
    LiveThen(cfg, s0, s, Settle(k), g);
    t := AfterSettle(s, k);
  }

  lemma {:induction false} SettleAll(cfg: Config, s0: System, s: System, g: Owner, k: nat) returns (t: System)
    requires Commands.ValidConfig(cfg) && Live(cfg, s0, s, g) && k <= |s.log| && SettledTo(s, k)
    ensures Live(cfg, s0, t, g) && Drained(t) && t.gateways == s.gateways && t.now == s.now
    decreases |s.log| - k
  {
    if k == |s.log| {
      t := s;
    } else {
      t := SettleNext(cfg, s0, s, g, k);
      t := SettleAll(cfg, s0, t, g, k + 1);
    }
  }

  // ---- Rounds -------------------------------------------------------------------------------------------------

  lemma FinishTick(cfg: Config, s0: System, s: System, g: Owner, ticks: nat) returns (t: System)
    requires Commands.ValidConfig(cfg) && Live(cfg, s0, s, g) && Between(s, g, TimeoutStage, ticks)
    ensures Live(cfg, s0, t, g) && t.now == s.now && Between(t, g, TimeoutStage, ticks + 1)
  {
    t := RunStage(cfg, s0, s, g, TimeoutStage, ticks);
    t := RunStage(cfg, s0, t, g, FailureStage, ticks);
    t := RunStage(cfg, s0, t, g, DispatchStage, ticks);
  }

  lemma DrainedKeepsUp(s: System)
    requires Drained(s)
    ensures KeepsUp(s)
  {
    forall c | c in s.db.rows ensures c !in Lagging(s) {
      if Reported(s.log, c) {
        var i :| 0 <= i < |s.log| && s.log[i].commandId == c;
      }
    }
    assert Lagging(s) == {};
  }

  /** A round can always follow, at whose end the worker has caught up. */
  lemma RoundExists(cfg: Config, s: System, g: Owner) returns (t: System)
    requires Commands.ValidConfig(cfg) && Inv(cfg, s) && Idle(s, g) && KeepsUp(s)
    ensures Inv(cfg, t) && Round(cfg, s, t, g) && Drained(t)
  {
    assert LiveRun(cfg, s, [], s, g);
    var u := FinishTick(cfg, s, s, g, s.gateways[g].ticks);
    var v := SettleAll(cfg, s, u, g, 0);
    LiveThen(cfg, s, v, Advance(SECOND), g);
    t := After(cfg, v, Advance(SECOND));
  }

  lemma {:induction false} RoundsExist(cfg: Config, s: System, g: Owner, n: nat) returns (states: seq<System>)
    requires Commands.ValidConfig(cfg) && Inv(cfg, s) && Idle(s, g) && Drained(s)
    ensures |states| == n + 1 && states[0] == s && Rounds(cfg, g, states) && Drained(states[n])
    decreases n
  {
    if n == 0 {
      return [s];
    }
    DrainedKeepsUp(s);
    var t := RoundExists(cfg, s, g);
    var rest := RoundsExist(cfg, t, g, n - 1);
    states := [s] + rest;
    forall i | 0 <= i < |states| - 1 ensures Round(cfg, states[i], states[i + 1], g) {
      if i > 0 {
        assert Round(cfg, rest[i - 1], rest[i - 1 + 1], g);
      }
    }
  }

  /** From any reachable state, wherever gateway `g` is in its loop, it can get to the end of
      its tick and the worker can catch up. */
  lemma CatchUp(cfg: Config, s: System, g: Owner) returns (t: System)
    requires Commands.ValidConfig(cfg) && Reachable(cfg, s) && g in s.gateways
    ensures Live(cfg, s, t, g) && Idle(t, g) && Drained(t)
  {
    ReachableInv(cfg, s);
    assert LiveRun(cfg, s, [], s, g);
    assert GatewayOk(s.db.rows, s.past.claims, s.now, g, s.gateways[g]);
    t := s;
    if t.gateways[g].claimed {
      t := EndStage(cfg, s, t, g);
    }
    t := ToTimeouts(cfg, s, t, g, t.gateways[g].stage, t.gateways[g].ticks);
    t := SettleAll(cfg, s, t, g, 0);
  }

  lemma ToTimeouts(cfg: Config, s0: System, s: System, g: Owner, stage: Stage, ticks: nat) returns (t: System)
    requires Commands.ValidConfig(cfg) && Live(cfg, s0, s, g) && Between(s, g, stage, ticks)
    ensures Live(cfg, s0, t, g) && Idle(t, g)
  {
    t := s;
    if stage.FailureStage? {
      t := RunStage(cfg, s0, t, g, FailureStage, ticks);
      t := RunStage(cfg, s0, t, g, DispatchStage, ticks);
    } else if stage.DispatchStage? {
      t := RunStage(cfg, s0, t, g, DispatchStage, ticks);
    }
  }

  ghost predicate AllSettled(rows: Rows) {
    forall c :: c in rows ==> Terminal(rows[c].status)
  }

  /** How many rounds settle everything from `s`. */
  ghost function RoundsNeeded(cfg: Config, s: System, g: Owner): nat
    requires Commands.ValidConfig(cfg)
  {
    RoundsPerDrop(cfg) * Measure(cfg, s, g)
  }

  lemma EnoughRounds(cfg: Config, g: Owner, s: System, states: seq<System>, n: nat)
    requires Commands.ValidConfig(cfg) && Inv(cfg, s) && Idle(s, g) && Drained(s)
    requires n == RoundsNeeded(cfg, s, g)
    requires |states| > n && states[0] == s && Rounds(cfg, g, states) && Drained(states[|states| - 1])
    ensures AllSettled(states[|states| - 1].db.rows)
  {
    EveryCommandSettles(cfg, g, states);
  }

  lemma RoundsSettle(cfg: Config, s: System, g: Owner, n: nat) returns (states: seq<System>)
    requires Commands.ValidConfig(cfg) && Inv(cfg, s) && Idle(s, g) && Drained(s)
    requires n == RoundsNeeded(cfg, s, g)
    ensures |states| == n + 1 && states[0] == s && Rounds(cfg, g, states)
    ensures AllSettled(states[|states| - 1].db.rows)
  {
    states := RoundsExist(cfg, s, g, n);
    EnoughRounds(cfg, g, s, states, n);
  }

  /** From any reachable state there is a live run to one with the gateway idle, and from there
      a sequence of rounds whose number is known beforehand, that ends with every command
      succeeded or failed. */
  lemma EveryStateCanSettle(cfg: Config, s: System, g: Owner) returns (t: System, states: seq<System>)
    requires Commands.ValidConfig(cfg) && Reachable(cfg, s) && g in s.gateways
    ensures Lives(cfg, s, t, g)
    ensures |states| == RoundsNeeded(cfg, t, g) + 1 && states[0] == t && Rounds(cfg, g, states)
    ensures AllSettled(states[|states| - 1].db.rows)
  {
    t := CatchUp(cfg, s, g);
    states := RoundsSettle(cfg, t, g, RoundsNeeded(cfg, t, g));
  }
}
