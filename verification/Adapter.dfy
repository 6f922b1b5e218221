/** The gateway's dispatch tick as it runs: claim, publish, mark, one command after the
    other. Every tick is a run of the dispatch protocol. */
module Adapter {
  import opened Prelude
  import opened Ids
  import opened Schema
  import opened Commands
  import opened Dispatch
  import opened DispatchSafety
  import opened CommandStore
  import Backoff

  /** What comes of one MQTT publish: a timed-out publish may have reached the broker. */
  datatype PublishOutcome = Accepted | NotAccepted(error: string, reached: bool)

  function Sending(outcome: PublishOutcome): Outcome {
    if outcome.Accepted? then Sent else Refused(outcome.error)
  }

  /** What comes of one Kafka write: a failed write may be in the log. */
  datatype ReportOutcome = Written | NotConfirmed(logged: bool)

  /** What comes of a claim: one that ends in an error may have been applied all the same. */
  datatype ClaimOutcome = Returned | ClaimFailed(applied: bool)

  /** What comes of a mark, likewise. */
  datatype MarkOutcome = Answered | MarkFailed(applied: bool)

  predicate Applied(marking: MarkOutcome) {
    marking.Answered? || marking.applied
  }

  /** `t` continues a run that began in `s`. */
  ghost predicate Continues(cfg: Config, s: System, t: System)
  {
    Reachable(cfg, s) && exists steps :: RunFrom(cfg, s, steps, t)
  }

  lemma {:induction false} RunAppend(cfg: Config, s: System, steps: seq<Step>, t: System, step: Step)
    requires RunFrom(cfg, s, steps, t) && Enabled(cfg, t, step)
    ensures RunFrom(cfg, s, steps + [step], After(cfg, t, step))
    decreases |steps|
  {
    if steps == [] {
      var u := After(cfg, t, step);
      assert ([step])[1..] == [];
      assert RunFrom(cfg, u, [], u);
    } else {
      RunAppend(cfg, After(cfg, s, steps[0]), steps[1..], t, step);
      assert (steps + [step])[1..] == steps[1..] + [step];
    }
  }

  lemma ContinueStep(cfg: Config, s: System, t: System, step: Step)
    requires Commands.ValidConfig(cfg) && Continues(cfg, s, t) && Enabled(cfg, t, step)
    ensures Continues(cfg, s, After(cfg, t, step))
  {
    var steps :| RunFrom(cfg, s, steps, t);
    RunAppend(cfg, s, steps, t, step);
  }

  lemma ContinueHere(cfg: Config, s: System)
    requires Reachable(cfg, s)
    ensures Continues(cfg, s, s)
  {
    assert RunFrom(cfg, s, [], s);
  }

  /** The gateway is working through `held[i..]`, having handled the items before. */
  ghost predicate AtItem(sys: System, owner: Owner, stage: Stage, ticks: nat, held: seq<Held>, items: seq<PendingCommand>, i: nat) {
    && i <= |held| == |items|
    && (forall k :: 0 <= k < |items| ==> held[k].item == items[k])
    && owner in sys.gateways
    && sys.gateways[owner] == Gateway(stage, true, held[i..], Unsent, ticks)
  }

  ghost predicate AtStage(sys: System, owner: Owner, stage: Stage, ticks: nat) {
    owner in sys.gateways && sys.gateways[owner] == Gateway(stage, false, [], Unsent, ticks)
  }

  lemma NextItem(held: seq<Held>, i: nat)
    requires i < |held|
    ensures held[i..] != [] && held[i..][0] == held[i] && held[i..][1..] == held[i + 1..]
  {
  }

  /** The gateway has sent, or failed to send, the message for item `i`. */
  ghost predicate AtMark(sys: System, owner: Owner, stage: Stage, ticks: nat, held: seq<Held>, items: seq<PendingCommand>, i: nat, outcome: Outcome) {
    && i < |held| == |items|
    && (forall k :: 0 <= k < |items| ==> held[k].item == items[k])
    && owner in sys.gateways
    && outcome != Unsent
    && sys.gateways[owner] == Gateway(stage, true, held[i..], outcome, ticks)
  }

  /** Everything but the gateways stays the same, except the tables. */
  predicate SameChannels(s: System, t: System) {
    t.now == s.now && t.broker == s.broker && t.log == s.log
  }

  lemma ReportStep(cfg: Config, start: System, s: System, owner: Owner, stage: Stage, ticks: nat, held: seq<Held>, items: seq<PendingCommand>, i: nat,
                   outcome: ReportOutcome, at: Time) returns (t: System)
    requires Commands.ValidConfig(cfg) && Continues(cfg, start, s) && !stage.DispatchStage?
    requires AtItem(s, owner, stage, ticks, held, items, i) && i < |items|
    ensures Continues(cfg, start, t)
    ensures t.db == s.db && t.now == s.now && t.broker == s.broker
    ensures t.log == if outcome.Written? || outcome.logged then s.log + [FailureReport(stage, items[i], at)] else s.log
    ensures if outcome.Written? then AtMark(t, owner, stage, ticks, held, items, i, Sent)
            else AtItem(t, owner, stage, ticks, held, items, i + 1)
  {
    NextItem(held, i);
    var step := Report(owner, outcome.Written? || outcome.logged, outcome.Written?, at);
    t := After(cfg, s, step);
    ContinueStep(cfg, start, s, step);
  }

  lemma PublishStep(cfg: Config, start: System, s: System, owner: Owner, ticks: nat, held: seq<Held>, items: seq<PendingCommand>, i: nat,
                    outcome: PublishOutcome) returns (t: System)
    requires Commands.ValidConfig(cfg) && Continues(cfg, start, s)
    requires AtItem(s, owner, DispatchStage, ticks, held, items, i) && i < |items|
    ensures Continues(cfg, start, t)
    ensures t.db == s.db && t.now == s.now && t.log == s.log
    ensures t.broker == if outcome.Accepted? || outcome.reached then s.broker + {items[i].payload} else s.broker
    ensures AtMark(t, owner, DispatchStage, ticks, held, items, i, Sending(outcome))
  {
    NextItem(held, i);
    var step := Publish(owner, outcome.Accepted? || outcome.reached, outcome.Accepted?, if outcome.Accepted? then "" else outcome.error);
    t := After(cfg, s, step);
    ContinueStep(cfg, start, s, step);
  }

  lemma ItemAttempts(cfg: Config, start: System, sys: System, owner: Owner)
    requires Commands.ValidConfig(cfg) && Continues(cfg, start, sys) && Working(sys, owner)
    ensures sys.gateways[owner].batch[0].item.publishAttempts >= 1
  {
    var steps :| RunFrom(cfg, start, steps, sys);
    ReachableInv(cfg, start);
    RunInv(cfg, start, steps, sys);
    assert GatewayOk(sys.db.rows, sys.past.claims, sys.now, owner, sys.gateways[owner]);
    assert HeldOk(sys.db.rows, sys.past.claims, sys.now, owner, sys.gateways[owner].stage, sys.gateways[owner].batch[0]);
  }

  lemma MarkStep(cfg: Config, start: System, s: System, owner: Owner, stage: Stage, ticks: nat, held: seq<Held>, items: seq<PendingCommand>, i: nat,
                 outcome: Outcome, wall: Time) returns (t: System)
    requires Commands.ValidConfig(cfg) && Continues(cfg, start, s) && wall <= s.now + cfg.skew
    requires AtMark(s, owner, stage, ticks, held, items, i, outcome)
    ensures Continues(cfg, start, t) && SameChannels(s, t)
    ensures items[i].publishAttempts >= 1
    ensures var m := MarkHead(cfg, s.db, stage, outcome, items[i], owner, s.now, wall);
            t.db == if m.Some? then m.value else s.db
    ensures AtItem(t, owner, stage, ticks, held, items, i + 1)
  {
    NextItem(held, i);
    ItemAttempts(cfg, start, s, owner);
    t := After(cfg, s, Mark(owner, wall));
    ContinueStep(cfg, start, s, Mark(owner, wall));
  }

  lemma MarkFailsStep(cfg: Config, start: System, s: System, owner: Owner, stage: Stage, ticks: nat, held: seq<Held>, items: seq<PendingCommand>,
                      i: nat, outcome: Outcome) returns (t: System)
    requires Commands.ValidConfig(cfg) && Continues(cfg, start, s)
    requires AtMark(s, owner, stage, ticks, held, items, i, outcome)
    ensures Continues(cfg, start, t) && SameChannels(s, t) && t.db == s.db
    ensures AtItem(t, owner, stage, ticks, held, items, i + 1)
  {
    NextItem(held, i);
    t := After(cfg, s, MarkFails(owner));
    ContinueStep(cfg, start, s, MarkFails(owner));
  }

  lemma EndStep(cfg: Config, start: System, s: System, owner: Owner, stage: Stage, ticks: nat, held: seq<Held>, items: seq<PendingCommand>) returns (t: System)
    requires Commands.ValidConfig(cfg) && Continues(cfg, start, s)
    requires AtItem(s, owner, stage, ticks, held, items, |items|)
    ensures Continues(cfg, start, t) && SameChannels(s, t) && t.db == s.db
    ensures AtStage(t, owner, NextStage(stage), if stage.DispatchStage? then ticks + 1 else ticks)
  {
    assert held[|held|..] == [];
    t := After(cfg, s, EndBatch(owner));
    ContinueStep(cfg, start, s, EndBatch(owner));
  }

  lemma ClaimStep(cfg: Config, start: System, s: System, owner: Owner, stage: Stage, ticks: nat, locked: set<CommandId>, chosen: seq<CommandId>)
    returns (t: System, held: seq<Held>)
    requires Commands.ValidConfig(cfg) && Continues(cfg, start, s)
    requires AtStage(s, owner, stage, ticks) && ClaimEnabled(cfg, s, owner, locked, chosen)
    ensures Continues(cfg, start, t) && SameChannels(s, t)
    ensures t.db == s.db.(rows := ClaimRows(cfg, stage, s.db.rows, Elements(chosen), owner, s.now))
    ensures AtItem(t, owner, stage, ticks, held, Items(stage, t.db.rows, chosen), 0)
  {
    t := After(cfg, s, Claim(owner, locked, chosen));
    ContinueStep(cfg, start, s, Claim(owner, locked, chosen));
    held := t.gateways[owner].batch;
    assert held[0..] == held;
  }

  /** A claim whose rows the gateway never sees. */
  lemma UnseenStep(cfg: Config, start: System, s: System, owner: Owner, stage: Stage, ticks: nat, locked: set<CommandId>, chosen: seq<CommandId>)
    returns (t: System)
    requires Commands.ValidConfig(cfg) && Continues(cfg, start, s)
    requires AtStage(s, owner, stage, ticks) && ClaimEnabled(cfg, s, owner, locked, chosen)
    ensures Continues(cfg, start, t) && SameChannels(s, t)
    ensures t.db == s.db.(rows := ClaimRows(cfg, stage, s.db.rows, Elements(chosen), owner, s.now))
    ensures AtItem(t, owner, stage, ticks, [], [], 0)
  {
    t := After(cfg, s, ClaimUnseen(owner, locked, chosen));
    ContinueStep(cfg, start, s, ClaimUnseen(owner, locked, chosen));
    assert t.gateways[owner].batch == [];
  }

  /** A claim that is not applied is one that finds every row locked. */
  lemma NoClaimStep(cfg: Config, start: System, s: System, owner: Owner, stage: Stage, ticks: nat) returns (t: System)
    requires Commands.ValidConfig(cfg) && Continues(cfg, start, s) && AtStage(s, owner, stage, ticks)
    ensures Continues(cfg, start, t) && SameChannels(s, t) && t.db == s.db
    ensures AtItem(t, owner, stage, ticks, [], [], 0)
  {
    var all := Eligible(cfg, stage, s.db.rows, s.now);
    assert Elements<CommandId>([]) == {} && all - all == {};
    t := UnseenStep(cfg, start, s, owner, stage, ticks, all, []);
    assert ClaimRows(cfg, stage, s.db.rows, {}, owner, s.now) == s.db.rows;
  }

  class Loop {
    const cfg: Config
    const owner: Owner
    const store: Store
    var now: Time
    var broker: set<Command>
    var log: seq<CommandResult>
    ghost var sys: System

    ghost predicate Synced()
      reads this, store
    {
      && Commands.ValidConfig(cfg)
      && sys.db == store.Db() && sys.now == now && sys.broker == broker && sys.log == log
      && owner in sys.gateways
    }

    /** A gateway joining the protocol: its Start step. */
    constructor (cfg: Config, owner: Owner, store: Store, now: Time, broker: set<Command>, log: seq<CommandResult>, ghost sys: System)
      requires Commands.ValidConfig(cfg)
      requires sys.db == store.Db() && sys.now == now && sys.broker == broker && sys.log == log
      ensures this.cfg == cfg && this.owner == owner && this.store == store
      ensures Synced() && this.sys == After(cfg, sys, Start(owner))
    {
      this.cfg, this.owner, this.store := cfg, owner, store;
      this.now, this.broker, this.log := now, broker, log;
      this.sys := After(cfg, sys, Start(owner));
    }

    /** One of the three claims of a tick; one that fails brings no items. */
    method ClaimBatch(stage: Stage, locked: set<CommandId>, claim: ClaimOutcome, ghost start: System, ghost ticks: nat)
      returns (items: seq<PendingCommand>, ghost held: seq<Held>)
      requires Synced() && Continues(cfg, start, sys) && AtStage(sys, owner, stage, ticks)
      modifies this`sys, store
      ensures Synced() && Continues(cfg, start, sys) && AtItem(sys, owner, stage, ticks, held, items, 0)
      ensures claim.ClaimFailed? ==> items == []
      ensures claim.ClaimFailed? && !claim.applied ==> store.Db() == old(store.Db())
    {
      if claim.ClaimFailed? && !claim.applied {
        items, held := [], [];
        sys := NoClaimStep(cfg, start, sys, owner, stage, ticks);
      } else {
        ghost var chosen;
        items, chosen := store.Claim(cfg, stage, owner, now, locked);
        if claim.Returned? {
          sys, held := ClaimStep(cfg, start, sys, owner, stage, ticks, locked, chosen);
        } else {
          items, held := [], [];
          sys := UnseenStep(cfg, start, sys, owner, stage, ticks, locked, chosen);
        }
      }
    }

    /** Sends one failure report and releases its claim; a report that Kafka did not confirm,
        or a release that fails, keeps the claim. */
    method ReportOne(stage: Stage, command: PendingCommand, outcome: ReportOutcome, marking: MarkOutcome, at: Time, wall: Time,
                     ghost start: System, ghost ticks: nat, ghost held: seq<Held>, ghost items: seq<PendingCommand>, ghost i: nat)
      requires Synced() && Continues(cfg, start, sys) && !stage.DispatchStage? && wall <= now + cfg.skew
      requires AtItem(sys, owner, stage, ticks, held, items, i) && i < |items| && items[i] == command
      modifies this`sys, this`log, store
      ensures Synced() && Continues(cfg, start, sys) && AtItem(sys, owner, stage, ticks, held, items, i + 1)
    {
      var result := FailureReport(stage, command, at);
      if outcome.Written? || outcome.logged {
        log := log + [result];
      }
      sys := ReportStep(cfg, start, sys, owner, stage, ticks, held, items, i, outcome, at);
      if outcome.Written? {
        if Applied(marking) {
          var ok;
          if stage.TimeoutStage? {
            ok := store.MarkCommandTimeoutNotified(command.commandId, owner, now);
          } else {
            ok := store.DelayCommandFailureResult(command.commandId, owner, now);
          }
          sys := MarkStep(cfg, start, sys, owner, stage, ticks, held, items, i, Sent, wall);
        } else {
          sys := MarkFailsStep(cfg, start, sys, owner, stage, ticks, held, items, i, Sent);
        }
      }
    }

    /** publishTimeouts and publishExhaustedFailures. */
    method ReportFailures(stage: Stage, locked: set<CommandId>, claim: ClaimOutcome, report: CommandId -> ReportOutcome, marking: CommandId -> MarkOutcome,
                          at: Time, wall: Time, ghost start: System, ghost ticks: nat)
      requires Synced() && Continues(cfg, start, sys) && !stage.DispatchStage? && wall <= now + cfg.skew
      requires AtStage(sys, owner, stage, ticks)
      modifies this`sys, this`log, store
      ensures Synced() && Continues(cfg, start, sys)
      ensures AtStage(sys, owner, NextStage(stage), ticks)
      ensures claim == ClaimFailed(false) ==> log == old(log) && store.Db() == old(store.Db())
    {
      ghost var held;
      var items;
      items, held := ClaimBatch(stage, locked, claim, start, ticks);
      var i := 0;
      while i < |items|
        invariant 0 <= i <= |items|
        invariant Synced() && Continues(cfg, start, sys) && AtItem(sys, owner, stage, ticks, held, items, i)
        invariant claim == ClaimFailed(false) ==> log == old(log) && store.Db() == old(store.Db())
      {
        var c := items[i].commandId;
        ReportOne(stage, items[i], report(c), marking(c), at, wall, start, ticks, held, items, i);
        i := i + 1;
      }
      sys := EndStep(cfg, start, sys, owner, stage, ticks, held, items);
    }

    /** Records what came of one publish: published, to be retried after the backoff delay,
        or exhausted; a failed statement may leave the claim as it was. */
    method Record(command: PendingCommand, outcome: PublishOutcome, marking: MarkOutcome, wall: Time)
      requires command.publishAttempts >= 1
      modifies store
      ensures var m := MarkHead(cfg, old(store.Db()), DispatchStage, Sending(outcome), command, owner, now, wall);
              store.Db() == if Applied(marking) && m.Some? then m.value else old(store.Db())
    {
      if !Applied(marking) {
        return;
      }
      var ok;
      if outcome.NotAccepted? {
        if command.publishAttempts >= cfg.maxAttempts {
          ok := store.MarkCommandPublishExhausted(command.commandId, owner, outcome.error, now);
        } else {
          var delay := Backoff.ShiftLeft64(cfg.retryInitial, command.publishAttempts - 1);
          if delay > cfg.retryMax {
            delay := cfg.retryMax;
          }
          ok := store.ScheduleCommandRetry(cfg, command, owner, outcome.error, wall + delay, now);
        }
      } else {
        ok := store.MarkCommandPublished(command.commandId, owner, now);
      }
    }

    method DispatchOne(command: PendingCommand, outcome: PublishOutcome, marking: MarkOutcome, wall: Time,
                       ghost start: System, ghost ticks: nat, ghost held: seq<Held>, ghost items: seq<PendingCommand>, ghost i: nat)
      requires Synced() && Continues(cfg, start, sys) && wall <= now + cfg.skew
      requires AtItem(sys, owner, DispatchStage, ticks, held, items, i) && i < |items| && items[i] == command
      modifies this`sys, this`broker, store
      ensures Synced() && Continues(cfg, start, sys) && AtItem(sys, owner, DispatchStage, ticks, held, items, i + 1)
    {
      if outcome.Accepted? || outcome.reached {
        broker := broker + {command.payload};
      }
      sys := PublishStep(cfg, start, sys, owner, ticks, held, items, i, outcome);
      ghost var marked := MarkStep(cfg, start, sys, owner, DispatchStage, ticks, held, items, i, Sending(outcome), wall);
      ghost var unmarked := MarkFailsStep(cfg, start, sys, owner, DispatchStage, ticks, held, items, i, Sending(outcome));
      Record(command, outcome, marking, wall);
      sys := if Applied(marking) then marked else unmarked;
    }

    /** The claim and the publish loop of dispatchLoop. */
    method DispatchClaimed(locked: set<CommandId>, claim: ClaimOutcome, publish: CommandId -> PublishOutcome, marking: CommandId -> MarkOutcome,
                           wall: Time, ghost start: System, ghost ticks: nat)
      requires Synced() && Continues(cfg, start, sys) && wall <= now + cfg.skew
      requires AtStage(sys, owner, DispatchStage, ticks)
      modifies this`sys, this`broker, store
      ensures Synced() && Continues(cfg, start, sys)
      ensures AtStage(sys, owner, TimeoutStage, ticks + 1)
      ensures claim == ClaimFailed(false) ==> broker == old(broker) && store.Db() == old(store.Db())
    {
      ghost var held;
      var items;
      items, held := ClaimBatch(DispatchStage, locked, claim, start, ticks);
      var i := 0;
      while i < |items|
        invariant 0 <= i <= |items|
        invariant Synced() && Continues(cfg, start, sys) && AtItem(sys, owner, DispatchStage, ticks, held, items, i)
        invariant claim == ClaimFailed(false) ==> broker == old(broker) && store.Db() == old(store.Db())
      {
        var c := items[i].commandId;
        DispatchOne(items[i], publish(c), marking(c), wall, start, ticks, held, items, i);
        i := i + 1;
      }
      sys := EndStep(cfg, start, sys, owner, DispatchStage, ticks, held, items);
    }

    /** One tick of dispatchLoop. Whatever Kafka, the broker and the database do, claims and
        marks that fail included, the tick is a run of the protocol that ends with the gateway
        idle and one tick further. */
    method Tick(locked: Stage -> set<CommandId>, claim: Stage -> ClaimOutcome, report: CommandId -> ReportOutcome, publish: CommandId -> PublishOutcome,
                marking: Stage -> CommandId -> MarkOutcome, at: Time, wall: Time)
      requires Synced() && Reachable(cfg, sys) && wall <= now + cfg.skew
      requires AtStage(sys, owner, TimeoutStage, sys.gateways[owner].ticks)
      modifies this`sys, this`log, this`broker, store
      ensures Synced()
      ensures exists steps :: RunFrom(cfg, old(sys), steps, sys)
      ensures AtStage(sys, owner, TimeoutStage, old(sys.gateways[owner].ticks) + 1)
      ensures (forall stage :: claim(stage) == ClaimFailed(false)) ==>
                store.Db() == old(store.Db()) && log == old(log) && broker == old(broker)
    {
      ghost var start, ticks := sys, sys.gateways[owner].ticks;
      ContinueHere(cfg, sys);
      ReportFailures(TimeoutStage, locked(TimeoutStage), claim(TimeoutStage), report, marking(TimeoutStage), at, wall, start, ticks);
      ReportFailures(FailureStage, locked(FailureStage), claim(FailureStage), report, marking(FailureStage), at, wall, start, ticks);
      DispatchClaimed(locked(DispatchStage), claim(DispatchStage), publish, marking(DispatchStage), wall, start, ticks);
    }
  }
}
