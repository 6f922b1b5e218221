/** What the dispatch protocol guarantees in every reachable state and over every run. */
module DispatchTheorems {
  import opened Prelude
  import opened Ids
  import opened Schema
  import opened Commands
  import opened Dispatch
  import opened DispatchSafety

  /** Gateway `g` has a claimed command at position `i` of its batch. */
  predicate InFlight(s: System, g: Owner, i: nat) {
    g in s.gateways && i < |s.gateways[g].batch|
  }

  function Flight(s: System, g: Owner, i: nat): Held
    requires InFlight(s, g, i)
  {
    s.gateways[g].batch[i]
  }

  lemma FlightOk(cfg: Config, s: System, g: Owner, i: nat)
    requires Commands.ValidConfig(cfg) && Reachable(cfg, s) && InFlight(s, g, i)
    ensures HeldOk(s.db.rows, s.past.claims, s.now, g, s.gateways[g].stage, Flight(s, g, i))
  {
    ReachableInv(cfg, s);
    assert GatewayOk(s.db.rows, s.past.claims, s.now, g, s.gateways[g]);
  }

  // ---- Lease fencing -------------------------------------------------------------------------

  /** No gateway claims a command that another one has in flight under an unexpired lease. */
  lemma UnexpiredLeaseExcludes(cfg: Config, s: System, g: Owner, locked: set<CommandId>, chosen: seq<CommandId>, o: Owner, i: nat)
    requires Commands.ValidConfig(cfg) && Reachable(cfg, s) && ClaimEnabled(cfg, s, g, locked, chosen)
    requires InFlight(s, o, i) && Flight(s, o, i).until > s.now
    ensures Flight(s, o, i).item.commandId !in chosen
  {
    FlightOk(cfg, s, o, i);
  }

  /** Two gateways have the same command in flight only after a lease ran out: that of the
      earlier claim. */
  lemma TwoInFlight(cfg: Config, s: System, g: Owner, i: nat, o: Owner, j: nat)
    requires Commands.ValidConfig(cfg) && Reachable(cfg, s) && InFlight(s, g, i) && InFlight(s, o, j)
    requires g != o && Flight(s, g, i).item.commandId == Flight(s, o, j).item.commandId
    ensures Flight(s, g, i).epoch <= Flight(s, o, j).epoch ==> Flight(s, g, i).until <= s.now
    ensures Flight(s, o, j).epoch <= Flight(s, g, i).epoch ==> Flight(s, o, j).until <= s.now
  {
    FlightOk(cfg, s, g, i);
    FlightOk(cfg, s, o, j);
  }

  /** A mark takes effect exactly when nobody has claimed its command since and the command
      has not been settled meanwhile: a gateway that lost its claim changes nothing. */
  lemma MarkSucceedsIffStillClaimed(cfg: Config, s: System, g: Owner, wall: Time)
    requires Commands.ValidConfig(cfg) && Reachable(cfg, s) && Enabled(cfg, s, Mark(g, wall))
    ensures var h := Flight(s, g, 0);
            var c := h.item.commandId;
            && c in s.db.rows
            && (MarkHead(cfg, s.db, s.gateways[g].stage, s.gateways[g].outcome, h.item, g, s.now, wall).Some? <==>
                h.epoch == s.past.claims[c] && !Terminal(s.db.rows[c].status))
  {
    FlightOk(cfg, s, g, 0);
    ReachableInv(cfg, s);
    var h := Flight(s, g, 0);
    MarkedRow(cfg, s.db, s.gateways[g].stage, s.gateways[g].outcome, h.item, g, s.now, wall);
  }

  /** A gateway never reaches the shift of the retry delay with a negative count. */
  lemma AttemptsPositive(cfg: Config, s: System, g: Owner, i: nat)
    requires Commands.ValidConfig(cfg) && Reachable(cfg, s) && InFlight(s, g, i)
    ensures Flight(s, g, i).item.publishAttempts >= 1
  {
    FlightOk(cfg, s, g, i);
  }

  // ---- Attempt accounting ----------------------------------------------------------------------

  /** Attempts exceed the limit only by the number of times an expired lease was reclaimed. */
  lemma AttemptLimit(cfg: Config, s: System, c: CommandId)
    requires Commands.ValidConfig(cfg) && Reachable(cfg, s) && c in s.db.rows
    ensures s.db.rows[c].publishAttempts <= cfg.maxAttempts + s.past.reclaims[c]
    ensures s.past.reclaims[c] == 0 ==> s.db.rows[c].publishAttempts <= cfg.maxAttempts
  {
    ReachableInv(cfg, s);
  }

  /** A retry that takes effect brings a new event: its attempt number is below the limit and
      above that of every retry event the command already has. The event is stored exactly
      if no other one has its id. */
  lemma RetryEventsAscend(cfg: Config, s: System, g: Owner, wall: Time)
    requires Commands.ValidConfig(cfg) && Reachable(cfg, s) && Enabled(cfg, s, Mark(g, wall))
    requires s.gateways[g].stage.DispatchStage? && s.gateways[g].outcome.Refused?
    requires Flight(s, g, 0).item.publishAttempts < cfg.maxAttempts
    ensures var h := Flight(s, g, 0);
            var c, n, t := h.item.commandId, h.item.publishAttempts, AfterMark(cfg, s, g, wall);
            && c in s.db.rows
            && (if h.epoch == s.past.claims[c] && !Terminal(s.db.rows[c].status)
                then RetryOf(c, n) !in s.db.events
                     && (RetryOf(c, n) in t.db.events <==> !Taken(s.db.events, RetryOf(c, n)))
                     && (forall m: nat :: RetryOf(c, m) in s.db.events ==> m < n)
                else t.db == s.db)
  {
    MarkSucceedsIffStillClaimed(cfg, s, g, wall);
    FlightOk(cfg, s, g, 0);
    ReachableInv(cfg, s);
  }

  // ---- Terminal absorption and agreement -------------------------------------------------------

  /** The terminal event of `c` is the same in both tables, or in neither. */
  ghost predicate SameTerminal(a: Events, b: Events, c: CommandId) {
    && (TerminalOf(c) in a <==> TerminalOf(c) in b)
    && (TerminalOf(c) in a ==> b[TerminalOf(c)] == a[TerminalOf(c)])
  }

  /** One step never touches a settled row or its terminal event. */
  lemma SettledStays(cfg: Config, s: System, step: Step, c: CommandId)
    requires Commands.ValidConfig(cfg) && Inv(cfg, s) && Enabled(cfg, s, step)
    requires c in s.db.rows && Terminal(s.db.rows[c].status)
    ensures var t := After(cfg, s, step);
            c in t.db.rows && t.db.rows[c] == s.db.rows[c] && SameTerminal(s.db.events, t.db.events, c)
  {
    StepGrows(cfg, s, step);
    TerminalEventStays(cfg, s, step, c);
  }

  lemma TerminalEventStays(cfg: Config, s: System, step: Step, c: CommandId)
    requires Enabled(cfg, s, step) && c in s.db.rows && Terminal(s.db.rows[c].status)
    ensures SameTerminal(s.db.events, After(cfg, s, step).db.events, c)
  {
  }

  /** Over any run, whatever gateways, workers, broker and device do, a settled command
      keeps its whole row and its terminal event. */
  lemma {:induction false} TerminalIsFinal(cfg: Config, s: System, steps: seq<Step>, t: System, c: CommandId)
    requires Commands.ValidConfig(cfg) && Inv(cfg, s) && RunFrom(cfg, s, steps, t)
    requires c in s.db.rows && Terminal(s.db.rows[c].status)
    ensures c in t.db.rows && t.db.rows[c] == s.db.rows[c]
    ensures SameTerminal(s.db.events, t.db.events, c)
    decreases |steps|
  {
    if steps != [] {
      SettledStays(cfg, s, steps[0], c);
      StepInv(cfg, s, steps[0]);
      TerminalIsFinal(cfg, After(cfg, s, steps[0]), steps[1..], t, c);
    }
  }

  /** A command has a terminal event exactly when it is settled and the event's id was not
      taken by another one; the event's type and content are the row's own outcome; a
      success wrote the device row once, anything else never did. */
  lemma OneTerminalEvent(cfg: Config, s: System, c: CommandId)
    requires Commands.ValidConfig(cfg) && Reachable(cfg, s)
    ensures TerminalOf(c) in s.db.events <==>
              c in s.db.rows && Terminal(s.db.rows[c].status) && TerminalOf(c) !in s.db.shadowed
    ensures TerminalOf(c) in s.db.events ==>
              && s.db.rows[c].result.Some?
              && s.db.events[TerminalOf(c)].kind == (if s.db.rows[c].status.Succeeded? then CommandSucceeded else CommandFailed)
              && s.db.events[TerminalOf(c)].body == TerminalBody(s.db.rows[c].payload, s.db.rows[c].result.value)
    ensures s.past.writes[c] == if c in s.db.rows && s.db.rows[c].status.Succeeded? then 1 else 0
  {
    ReachableInv(cfg, s);
  }

  // ---- When ids are free -----------------------------------------------------------------------------

  /** No other stored event has the id of `k`. */
  ghost predicate FreeFor(events: Events, k: EventKey) {
    forall j :: j in events && EventText(j) == EventText(k) ==> j == k
  }

  /** What comes from outside the protocol keeps off the id of `k`. */
  ghost predicate KeepsFree(steps: seq<Step>, k: EventKey) {
    forall i :: 0 <= i < |steps| && steps[i].Ambient? ==> FreeFor(steps[i].events, k)
  }

  lemma PutKeepsFree(events: Events, shadowed: set<EventKey>, j: EventKey, e: Event, k: EventKey)
    requires IsDerived(j) && WellFormedKey(j) && IsDerived(k) && WellFormedKey(k)
    requires FreeFor(events, k) && k !in shadowed
    ensures FreeFor(PutEvent(events, j, e), k) && k !in Shade(events, shadowed, j)
  {
    DerivedTextInjective(j, k);
  }

  lemma MarkKeepsFree(cfg: Config, db: CommandDb, stage: Stage, outcome: Outcome, item: PendingCommand, g: Owner, now: Time, wall: Time, k: EventKey)
    requires item.publishAttempts >= 1 && WellFormedCommand(item.commandId) && IsDerived(k) && WellFormedKey(k)
    requires FreeFor(db.events, k) && k !in db.shadowed
    ensures var m := MarkHead(cfg, db, stage, outcome, item, g, now, wall);
            m.Some? ==> FreeFor(m.value.events, k) && k !in m.value.shadowed
  {
    forall e {
      PutKeepsFree(db.events, db.shadowed, RetryOf(item.commandId, item.publishAttempts), e, k);
    }
  }

  lemma MarkStepKeepsFree(cfg: Config, s: System, g: Owner, wall: Time, k: EventKey)
    requires Commands.ValidConfig(cfg) && Inv(cfg, s) && Enabled(cfg, s, Mark(g, wall)) && IsCommandKey(k) && WellFormedKey(k)
    requires FreeFor(s.db.events, k) && k !in s.db.shadowed
    ensures var t := AfterMark(cfg, s, g, wall); FreeFor(t.db.events, k) && k !in t.db.shadowed
  {
    var gw := s.gateways[g];
    assert GatewayOk(s.db.rows, s.past.claims, s.now, g, gw);
    assert HeldOk(s.db.rows, s.past.claims, s.now, g, gw.stage, gw.batch[0]);
    MarkKeepsFree(cfg, s.db, gw.stage, gw.outcome, gw.batch[0].item, g, s.now, wall, k);
  }

  lemma SettleStepKeepsFree(s: System, i: nat, k: EventKey)
    requires i < |s.log| && s.log[i].commandId in s.db.rows && WellFormedCommand(s.log[i].commandId)
    requires IsCommandKey(k) && WellFormedKey(k) && FreeFor(s.db.events, k) && k !in s.db.shadowed
    ensures var t := AfterSettle(s, i); FreeFor(t.db.events, k) && k !in t.db.shadowed
  {
    var r := s.log[i];
    PutKeepsFree(s.db.events, s.db.shadowed, TerminalOf(r.commandId), TerminalEvent(s.db.rows[r.commandId].payload, r), k);
  }

  lemma QuietKeepsFree(cfg: Config, s: System, step: Step, k: EventKey)
    requires Enabled(cfg, s, step) && !step.Mark? && !step.Settle? && IsCommandKey(k) && WellFormedKey(k)
    requires FreeFor(s.db.events, k) && k !in s.db.shadowed && (step.Ambient? ==> FreeFor(step.events, k))
    ensures var t := After(cfg, s, step); FreeFor(t.db.events, k) && k !in t.db.shadowed
  {
    if step.Create? {
      var c, e := step.payload.commandId, PendingEvent(step.payload, step.payload.deviceId, step.at);
      PutKeepsFree(s.db.events, s.db.shadowed, PendingOf(c), e, k);
    }
  }

  lemma StepKeepsFree(cfg: Config, s: System, step: Step, k: EventKey)
    requires Commands.ValidConfig(cfg) && Inv(cfg, s) && Enabled(cfg, s, step) && IsCommandKey(k) && WellFormedKey(k)
    requires FreeFor(s.db.events, k) && k !in s.db.shadowed && (step.Ambient? ==> FreeFor(step.events, k))
    ensures var t := After(cfg, s, step); FreeFor(t.db.events, k) && k !in t.db.shadowed
  {
    if step.Mark? {
      MarkStepKeepsFree(cfg, s, step.g, step.wall, k);
    } else if step.Settle? {
      assert Credible(s.db.rows, s.past.answers, s.log[step.offset]);
      SettleStepKeepsFree(s, step.offset, k);
    } else {
      QuietKeepsFree(cfg, s, step, k);
    }
  }

  lemma {:induction false} RunKeepsFree(cfg: Config, s: System, steps: seq<Step>, t: System, k: EventKey)
    requires Commands.ValidConfig(cfg) && Inv(cfg, s) && RunFrom(cfg, s, steps, t) && IsCommandKey(k) && WellFormedKey(k)
    requires FreeFor(s.db.events, k) && k !in s.db.shadowed && KeepsFree(steps, k)
    ensures k !in t.db.shadowed
    decreases |steps|
  {
    if steps != [] {
      StepKeepsFree(cfg, s, steps[0], k);
      StepInv(cfg, s, steps[0]);
      RunKeepsFree(cfg, After(cfg, s, steps[0]), steps[1..], t, k);
    }
  }

  /** In a run in which nothing from outside the protocol takes the id of a command's terminal
      event, that event exists exactly when the command is settled. */
  lemma TerminalEventIffSettled(cfg: Config, s0: System, steps: seq<Step>, s: System, c: CommandId)
    requires Commands.ValidConfig(cfg) && Init(s0) && RunFrom(cfg, s0, steps, s) && WellFormedCommand(c)
    requires FreeFor(s0.db.events, TerminalOf(c)) && KeepsFree(steps, TerminalOf(c))
    ensures TerminalOf(c) in s.db.events <==> c in s.db.rows && Terminal(s.db.rows[c].status)
  {
    InitInv(cfg, s0);
    RunKeepsFree(cfg, s0, steps, s, TerminalOf(c));
    OneTerminalEvent(cfg, s, c);
  }

  // ---- Success is real -----------------------------------------------------------------------------

  /** In no life of its process does the device execute a command twice. */
  lemma AtMostOneExecution(cfg: Config, s: System, l: nat, c: CommandId)
    requires Commands.ValidConfig(cfg) && Reachable(cfg, s)
    ensures s.past.executions[(l, c)] <= 1
    ensures s.lifetime < l ==> s.past.executions[(l, c)] == 0
  {
    ReachableInv(cfg, s);
  }

  /** A succeeded command was executed, and its stored result is what the device answered
      then; while the device has not been restarted it was executed exactly once. */
  lemma SuccessIsReal(cfg: Config, s: System, c: CommandId)
    requires Commands.ValidConfig(cfg) && Reachable(cfg, s)
    requires c in s.db.rows && s.db.rows[c].status.Succeeded?
    ensures s.db.rows[c].result.Some? && s.db.rows[c].result.value.commandId == c
    ensures exists l :: l <= s.lifetime && (l, s.db.rows[c].result.value) in s.past.issued && s.past.executions[(l, c)] == 1
    ensures s.lifetime == 0 ==> s.past.executions[(0, c)] == 1
  {
    ReachableInv(cfg, s);
    var r := s.db.rows[c].result.value;
    var l :| (l, r) in s.past.issued;
    assert l <= s.lifetime;
  }

  /** In every life of the device's process, all its answers to one command are the same
      message, and whatever acknowledgement is on its way was issued in some life. */
  lemma AcksAgree(cfg: Config, s: System, l: nat, q: CommandResult, r: CommandResult)
    requires Commands.ValidConfig(cfg) && Reachable(cfg, s)
    requires (l, q) in s.past.issued && (l, r) in s.past.issued && q.commandId == r.commandId
    ensures q == r
    ensures forall a :: a in s.acks ==> exists life :: life <= s.lifetime && (life, a) in s.past.issued
  {
    ReachableInv(cfg, s);
    forall a | a in s.acks ensures exists life :: life <= s.lifetime && (life, a) in s.past.issued {
      var life :| (life, a) in s.past.issued;
      assert life <= s.lifetime;
    }
  }

  /** The stored state of a device is the one it was seeded with or one it really reached. */
  lemma StoredStateIsReal(cfg: Config, s: System, d: string)
    requires Commands.ValidConfig(cfg) && Reachable(cfg, s) && d in s.db.devices
    ensures d in s.past.seeded
    ensures s.db.devices[d].state == s.past.seeded[d].state || (d, s.db.devices[d].state) in s.past.reached
  {
    ReachableInv(cfg, s);
  }

  /** No entry of the command.result log is ever rejected as unknown, mismatched or stateless. */
  lemma NoResultRejected(cfg: Config, s: System, i: nat)
    requires Commands.ValidConfig(cfg) && Reachable(cfg, s) && i < |s.log|
    ensures ApplyCommandResult(s.db, s.log[i]).Ok?
  {
    ReachableInv(cfg, s);
    assert Credible(s.db.rows, s.past.answers, s.log[i]);
  }
}
