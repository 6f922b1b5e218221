/** The two machines on one database: gateways and devices run the dispatch protocol while
    workers run the ledger's transactions. Every joint run is a run of each machine, so what
    is proved of either holds of the whole. */
module Workspace {
  import opened Prelude
  import opened Ids
  import opened Schema
  import opened Commands
  import opened Transactions
  import D = Dispatch
  import Backoff
  import L = LedgerSafety

  datatype Whole = Whole(protocol: D.System, workers: L.World)

  datatype Move = Protocol(step: D.Step) | Work(action: L.Step)

  ghost predicate Init(x: Whole) {
    && D.Init(x.protocol) && L.Init(x.workers)
    && x.workers.ledger.core == x.protocol.db && x.workers.now == x.protocol.now
  }

  /** Commands the gateway creates are a user's and name no cause; those of rules are created
      by a worker's pass. */
  predicate OfProtocol(step: D.Step) {
    && !step.Ambient?
    && (step.Create? ==> step.payload.commandId.UserCommand? && step.payload.causation.None?)
  }

  predicate OfWorkers(step: L.Step) {
    !step.Protocol? && !step.Advance?
  }

  ghost predicate Enabled(cfg: Config, x: Whole, move: Move) {
    match move
    case Protocol(step) => OfProtocol(step) && D.Enabled(cfg, x.protocol, step)
    case Work(step) => OfWorkers(step) && L.Enabled(x.workers, step)
  }

  ghost function After(cfg: Config, x: Whole, move: Move): Whole
    requires Enabled(cfg, x, move)
  {
    match move
    case Protocol(step) =>
      var s := D.After(cfg, x.protocol, step);
      Whole(s, x.workers.(now := s.now, ledger := x.workers.ledger.(core := s.db)))
    case Work(step) =>
      var w := L.After(x.workers, step);
      Whole(x.protocol.(db := w.ledger.core), w)
  }

  ghost predicate RunFrom(cfg: Config, x: Whole, moves: seq<Move>, y: Whole)
    decreases |moves|
  {
    if moves == [] then x == y
    else Enabled(cfg, x, moves[0]) && RunFrom(cfg, After(cfg, x, moves[0]), moves[1..], y)
  }

  ghost predicate Reachable(cfg: Config, x: Whole) {
    exists x0, moves :: Init(x0) && RunFrom(cfg, x0, moves, x)
  }

  // ---- Protocol steps, as the ledger sees them ------------------------------------------------------

  /** The rows have generated ids. */
  ghost predicate RowsNamed(rows: map<CommandId, Row>) {
    forall c :: c in rows ==> WellFormedCommand(c)
  }

  /** An event of the protocol's own is added. */
  lemma AddEvolves(a: CommandDb, b: CommandDb, k: EventKey, e: Event)
    requires b.events == PutEvent(a.events, k, e) && b.shadowed == Shade(a.events, a.shadowed, k)
    requires L.OfProtocol(k) && WellFormedKey(k) && e.kind != SensorReading
    requires k.TerminalOf? ==> k.command in b.rows && L.IsTerminalEvent(e, b.rows[k.command].payload)
    ensures L.EventsEvolve(a.events, b.events, b.rows) && L.ShadowsEvolve(a, b)
  {
    PutFrame(a.events, a.shadowed, k, e);
    if UniqueIds(a.events) {
      PutKeepsUnique(a.events, k, e);
    }
  }

  lemma NoEventEvolves(a: CommandDb, b: CommandDb)
    requires b.events == a.events && b.shadowed == a.shadowed
    ensures L.EventsEvolve(a.events, b.events, b.rows) && L.ShadowsEvolve(a, b)
  {
  }

  lemma RetryEvolves(cfg: Config, db: CommandDb, item: PendingCommand, g: Owner, error: string, next: Time, now: Time)
    requires RowsNamed(db.rows) && item.publishAttempts >= 1
    ensures Evolved(db, ScheduleRetry(cfg, db, item, g, error, next, now))
  {
    var m := ScheduleRetry(cfg, db, item, g, error, next, now);
    if m.Some? {
      var c := item.commandId;
      assert L.RowsEvolve(db.rows, m.value.rows);
      AddEvolves(db, m.value, RetryOf(c, item.publishAttempts),
        Event(CommandRetrying, item.deviceId, RetryBody(c, item.publishAttempts, cfg.maxAttempts, error, next), now));
    }
  }

  lemma RowEvolves(db: CommandDb, c: CommandId, r: Row)
    requires c in db.rows && r.payload == db.rows[c].payload
    ensures L.CoreEvolves(db, db.(rows := db.rows[c := r]))
  {
  }

  /** Every mark but the scheduling of a retry changes its one row, or nothing. */
  lemma PlainMark(cfg: Config, db: CommandDb, stage: Stage, outcome: Outcome, item: PendingCommand, g: Owner, now: Time, wall: Time)
    requires stage.DispatchStage? ==> item.publishAttempts >= 1
    requires !SchedulesRetry(cfg, stage, outcome, item)
    ensures var m, c := MarkHead(cfg, db, stage, outcome, item, g, now, wall), item.commandId;
      && (m.Some? <==> Holds(db.rows, c, HeldStatus(stage), g))
      && (m.Some? ==> c in m.value.rows && m.value == db.(rows := db.rows[c := m.value.rows[c]])
                      && m.value.rows[c].payload == db.rows[c].payload)
  {
  }

  predicate SchedulesRetry(cfg: Config, stage: Stage, outcome: Outcome, item: PendingCommand) {
    stage.DispatchStage? && outcome.Refused? && item.publishAttempts < cfg.maxAttempts
  }

  ghost predicate Evolved(db: CommandDb, m: Option<CommandDb>) {
    m.Some? ==> L.CoreEvolves(db, m.value)
  }

  lemma PlainMarkEvolves(cfg: Config, db: CommandDb, stage: Stage, outcome: Outcome, item: PendingCommand, g: Owner, now: Time, wall: Time)
    requires stage.DispatchStage? ==> item.publishAttempts >= 1
    requires !SchedulesRetry(cfg, stage, outcome, item)
    ensures Evolved(db, MarkHead(cfg, db, stage, outcome, item, g, now, wall))
  {
    var m := MarkHead(cfg, db, stage, outcome, item, g, now, wall);
    PlainMark(cfg, db, stage, outcome, item, g, now, wall);
    if m.Some? {
      RowEvolves(db, item.commandId, m.value.rows[item.commandId]);
    }
  }

  lemma RetryMark(cfg: Config, db: CommandDb, stage: Stage, outcome: Outcome, item: PendingCommand, g: Owner, now: Time, wall: Time)
    requires SchedulesRetry(cfg, stage, outcome, item) && item.publishAttempts >= 1
    ensures MarkHead(cfg, db, stage, outcome, item, g, now, wall)
            == ScheduleRetry(cfg, db, item, g, outcome.error, wall + Backoff.Delay(cfg.retryInitial, cfg.retryMax, item.publishAttempts), now)
  {
  }

  lemma RetryMarkEvolves(cfg: Config, db: CommandDb, stage: Stage, outcome: Outcome, item: PendingCommand, g: Owner, now: Time, wall: Time)
    requires RowsNamed(db.rows)
    requires SchedulesRetry(cfg, stage, outcome, item) && item.publishAttempts >= 1
    ensures Evolved(db, MarkHead(cfg, db, stage, outcome, item, g, now, wall))
  {
    var next := wall + Backoff.Delay(cfg.retryInitial, cfg.retryMax, item.publishAttempts);
    var m := ScheduleRetry(cfg, db, item, g, outcome.error, next, now);
    assert MarkHead(cfg, db, stage, outcome, item, g, now, wall) == m by {
      RetryMark(cfg, db, stage, outcome, item, g, now, wall);
    }
    assert Evolved(db, m) by {
      RetryEvolves(cfg, db, item, g, outcome.error, next, now);
    }
  }

  lemma MarkEvolves(cfg: Config, db: CommandDb, stage: Stage, outcome: Outcome, item: PendingCommand, g: Owner, now: Time, wall: Time)
    requires RowsNamed(db.rows)
    requires stage.DispatchStage? ==> item.publishAttempts >= 1
    ensures Evolved(db, MarkHead(cfg, db, stage, outcome, item, g, now, wall))
  {
    if SchedulesRetry(cfg, stage, outcome, item) {
      RetryMarkEvolves(cfg, db, stage, outcome, item, g, now, wall);
    } else {
      PlainMarkEvolves(cfg, db, stage, outcome, item, g, now, wall);
    }
  }

  lemma SettleEvolves(db: CommandDb, r: CommandResult)
    requires RowsNamed(db.rows)
    ensures var a := ApplyCommandResult(db, r); a.Ok? ==> L.CoreEvolves(db, a.value)
  {
    var a := ApplyCommandResult(db, r);
    if a.Ok? {
      assert L.DevicesEvolve(db.devices, a.value.devices);
      if Terminal(db.rows[r.commandId].status) {
        NoEventEvolves(db, a.value);
      } else {
        AddEvolves(db, a.value, TerminalOf(r.commandId), TerminalEvent(db.rows[r.commandId].payload, r));
      }
    }
  }

  lemma CreateEvolves(db: CommandDb, payload: Command, at: Time)
    requires payload.commandId.UserCommand? && WellFormedCommand(payload.commandId) && payload.causation.None?
    ensures L.CoreEvolves(db, CreateCommand(db, payload.deviceId, payload, at))
  {
    AddEvolves(db, CreateCommand(db, payload.deviceId, payload, at), PendingOf(payload.commandId),
      PendingEvent(payload, payload.deviceId, at));
  }

  lemma ClaimEvolves(cfg: Config, db: CommandDb, stage: Stage, chosen: set<CommandId>, g: Owner, now: Time)
    ensures L.CoreEvolves(db, db.(rows := ClaimRows(cfg, stage, db.rows, chosen, g, now)))
  {
  }

  /** Steps that touch no table. */
  lemma QuietStep(cfg: Config, s: D.System, step: D.Step)
    requires D.Enabled(cfg, s, step) && OfProtocol(step)
    requires !step.Create? && !step.Claim? && !step.ClaimUnseen? && !step.Mark? && !step.Settle?
    ensures D.After(cfg, s, step).db == s.db
  {
  }

  lemma NothingEvolves(db: CommandDb)
    ensures L.CoreEvolves(db, db)
  {
  }

  lemma ClaimStepEvolves(cfg: Config, s: D.System, g: Owner, chosen: seq<CommandId>, seen: bool)
    requires g in s.gateways && forall c :: c in chosen ==> c in s.db.rows
    ensures L.CoreEvolves(s.db, D.AfterClaim(cfg, s, g, chosen, seen).db)
  {
    ClaimEvolves(cfg, s.db, s.gateways[g].stage, Elements(chosen), g, s.now);
  }

  lemma MarkStepEvolves(cfg: Config, s: D.System, g: Owner, wall: Time)
    requires RowsNamed(s.db.rows) && D.Enabled(cfg, s, D.Mark(g, wall))
    ensures L.CoreEvolves(s.db, D.AfterMark(cfg, s, g, wall).db)
  {
    MarkEvolves(cfg, s.db, s.gateways[g].stage, s.gateways[g].outcome, s.gateways[g].batch[0].item, g, s.now, wall);
    NothingEvolves(s.db);
  }

  lemma SettleStepEvolves(s: D.System, offset: nat)
    requires RowsNamed(s.db.rows) && offset < |s.log|
    ensures L.CoreEvolves(s.db, D.AfterSettle(s, offset).db)
  {
    SettleEvolves(s.db, s.log[offset]);
    NothingEvolves(s.db);
  }

  /** Whatever a gateway, the broker, the device or a settling worker does, the command
      tables only evolve the way the ledger machine allows. */
  lemma ProtocolEvolves(cfg: Config, s: D.System, step: D.Step)
    requires RowsNamed(s.db.rows) && D.Enabled(cfg, s, step) && OfProtocol(step)
    ensures L.CoreEvolves(s.db, D.After(cfg, s, step).db)
  {
    match step {
      case Create(payload, at) => CreateEvolves(s.db, payload, at);
      case Claim(g, _, chosen) => ClaimStepEvolves(cfg, s, g, chosen, true);
      case ClaimUnseen(g, _, chosen) => ClaimStepEvolves(cfg, s, g, chosen, false);
      case Mark(g, wall) => MarkStepEvolves(cfg, s, g, wall);
      case Settle(offset) => SettleStepEvolves(s, offset);
      case _ =>
        QuietStep(cfg, s, step);
        NothingEvolves(s.db);
    }
  }

  // ---- Worker transactions, as the protocol sees them --------------------------------------------------

  /** From `s` the protocol can run to the same state with the tables `db`. */
  ghost predicate Reaches(cfg: Config, s: D.System, db: CommandDb) {
    exists steps :: D.RunFrom(cfg, s, steps, s.(db := db))
  }

  lemma {:induction false} RunJoin(cfg: Config, s: D.System, a: seq<D.Step>, t: D.System, b: seq<D.Step>, u: D.System)
    requires D.RunFrom(cfg, s, a, t) && D.RunFrom(cfg, t, b, u)
    ensures D.RunFrom(cfg, s, a + b, u)
    decreases |a|
  {
    if a == [] {
      assert a + b == b;
    } else {
      RunJoin(cfg, D.After(cfg, s, a[0]), a[1..], t, b, u);
      assert (a + b)[1..] == a[1..] + b;
    }
  }

  lemma ReachesThrough(cfg: Config, s: D.System, db: CommandDb, db': CommandDb)
    requires Reaches(cfg, s, db) && Reaches(cfg, s.(db := db), db')
    ensures Reaches(cfg, s, db')
  {
    var a :| D.RunFrom(cfg, s, a, s.(db := db));
    var t := s.(db := db);
    var b :| D.RunFrom(cfg, t, b, t.(db := db'));
    assert t.(db := db') == s.(db := db');
    RunJoin(cfg, s, a, t, b, s.(db := db'));
  }

  lemma ReachesByStep(cfg: Config, s: D.System, step: D.Step, db: CommandDb)
    requires D.Enabled(cfg, s, step) && D.After(cfg, s, step) == s.(db := db)
    ensures Reaches(cfg, s, db)
  {
    var t := s.(db := db);
    assert D.RunFrom(cfg, t, [], t);
    assert [step][1..] == [];
    assert D.RunFrom(cfg, s, [step], t);
  }

  /** What a match needs to find: stored ids are unique and rule ids are the generated ones. */
  ghost predicate Ready(l: Ledger) {
    UniqueIds(l.core.events) && forall r :: r in l.rules ==> IsRuleId(r)
  }

  /** Writing an event that is not a command's is a step beside the protocol. */
  lemma AddReaches(cfg: Config, s: D.System, k: EventKey, e: Event)
    requires UniqueIds(s.db.events) && !IsCommandKey(k)
    ensures Reaches(cfg, s, AddEvent(s.db, k, e)) && UniqueIds(AddEvent(s.db, k, e).events)
  {
    var db := AddEvent(s.db, k, e);
    PutKeepsUnique(s.db.events, k, e);
    PutFrame(s.db.events, s.db.shadowed, k, e);
    ReachesByStep(cfg, s, D.Ambient(db.events, db.shadowed), db);
  }

  /** A match is a rule event written beside the protocol, and then an ordinary creation. */
  lemma FireReaches(cfg: Config, s: D.System, l: Ledger, e: Telemetry, r: string, at: Time)
    requires s.db == l.core && r in l.rules && Ready(l) && e.eventId != "" && Obstacle(l, r, at).None?
    ensures Reaches(cfg, s, Fire(l, e, r, at).core) && Ready(Fire(l, e, r, at))
  {
    var rule := l.rules[r];
    AddReaches(cfg, s, RuleEventOf(e.eventId, r), MatchEvent(e, r, rule, at));
    var db := AddEvent(l.core, RuleEventOf(e.eventId, r), MatchEvent(e, r, rule, at));
    var payload := RuleCommandFor(e, r, rule.action, at);
    ReachesByStep(cfg, s.(db := db), D.Create(payload, at), CreateCommand(db, rule.action.deviceId, payload, at));
    PutKeepsUnique(db.events, PendingOf(payload.commandId), PendingEvent(payload, rule.action.deviceId, at));
    ReachesThrough(cfg, s, db, Fire(l, e, r, at).core);
  }

  lemma ReachesHere(cfg: Config, s: D.System)
    ensures Reaches(cfg, s, s.db)
  {
    assert s.(db := s.db) == s;
    assert D.RunFrom(cfg, s, [], s);
  }

  lemma {:induction false} RulesReach(cfg: Config, s: D.System, w: L.World, p: Pass, e: Telemetry, order: seq<string>, at: Time)
    requires forall r :: r in order ==> r in w.ledger.rules
    requires s.db == w.ledger.core && p.ledger == w.ledger && PassRules(p, e, order, at).Ok?
    requires Ready(w.ledger) && e.eventId != ""
    ensures Reaches(cfg, s, L.AfterRules(w, e, order, at).ledger.core)
    decreases |order|
  {
    if order == [] {
      ReachesHere(cfg, s);
    } else if Skipped(w.ledger, e, order[0], at) {
      RulesReach(cfg, s, w, p, e, order[1..], at);
    } else {
      var v := L.AfterFire(w, e, order[0], at);
      FireReaches(cfg, s, w.ledger, e, order[0], at);
      RulesReach(cfg, s.(db := v.ledger.core), v, Pass(v.ledger, p.matched + [order[0]]), e, order[1..], at);
      ReachesThrough(cfg, s, v.ledger.core, L.AfterRules(w, e, order, at).ledger.core);
    }
  }

  lemma CleanupReaches(cfg: Config, s: D.System, w: L.World, retention: Retention, locked: Sweep, sweep: Sweep)
    requires s.db == w.ledger.core && UniqueIds(s.db.events)
    requires L.EventKinds(w.ledger.core.events) && L.AuditKinds(w.ledger.audits)
    requires SweepOf(w.ledger, retention, w.now, locked, sweep)
    ensures Reaches(cfg, s, L.AfterCleanup(w, retention, sweep).ledger.core)
  {
    if CleanupDue(w.ledger, retention, w.now) {
      var db := AfterSweep(w.ledger, w.now, sweep).core;
      L.SweepSpares(w.ledger, w.now, retention, locked, sweep);
      ReachesByStep(cfg, s, D.Ambient(db.events, db.shadowed), db);
    } else {
      ReachesHere(cfg, s);
    }
  }

  lemma InsertReaches(cfg: Config, s: D.System, w: L.World, e: Telemetry, position: Position)
    requires s.db == w.ledger.core && UniqueIds(s.db.events)
    ensures Reaches(cfg, s, L.AfterInsert(w, e, position).ledger.core)
  {
    AddReaches(cfg, s, ReadingOf(e.eventId), ReadingEvent(e));
    ReachesHere(cfg, s);
  }

  lemma LedgerReady(w: L.World)
    requires L.Reachable(w)
    ensures Ready(w.ledger) && L.EventKinds(w.ledger.core.events) && L.AuditKinds(w.ledger.audits)
  {
    L.ReachableInv(w);
  }

  /** What a worker's transaction does to the command tables, the protocol can do by steps of
      its own: to it, workers add nothing but creations and foreign events. */
  lemma WorkReaches(cfg: Config, s: D.System, w: L.World, step: L.Step)
    requires s.db == w.ledger.core && L.Reachable(w) && L.Enabled(w, step) && OfWorkers(step)
    ensures Reaches(cfg, s, L.After(w, step).ledger.core)
  {
    LedgerReady(w);
    match step {
      case Insert(e, position) => InsertReaches(cfg, s, w, e, position);
      case RulePass(e, order, at) =>
        if ApplyRules(w.ledger, e, order, at).Ok? {
          RulesReach(cfg, s, w, Pass(w.ledger, []), e, order, at);
        } else {
          ReachesHere(cfg, s);
        }
      case Cleanup(retention, locked, sweep) => CleanupReaches(cfg, s, w, retention, locked, sweep);
      case _ => ReachesHere(cfg, s);
    }
  }

  // ---- Joint runs ------------------------------------------------------------------------------------------

  ghost predicate Projected(cfg: Config, x: Whole) {
    && D.Reachable(cfg, x.protocol) && L.Reachable(x.workers)
    && x.workers.ledger.core == x.protocol.db && x.workers.now == x.protocol.now
  }

  lemma ProtocolReachable(cfg: Config, s: D.System, t: D.System, steps: seq<D.Step>)
    requires D.Reachable(cfg, s) && D.RunFrom(cfg, s, steps, t)
    ensures D.Reachable(cfg, t)
  {
    var s0, a :| D.Init(s0) && D.RunFrom(cfg, s0, a, s);
    RunJoin(cfg, s0, a, s, steps, t);
  }

  lemma {:induction false} WorkerRunAppend(w: L.World, steps: seq<L.Step>, t: L.World, step: L.Step)
    requires L.RunFrom(w, steps, t) && L.Enabled(t, step)
    ensures L.RunFrom(w, steps + [step], L.After(t, step))
    decreases |steps|
  {
    if steps == [] {
      var u := L.After(t, step);
      assert ([step])[1..] == [];
      assert L.RunFrom(u, [], u);
    } else {
      WorkerRunAppend(L.After(w, steps[0]), steps[1..], t, step);
      assert (steps + [step])[1..] == steps[1..] + [step];
    }
  }

  lemma WorkersReachable(w: L.World, step: L.Step)
    requires L.Reachable(w) && L.Enabled(w, step)
    ensures L.Reachable(L.After(w, step))
  {
    var w0, a :| L.Init(w0) && L.RunFrom(w0, a, w);
    WorkerRunAppend(w0, a, w, step);
  }

  lemma ProtocolStepReachable(cfg: Config, s: D.System, step: D.Step)
    requires D.Reachable(cfg, s) && D.Enabled(cfg, s, step)
    ensures D.Reachable(cfg, D.After(cfg, s, step))
  {
    var t := D.After(cfg, s, step);
    assert [step][1..] == [] && D.RunFrom(cfg, t, [], t);
    ProtocolReachable(cfg, s, t, [step]);
  }

  lemma StoredRowsNamed(w: L.World)
    requires L.Reachable(w)
    ensures RowsNamed(w.ledger.core.rows)
  {
    L.ReachableInv(w);
  }

  /** The ledger machine takes the protocol's step, and then its clock follows. */
  lemma LedgerFollows(w: L.World, db: CommandDb, now: Time)
    requires L.Reachable(w) && L.CoreEvolves(w.ledger.core, db) && w.now <= now
    ensures L.Reachable(w.(now := now, ledger := w.ledger.(core := db)))
  {
    WorkersReachable(w, L.Protocol(db));
    var v := L.After(w, L.Protocol(db));
    WorkersReachable(v, L.Advance(now - v.now));
    assert L.After(v, L.Advance(now - v.now)) == w.(now := now, ledger := w.ledger.(core := db));
  }

  lemma TimeAdvances(cfg: Config, s: D.System, step: D.Step)
    requires D.Enabled(cfg, s, step)
    ensures s.now <= D.After(cfg, s, step).now
  {
  }

  lemma ProtocolMoves(cfg: Config, x: Whole, step: D.Step)
    requires Projected(cfg, x) && Enabled(cfg, x, Protocol(step))
    ensures Projected(cfg, After(cfg, x, Protocol(step)))
  {
    StoredRowsNamed(x.workers);
    ProtocolStepReachable(cfg, x.protocol, step);
    ProtocolEvolves(cfg, x.protocol, step);
    TimeAdvances(cfg, x.protocol, step);
    var t := D.After(cfg, x.protocol, step);
    LedgerFollows(x.workers, t.db, t.now);
  }

  lemma ProtocolFollows(cfg: Config, s: D.System, db: CommandDb)
    requires D.Reachable(cfg, s) && Reaches(cfg, s, db)
    ensures D.Reachable(cfg, s.(db := db))
  {
    var steps :| D.RunFrom(cfg, s, steps, s.(db := db));
    ProtocolReachable(cfg, s, s.(db := db), steps);
  }

  lemma ClockStays(w: L.World, step: L.Step)
    requires L.Enabled(w, step) && OfWorkers(step)
    ensures L.After(w, step).now == w.now
  {
    if step.RulePass? {
      L.RulesClockStays(w, step.event, step.order, step.at);
    }
  }

  lemma WorkMoves(cfg: Config, x: Whole, step: L.Step)
    requires Projected(cfg, x) && Enabled(cfg, x, Work(step))
    ensures Projected(cfg, After(cfg, x, Work(step)))
  {
    WorkReaches(cfg, x.protocol, x.workers, step);
    ProtocolFollows(cfg, x.protocol, L.After(x.workers, step).ledger.core);
    WorkersReachable(x.workers, step);
    ClockStays(x.workers, step);
  }

  lemma {:induction false} MovesProject(cfg: Config, x: Whole, moves: seq<Move>, y: Whole)
    requires Projected(cfg, x) && RunFrom(cfg, x, moves, y)
    ensures Projected(cfg, y)
    decreases |moves|
  {
    if moves != [] {
      match moves[0] {
        case Protocol(step) => ProtocolMoves(cfg, x, step);
        case Work(step) => WorkMoves(cfg, x, step);
      }
      MovesProject(cfg, After(cfg, x, moves[0]), moves[1..], y);
    }
  }

  /** In every joint reachable state the protocol's part is a reachable protocol state, the
      workers' part is a reachable ledger state, and they agree on the shared tables. */
  lemma BothMachinesReachable(cfg: Config, x: Whole)
    requires Reachable(cfg, x)
    ensures D.Reachable(cfg, x.protocol) && L.Reachable(x.workers)
    ensures x.workers.ledger.core == x.protocol.db
  {
    var x0, moves :| Init(x0) && RunFrom(cfg, x0, moves, x);
    assert D.RunFrom(cfg, x0.protocol, [], x0.protocol) && L.RunFrom(x0.workers, [], x0.workers);
    MovesProject(cfg, x0, moves, x);
  }
}
