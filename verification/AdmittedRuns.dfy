/** Over joint runs of workers, gateways and device: commands enter through the gateway's
    admission check or a worker's rule pass, and then the device never answers "unsupported
    command". */
module AdmittedRuns {
  import opened Prelude
  import opened Ids
  import opened Schema
  import opened Commands
  import opened Dispatch
  import opened DispatchSafety
  import opened Admission
  import Sim = Simulator
  import T = Transactions
  import L = LedgerSafety
  import W = Workspace

  /** The gateway let the command through, against the devices table of some earlier moment. */
  ghost predicate WasAdmitted(p: Command) {
    p.commandId.UserCommand? &&
    exists devices :: Seeded(devices) && AdmitCommand(devices, p.deviceId, p.name, p.value, p.commandId.nonce, p.issuedAt) == Ok(p)
  }

  /** Every creation by the gateway is of a command it admitted. */
  ghost predicate Admitted(moves: seq<W.Move>) {
    forall i :: 0 <= i < |moves| && moves[i].Protocol? && moves[i].step.Create? ==> WasAdmitted(moves[i].step.payload)
  }

  predicate Refusal(r: CommandResult) {
    r.error == Some("unsupported command")
  }

  ghost predicate AllSupported(rows: Rows) {
    forall c :: c in rows ==> Sim.Supported(rows[c].deviceId, rows[c].payload)
  }

  ghost predicate NoRefusal(device: Sim.Process, answers: set<CommandResult>) {
    && (forall c :: c in device.results ==> !Refusal(device.results[c]))
    && forall r :: r in answers ==> !Refusal(r)
  }

  lemma DeliverNoRefusal(s: System, command: Command, injected: bool, at: Time)
    requires NoRefusal(s.device, s.past.answers) && Sim.Supported(command.deviceId, command)
    ensures var t := AfterDeliver(s, command, injected, at); NoRefusal(t.device, t.past.answers)
  {
  }

  lemma RowsStaySupported(rows: Rows, rows': Rows)
    requires RowsGrow(rows, rows') && rows'.Keys == rows.Keys && AllSupported(rows)
    ensures AllSupported(rows')
  {
    forall c | c in rows' ensures Sim.Supported(rows'[c].deviceId, rows'[c].payload) {
      assert RowGrows(rows[c], rows'[c]);
    }
  }

  lemma ClaimAddsNoRows(cfg: Config, s: System, g: Owner, chosen: seq<CommandId>, seen: bool)
    requires g in s.gateways && forall c :: c in chosen ==> c in s.db.rows
    ensures AfterClaim(cfg, s, g, chosen, seen).db.rows.Keys == s.db.rows.Keys
  {
  }

  lemma MarkAddsNoRows(cfg: Config, s: System, g: Owner, wall: Time)
    requires Enabled(cfg, s, Mark(g, wall))
    ensures AfterMark(cfg, s, g, wall).db.rows.Keys == s.db.rows.Keys
  {
  }

  lemma OnlyCreateAddsRows(cfg: Config, s: System, step: Step)
    requires Enabled(cfg, s, step) && !step.Create?
    ensures After(cfg, s, step).db.rows.Keys == s.db.rows.Keys
  {
    match step {
      case Claim(g, _, chosen) => ClaimAddsNoRows(cfg, s, g, chosen, true);
      case ClaimUnseen(g, _, chosen) => ClaimAddsNoRows(cfg, s, g, chosen, false);
      case Mark(g, wall) => MarkAddsNoRows(cfg, s, g, wall);
      case _ =>
    }
  }

  lemma CreateStaysSupported(db: CommandDb, payload: Command, at: Time)
    requires AllSupported(db.rows) && Sim.Supported(payload.deviceId, payload)
    ensures AllSupported(CreateCommand(db, payload.deviceId, payload, at).rows)
  {
  }

  lemma StepRowsSupported(cfg: Config, s: System, step: Step)
    requires Commands.ValidConfig(cfg) && Inv(cfg, s) && Enabled(cfg, s, step) && AllSupported(s.db.rows)
    requires step.Create? ==> Sim.Supported(step.payload.deviceId, step.payload)
    ensures AllSupported(After(cfg, s, step).db.rows)
  {
    if step.Create? {
      CreateStaysSupported(s.db, step.payload, step.at);
    } else {
      StepGrows(cfg, s, step);
      OnlyCreateAddsRows(cfg, s, step);
      RowsStaySupported(s.db.rows, After(cfg, s, step).db.rows);
    }
  }

  lemma StepStaysAdmitted(cfg: Config, s: System, step: Step)
    requires Commands.ValidConfig(cfg) && Inv(cfg, s) && Enabled(cfg, s, step)
    requires AllSupported(s.db.rows) && NoRefusal(s.device, s.past.answers)
    ensures var t := After(cfg, s, step); NoRefusal(t.device, t.past.answers)
  {
    if step.Deliver? {
      assert s.db.rows[step.command.commandId].payload == step.command;
      DeliverNoRefusal(s, step.command, step.injected, step.at);
    }
  }

  // ---- The two ways in -----------------------------------------------------------------------------

  lemma AdmittedIsSupported(p: Command)
    requires WasAdmitted(p)
    ensures Sim.Supported(p.deviceId, p)
  {
    var devices :| Seeded(devices) && AdmitCommand(devices, p.deviceId, p.name, p.value, p.commandId.nonce, p.issuedAt) == Ok(p);
    AdmittedIffSupported(devices, p.deviceId, p.name, p.value, p.commandId.nonce, p.issuedAt);
  }

  lemma FireStaysSupported(l: T.Ledger, e: T.Telemetry, r: string, at: Time)
    requires Seeded(l.core.devices) && AllSupported(l.core.rows) && r in l.rules && T.Obstacle(l, r, at).None?
    ensures var core := T.Fire(l, e, r, at).core; AllSupported(core.rows) && core.devices == l.core.devices
  {
    RuleCommandsAreSupported(l, e, r, at);
  }

  lemma {:induction false} RulesStaySupported(w: L.World, p: T.Pass, e: T.Telemetry, order: seq<string>, at: Time)
    requires forall r :: r in order ==> r in w.ledger.rules
    requires p.ledger == w.ledger && T.PassRules(p, e, order, at).Ok?
    requires Seeded(w.ledger.core.devices) && AllSupported(w.ledger.core.rows)
    ensures var core := L.AfterRules(w, e, order, at).ledger.core; AllSupported(core.rows) && core.devices == w.ledger.core.devices
    decreases |order|
  {
    if order != [] {
      if T.Skipped(w.ledger, e, order[0], at) {
        RulesStaySupported(w, p, e, order[1..], at);
      } else {
        FireStaysSupported(w.ledger, e, order[0], at);
        var v := L.AfterFire(w, e, order[0], at);
        RulesStaySupported(v, T.Pass(v.ledger, p.matched + [order[0]]), e, order[1..], at);
      }
    }
  }

  lemma PassStaysSupported(w: L.World, e: T.Telemetry, order: seq<string>, at: Time)
    requires forall r :: r in order ==> r in w.ledger.rules
    requires Seeded(w.ledger.core.devices) && AllSupported(w.ledger.core.rows)
    ensures var core := L.AfterPass(w, e, order, at).ledger.core; AllSupported(core.rows) && core.devices == w.ledger.core.devices
  {
    if T.ApplyRules(w.ledger, e, order, at).Ok? {
      RulesStaySupported(w, T.Pass(w.ledger, []), e, order, at);
    }
  }

  lemma InsertAddsNoCommand(w: L.World, e: T.Telemetry, position: T.Position)
    ensures L.AfterInsert(w, e, position).ledger.core.rows == w.ledger.core.rows
    ensures L.AfterInsert(w, e, position).ledger.core.devices == w.ledger.core.devices
  {
  }

  lemma CleanupAddsNoCommand(w: L.World, retention: T.Retention, sweep: T.Sweep)
    ensures L.AfterCleanup(w, retention, sweep).ledger.core.rows == w.ledger.core.rows
    ensures L.AfterCleanup(w, retention, sweep).ledger.core.devices == w.ledger.core.devices
  {
  }

  lemma OtherWorkAddsNoCommand(w: L.World, step: L.Step)
    requires L.Enabled(w, step) && W.OfWorkers(step) && !step.RulePass?
    ensures L.After(w, step).ledger.core.rows == w.ledger.core.rows
    ensures L.After(w, step).ledger.core.devices == w.ledger.core.devices
  {
    match step {
      case Insert(e, position) => InsertAddsNoCommand(w, e, position);
      case Cleanup(retention, _, sweep) => CleanupAddsNoCommand(w, retention, sweep);
      case _ =>
    }
  }

  lemma WorkStaysSupported(w: L.World, step: L.Step)
    requires L.Enabled(w, step) && W.OfWorkers(step)
    requires Seeded(w.ledger.core.devices) && AllSupported(w.ledger.core.rows)
    ensures var core := L.After(w, step).ledger.core; AllSupported(core.rows) && core.devices == w.ledger.core.devices
  {
    if step.RulePass? {
      PassStaysSupported(w, step.event, step.order, step.at);
    } else {
      OtherWorkAddsNoCommand(w, step);
    }
  }

  // ---- Joint runs ------------------------------------------------------------------------------------

  ghost predicate Accepting(s: System) {
    Seeded(s.db.devices) && AllSupported(s.db.rows) && NoRefusal(s.device, s.past.answers)
  }

  lemma ProtocolStaysAccepting(cfg: Config, x: W.Whole, step: Step)
    requires Commands.ValidConfig(cfg) && W.Projected(cfg, x) && W.Enabled(cfg, x, W.Protocol(step))
    requires Accepting(x.protocol) && (step.Create? ==> WasAdmitted(step.payload))
    ensures Accepting(After(cfg, x.protocol, step))
  {
    if step.Create? {
      AdmittedIsSupported(step.payload);
    }
    ReachableInv(cfg, x.protocol);
    StepRowsSupported(cfg, x.protocol, step);
    StepStaysAdmitted(cfg, x.protocol, step);
    W.StoredRowsNamed(x.workers);
    W.ProtocolEvolves(cfg, x.protocol, step);
  }

  lemma WorkStaysAccepting(cfg: Config, x: W.Whole, step: L.Step)
    requires W.Projected(cfg, x) && W.Enabled(cfg, x, W.Work(step)) && Accepting(x.protocol)
    ensures Accepting(W.After(cfg, x, W.Work(step)).protocol)
  {
    WorkStaysSupported(x.workers, step);
  }

  lemma MoveStaysAccepting(cfg: Config, x: W.Whole, move: W.Move)
    requires Commands.ValidConfig(cfg) && W.Projected(cfg, x) && W.Enabled(cfg, x, move) && Accepting(x.protocol)
    requires move.Protocol? && move.step.Create? ==> WasAdmitted(move.step.payload)
    ensures Accepting(W.After(cfg, x, move).protocol) && W.Projected(cfg, W.After(cfg, x, move))
  {
    match move {
      case Protocol(step) =>
        ProtocolStaysAccepting(cfg, x, step);
        W.ProtocolMoves(cfg, x, step);
      case Work(step) =>
        WorkStaysAccepting(cfg, x, step);
        W.WorkMoves(cfg, x, step);
    }
  }

  lemma {:induction false} RunStaysAccepting(cfg: Config, x: W.Whole, moves: seq<W.Move>, y: W.Whole)
    requires Commands.ValidConfig(cfg) && W.Projected(cfg, x) && W.RunFrom(cfg, x, moves, y) && Admitted(moves)
    requires Accepting(x.protocol)
    ensures Accepting(y.protocol)
    decreases |moves|
  {
    if moves != [] {
      MoveStaysAccepting(cfg, x, moves[0]);
      RunStaysAccepting(cfg, W.After(cfg, x, moves[0]), moves[1..], y);
    }
  }

  /** With the seeded devices, whatever sensors send, whichever rules fire, whatever the broker
      repeats or reorders and however often the device restarts: as long as the gateway creates
      only commands it admitted, no answer is ever "unsupported command". */
  lemma AdmittedNeverRefused(cfg: Config, x0: W.Whole, moves: seq<W.Move>, x: W.Whole, r: CommandResult)
    requires Commands.ValidConfig(cfg) && W.Init(x0) && W.RunFrom(cfg, x0, moves, x) && Admitted(moves)
    requires Seeded(x0.protocol.db.devices)
    requires r in x.protocol.past.answers
    ensures r.error != Some("unsupported command")
  {
    assert RunFrom(cfg, x0.protocol, [], x0.protocol) && L.RunFrom(x0.workers, [], x0.workers);
    RunStaysAccepting(cfg, x0, moves, x);
  }
}
