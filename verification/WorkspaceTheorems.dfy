/** What holds of a rule's command once workers, gateways and device are taken together. */
module WorkspaceTheorems {
  import opened Prelude
  import opened Ids
  import opened Schema
  import opened Commands
  import opened Rules
  import opened Workspace
  import D = Dispatch
  import DT = DispatchTheorems
  import L = LedgerSafety
  import LT = LedgerTheorems
  import CT = CausalTrace

  /** A command in the name of a rule exists because that rule matched, once; unless a sensor
      has used the id of the rule event, that event is there, and its recorded reading
      satisfies its recorded condition. */
  lemma RuleCommandHasItsMatch(cfg: Config, x: Whole, e: string, r: string)
    requires Reachable(cfg, x) && RuleCommand(e, r) in x.protocol.db.rows
    ensures x.workers.past.fired[(e, r)] == 1
    ensures L.CausedBy(x.protocol.db.rows[RuleCommand(e, r)].payload, e, r)
    ensures var k, events := RuleEventOf(e, r), x.protocol.db.events;
      && (k in events <==> k !in x.protocol.db.shadowed)
      && (k in events ==> L.Explains(events[k], x.protocol.db.rows[RuleCommand(e, r)].payload, e, r))
      && (k in events || LT.UsedAsTelemetryId(x.workers.ledger, k))
  {
    BothMachinesReachable(cfg, x);
    LT.AtMostOnceEffect(x.workers, e, r);
    L.ReachableInv(x.workers);
  }

  /** The terminal event of a settled command is there, or a sensor has used its id. */
  lemma SettledIsRecorded(cfg: Config, x: Whole, c: CommandId)
    requires Commands.ValidConfig(cfg) && Reachable(cfg, x)
    requires c in x.protocol.db.rows && Terminal(x.protocol.db.rows[c].status)
    ensures WellFormedCommand(c)
    ensures TerminalOf(c) in x.protocol.db.events <==> TerminalOf(c) !in x.protocol.db.shadowed
    ensures TerminalOf(c) in x.protocol.db.events || LT.UsedAsTelemetryId(x.workers.ledger, TerminalOf(c))
  {
    BothMachinesReachable(cfg, x);
    DT.OneTerminalEvent(cfg, x.protocol, c);
    L.ReachableInv(x.workers);
  }

  lemma SuccessWasExecuted(cfg: Config, x: Whole, c: CommandId)
    requires Commands.ValidConfig(cfg) && Reachable(cfg, x)
    requires c in x.protocol.db.rows && x.protocol.db.rows[c].status.Succeeded?
    ensures exists life :: life <= x.protocol.lifetime && x.protocol.past.executions[(life, c)] == 1
  {
    BothMachinesReachable(cfg, x);
    DT.SuccessIsReal(cfg, x.protocol, c);
  }

  /** Once such a command has succeeded, the device really executed it in one of its lives.
      The explanation found under its id names the rule, the event and a reading that satisfied
      the condition exactly if neither of the two events was kept out; and as long as no sensor
      uses either id, neither is. */
  lemma SuccessHasItsReason(cfg: Config, x: Whole, e: string, r: string)
    requires Commands.ValidConfig(cfg) && Reachable(cfg, x)
    requires RuleCommand(e, r) in x.protocol.db.rows && x.protocol.db.rows[RuleCommand(e, r)].status.Succeeded?
    ensures exists life :: life <= x.protocol.lifetime && x.protocol.past.executions[(life, RuleCommand(e, r))] == 1
    ensures var db, p, q := x.protocol.db, TerminalOf(RuleCommand(e, r)), RuleEventOf(e, r);
      && (CT.NamesMatch(CT.Explain(db.events, CommandText(RuleCommand(e, r))), e, r) <==> p !in db.shadowed && q !in db.shadowed)
      && (p in db.shadowed ==> LT.UsedAsTelemetryId(x.workers.ledger, p))
      && (q in db.shadowed ==> LT.UsedAsTelemetryId(x.workers.ledger, q))
  {
    var c := RuleCommand(e, r);
    SuccessWasExecuted(cfg, x, c);
    SettledIsRecorded(cfg, x, c);
    RuleCommandHasItsMatch(cfg, x, e, r);
    BothMachinesReachable(cfg, x);
    CT.ExplainedIffStored(x.workers, c);
    if TerminalOf(c) in x.protocol.db.events {
      CT.NamesMatchIffStored(x.workers, e, r);
    }
  }
}
