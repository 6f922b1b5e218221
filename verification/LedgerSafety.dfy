/** The ledger as a state machine: any number of workers run its transactions in any order
    and with any clocks, while the command protocol evolves the command tables beside
    them. What every step keeps is split by the tables it speaks about. */
module LedgerSafety {
  import opened Prelude
  import opened Ids
  import opened Schema
  import opened Commands
  import opened Rules
  import opened Transactions

  type Events = map<EventKey, Event>
  type Rows = map<CommandId, Row>
  type Audits = map<AuditKey, Audit>
  type RuleTable = map<string, Rule>

  datatype Match = Match(ruleId: string, at: Time, cooldownSeconds: nat)

  datatype Sweeping = Sweeping(at: Time, interval: nat)

  /** What happened so far; no step looks at it, except that rule ids are never drawn twice. */
  datatype Past = Past(
    fired: multiset<(string, string)>,
    inserted: multiset<string>,
    passed: set<Telemetry>,
    matches: seq<Match>,
    sweeps: seq<Sweeping>,
    ruleIds: set<string>)

  datatype World = World(now: Time, ledger: Ledger, past: Past)

  datatype Step =
    | Advance(duration: nat)
    | Protocol(after: CommandDb)
    | Insert(event: Telemetry, position: Position)
    | RulePass(event: Telemetry, order: seq<string>, at: Time)
    | Cleanup(retention: Retention, locked: Sweep, sweep: Sweep)
    | Incident(uuid: string, row: Audit)
    | Bury(position: Position, letter: DeadLetter)
    | NewRule(id: string, rule: Rule)
    | Edit(id: string, condition: Condition, action: Action, enabled: bool, cooldownSeconds: nat)
    | Enable(id: string, enabled: bool)
    | DropRule(id: string)
    | Catalog(sensors: map<string, Sensor>)

  // ---- The command protocol, as the ledger sees it ---------------------------------------------

  predicate IsTerminalEvent(e: Event, payload: Command) {
    && e.body.TerminalBody?
    && e.body.command == payload
    && e.kind == (if e.body.result.success then CommandSucceeded else CommandFailed)
  }

  ghost predicate RowsEvolve(a: Rows, b: Rows) {
    && (forall c :: c in a ==> c in b && b[c].payload == a[c].payload)
    && (forall c :: c in b && c !in a ==> c.UserCommand? && WellFormedCommand(c) && b[c].payload.causation.None?)
  }

  /** The events only the protocol writes: those of commands, except that a rule's command
      gets its pending event from the pass that creates it. */
  predicate OfProtocol(k: EventKey) {
    IsCommandKey(k) && (k.PendingOf? ==> k.command.UserCommand?)
  }

  /** An event is newly shadowed only by another one that has its id. */
  ghost predicate ShadowsEvolve(a: CommandDb, b: CommandDb) {
    && (forall k :: !OfProtocol(k) ==> (k in a.shadowed <==> k in b.shadowed))
    && (forall k :: k in b.shadowed && k !in a.shadowed ==> WellFormedKey(k) && k !in a.events && Taken(a.events, k))
    && (UniqueIds(a.events) ==> UniqueIds(b.events))
  }

  ghost predicate EventsEvolve(a: Events, b: Events, rows: Rows) {
    && (forall k :: k in a ==> k in b && b[k] == a[k])
    && (forall k :: k in b && k !in a ==>
         && OfProtocol(k) && WellFormedKey(k) && b[k].kind != SensorReading
         && (k.TerminalOf? ==> k.command in rows && IsTerminalEvent(b[k], rows[k.command].payload)))
  }

  ghost predicate DevicesEvolve(a: map<string, Device>, b: map<string, Device>) {
    && b.Keys == a.Keys
    && forall d :: d in a ==> b[d].kind == a[d].kind && b[d].enabled == a[d].enabled
  }

  /** All that any gateway, device or worker does to the command tables: rows and events are
      only added, new rows are user commands, and a terminal event quotes its command. */
  ghost predicate CoreEvolves(a: CommandDb, b: CommandDb) {
    && RowsEvolve(a.rows, b.rows) && EventsEvolve(a.events, b.events, b.rows) && ShadowsEvolve(a, b)
    && DevicesEvolve(a.devices, b.devices)
  }

  // ---- Steps ------------------------------------------------------------------------------------

  ghost predicate Init(w: World) {
    && w.ledger.core.rows == map[] && w.ledger.core.events == map[] && w.ledger.core.shadowed == {}
    && w.ledger.tombstones == map[] && w.ledger.telemetry == map[] && w.ledger.audits == map[]
    && w.ledger.rules == map[] && w.ledger.deadLetters == map[] && w.ledger.cleanupStartedAt == None
    && w.past == Past(multiset{}, multiset{}, {}, [], [], {})
  }

  ghost predicate Enabled(w: World, step: Step) {
    match step
    case Advance(_) => true
    case Protocol(after) => CoreEvolves(w.ledger.core, after)
    case Insert(e, _) => e.eventId != ""
    case RulePass(e, order, _) => e.eventId != "" && RuleQuery(w.ledger.rules, e.sensorId, order) && forall r :: r in order ==> r in w.ledger.rules
    case Cleanup(retention, locked, sweep) => SweepOf(w.ledger, retention, w.now, locked, sweep)
    case Incident(uuid, row) => ColonFree(uuid) && row.kind != "rule.matched"
    case Bury(_, _) => true
    case NewRule(id, rule) => IsRuleId(id) && id !in w.past.ruleIds && rule.lastTriggeredAt.None?
    case Edit(_, _, _, _, _) => true
    case Enable(_, _) => true
    case DropRule(_) => true
    case Catalog(_) => true
  }

  function AfterInsert(w: World, e: Telemetry, position: Position): World {
    var (l, duplicate) := Ingest(w.ledger, e, position, w.now);
    w.(ledger := l, past := w.past.(inserted := if duplicate then w.past.inserted else w.past.inserted + multiset{e.eventId}))
  }

  /** One rule of a pass takes effect. */
  function AfterFire(w: World, e: Telemetry, r: string, at: Time): World
    requires r in w.ledger.rules
  {
    w.(ledger := Fire(w.ledger, e, r, at),
       past := w.past.(fired := w.past.fired + multiset{(e.eventId, r)},
                       matches := w.past.matches + [Match(r, at, w.ledger.rules[r].cooldownSeconds)]))
  }

  /** A pass that meets no obstacle, rule by rule. */
  function AfterRules(w: World, e: Telemetry, order: seq<string>, at: Time): World
    requires forall r :: r in order ==> r in w.ledger.rules
    decreases |order|
  {
    if order == [] then w
    else if Skipped(w.ledger, e, order[0], at) then AfterRules(w, e, order[1..], at)
    else AfterRules(AfterFire(w, e, order[0], at), e, order[1..], at)
  }

  function AfterPass(w: World, e: Telemetry, order: seq<string>, at: Time): World
    requires forall r :: r in order ==> r in w.ledger.rules
  {
    if ApplyRules(w.ledger, e, order, at).Err? then w
    else
      var t := AfterRules(w, e, order, at);
      t.(past := t.past.(passed := t.past.passed + {e}))
  }

  function AfterCleanup(w: World, retention: Retention, sweep: Sweep): World {
    if CleanupDue(w.ledger, retention, w.now) then
      w.(ledger := AfterSweep(w.ledger, w.now, sweep),
         past := w.past.(sweeps := w.past.sweeps + [Sweeping(w.now, retention.interval)]))
    else w
  }

  ghost function After(w: World, step: Step): World
    requires Enabled(w, step)
  {
    var l := w.ledger;
    match step
    case Advance(duration) => w.(now := w.now + duration)
    case Protocol(after) => w.(ledger := l.(core := after))
    case Insert(e, position) => AfterInsert(w, e, position)
    case RulePass(e, order, at) => AfterPass(w, e, order, at)
    case Cleanup(retention, _, sweep) => AfterCleanup(w, retention, sweep)
    case Incident(uuid, row) => w.(ledger := l.(audits := InsertIfAbsent(l.audits, AuditKey.Incident(uuid), row)))
    case Bury(position, letter) => w.(ledger := l.(deadLetters := InsertIfAbsent(l.deadLetters, position, letter)))
    case NewRule(id, rule) => w.(ledger := l.(rules := l.rules[id := rule]), past := w.past.(ruleIds := w.past.ruleIds + {id}))
    case Edit(id, condition, action, enabled, cooldown) => w.(ledger := EditRule(l, id, condition, action, enabled, cooldown))
    case Enable(id, enabled) => w.(ledger := EnableRule(l, id, enabled))
    case DropRule(id) => w.(ledger := l.(rules := l.rules - {id}))
    case Catalog(sensors) => w.(ledger := l.(sensors := sensors))
  }

  ghost predicate RunFrom(w: World, steps: seq<Step>, t: World)
    decreases |steps|
  {
    if steps == [] then w == t
    else Enabled(w, steps[0]) && RunFrom(After(w, steps[0]), steps[1..], t)
  }

  ghost predicate Reachable(w: World) {
    exists w0, steps :: Init(w0) && RunFrom(w0, steps, w)
  }

  // ---- Passes ------------------------------------------------------------------------------------

  lemma {:induction false} RulesClockStays(w: World, e: Telemetry, order: seq<string>, at: Time)
    requires forall r :: r in order ==> r in w.ledger.rules
    ensures AfterRules(w, e, order, at).now == w.now
    decreases |order|
  {
    if order != [] {
      if Skipped(w.ledger, e, order[0], at) {
        RulesClockStays(w, e, order[1..], at);
      } else {
        RulesClockStays(AfterFire(w, e, order[0], at), e, order[1..], at);
      }
    }
  }

  lemma ReportExtends(reported: seq<string>, r: string, all: seq<string>, past: seq<Match>, m: Match, matches: seq<Match>)
    requires reported + [r] <= all && past + [m] <= matches && m.ruleId == r
    requires RuleIds(matches[|past| + 1..]) == all[|reported| + 1..]
    ensures reported <= all && past <= matches && RuleIds(matches[|past|..]) == all[|reported|..]
  {
    assert all[|reported|..] == [r] + all[|reported| + 1..];
    assert matches[|past|..] == [m] + matches[|past| + 1..];
  }

  lemma {:induction false} PassTables(w: World, p: Pass, e: Telemetry, order: seq<string>, at: Time)
    requires forall r :: r in order ==> r in w.ledger.rules
    requires p.ledger == w.ledger && PassRules(p, e, order, at).Ok?
    ensures AfterRules(w, e, order, at).ledger == PassRules(p, e, order, at).value.ledger
    decreases |order|
  {
    if order != [] {
      var r := order[0];
      if Skipped(w.ledger, e, r, at) {
        PassTables(w, p, e, order[1..], at);
      } else {
        PassTables(AfterFire(w, e, r, at), Pass(Fire(w.ledger, e, r, at), p.matched + [r]), e, order[1..], at);
      }
    }
  }

  lemma {:induction false} PassReports(w: World, p: Pass, e: Telemetry, order: seq<string>, at: Time)
    requires forall r :: r in order ==> r in w.ledger.rules
    requires p.ledger == w.ledger && PassRules(p, e, order, at).Ok?
    ensures var q, t := PassRules(p, e, order, at).value, AfterRules(w, e, order, at);
            && p.matched <= q.matched && w.past.matches <= t.past.matches
            && RuleIds(t.past.matches[|w.past.matches|..]) == q.matched[|p.matched|..]
    decreases |order|
  {
    if order != [] {
      var r := order[0];
      if Skipped(w.ledger, e, r, at) {
        PassReports(w, p, e, order[1..], at);
      } else {
        var v, next := AfterFire(w, e, r, at), Pass(Fire(w.ledger, e, r, at), p.matched + [r]);
        PassReports(v, next, e, order[1..], at);
        ReportExtends(p.matched, r, PassRules(next, e, order[1..], at).value.matched,
          w.past.matches, Match(r, at, w.ledger.rules[r].cooldownSeconds), AfterRules(v, e, order[1..], at).past.matches);
      }
    }
  }

  /** The machine's pass is the transaction: when it commits, the tables are the ones the
      transaction computes and the history grows by exactly the rules it reports. */
  lemma PassIsTransaction(w: World, e: Telemetry, order: seq<string>, at: Time)
    requires forall r :: r in order ==> r in w.ledger.rules
    requires ApplyRules(w.ledger, e, order, at).Ok?
    ensures var p, t := ApplyRules(w.ledger, e, order, at).value, AfterPass(w, e, order, at);
            && t.ledger == p.ledger && w.past.matches <= t.past.matches
            && RuleIds(t.past.matches[|w.past.matches|..]) == p.matched
  {
    PassTables(w, Pass(w.ledger, []), e, order, at);
    PassReports(w, Pass(w.ledger, []), e, order, at);
  }

  function RuleIds(matches: seq<Match>): seq<string> {
    seq(|matches|, i requires 0 <= i < |matches| => matches[i].ruleId)
  }

  // ---- The invariant -------------------------------------------------------------------------------

  /** Of the event of a match, exactly one is the case: it is stored, or it is shadowed. */
  ghost predicate Traced(events: Events, shadowed: set<EventKey>, k: EventKey, applied: bool) {
    && (k in events || k in shadowed <==> applied)
    && !(k in events && k in shadowed)
  }

  /** A match left all four of its traces, once, or none of them; but an event whose id was
      taken is only shadowed. */
  ghost predicate Effects(events: Events, shadowed: set<EventKey>, rows: Rows, audits: Audits, fired: multiset<(string, string)>) {
    forall e, r ::
      && (RuleMatchOf(e, r) in audits <==> RuleCommand(e, r) in rows)
      && Traced(events, shadowed, RuleEventOf(e, r), RuleMatchOf(e, r) in audits)
      && Traced(events, shadowed, PendingOf(RuleCommand(e, r)), RuleMatchOf(e, r) in audits)
      && fired[(e, r)] == if RuleMatchOf(e, r) in audits then 1 else 0
  }

  /** All ids are the generated ones. */
  ghost predicate Named(events: Events, rows: Rows, audits: Audits, ruleIds: set<string>) {
    && (forall k :: k in events ==> WellFormedKey(k))
    && (forall c :: c in rows ==> WellFormedCommand(c))
    && (forall a :: a in audits ==> WellFormedAudit(a))
    && (forall r :: r in ruleIds ==> IsRuleId(r))
  }

  /** Only a telemetry id that was inserted ever shadows a derived event. */
  ghost predicate ShadowsKnown(shadowed: set<EventKey>, tombstones: map<string, Time>) {
    forall k :: k in shadowed && IsDerived(k) ==> WellFormedKey(k) && EventText(k) in tombstones
  }

  ghost predicate EventKinds(events: Events) {
    forall k :: k in events ==>
      && (events[k].kind == SensorReading <==> k.ReadingOf?)
      && (k.ReadingOf? ==> events[k].body.ReadingBody?)
  }

  ghost predicate AuditKinds(audits: Audits) {
    forall a :: a in audits ==> (audits[a].kind == "rule.matched" <==> a.RuleMatchOf?)
  }

  /** The rule event and the command of one match belong together, and the reading recorded
      with them satisfies the condition recorded with them. */
  predicate Explains(event: Event, payload: Command, e: string, r: string) {
    && event.body.MatchBody?
    && event.body.ruleId == r
    && event.body.trigger.eventId == e
    && event.body.trigger.sensorId == event.body.condition.sensorId
    && Satisfies(event.body.trigger.unit, event.body.trigger.value, event.body.condition)
    && payload.causation == Some(Causation(event.body.correlationId, r, RuleEventOf(e, r), e))
    && payload.deviceId == event.body.action.deviceId
    && payload.name == event.body.action.command
    && payload.value == event.body.action.value
  }

  /** The command names the match as its cause. */
  predicate CausedBy(payload: Command, e: string, r: string) {
    && payload.causation.Some?
    && payload.causation.value.ruleId == r
    && payload.causation.value.ruleEvent == RuleEventOf(e, r)
    && payload.causation.value.triggerEventId == e
  }

  ghost predicate MatchesTold(events: Events, rows: Rows) {
    forall e, r :: RuleEventOf(e, r) in events ==>
      RuleCommand(e, r) in rows && Explains(events[RuleEventOf(e, r)], rows[RuleCommand(e, r)].payload, e, r)
  }

  ghost predicate CausesTold(rows: Rows) {
    && (forall e, r :: RuleCommand(e, r) in rows ==> CausedBy(rows[RuleCommand(e, r)].payload, e, r))
    && (forall n :: UserCommand(n) in rows ==> rows[UserCommand(n)].payload.causation.None?)
  }

  ghost predicate ResultsTold(events: Events, rows: Rows) {
    forall c :: TerminalOf(c) in events ==> c in rows && IsTerminalEvent(events[TerminalOf(c)], rows[c].payload)
  }

  ghost predicate Told(events: Events, rows: Rows) {
    MatchesTold(events, rows) && CausesTold(rows) && ResultsTold(events, rows)
  }

  /** Every stored reading has its tombstone, and was inserted once. */
  ghost predicate Deduplicated(events: Events, tombstones: map<string, Time>, telemetry: map<string, TelemetryRow>, inserted: multiset<string>) {
    && telemetry.Keys <= tombstones.Keys
    && (forall e :: ReadingOf(e) in events ==> e in tombstones)
    && (forall e :: inserted[e] == if e in tombstones then 1 else 0)
  }

  predicate Apart(matches: seq<Match>, i: nat, j: nat)
    requires i < j < |matches|
  {
    matches[i].ruleId == matches[j].ruleId ==> matches[i].at + matches[j].cooldownSeconds * SECOND <= matches[j].at
  }

  /** Matches of one rule are at least the cooldown of the later one apart, and the rule's
      clock is not behind any of them. */
  ghost predicate Cooled(rules: RuleTable, matches: seq<Match>, ruleIds: set<string>) {
    && rules.Keys <= ruleIds
    && (forall i :: 0 <= i < |matches| ==> matches[i].ruleId in ruleIds)
    && (forall i, j :: 0 <= i < j < |matches| ==> Apart(matches, i, j))
    && (forall i :: 0 <= i < |matches| && matches[i].ruleId in rules ==>
         && rules[matches[i].ruleId].lastTriggeredAt.Some?
         && matches[i].at <= rules[matches[i].ruleId].lastTriggeredAt.value)
  }

  ghost predicate Spaced(sweeps: seq<Sweeping>, startedAt: Option<Time>) {
    && (forall i, j :: 0 <= i < j < |sweeps| ==> sweeps[i].at + sweeps[j].interval <= sweeps[j].at)
    && (forall i :: 0 <= i < |sweeps| ==> startedAt.Some? && sweeps[i].at <= startedAt.value)
  }

  ghost predicate Inv(w: World) {
    && Effects(w.ledger.core.events, w.ledger.core.shadowed, w.ledger.core.rows, w.ledger.audits, w.past.fired)
    && Named(w.ledger.core.events, w.ledger.core.rows, w.ledger.audits, w.past.ruleIds)
    && ShadowsKnown(w.ledger.core.shadowed, w.ledger.tombstones)
    && UniqueIds(w.ledger.core.events)
    && EventKinds(w.ledger.core.events)
    && AuditKinds(w.ledger.audits)
    && Told(w.ledger.core.events, w.ledger.core.rows)
    && Deduplicated(w.ledger.core.events, w.ledger.tombstones, w.ledger.telemetry, w.past.inserted)
    && Cooled(w.ledger.rules, w.past.matches, w.past.ruleIds)
    && Spaced(w.past.sweeps, w.ledger.cleanupStartedAt)
  }

  // ---- One match ---------------------------------------------------------------------------------

  /** What must hold for rule `r` to take effect on `e`. */
  predicate Fires(l: Ledger, e: Telemetry, r: string, at: Time) {
    && r in l.rules
    && l.rules[r].condition.sensorId == e.sensorId
    && !Skipped(l, e, r, at)
  }

  /** From one table of events to the next, with the shadowed ones: only `p` and `q` are new,
      and each is stored or shadowed, not both unless it was. */
  ghost predicate OnlyTwo(events: Events, shadowed: set<EventKey>, events': Events, shadowed': set<EventKey>, p: EventKey, q: EventKey) {
    && (forall k :: k != p && k != q ==> (k in events' <==> k in events) && (k in shadowed' <==> k in shadowed))
    && (forall k :: k in events ==> k in events' && events'[k] == events[k])
    && (p in events' || p in shadowed') && (q in events' || q in shadowed')
    && (p !in shadowed || p !in events ==> p !in shadowed' || p !in events')
    && (q !in shadowed || q !in events ==> q !in shadowed' || q !in events')
  }

  lemma PutTwo(db: CommandDb, p: EventKey, e: Event, q: EventKey, f: Event)
    requires p != q
    ensures var t := AddEvent(AddEvent(db, p, e), q, f);
      && OnlyTwo(db.events, db.shadowed, t.events, t.shadowed, p, q)
      && (p in t.events && p !in db.events ==> t.events[p] == e)
  {
    PutFrame(db.events, db.shadowed, p, e);
    var c := AddEvent(db, p, e);
    PutFrame(c.events, c.shadowed, q, f);
  }

  /** A match touches no events but its own two, and ends with each stored or shadowed. */
  lemma FireFrame(l: Ledger, e: Telemetry, r: string, at: Time)
    requires r in l.rules
    ensures var t, p, q := Fire(l, e, r, at), RuleEventOf(e.eventId, r), PendingOf(RuleCommand(e.eventId, r));
      && OnlyTwo(l.core.events, l.core.shadowed, t.core.events, t.core.shadowed, p, q)
      && (p in t.core.events && p !in l.core.events ==> t.core.events[p] == MatchEvent(e, r, l.rules[r], at))
  {
    var rule := l.rules[r];
    PutTwo(l.core, RuleEventOf(e.eventId, r), MatchEvent(e, r, rule, at),
      PendingOf(RuleCommand(e.eventId, r)), PendingEvent(RuleCommandFor(e, r, rule.action, at), rule.action.deviceId, at));
  }

  lemma FireEffects(l: Ledger, fired: multiset<(string, string)>, e: Telemetry, r: string, at: Time)
    requires Fires(l, e, r, at) && Effects(l.core.events, l.core.shadowed, l.core.rows, l.audits, fired)
    ensures var t := Fire(l, e, r, at);
            Effects(t.core.events, t.core.shadowed, t.core.rows, t.audits, fired + multiset{(e.eventId, r)})
  {
    FireFrame(l, e, r, at);
  }

  /** A match finds none of its traces. */
  lemma FireIsFirst(l: Ledger, fired: multiset<(string, string)>, e: Telemetry, r: string, at: Time)
    requires Fires(l, e, r, at) && Effects(l.core.events, l.core.shadowed, l.core.rows, l.audits, fired)
    ensures RuleEventOf(e.eventId, r) !in l.core.events && RuleCommand(e.eventId, r) !in l.core.rows
  {
    assert Traced(l.core.events, l.core.shadowed, RuleEventOf(e.eventId, r), RuleMatchOf(e.eventId, r) in l.audits);
  }

  lemma FireExplains(e: Telemetry, r: string, rule: Rule, at: Time)
    requires rule.condition.sensorId == e.sensorId && Matches(rule.condition, e.unit, e.value)
    ensures var payload := RuleCommandFor(e, r, rule.action, at);
      Explains(MatchEvent(e, r, rule, at), payload, e.eventId, r) && CausedBy(payload, e.eventId, r)
  {
    MatchesIffSatisfies(rule.condition, e.unit, e.value);
  }

  /** A rule event and its command, both new, keep every story told. */
  lemma MatchTold(events: Events, rows: Rows, events': Events, row: Row, e: string, r: string)
    requires Told(events, rows) && RuleCommand(e, r) !in rows
    requires forall k :: k in events ==> k in events' && events'[k] == events[k]
    requires forall k :: k in events' && k !in events ==> k == RuleEventOf(e, r) || k == PendingOf(RuleCommand(e, r))
    requires RuleEventOf(e, r) in events' ==> Explains(events'[RuleEventOf(e, r)], row.payload, e, r)
    requires CausedBy(row.payload, e, r)
    ensures Told(events', rows[RuleCommand(e, r) := row])
  {
    var rows' := rows[RuleCommand(e, r) := row];
    assert ResultsTold(events', rows') && CausesTold(rows');
  }

  lemma FireTold(l: Ledger, fired: multiset<(string, string)>, e: Telemetry, r: string, at: Time)
    requires Fires(l, e, r, at) && Effects(l.core.events, l.core.shadowed, l.core.rows, l.audits, fired) && Told(l.core.events, l.core.rows)
    ensures var t := Fire(l, e, r, at); Told(t.core.events, t.core.rows)
  {
    FireFrame(l, e, r, at);
    FireIsFirst(l, fired, e, r, at);
    FireExplains(e, r, l.rules[r], at);
    var t, payload := Fire(l, e, r, at), RuleCommandFor(e, r, l.rules[r].action, at);
    MatchTold(l.core.events, l.core.rows, t.core.events, NewRow(payload.deviceId, payload, at), e.eventId, r);
  }

  lemma FireKinds(l: Ledger, e: Telemetry, r: string, at: Time)
    requires Fires(l, e, r, at) && EventKinds(l.core.events) && AuditKinds(l.audits)
    ensures var t := Fire(l, e, r, at); EventKinds(t.core.events) && AuditKinds(t.audits)
  {
  }

  lemma FireDeduplicated(l: Ledger, inserted: multiset<string>, e: Telemetry, r: string, at: Time)
    requires r in l.rules && Deduplicated(l.core.events, l.tombstones, l.telemetry, inserted)
    ensures var t := Fire(l, e, r, at); Deduplicated(t.core.events, t.tombstones, t.telemetry, inserted)
  {
  }

  lemma FireCooled(rules: RuleTable, matches: seq<Match>, ruleIds: set<string>, r: string, at: Time)
    requires r in rules && !CoolingDown(rules[r], at) && Cooled(rules, matches, ruleIds)
    ensures Cooled(rules[r := rules[r].(lastTriggeredAt := Some(at))], matches + [Match(r, at, rules[r].cooldownSeconds)], ruleIds)
  {
    var more := matches + [Match(r, at, rules[r].cooldownSeconds)];
    forall i, j | 0 <= i < j < |more| ensures Apart(more, i, j) {
      if j < |matches| {
        assert Apart(matches, i, j);
      }
    }
  }

  /** Whatever takes the id of a derived event is a reading. */
  lemma TakenByReading(events: Events, k: EventKey)
    requires (forall j :: j in events ==> WellFormedKey(j)) && IsDerived(k) && WellFormedKey(k)
    requires Taken(events, k) && k !in events
    ensures ReadingOf(EventText(k)) in events
  {
    var j :| j in events && EventText(j) == EventText(k);
    if IsDerived(j) {
      DerivedTextInjective(j, k);
    }
  }

  /** An insertion under a generated id keeps ids generated and unique, and shadows known. */
  lemma PutNamed(db: CommandDb, tombstones: map<string, Time>, k: EventKey, e: Event)
    requires (forall j :: j in db.events ==> WellFormedKey(j)) && UniqueIds(db.events) && ShadowsKnown(db.shadowed, tombstones)
    requires WellFormedKey(k) && forall x :: ReadingOf(x) in db.events ==> x in tombstones
    ensures var t := AddEvent(db, k, e);
            (forall j :: j in t.events ==> WellFormedKey(j)) && UniqueIds(t.events) && ShadowsKnown(t.shadowed, tombstones)
  {
    PutKeepsUnique(db.events, k, e);
    if IsDerived(k) && Taken(db.events, k) && k !in db.events {
      TakenByReading(db.events, k);
    }
  }

  lemma FireNamed(l: Ledger, ruleIds: set<string>, inserted: multiset<string>, e: Telemetry, r: string, at: Time)
    requires r in l.rules && r in ruleIds && e.eventId != ""
    requires Named(l.core.events, l.core.rows, l.audits, ruleIds) && ShadowsKnown(l.core.shadowed, l.tombstones)
    requires UniqueIds(l.core.events) && Deduplicated(l.core.events, l.tombstones, l.telemetry, inserted)
    ensures var t := Fire(l, e, r, at);
      && Named(t.core.events, t.core.rows, t.audits, ruleIds)
      && ShadowsKnown(t.core.shadowed, t.tombstones) && UniqueIds(t.core.events)
  {
    var rule := l.rules[r];
    var p, q := RuleEventOf(e.eventId, r), PendingOf(RuleCommand(e.eventId, r));
    var core := AddEvent(l.core, p, MatchEvent(e, r, rule, at));
    PutNamed(l.core, l.tombstones, p, MatchEvent(e, r, rule, at));
    PutFrame(l.core.events, l.core.shadowed, p, MatchEvent(e, r, rule, at));
    PutNamed(core, l.tombstones, q, PendingEvent(RuleCommandFor(e, r, rule.action, at), rule.action.deviceId, at));
  }

  lemma FireInv(w: World, e: Telemetry, r: string, at: Time)
    requires Inv(w) && Fires(w.ledger, e, r, at) && e.eventId != ""
    ensures Inv(AfterFire(w, e, r, at))
  {
    FireEffects(w.ledger, w.past.fired, e, r, at);
    FireTold(w.ledger, w.past.fired, e, r, at);
    FireKinds(w.ledger, e, r, at);
    FireDeduplicated(w.ledger, w.past.inserted, e, r, at);
    FireNamed(w.ledger, w.past.ruleIds, w.past.inserted, e, r, at);
    FireCooled(w.ledger.rules, w.past.matches, w.past.ruleIds, r, at);
  }

  ghost predicate OnSensor(rules: RuleTable, sensorId: string, order: seq<string>) {
    forall r :: r in order ==> r in rules && rules[r].condition.sensorId == sensorId
  }

  lemma FireStaysOnSensor(l: Ledger, e: Telemetry, order: seq<string>, at: Time)
    requires order != [] && OnSensor(l.rules, e.sensorId, order)
    ensures order[0] in l.rules && OnSensor(l.rules, e.sensorId, order[1..])
    ensures OnSensor(Fire(l, e, order[0], at).rules, e.sensorId, order[1..])
  {
    assert order[0] in order && forall r :: r in order[1..] ==> r in order;
  }

  lemma {:induction false} RulesInv(w: World, e: Telemetry, order: seq<string>, at: Time)
    requires Inv(w) && OnSensor(w.ledger.rules, e.sensorId, order) && e.eventId != ""
    ensures Inv(AfterRules(w, e, order, at))
    decreases |order|
  {
    if order != [] {
      FireStaysOnSensor(w.ledger, e, order, at);
      if Skipped(w.ledger, e, order[0], at) {
        RulesInv(w, e, order[1..], at);
      } else {
        var v := AfterFire(w, e, order[0], at);
        assert Inv(v) by { FireInv(w, e, order[0], at); }
        RulesInv(v, e, order[1..], at);
      }
    }
  }

  // ---- The other steps -----------------------------------------------------------------------------

  lemma InsertInv(w: World, e: Telemetry, position: Position)
    requires Inv(w) && e.eventId != ""
    ensures Inv(AfterInsert(w, e, position))
  {
    if e.eventId !in w.ledger.tombstones {
      InsertDeduplicated(w.ledger, w.past.inserted, e, position, w.now);
      InsertEffects(w.ledger, w.past.fired, e, position, w.now);
      InsertNamed(w.ledger, w.past.ruleIds, w.past.inserted, e, position, w.now);
    }
  }

  /** The derived events are the same ones. */
  ghost predicate SameDerived(events: Events, shadowed: set<EventKey>, events': Events, shadowed': set<EventKey>) {
    forall k :: IsDerived(k) ==>
      && (k in events' <==> k in events) && (k in shadowed' <==> k in shadowed)
      && (k in events ==> events'[k] == events[k])
  }

  lemma EffectsSame(events: Events, shadowed: set<EventKey>, events': Events, shadowed': set<EventKey>, rows: Rows, audits: Audits, fired: multiset<(string, string)>)
    requires Effects(events, shadowed, rows, audits, fired) && SameDerived(events, shadowed, events', shadowed')
    ensures Effects(events', shadowed', rows, audits, fired)
  {
    forall e, r
      ensures Traced(events', shadowed', RuleEventOf(e, r), RuleMatchOf(e, r) in audits)
      ensures Traced(events', shadowed', PendingOf(RuleCommand(e, r)), RuleMatchOf(e, r) in audits)
    {
      assert Traced(events, shadowed, RuleEventOf(e, r), RuleMatchOf(e, r) in audits);
      assert Traced(events, shadowed, PendingOf(RuleCommand(e, r)), RuleMatchOf(e, r) in audits);
    }
  }

  lemma InsertSame(l: Ledger, e: Telemetry, position: Position, now: Time)
    ensures var t := Ingest(l, e, position, now).0;
      && SameDerived(l.core.events, l.core.shadowed, t.core.events, t.core.shadowed)
      && (EventKinds(l.core.events) ==> EventKinds(t.core.events))
  {
    PutFrame(l.core.events, l.core.shadowed, ReadingOf(e.eventId), ReadingEvent(e));
  }

  lemma InsertEffects(l: Ledger, fired: multiset<(string, string)>, e: Telemetry, position: Position, now: Time)
    requires Effects(l.core.events, l.core.shadowed, l.core.rows, l.audits, fired) && EventKinds(l.core.events) && Told(l.core.events, l.core.rows)
    ensures var t := Ingest(l, e, position, now).0;
      Effects(t.core.events, t.core.shadowed, t.core.rows, t.audits, fired) && EventKinds(t.core.events) && Told(t.core.events, t.core.rows)
  {
    InsertSame(l, e, position, now);
    var t := Ingest(l, e, position, now).0;
    EffectsSame(l.core.events, l.core.shadowed, t.core.events, t.core.shadowed, l.core.rows, l.audits, fired);
  }

  lemma InsertNamed(l: Ledger, ruleIds: set<string>, inserted: multiset<string>, e: Telemetry, position: Position, now: Time)
    requires Named(l.core.events, l.core.rows, l.audits, ruleIds) && ShadowsKnown(l.core.shadowed, l.tombstones)
    requires UniqueIds(l.core.events) && Deduplicated(l.core.events, l.tombstones, l.telemetry, inserted)
    ensures var t := Ingest(l, e, position, now).0;
      && Named(t.core.events, t.core.rows, t.audits, ruleIds)
      && ShadowsKnown(t.core.shadowed, t.tombstones) && UniqueIds(t.core.events)
  {
    PutNamed(l.core, l.tombstones, ReadingOf(e.eventId), ReadingEvent(e));
  }

  lemma InsertDeduplicated(l: Ledger, inserted: multiset<string>, e: Telemetry, position: Position, now: Time)
    requires Deduplicated(l.core.events, l.tombstones, l.telemetry, inserted) && e.eventId !in l.tombstones
    ensures var (t, duplicate) := Ingest(l, e, position, now);
            !duplicate && Deduplicated(t.core.events, t.tombstones, t.telemetry, inserted + multiset{e.eventId})
  {
  }

  /** A sweep takes no more than its batch of expired rows, and no trace of a match. */
  lemma SweepEffects(l: Ledger, now: Time, fired: multiset<(string, string)>, retention: Retention, locked: Sweep, sweep: Sweep)
    requires Effects(l.core.events, l.core.shadowed, l.core.rows, l.audits, fired) && EventKinds(l.core.events) && AuditKinds(l.audits)
    requires SweepOf(l, retention, now, locked, sweep)
    ensures var t := AfterSweep(l, now, sweep);
            Effects(t.core.events, t.core.shadowed, t.core.rows, t.audits, fired) && EventKinds(t.core.events) && AuditKinds(t.audits)
  {
    var t := AfterSweep(l, now, sweep);
    SweepSpares(l, now, retention, locked, sweep);
    assert SameDerived(l.core.events, l.core.shadowed, t.core.events, t.core.shadowed);
    EffectsSame(l.core.events, l.core.shadowed, t.core.events, t.core.shadowed, l.core.rows, l.audits, fired);
    assert forall e, r :: RuleMatchOf(e, r) in t.audits <==> RuleMatchOf(e, r) in l.audits;
  }

  lemma SweepSpares(l: Ledger, now: Time, retention: Retention, locked: Sweep, sweep: Sweep)
    requires EventKinds(l.core.events) && AuditKinds(l.audits) && SweepOf(l, retention, now, locked, sweep)
    ensures forall k :: k in l.core.events && !k.ReadingOf? ==> k in AfterSweep(l, now, sweep).core.events
    ensures forall a :: a in l.audits && a.RuleMatchOf? ==> a in AfterSweep(l, now, sweep).audits
  {
    forall k | k in sweep.readings ensures k.ReadingOf? {
      assert k in ExpiredReadings(l, retention, now);
    }
    forall a | a in sweep.audits ensures !a.RuleMatchOf? {
      assert a in ExpiredAudits(l, retention, now);
    }
  }

  lemma CleanupInv(w: World, retention: Retention, locked: Sweep, sweep: Sweep)
    requires Inv(w) && SweepOf(w.ledger, retention, w.now, locked, sweep)
    ensures Inv(AfterCleanup(w, retention, sweep))
  {
    if CleanupDue(w.ledger, retention, w.now) {
      var t := AfterSweep(w.ledger, w.now, sweep);
      SweepEffects(w.ledger, w.now, w.past.fired, retention, locked, sweep);
      SweepSpares(w.ledger, w.now, retention, locked, sweep);
      SpacedSweep(w.past.sweeps, w.ledger.cleanupStartedAt, w.now, retention.interval);
    }
  }

  lemma SpacedSweep(sweeps: seq<Sweeping>, startedAt: Option<Time>, now: Time, interval: nat)
    requires Spaced(sweeps, startedAt) && (startedAt.None? || startedAt.value <= now - interval)
    ensures Spaced(sweeps + [Sweeping(now, interval)], Some(now))
  {
  }

  lemma ProtocolShadows(a: CommandDb, b: CommandDb, tombstones: map<string, Time>, telemetry: map<string, TelemetryRow>, inserted: multiset<string>)
    requires CoreEvolves(a, b) && (forall k :: k in a.events ==> WellFormedKey(k)) && ShadowsKnown(a.shadowed, tombstones)
    requires Deduplicated(a.events, tombstones, telemetry, inserted)
    ensures ShadowsKnown(b.shadowed, tombstones)
  {
    forall k | k in b.shadowed && IsDerived(k) ensures WellFormedKey(k) && EventText(k) in tombstones {
      if k !in a.shadowed {
        TakenByReading(a.events, k);
      }
    }
  }

  lemma ProtocolEffects(a: CommandDb, b: CommandDb, audits: Audits, fired: multiset<(string, string)>)
    requires CoreEvolves(a, b) && Effects(a.events, a.shadowed, a.rows, audits, fired)
    ensures Effects(b.events, b.shadowed, b.rows, audits, fired)
  {
    forall e, r
      ensures Traced(b.events, b.shadowed, RuleEventOf(e, r), RuleMatchOf(e, r) in audits)
      ensures Traced(b.events, b.shadowed, PendingOf(RuleCommand(e, r)), RuleMatchOf(e, r) in audits)
    {
      assert Traced(a.events, a.shadowed, RuleEventOf(e, r), RuleMatchOf(e, r) in audits);
      assert Traced(a.events, a.shadowed, PendingOf(RuleCommand(e, r)), RuleMatchOf(e, r) in audits);
    }
    assert forall e, r :: RuleCommand(e, r) in b.rows <==> RuleCommand(e, r) in a.rows;
  }

  lemma ProtocolInv(w: World, after: CommandDb)
    requires Inv(w) && CoreEvolves(w.ledger.core, after)
    ensures Inv(w.(ledger := w.ledger.(core := after)))
  {
    var a := w.ledger.core;
    ProtocolEffects(a, after, w.ledger.audits, w.past.fired);
    ProtocolShadows(a, after, w.ledger.tombstones, w.ledger.telemetry, w.past.inserted);
    ProtocolTold(a, after);
  }

  lemma ProtocolTold(a: CommandDb, b: CommandDb)
    requires CoreEvolves(a, b) && Told(a.events, a.rows)
    ensures Told(b.events, b.rows)
  {
    forall e, r | RuleEventOf(e, r) in b.events
      ensures RuleCommand(e, r) in b.rows && Explains(b.events[RuleEventOf(e, r)], b.rows[RuleCommand(e, r)].payload, e, r)
    {
      assert RuleEventOf(e, r) in a.events;
    }
  }

  lemma PassInv(w: World, e: Telemetry, order: seq<string>, at: Time)
    requires Inv(w) && Enabled(w, RulePass(e, order, at))
    ensures Inv(AfterPass(w, e, order, at))
  {
    assert forall r :: r in order ==> r in Elements(order);
    RulesInv(w, e, order, at);
  }

  lemma EditInv(w: World, step: Step)
    requires Inv(w) && Enabled(w, step) && (step.NewRule? || step.Edit? || step.Enable? || step.DropRule?)
    ensures Inv(After(w, step))
  {
    var t := After(w, step);
    assert Cooled(t.ledger.rules, t.past.matches, t.past.ruleIds) by {
      assert forall i, j :: 0 <= i < j < |t.past.matches| ==> Apart(w.past.matches, i, j);
    }
  }

  lemma StepInv(w: World, step: Step)
    requires Inv(w) && Enabled(w, step)
    ensures Inv(After(w, step))
  {
    match step {
      case Protocol(after) => ProtocolInv(w, after);
      case Insert(e, position) => InsertInv(w, e, position);
      case RulePass(e, order, at) => PassInv(w, e, order, at);
      case Cleanup(retention, locked, sweep) => CleanupInv(w, retention, locked, sweep);
      case NewRule(_, _) => EditInv(w, step);
      case Edit(_, _, _, _, _) => EditInv(w, step);
      case Enable(_, _) => EditInv(w, step);
      case DropRule(_) => EditInv(w, step);
      case _ =>
    }
  }

  lemma {:induction false} RunInv(w: World, steps: seq<Step>, t: World)
    requires Inv(w) && RunFrom(w, steps, t)
    ensures Inv(t)
    decreases |steps|
  {
    if steps != [] {
      StepInv(w, steps[0]);
      RunInv(After(w, steps[0]), steps[1..], t);
    }
  }

  lemma ReachableInv(w: World)
    requires Reachable(w)
    ensures Inv(w)
  {
    var w0, steps :| Init(w0) && RunFrom(w0, steps, w);
    RunInv(w0, steps, w);
  }

  // ---- What no step takes back -----------------------------------------------------------------------

  ghost predicate NotBefore(a: RuleTable, b: RuleTable) {
    forall r :: r in a && r in b && a[r].lastTriggeredAt.Some? ==>
      b[r].lastTriggeredAt.Some? && a[r].lastTriggeredAt.value <= b[r].lastTriggeredAt.value
  }

  ghost predicate LettersKept(a: map<Position, DeadLetter>, b: map<Position, DeadLetter>) {
    forall p :: p in a ==> p in b && b[p] == a[p]
  }

  ghost predicate RowsKept(a: Rows, b: Rows) {
    forall c :: c in a ==> c in b && b[c].payload == a[c].payload
  }

  ghost predicate MatchesKept(a: Audits, b: Audits) {
    forall k :: k in a && k.RuleMatchOf? ==> k in b && b[k] == a[k]
  }

  ghost predicate DerivedKept(a: Events, b: Events) {
    forall k :: k in a && !k.ReadingOf? ==> k in b && b[k] == a[k]
  }

  /** A rule event that was not stored with its match is not stored later. */
  ghost predicate LostStayLost(a: Events, b: Events, audits: Audits) {
    forall e, r :: RuleMatchOf(e, r) in audits && RuleEventOf(e, r) in b ==> RuleEventOf(e, r) in a
  }

  /** Tombstones, dead letters, command payloads, match records and every event but sensor
      readings stay; rule clocks do not run backwards. */
  ghost predicate Keeps(w: World, t: World) {
    && w.ledger.tombstones.Keys <= t.ledger.tombstones.Keys
    && w.past.passed <= t.past.passed
    && w.past.ruleIds <= t.past.ruleIds
    && LettersKept(w.ledger.deadLetters, t.ledger.deadLetters)
    && RowsKept(w.ledger.core.rows, t.ledger.core.rows)
    && MatchesKept(w.ledger.audits, t.ledger.audits)
    && DerivedKept(w.ledger.core.events, t.ledger.core.events)
    && LostStayLost(w.ledger.core.events, t.ledger.core.events, w.ledger.audits)
    && NotBefore(w.ledger.rules, t.ledger.rules)
    && (forall r :: r in t.ledger.rules ==> r in w.ledger.rules || r !in w.past.ruleIds)
  }

  lemma FireKeeps(w: World, e: Telemetry, r: string, at: Time)
    requires Fires(w.ledger, e, r, at)
    ensures Keeps(w, AfterFire(w, e, r, at))
  {
    FireFrame(w.ledger, e, r, at);
  }

  lemma KeepsThrough(w: World, u: World, t: World)
    requires w.ledger.rules.Keys <= w.past.ruleIds && Keeps(w, u) && Keeps(u, t)
    ensures Keeps(w, t)
  {
    forall r | r in w.ledger.rules && r in t.ledger.rules ensures r in u.ledger.rules {
      assert r in w.past.ruleIds && r in u.past.ruleIds;
    }
  }

  lemma {:induction false} RulesKeep(w: World, e: Telemetry, order: seq<string>, at: Time)
    requires w.ledger.rules.Keys <= w.past.ruleIds && OnSensor(w.ledger.rules, e.sensorId, order)
    ensures Keeps(w, AfterRules(w, e, order, at))
    decreases |order|
  {
    if order != [] {
      assert order[0] in order && forall r :: r in order[1..] ==> r in order;
      if Skipped(w.ledger, e, order[0], at) {
        RulesKeep(w, e, order[1..], at);
      } else {
        var v := AfterFire(w, e, order[0], at);
        FireKeeps(w, e, order[0], at);
        RulesKeep(v, e, order[1..], at);
        KeepsThrough(w, v, AfterRules(v, e, order[1..], at));
      }
    }
  }

  lemma PassKeeps(w: World, e: Telemetry, order: seq<string>, at: Time)
    requires Inv(w) && Enabled(w, RulePass(e, order, at))
    ensures Keeps(w, AfterPass(w, e, order, at))
  {
    assert forall r :: r in order ==> r in Elements(order);
    RulesKeep(w, e, order, at);
  }

  lemma SweepKeeps(l: Ledger, now: Time, retention: Retention, locked: Sweep, sweep: Sweep)
    requires EventKinds(l.core.events) && AuditKinds(l.audits) && SweepOf(l, retention, now, locked, sweep)
    ensures var t := AfterSweep(l, now, sweep);
      && DerivedKept(l.core.events, t.core.events) && MatchesKept(l.audits, t.audits)
      && LostStayLost(l.core.events, t.core.events, l.audits)
  {
    SweepSpares(l, now, retention, locked, sweep);
  }

  lemma CleanupKeeps(w: World, retention: Retention, locked: Sweep, sweep: Sweep)
    requires EventKinds(w.ledger.core.events) && AuditKinds(w.ledger.audits)
    requires SweepOf(w.ledger, retention, w.now, locked, sweep)
    ensures Keeps(w, AfterCleanup(w, retention, sweep))
  {
    if CleanupDue(w.ledger, retention, w.now) {
      SweepKeeps(w.ledger, w.now, retention, locked, sweep);
    }
  }

  lemma IngestKeeps(l: Ledger, e: Telemetry, position: Position, now: Time)
    ensures var t := Ingest(l, e, position, now).0;
      DerivedKept(l.core.events, t.core.events) && LostStayLost(l.core.events, t.core.events, l.audits)
  {
    InsertSame(l, e, position, now);
  }

  lemma InsertKeeps(w: World, e: Telemetry, position: Position)
    ensures Keeps(w, AfterInsert(w, e, position))
  {
    IngestKeeps(w.ledger, e, position, w.now);
  }

  lemma RulesetKeeps(w: World, step: Step)
    requires w.ledger.rules.Keys <= w.past.ruleIds
    requires Enabled(w, step) && (step.NewRule? || step.DropRule?)
    ensures Keeps(w, After(w, step))
  {
  }

  lemma EditKeeps(w: World, step: Step)
    requires Enabled(w, step) && (step.Edit? || step.Enable?)
    ensures Keeps(w, After(w, step))
  {
  }

  lemma QuietKeeps(w: World, step: Step)
    requires Enabled(w, step) && (step.Advance? || step.Protocol? || step.Incident? || step.Bury? || step.Catalog?)
    ensures Keeps(w, After(w, step))
  {
  }

  lemma StepKeeps(w: World, step: Step)
    requires Inv(w) && Enabled(w, step)
    ensures Keeps(w, After(w, step))
  {
    if step.RulePass? {
      PassKeeps(w, step.event, step.order, step.at);
    } else if step.Cleanup? {
      CleanupKeeps(w, step.retention, step.locked, step.sweep);
    } else if step.Insert? {
      InsertKeeps(w, step.event, step.position);
    } else if step.NewRule? || step.DropRule? {
      RulesetKeeps(w, step);
    } else if step.Edit? || step.Enable? {
      EditKeeps(w, step);
    } else {
      QuietKeeps(w, step);
    }
  }

  lemma {:induction false} RunKeeps(w: World, steps: seq<Step>, t: World)
    requires Inv(w) && RunFrom(w, steps, t)
    ensures Keeps(w, t)
    decreases |steps|
  {
    if steps != [] {
      var u := After(w, steps[0]);
      StepKeeps(w, steps[0]);
      StepInv(w, steps[0]);
      RunKeeps(u, steps[1..], t);
      KeepsThrough(w, u, t);
    }
  }
}
