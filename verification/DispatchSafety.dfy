/** What every step of the dispatch protocol keeps. The invariant is split by the tables
    and histories it speaks about, so that a step only has to argue about what it touches. */
module DispatchSafety {
  import opened Prelude
  import opened Ids
  import opened Schema
  import opened Commands
  import opened Dispatch
  import Backoff
  import Sim = Simulator

  type Rows = map<CommandId, Row>
  type Events = map<EventKey, Event>
  type Count = multiset<CommandId>

  // ---- Rows are well-formed ------------------------------------------------------------

  predicate RowOk(cfg: Config, r: Row) {
    && (r.dispatchOwner.Some? <==> r.leaseUntil.Some?)
    && match r.status
       case Pending => r.publishAttempts == 0 && r.dispatchOwner.None? && r.nextAttemptAt.None? && r.publishedAt.None?
       case Publishing => r.publishAttempts >= 1 && r.dispatchOwner.Some? && r.nextAttemptAt.None?
       case Retrying => 1 <= r.publishAttempts < cfg.maxAttempts && r.dispatchOwner.None? && r.nextAttemptAt.Some?
       case Published => r.publishAttempts >= 1 && r.publishedAt.Some? && r.nextAttemptAt.None?
       case Finalizing => r.publishAttempts >= cfg.maxAttempts && r.nextAttemptAt.Some?
       case Succeeded => r.result.Some? && r.result.value.success && r.completedAt.Some?
       case Failed => r.result.Some? && !r.result.value.success && r.completedAt.Some?
  }

  /** The longest a row can be told to wait. */
  function Patience(cfg: Config): int
    requires Commands.ValidConfig(cfg)
  {
    cfg.skew + cfg.retryMax + RESULT_REPUBLISH_DELAY
  }

  predicate RowTimely(cfg: Config, r: Row, now: Time)
    requires Commands.ValidConfig(cfg)
  {
    && (r.leaseUntil.Some? ==> r.leaseUntil.value <= now + cfg.lease)
    && (r.nextAttemptAt.Some? ==> r.nextAttemptAt.value <= now + Patience(cfg))
    && (r.publishedAt.Some? ==> r.publishedAt.value <= now)
  }

  ghost predicate Shape(cfg: Config, rows: Rows, devices: map<string, Device>, now: Time)
    requires Commands.ValidConfig(cfg)
  {
    forall c :: c in rows ==>
      && RowOk(cfg, rows[c])
      && RowTimely(cfg, rows[c], now)
      && WellFormedCommand(c)
      && rows[c].payload.commandId == c
      && rows[c].payload.deviceId == rows[c].deviceId
      && rows[c].deviceId in devices
  }

  // ---- Claims are fenced -----------------------------------------------------------------

  /** A claim in some gateway's hands is either the latest claim of its row, which then
      still carries it, or has been overtaken, which only happens after it expired. */
  predicate HeldOk(rows: Rows, claims: Count, now: Time, g: Owner, stage: Stage, h: Held) {
    var c := h.item.commandId;
    && c in rows
    && h.item.deviceId == rows[c].deviceId
    && h.item.payload == rows[c].payload
    && 1 <= h.item.publishAttempts <= rows[c].publishAttempts
    && h.epoch <= claims[c]
    && (h.epoch == claims[c] ==>
        && rows[c].dispatchOwner == Some(g)
        && rows[c].leaseUntil == Some(h.until)
        && rows[c].publishAttempts == h.item.publishAttempts
        && (rows[c].status == HeldStatus(stage) || Terminal(rows[c].status)))
    && (h.epoch < claims[c] ==> h.until <= now && rows[c].dispatchOwner != Some(g))
  }

  predicate BatchDistinct(batch: seq<Held>) {
    forall i, j :: 0 <= i < j < |batch| ==> batch[i].item.commandId != batch[j].item.commandId
  }

  predicate GatewayOk(rows: Rows, claims: Count, now: Time, g: Owner, gw: Gateway) {
    && (!gw.claimed ==> gw.batch == [])
    && BatchDistinct(gw.batch)
    && forall i :: 0 <= i < |gw.batch| ==> HeldOk(rows, claims, now, g, gw.stage, gw.batch[i])
  }

  ghost predicate Fenced(rows: Rows, claims: Count, now: Time, gateways: map<Owner, Gateway>) {
    forall g :: g in gateways ==> GatewayOk(rows, claims, now, g, gateways[g])
  }

  // ---- Attempts are accounted for ----------------------------------------------------------

  /** Attempts stay within the limit plus one per reclaim, and every retry event carries an
      attempt number below the limit that its command has already used up. */
  ghost predicate Accounted(cfg: Config, rows: Rows, events: Events, reclaims: Count) {
    && (forall c :: c in rows ==> rows[c].publishAttempts <= cfg.maxAttempts + reclaims[c])
    && (forall c, n: nat :: RetryOf(c, n) in events ==>
         && c in rows
         && 1 <= n < cfg.maxAttempts
         && n <= rows[c].publishAttempts
         && (rows[c].status.Publishing? ==> n < rows[c].publishAttempts))
  }

  // ---- Settlement happens once ---------------------------------------------------------------

  /** The event that tells a settled row's own outcome. */
  function SettledEvent(r: Row): Event
    requires r.result.Some?
  {
    Event(if r.status.Succeeded? then CommandSucceeded else CommandFailed,
      r.result.value.deviceId, TerminalBody(r.payload, r.result.value), r.result.value.occurredAt)
  }

  /** A command is settled exactly when its one terminal event exists or had to stay out
      because its id was taken; that event tells the row's own outcome, and a success wrote
      the device row once. */
  ghost predicate SettledOnce(rows: Rows, events: Events, shadowed: set<EventKey>, writes: Count) {
    EventsSettled(rows, events, shadowed) && WritesCounted(rows, writes)
  }

  ghost predicate WritesCounted(rows: Rows, writes: Count) {
    forall c :: writes[c] == if c in rows && rows[c].status.Succeeded? then 1 else 0
  }

  ghost predicate EventsSettled(rows: Rows, events: Events, shadowed: set<EventKey>) {
    && (forall k :: IsCommandKey(k) && k in shadowed ==> k !in events)
    && (forall c :: PendingOf(c) in events || PendingOf(c) in shadowed <==> c in rows)
    && (forall c :: TerminalOf(c) in events || TerminalOf(c) in shadowed <==> c in rows && Terminal(rows[c].status))
    && (forall c :: c in rows && Terminal(rows[c].status) ==>
         && rows[c].result.Some?
         && (TerminalOf(c) in events ==> events[TerminalOf(c)] == SettledEvent(rows[c]))
         && rows[c].result.value.success == rows[c].status.Succeeded?)
  }

  // ---- The device's own history ----------------------------------------------------------------

  type Answers = map<CommandId, CommandResult>
  type Issued = set<(nat, CommandResult)>
  type Executions = multiset<(nat, CommandId)>
  type Reached = set<(string, DeviceState)>

  /** An answer counts as one execution if it reports success and as none otherwise; answers
      of the current life are the ones the device still remembers. */
  ghost predicate IssuedOk(results: Answers, lifetime: nat, issued: Issued, answers: set<CommandResult>, executions: Executions) {
    forall l, r :: (l, r) in issued ==>
      && l <= lifetime
      && r in answers
      && executions[(l, r.commandId)] == (if r.success then 1 else 0)
      && (l == lifetime ==> r.commandId in results && results[r.commandId] == r)
  }

  /** Within one life a command is answered one way. */
  ghost predicate OneAnswer(issued: Issued) {
    forall l, q, r :: (l, q) in issued && (l, r) in issued && q.commandId == r.commandId ==> q == r
  }

  /** No life executes a command twice; what this life executed it still remembers. */
  ghost predicate ExecutedOnce(results: Answers, lifetime: nat, executions: Executions) {
    forall l, c ::
      && executions[(l, c)] <= 1
      && ((l, c) in executions ==> l <= lifetime && (l == lifetime ==> c in results))
  }

  ghost predicate CacheIssued(results: Answers, lifetime: nat, issued: Issued) {
    forall c :: c in results ==> (lifetime, results[c]) in issued && results[c].commandId == c
  }

  ghost predicate AnswersOk(answers: set<CommandResult>, issued: Issued, reached: Reached) {
    forall r :: r in answers ==>
      && r.publishAttempts.None?
      && (r.success ==> r.state.Some? && (r.deviceId, r.state.value) in reached)
      && exists l :: (l, r) in issued
  }

  ghost predicate DeviceHistory(results: Answers, lifetime: nat, issued: Issued, answers: set<CommandResult>, executions: Executions, reached: Reached) {
    && IssuedOk(results, lifetime, issued, answers, executions)
    && OneAnswer(issued)
    && ExecutedOnce(results, lifetime, executions)
    && CacheIssued(results, lifetime, issued)
    && AnswersOk(answers, issued, reached)
  }

  // ---- What travels is known and credible --------------------------------------------------------

  predicate Known(rows: Rows, r: CommandResult) {
    && r.commandId in rows
    && r.deviceId == rows[r.commandId].deviceId
    && (r.publishAttempts.Some? ==> r.publishAttempts.value <= rows[r.commandId].publishAttempts)
  }

  predicate Credible(rows: Rows, answers: set<CommandResult>, r: CommandResult) {
    Known(rows, r) && (r.success ==> r in answers)
  }

  ghost predicate Carried(rows: Rows, broker: set<Command>, answers: set<CommandResult>, acks: set<CommandResult>, log: seq<CommandResult>) {
    && (forall p :: p in broker ==> p.commandId in rows && rows[p.commandId].payload == p && rows[p.commandId].deviceId == p.deviceId)
    && (forall r :: r in answers ==> Known(rows, r))
    && acks <= answers
    && (forall i :: 0 <= i < |log| ==> Credible(rows, answers, log[i]))
  }

  // ---- What is stored is backed by the device ------------------------------------------------------

  ghost predicate Backed(rows: Rows, devices: map<string, Device>, seeded: map<string, Device>, answers: set<CommandResult>, reached: Reached) {
    && (forall c :: c in rows && rows[c].status.Succeeded? ==>
         rows[c].result.Some? && rows[c].result.value.commandId == c && rows[c].result.value in answers)
    && devices.Keys == seeded.Keys
    && (forall d :: d in devices ==>
         devices[d].state == seeded[d].state || (d, devices[d].state) in reached)
  }

  ghost predicate Inv(cfg: Config, s: System)
    requires Commands.ValidConfig(cfg)
  {
    && Shape(cfg, s.db.rows, s.db.devices, s.now)
    && Fenced(s.db.rows, s.past.claims, s.now, s.gateways)
    && Accounted(cfg, s.db.rows, s.db.events, s.past.reclaims)
    && SettledOnce(s.db.rows, s.db.events, s.db.shadowed, s.past.writes)
    && UniqueIds(s.db.events)
    && DeviceHistory(s.device.results, s.lifetime, s.past.issued, s.past.answers, s.past.executions, s.past.reached)
    && Carried(s.db.rows, s.broker, s.past.answers, s.acks, s.log)
    && Backed(s.db.rows, s.db.devices, s.past.seeded, s.past.answers, s.past.reached)
  }

  lemma InitInv(cfg: Config, s: System)
    requires Commands.ValidConfig(cfg) && Init(s)
    ensures Inv(cfg, s)
  {
  }

  // ---- Claims --------------------------------------------------------------------------------

  /** What one claim does to one of its rows. */
  lemma ClaimedRow(cfg: Config, stage: Stage, r: Row, g: Owner, now: Time)
    requires Commands.ValidConfig(cfg) && RowOk(cfg, r) && RowTimely(cfg, r, now) && Claimable(cfg, stage, r, now)
    ensures var t := ClaimRow(cfg, stage, r, g, now);
            && RowOk(cfg, t) && RowTimely(cfg, t, now)
            && t.status == HeldStatus(stage) && !Terminal(t.status)
            && 1 <= t.publishAttempts && r.publishAttempts <= t.publishAttempts
            && (t.status.Publishing? ==> t.publishAttempts == r.publishAttempts + 1)
            && t.payload == r.payload && t.deviceId == r.deviceId
            && t.dispatchOwner == Some(g) && t.leaseUntil == Some(now + cfg.lease)
            && !Terminal(r.status)
            && (r.leaseUntil.Some? ==> r.leaseUntil.value <= now)
  {
  }

  /** The rows of a table around one claim. */
  ghost predicate ClaimMade(cfg: Config, stage: Stage, rows: Rows, now: Time, ids: set<CommandId>) {
    forall c :: c in ids ==> c in rows && Claimable(cfg, stage, rows[c], now)
  }

  lemma ClaimKeepsRows(cfg: Config, stage: Stage, rows: Rows, devices: map<string, Device>, now: Time, ids: set<CommandId>, g: Owner)
    requires Commands.ValidConfig(cfg) && Shape(cfg, rows, devices, now) && ClaimMade(cfg, stage, rows, now, ids)
    ensures var rows' := ClaimRows(cfg, stage, rows, ids, g, now);
            && Shape(cfg, rows', devices, now)
            && RowsGrow(rows, rows')
            && rows'.Keys == rows.Keys
            && forall c :: c in rows && Terminal(rows[c].status) ==> rows'[c] == rows[c]
  {
    forall c | c in ids
      ensures RowOk(cfg, ClaimRow(cfg, stage, rows[c], g, now))
      ensures RowTimely(cfg, ClaimRow(cfg, stage, rows[c], g, now), now)
      ensures RowGrows(rows[c], ClaimRow(cfg, stage, rows[c], g, now))
      ensures !Terminal(rows[c].status)
    {
      ClaimedRow(cfg, stage, rows[c], g, now);
    }
  }

  // ---- Rows only move forward -------------------------------------------------------------------

  /** Command and device never change, attempts never fall, and a settled row stays settled
      and whole. */
  predicate RowGrows(r: Row, t: Row) {
    && t.payload == r.payload && t.deviceId == r.deviceId
    && t.publishAttempts >= r.publishAttempts
    && (Terminal(r.status) ==> t == r)
  }

  ghost predicate RowsGrow(rows: Rows, rows': Rows) {
    forall c :: c in rows ==> c in rows' && RowGrows(rows[c], rows'[c])
  }

  lemma CarriedGrows(rows: Rows, rows': Rows, broker: set<Command>, answers: set<CommandResult>, acks: set<CommandResult>, log: seq<CommandResult>)
    requires Carried(rows, broker, answers, acks, log) && RowsGrow(rows, rows')
    ensures Carried(rows', broker, answers, acks, log)
  {
    forall r | Known(rows, r) ensures Known(rows', r) {
      assert RowGrows(rows[r.commandId], rows'[r.commandId]);
    }
    forall r | Credible(rows, answers, r) ensures Credible(rows', answers, r) {
    }
    forall p | p in broker ensures p.commandId in rows' && rows'[p.commandId].payload == p && rows'[p.commandId].deviceId == p.deviceId {
      assert RowGrows(rows[p.commandId], rows'[p.commandId]);
    }
  }

  lemma BackedGrows(rows: Rows, rows': Rows, devices: map<string, Device>, seeded: map<string, Device>, answers: set<CommandResult>, reached: Reached)
    requires Backed(rows, devices, seeded, answers, reached) && RowsGrow(rows, rows')
    requires forall c :: c in rows' && rows'[c].status.Succeeded? ==> c in rows && rows[c].status.Succeeded?
    ensures Backed(rows', devices, seeded, answers, reached)
  {
  }

  // ---- Marks -------------------------------------------------------------------------------------

  lemma DelayAtMost(cfg: Config, attempts: nat)
    requires Commands.ValidConfig(cfg) && attempts >= 1
    ensures Backoff.Delay(cfg.retryInitial, cfg.retryMax, attempts) <= cfg.retryMax
  {
  }

  /** A mark either finds its claim lost and changes nothing, or releases the one row it
      claimed, leaving its command and attempts alone; a retry adds its own event. */
  lemma MarkedRow(cfg: Config, db: CommandDb, stage: Stage, outcome: Outcome, item: PendingCommand, g: Owner, now: Time, wall: Time)
    requires Commands.ValidConfig(cfg) && item.publishAttempts >= 1 && wall <= now + cfg.skew
    requires item.commandId in db.rows
    requires RowOk(cfg, db.rows[item.commandId]) && RowTimely(cfg, db.rows[item.commandId], now)
    requires db.rows[item.commandId].dispatchOwner == Some(g) ==> item.publishAttempts == db.rows[item.commandId].publishAttempts
    ensures var m := MarkHead(cfg, db, stage, outcome, item, g, now, wall);
            var c := item.commandId;
            && (m.Some? <==> Holds(db.rows, c, HeldStatus(stage), g))
            && (m.Some? ==>
                && m.value.devices == db.devices
                && m.value.rows == db.rows[c := m.value.rows[c]]
                && (var r := m.value.rows[c];
                    && RowOk(cfg, r) && RowTimely(cfg, r, now)
                    && r.dispatchOwner.None?
                    && RowGrows(db.rows[c], r) && r.publishAttempts == db.rows[c].publishAttempts
                    && !Terminal(r.status) && !r.status.Publishing? && !Terminal(db.rows[c].status)
                    && if r.status.Retrying?
                       then db.rows[c].status.Publishing? && exists e :: m.value == AddEvent(db.(rows := m.value.rows), RetryOf(c, item.publishAttempts), e)
                       else m.value.events == db.events && m.value.shadowed == db.shadowed))
  {
    DelayAtMost(cfg, item.publishAttempts);
  }

  // ---- Settlement ---------------------------------------------------------------------------------

  /** Applying a known result either finds the command settled and changes nothing, or
      settles it: its row, its one terminal event and, on success, its device. */
  lemma SettledRow(cfg: Config, db: CommandDb, r: CommandResult, now: Time)
    requires Commands.ValidConfig(cfg) && Shape(cfg, db.rows, db.devices, now)
    requires Known(db.rows, r) && (r.success ==> r.state.Some?)
    ensures var a := ApplyCommandResult(db, r);
            var c := r.commandId;
            && a.Ok?
            && (Terminal(db.rows[c].status) ==> a.value == db)
            && (!Terminal(db.rows[c].status) ==>
                && a.value.rows == db.rows[c := a.value.rows[c]]
                && a.value.events == PutEvent(db.events, TerminalOf(c), TerminalEvent(db.rows[c].payload, r))
                && a.value.shadowed == Shade(db.events, db.shadowed, TerminalOf(c))
                && a.value.devices == StoreDeviceState(db.devices, r)
                && (var t := a.value.rows[c];
                    && RowOk(cfg, t) && RowTimely(cfg, t, now)
                    && RowGrows(db.rows[c], t) && t.publishAttempts == db.rows[c].publishAttempts
                    && t.status == (if r.success then Succeeded else Failed)
                    && t.result == Some(SettledResult(r))
                    && t.dispatchOwner == db.rows[c].dispatchOwner && t.leaseUntil == db.rows[c].leaseUntil))
  {
  }

  // ---- Fencing under each kind of change ------------------------------------------------------------

  /** A claim by another gateway reaches a held row only after its lease ran out. */
  lemma HeldUnderClaim(cfg: Config, stage: Stage, rows: Rows, devices: map<string, Device>, claims: Count, now: Time, ids: set<CommandId>, claimant: Owner,
                       g: Owner, held: Stage, h: Held)
    requires Commands.ValidConfig(cfg) && Shape(cfg, rows, devices, now) && ClaimMade(cfg, stage, rows, now, ids)
    requires g != claimant && HeldOk(rows, claims, now, g, held, h)
    ensures HeldOk(ClaimRows(cfg, stage, rows, ids, claimant, now), claims + multiset(ids), now, g, held, h)
  {
    var c := h.item.commandId;
    if c in ids {
      ClaimedRow(cfg, stage, rows[c], claimant, now);
    }
  }

  lemma FencedUnderClaim(cfg: Config, stage: Stage, rows: Rows, devices: map<string, Device>, claims: Count, now: Time, ids: set<CommandId>, claimant: Owner,
                         gateways: map<Owner, Gateway>)
    requires Commands.ValidConfig(cfg) && Shape(cfg, rows, devices, now) && ClaimMade(cfg, stage, rows, now, ids)
    requires Fenced(rows, claims, now, gateways)
    ensures Fenced(ClaimRows(cfg, stage, rows, ids, claimant, now), claims + multiset(ids), now, gateways - {claimant})
  {
    forall g, i | g in gateways && g != claimant && 0 <= i < |gateways[g].batch|
      ensures HeldOk(ClaimRows(cfg, stage, rows, ids, claimant, now), claims + multiset(ids), now, g, gateways[g].stage, gateways[g].batch[i])
    {
      assert GatewayOk(rows, claims, now, g, gateways[g]);
      HeldUnderClaim(cfg, stage, rows, devices, claims, now, ids, claimant, g, gateways[g].stage, gateways[g].batch[i]);
    }
  }

  lemma NewBatchOk(cfg: Config, s: System, g: Owner, locked: set<CommandId>, chosen: seq<CommandId>)
    requires Commands.ValidConfig(cfg) && Shape(cfg, s.db.rows, s.db.devices, s.now) && ClaimEnabled(cfg, s, g, locked, chosen)
    ensures var t := AfterClaim(cfg, s, g, chosen, true);
            GatewayOk(t.db.rows, t.past.claims, t.now, g, t.gateways[g])
  {
    var t := AfterClaim(cfg, s, g, chosen, true);
    var stage := s.gateways[g].stage;
    var batch := t.gateways[g].batch;
    assert |batch| == |chosen|;
    forall i | 0 <= i < |batch|
      ensures batch[i].item.commandId == chosen[i]
      ensures HeldOk(t.db.rows, t.past.claims, t.now, g, stage, batch[i])
    {
      assert chosen[i] in Elements(chosen);
      ClaimedRow(cfg, stage, s.db.rows[chosen[i]], g, s.now);
    }
  }

  lemma FencedClaim(cfg: Config, s: System, g: Owner, locked: set<CommandId>, chosen: seq<CommandId>, seen: bool)
    requires Commands.ValidConfig(cfg) && Shape(cfg, s.db.rows, s.db.devices, s.now)
    requires Fenced(s.db.rows, s.past.claims, s.now, s.gateways) && ClaimEnabled(cfg, s, g, locked, chosen)
    ensures var t := AfterClaim(cfg, s, g, chosen, seen);
            Fenced(t.db.rows, t.past.claims, t.now, t.gateways)
  {
    var t := AfterClaim(cfg, s, g, chosen, seen);
    var stage := s.gateways[g].stage;
    FencedUnderClaim(cfg, stage, s.db.rows, s.db.devices, s.past.claims, s.now, Elements(chosen), g, s.gateways);
    assert t.db.rows == ClaimRows(cfg, stage, s.db.rows, Elements(chosen), g, s.now);
    assert t.past.claims == s.past.claims + multiset(Elements(chosen));
    if seen {
      NewBatchOk(cfg, s, g, locked, chosen);
    }
    forall o | o in t.gateways ensures GatewayOk(t.db.rows, t.past.claims, t.now, o, t.gateways[o]) {
      if o != g { assert o in s.gateways - {g}; }
    }
  }

  /** A change that leaves claims alone, and touches the owner of no row that `g` holds
      other than `skip`, keeps what `g` holds. */
  lemma HeldFrame(rows: Rows, rows': Rows, claims: Count, now: Time, now': Time, g: Owner, stage: Stage, h: Held)
    requires HeldOk(rows, claims, now, g, stage, h) && now <= now'
    requires var c := h.item.commandId;
             && c in rows'
             && RowGrows(rows[c], rows'[c]) && rows'[c].publishAttempts == rows[c].publishAttempts
             && (rows[c].dispatchOwner == Some(g) ==>
                 && rows'[c].dispatchOwner == Some(g) && rows'[c].leaseUntil == rows[c].leaseUntil
                 && (rows'[c].status == rows[c].status || Terminal(rows'[c].status)))
             && (rows[c].dispatchOwner != Some(g) ==> rows'[c].dispatchOwner != Some(g))
    ensures HeldOk(rows', claims, now', g, stage, h)
  {
  }

  /** A mark releases only a row its own gateway still holds. */
  lemma FencedMark(cfg: Config, s: System, g: Owner, wall: Time)
    requires Commands.ValidConfig(cfg) && Shape(cfg, s.db.rows, s.db.devices, s.now)
    requires Fenced(s.db.rows, s.past.claims, s.now, s.gateways) && Enabled(cfg, s, Mark(g, wall))
    ensures var t := AfterMark(cfg, s, g, wall);
            Fenced(t.db.rows, t.past.claims, t.now, t.gateways)
  {
    var gw := s.gateways[g];
    var head := gw.batch[0];
    assert GatewayOk(s.db.rows, s.past.claims, s.now, g, gw);
    assert HeldOk(s.db.rows, s.past.claims, s.now, g, gw.stage, head);
    MarkedRow(cfg, s.db, gw.stage, gw.outcome, head.item, g, s.now, wall);
    var t := AfterMark(cfg, s, g, wall);
    forall o | o in t.gateways ensures GatewayOk(t.db.rows, t.past.claims, t.now, o, t.gateways[o]) {
      assert GatewayOk(s.db.rows, s.past.claims, s.now, o, s.gateways[o]);
      forall i | 0 <= i < |t.gateways[o].batch|
        ensures HeldOk(t.db.rows, t.past.claims, t.now, o, t.gateways[o].stage, t.gateways[o].batch[i])
      {
        var h := t.gateways[o].batch[i];
        if o == g {
          assert h == gw.batch[i + 1];
          assert h.item.commandId != head.item.commandId;
        }
        HeldFrame(s.db.rows, t.db.rows, s.past.claims, s.now, t.now, o, t.gateways[o].stage, h);
      }
    }
  }

  lemma FencedSettle(cfg: Config, db: CommandDb, claims: Count, now: Time, gateways: map<Owner, Gateway>, r: CommandResult)
    requires Commands.ValidConfig(cfg) && Shape(cfg, db.rows, db.devices, now) && Fenced(db.rows, claims, now, gateways)
    requires Known(db.rows, r) && (r.success ==> r.state.Some?)
    ensures var a := ApplyCommandResult(db, r);
            a.Ok? && Fenced(a.value.rows, claims, now, gateways)
  {
    SettledRow(cfg, db, r, now);
    var rows' := ApplyCommandResult(db, r).value.rows;
    forall o | o in gateways ensures GatewayOk(rows', claims, now, o, gateways[o]) {
      assert GatewayOk(db.rows, claims, now, o, gateways[o]);
      forall i | 0 <= i < |gateways[o].batch|
        ensures HeldOk(rows', claims, now, o, gateways[o].stage, gateways[o].batch[i])
      {
        HeldFrame(db.rows, rows', claims, now, now, o, gateways[o].stage, gateways[o].batch[i]);
      }
    }
  }

  /** Gateways that stay where they are, move along their batch, or drop it. */
  lemma FencedFrame(rows: Rows, rows': Rows, claims: Count, now: Time, now': Time, gateways: map<Owner, Gateway>, gateways': map<Owner, Gateway>)
    requires Fenced(rows, claims, now, gateways) && now <= now'
    requires forall c :: c in rows ==> c in rows' && rows'[c] == rows[c]
    requires forall g :: g in gateways' ==>
      || gateways'[g].batch == []
      || (g in gateways && gateways'[g].claimed && gateways'[g].stage == gateways[g].stage && gateways[g].batch != []
          && (gateways'[g].batch == gateways[g].batch || gateways'[g].batch == gateways[g].batch[1..]))
    ensures Fenced(rows', claims, now', gateways')
  {
    forall o | o in gateways' ensures GatewayOk(rows', claims, now', o, gateways'[o]) {
      var batch' := gateways'[o].batch;
      if batch' != [] {
        var batch := gateways[o].batch;
        assert GatewayOk(rows, claims, now, o, gateways[o]);
        forall j | 0 <= j < |batch'|
          ensures HeldOk(rows', claims, now', o, gateways'[o].stage, batch'[j])
        {
          assert batch'[j] == batch[if batch' == batch then j else j + 1];
          HeldFrame(rows, rows', claims, now, now', o, gateways[o].stage, batch'[j]);
        }
      }
    }
  }

  // ---- Accounting under each kind of change -------------------------------------------------------------

  lemma AccountedClaim(cfg: Config, stage: Stage, rows: Rows, devices: map<string, Device>, events: Events, reclaims: Count, now: Time, ids: set<CommandId>, g: Owner)
    requires Commands.ValidConfig(cfg) && Shape(cfg, rows, devices, now) && ClaimMade(cfg, stage, rows, now, ids)
    requires Accounted(cfg, rows, events, reclaims)
    ensures var again := set c | c in ids && c in rows && stage.DispatchStage? && rows[c].status.Publishing?;
            Accounted(cfg, ClaimRows(cfg, stage, rows, ids, g, now), events, reclaims + multiset(again))
  {
    forall c | c in ids
      ensures !Terminal(rows[c].status)
      ensures var t := ClaimRow(cfg, stage, rows[c], g, now);
              && rows[c].publishAttempts <= t.publishAttempts
              && (t.status.Publishing? ==> t.publishAttempts == rows[c].publishAttempts + 1)
    {
      ClaimedRow(cfg, stage, rows[c], g, now);
      assert RowOk(cfg, rows[c]);
    }
  }

  lemma AccountedMark(cfg: Config, db: CommandDb, reclaims: Count, stage: Stage, outcome: Outcome, item: PendingCommand, g: Owner, now: Time, wall: Time)
    requires Commands.ValidConfig(cfg) && item.publishAttempts >= 1 && wall <= now + cfg.skew
    requires item.commandId in db.rows
    requires RowOk(cfg, db.rows[item.commandId]) && RowTimely(cfg, db.rows[item.commandId], now)
    requires db.rows[item.commandId].dispatchOwner == Some(g) ==> item.publishAttempts == db.rows[item.commandId].publishAttempts
    requires Accounted(cfg, db.rows, db.events, reclaims)
    ensures var m := MarkHead(cfg, db, stage, outcome, item, g, now, wall);
            m.Some? ==> Accounted(cfg, m.value.rows, m.value.events, reclaims)
  {
    MarkedRow(cfg, db, stage, outcome, item, g, now, wall);
  }

  lemma AccountedSettle(cfg: Config, db: CommandDb, reclaims: Count, r: CommandResult, now: Time)
    requires Commands.ValidConfig(cfg) && Shape(cfg, db.rows, db.devices, now) && Accounted(cfg, db.rows, db.events, reclaims)
    requires Known(db.rows, r) && (r.success ==> r.state.Some?)
    ensures var a := ApplyCommandResult(db, r);
            a.Ok? && Accounted(cfg, a.value.rows, a.value.events, reclaims)
  {
    SettledRow(cfg, db, r, now);
  }

  // ---- Settlement under each kind of change ------------------------------------------------------------

  lemma SettledClaim(cfg: Config, stage: Stage, rows: Rows, devices: map<string, Device>, events: Events, shadowed: set<EventKey>, writes: Count, now: Time, ids: set<CommandId>, g: Owner)
    requires Commands.ValidConfig(cfg) && Shape(cfg, rows, devices, now) && ClaimMade(cfg, stage, rows, now, ids)
    requires SettledOnce(rows, events, shadowed, writes)
    ensures SettledOnce(ClaimRows(cfg, stage, rows, ids, g, now), events, shadowed, writes)
  {
    forall c | c in ids
      ensures !Terminal(rows[c].status) && !Terminal(ClaimRow(cfg, stage, rows[c], g, now).status)
    {
      ClaimedRow(cfg, stage, rows[c], g, now);
    }
  }

  lemma SettledMark(cfg: Config, db: CommandDb, writes: Count, stage: Stage, outcome: Outcome, item: PendingCommand, g: Owner, now: Time, wall: Time)
    requires Commands.ValidConfig(cfg) && item.publishAttempts >= 1 && wall <= now + cfg.skew
    requires item.commandId in db.rows
    requires RowOk(cfg, db.rows[item.commandId]) && RowTimely(cfg, db.rows[item.commandId], now)
    requires db.rows[item.commandId].dispatchOwner == Some(g) ==> item.publishAttempts == db.rows[item.commandId].publishAttempts
    requires SettledOnce(db.rows, db.events, db.shadowed, writes)
    ensures var m := MarkHead(cfg, db, stage, outcome, item, g, now, wall);
            m.Some? ==> SettledOnce(m.value.rows, m.value.events, m.value.shadowed, writes)
  {
    MarkedRow(cfg, db, stage, outcome, item, g, now, wall);
  }

  /** Adding the terminal event of a row that becomes terminal. */
  lemma SettledWith(rows: Rows, events: Events, shadowed: set<EventKey>, events': Events, shadowed': set<EventKey>, c: CommandId, t: Row)
    requires EventsSettled(rows, events, shadowed) && c in rows && !Terminal(rows[c].status)
    requires Terminal(t.status) && t.result.Some? && t.result.value.success == t.status.Succeeded?
    requires forall j :: j != TerminalOf(c) ==> (j in events' <==> j in events) && (j in shadowed' <==> j in shadowed)
    requires forall j :: j in events ==> j in events' && events'[j] == events[j]
    requires if TerminalOf(c) in events' then events'[TerminalOf(c)] == SettledEvent(t) && TerminalOf(c) !in shadowed'
             else TerminalOf(c) in shadowed'
    ensures EventsSettled(rows[c := t], events', shadowed')
  {
  }

  lemma SettledAt(rows: Rows, events: Events, shadowed: set<EventKey>, writes: Count, c: CommandId, t: Row)
    requires SettledOnce(rows, events, shadowed, writes) && c in rows && !Terminal(rows[c].status)
    requires Terminal(t.status) && t.result.Some? && t.result.value.success == t.status.Succeeded?
    ensures SettledOnce(rows[c := t], PutEvent(events, TerminalOf(c), SettledEvent(t)), Shade(events, shadowed, TerminalOf(c)),
                        if t.status.Succeeded? then writes + multiset{c} else writes)
  {
    PutFrame(events, shadowed, TerminalOf(c), SettledEvent(t));
    assert TerminalOf(c) !in events && TerminalOf(c) !in shadowed;
    SettledWith(rows, events, shadowed, PutEvent(events, TerminalOf(c), SettledEvent(t)), Shade(events, shadowed, TerminalOf(c)), c, t);
  }

  lemma SettledSettle(cfg: Config, db: CommandDb, writes: Count, r: CommandResult, now: Time)
    requires Commands.ValidConfig(cfg) && Shape(cfg, db.rows, db.devices, now) && SettledOnce(db.rows, db.events, db.shadowed, writes)
    requires Known(db.rows, r) && (r.success ==> r.state.Some?)
    ensures var a := ApplyCommandResult(db, r);
            && a.Ok?
            && SettledOnce(a.value.rows, a.value.events, a.value.shadowed,
                 if !Terminal(db.rows[r.commandId].status) && r.success then writes + multiset{r.commandId} else writes)
  {
    SettledRow(cfg, db, r, now);
    var c := r.commandId;
    if !Terminal(db.rows[c].status) {
      var t := ApplyCommandResult(db, r).value.rows[c];
      assert SettledEvent(t) == TerminalEvent(t.payload, r);
      SettledAt(db.rows, db.events, db.shadowed, writes, c, t);
    }
  }

  // ---- The device ----------------------------------------------------------------------------------

  lemma IssuedGrow(results: Answers, lifetime: nat, issued: Issued, answers: set<CommandResult>, executions: Executions, c: CommandId, r: CommandResult)
    requires IssuedOk(results, lifetime, issued, answers, executions)
    requires c !in results && r.commandId == c && (lifetime, c) !in executions
    ensures IssuedOk(results[c := r], lifetime, issued + {(lifetime, r)}, answers + {r},
                     if r.success then executions + multiset{(lifetime, c)} else executions)
  {
    var executions' := if r.success then executions + multiset{(lifetime, c)} else executions;
    forall l, q | (l, q) in issued
      ensures executions'[(l, q.commandId)] == executions[(l, q.commandId)]
    {
      assert (l, q.commandId) != (lifetime, c);
    }
  }

  lemma OneAnswerGrow(results: Answers, lifetime: nat, issued: Issued, answers: set<CommandResult>, executions: Executions, c: CommandId, r: CommandResult)
    requires IssuedOk(results, lifetime, issued, answers, executions) && OneAnswer(issued)
    requires c !in results && r.commandId == c
    ensures OneAnswer(issued + {(lifetime, r)})
  {
    assert forall q :: (lifetime, q) in issued ==> q.commandId != c;
  }

  lemma CacheGrow(results: Answers, lifetime: nat, issued: Issued, c: CommandId, r: CommandResult)
    requires CacheIssued(results, lifetime, issued) && r.commandId == c
    ensures CacheIssued(results[c := r], lifetime, issued + {(lifetime, r)})
  {
  }

  lemma ExecutedGrow(results: Answers, lifetime: nat, executions: Executions, c: CommandId, r: CommandResult)
    requires ExecutedOnce(results, lifetime, executions) && c !in results
    ensures ExecutedOnce(results[c := r], lifetime, executions + multiset{(lifetime, c)})
    ensures ExecutedOnce(results[c := r], lifetime, executions)
    ensures (lifetime, c) !in executions
  {
  }

  /** Answering a command for the first time in this life, having executed it on success. */
  lemma FirstAnswerHistory(results: Answers, lifetime: nat, issued: Issued, answers: set<CommandResult>, executions: Executions, reached: Reached,
                           c: CommandId, r: CommandResult)
    requires DeviceHistory(results, lifetime, issued, answers, executions, reached)
    requires c !in results && r.commandId == c && r.publishAttempts.None? && (r.success ==> r.state.Some?)
    ensures DeviceHistory(results[c := r], lifetime, issued + {(lifetime, r)}, answers + {r},
              if r.success then executions + multiset{(lifetime, c)} else executions,
              if r.success then reached + {(r.deviceId, r.state.value)} else reached)
  {
    var issued' := issued + {(lifetime, r)};
    var executions' := if r.success then executions + multiset{(lifetime, c)} else executions;
    var reached' := if r.success then reached + {(r.deviceId, r.state.value)} else reached;
    ExecutedGrow(results, lifetime, executions, c, r);
    IssuedGrow(results, lifetime, issued, answers, executions, c, r);
    OneAnswerGrow(results, lifetime, issued, answers, executions, c, r);
    CacheGrow(results, lifetime, issued, c, r);
    AnswersGrow(answers, issued, reached, answers + {r}, issued', reached', lifetime, r);
  }

  lemma AnswersGrow(answers: set<CommandResult>, issued: Issued, reached: Reached, answers': set<CommandResult>, issued': Issued, reached': Reached, l: nat, r: CommandResult)
    requires AnswersOk(answers, issued, reached)
    requires answers' == answers + {r} && issued' == issued + {(l, r)} && reached <= reached'
    requires r.publishAttempts.None? && (r.success ==> r.state.Some? && (r.deviceId, r.state.value) in reached')
    ensures AnswersOk(answers', issued', reached')
  {
    forall q | q in answers' ensures exists k :: (k, q) in issued' {
      if q in answers {
        var k :| (k, q) in issued;
        assert (k, q) in issued';
      } else {
        assert (l, q) in issued';
      }
    }
  }

  lemma RestartHistory(results: Answers, lifetime: nat, issued: Issued, answers: set<CommandResult>, executions: Executions, reached: Reached)
    requires DeviceHistory(results, lifetime, issued, answers, executions, reached)
    ensures DeviceHistory(map[], lifetime + 1, issued, answers, executions, reached)
  {
  }

  /** What one delivery changes: nothing, a repeated answer, or a first answer. */
  lemma Delivered(s: System, command: Command, injected: bool, at: Time)
    ensures var t := AfterDeliver(s, command, injected, at);
            var c := command.commandId;
            if !Sim.Accepts(s.device, command.deviceId, Sim.Message("command.v1", command)) then t == s
            else if c in s.device.results then
              var r := s.device.results[c];
              t == s.(acks := s.acks + {r}, past := s.past.(issued := s.past.issued + {(s.lifetime, r)}, answers := s.past.answers + {r}))
            else
              var r := Sim.FirstAnswer(s.device, command, injected, at);
              && r.commandId == c && r.deviceId == command.deviceId && r.publishAttempts.None? && (r.success ==> r.state.Some?)
              && t == s.(acks := s.acks + {r}, device := t.device,
                         past := s.past.(issued := s.past.issued + {(s.lifetime, r)}, answers := s.past.answers + {r},
                                         executions := if r.success then s.past.executions + multiset{(s.lifetime, c)} else s.past.executions,
                                         reached := if r.success then s.past.reached + {(r.deviceId, r.state.value)} else s.past.reached))
              && t.device.results == s.device.results[c := r]
  {
  }

  lemma AnsweredCarried(rows: Rows, broker: set<Command>, answers: set<CommandResult>, acks: set<CommandResult>, log: seq<CommandResult>, r: CommandResult)
    requires Carried(rows, broker, answers, acks, log) && Known(rows, r)
    ensures Carried(rows, broker, answers + {r}, acks + {r}, log)
  {
    forall q | Credible(rows, answers, q) ensures Credible(rows, answers + {r}, q) {
    }
  }

  lemma DeliverHistory(s: System, command: Command, injected: bool, at: Time)
    requires DeviceHistory(s.device.results, s.lifetime, s.past.issued, s.past.answers, s.past.executions, s.past.reached)
    ensures var t := AfterDeliver(s, command, injected, at);
            DeviceHistory(t.device.results, t.lifetime, t.past.issued, t.past.answers, t.past.executions, t.past.reached)
  {
    Delivered(s, command, injected, at);
    var c := command.commandId;
    if Sim.Accepts(s.device, command.deviceId, Sim.Message("command.v1", command)) {
      if c in s.device.results {
        var r := s.device.results[c];
        assert s.past.issued + {(s.lifetime, r)} == s.past.issued;
        assert s.past.answers + {r} == s.past.answers;
      } else {
        var r := Sim.FirstAnswer(s.device, command, injected, at);
        FirstAnswerHistory(s.device.results, s.lifetime, s.past.issued, s.past.answers, s.past.executions, s.past.reached, c, r);
      }
    }
  }

  lemma DeliverCarried(s: System, command: Command, injected: bool, at: Time)
    requires DeviceHistory(s.device.results, s.lifetime, s.past.issued, s.past.answers, s.past.executions, s.past.reached)
    requires Carried(s.db.rows, s.broker, s.past.answers, s.acks, s.log) && command in s.broker
    ensures var t := AfterDeliver(s, command, injected, at);
            Carried(t.db.rows, t.broker, t.past.answers, t.acks, t.log)
  {
    Delivered(s, command, injected, at);
    var c := command.commandId;
    if Sim.Accepts(s.device, command.deviceId, Sim.Message("command.v1", command)) {
      var r := if c in s.device.results then s.device.results[c] else Sim.FirstAnswer(s.device, command, injected, at);
      assert c in s.device.results ==> (s.lifetime, r) in s.past.issued;
      AnsweredCarried(s.db.rows, s.broker, s.past.answers, s.acks, s.log, r);
    }
  }

  lemma DeliverFrame(s: System, command: Command, injected: bool, at: Time)
    ensures var t := AfterDeliver(s, command, injected, at);
            && t.db == s.db && t.now == s.now && t.gateways == s.gateways && t.lifetime == s.lifetime
            && t.past.claims == s.past.claims && t.past.reclaims == s.past.reclaims && t.past.writes == s.past.writes
            && t.past.seeded == s.past.seeded && s.past.answers <= t.past.answers && s.past.reached <= t.past.reached
  {
  }

  lemma BackedMore(rows: Rows, devices: map<string, Device>, seeded: map<string, Device>,
                   answers: set<CommandResult>, reached: Reached, answers': set<CommandResult>, reached': Reached)
    requires Backed(rows, devices, seeded, answers, reached) && answers <= answers' && reached <= reached'
    ensures Backed(rows, devices, seeded, answers', reached')
  {
  }

  lemma DeliverInv(cfg: Config, s: System, command: Command, injected: bool, at: Time)
    requires Commands.ValidConfig(cfg) && Inv(cfg, s) && command in s.broker
    ensures Inv(cfg, AfterDeliver(s, command, injected, at))
  {
    var t := AfterDeliver(s, command, injected, at);
    DeliverFrame(s, command, injected, at);
    DeliverHistory(s, command, injected, at);
    DeliverCarried(s, command, injected, at);
    BackedMore(s.db.rows, s.db.devices, s.past.seeded, s.past.answers, s.past.reached, t.past.answers, t.past.reached);
  }

  lemma SettleBacked(cfg: Config, db: CommandDb, now: Time, r: CommandResult, seeded: map<string, Device>, answers: set<CommandResult>, reached: Reached)
    requires Commands.ValidConfig(cfg) && Shape(cfg, db.rows, db.devices, now) && Backed(db.rows, db.devices, seeded, answers, reached)
    requires Known(db.rows, r) && (r.success ==> r.state.Some? && r in answers && (r.deviceId, r.state.value) in reached)
    ensures var a := ApplyCommandResult(db, r);
            a.Ok? && Backed(a.value.rows, a.value.devices, seeded, answers, reached)
  {
    SettledRow(cfg, db, r, now);
  }

  // ---- Every step keeps the invariant ------------------------------------------------------------------

  lemma ClaimInv(cfg: Config, s: System, g: Owner, locked: set<CommandId>, chosen: seq<CommandId>, seen: bool)
    requires Commands.ValidConfig(cfg) && Inv(cfg, s) && ClaimEnabled(cfg, s, g, locked, chosen)
    ensures Inv(cfg, AfterClaim(cfg, s, g, chosen, seen))
  {
    var stage, ids := s.gateways[g].stage, Elements(chosen);
    var rows' := ClaimRows(cfg, stage, s.db.rows, ids, g, s.now);
    assert ClaimMade(cfg, stage, s.db.rows, s.now, ids);
    ClaimKeepsRows(cfg, stage, s.db.rows, s.db.devices, s.now, ids, g);
    FencedClaim(cfg, s, g, locked, chosen, seen);
    AccountedClaim(cfg, stage, s.db.rows, s.db.devices, s.db.events, s.past.reclaims, s.now, ids, g);
    SettledClaim(cfg, stage, s.db.rows, s.db.devices, s.db.events, s.db.shadowed, s.past.writes, s.now, ids, g);
    CarriedGrows(s.db.rows, rows', s.broker, s.past.answers, s.acks, s.log);
    var t := AfterClaim(cfg, s, g, chosen, seen);
    ClaimSettlesNothing(cfg, stage, s.db.rows, s.db.devices, s.now, ids, g);
    BackedGrows(s.db.rows, rows', s.db.devices, s.past.seeded, s.past.answers, s.past.reached);
  }

  lemma ClaimSettlesNothing(cfg: Config, stage: Stage, rows: Rows, devices: map<string, Device>, now: Time, ids: set<CommandId>, g: Owner)
    requires Commands.ValidConfig(cfg) && Shape(cfg, rows, devices, now) && ClaimMade(cfg, stage, rows, now, ids)
    ensures forall c :: c in rows && ClaimRows(cfg, stage, rows, ids, g, now)[c].status.Succeeded? ==> rows[c].status.Succeeded?
  {
    forall c | c in ids ensures !ClaimRow(cfg, stage, rows[c], g, now).status.Succeeded? {
      ClaimedRow(cfg, stage, rows[c], g, now);
    }
  }

  lemma MarkKeepsRows(cfg: Config, db: CommandDb, stage: Stage, outcome: Outcome, item: PendingCommand, g: Owner, now: Time, wall: Time)
    requires Commands.ValidConfig(cfg) && item.publishAttempts >= 1 && wall <= now + cfg.skew
    requires Shape(cfg, db.rows, db.devices, now) && item.commandId in db.rows
    requires db.rows[item.commandId].dispatchOwner == Some(g) ==> item.publishAttempts == db.rows[item.commandId].publishAttempts
    ensures var m := MarkHead(cfg, db, stage, outcome, item, g, now, wall);
            m.Some? ==>
              && m.value.devices == db.devices
              && Shape(cfg, m.value.rows, db.devices, now)
              && RowsGrow(db.rows, m.value.rows)
              && forall c :: c in m.value.rows && m.value.rows[c].status.Succeeded? ==> c in db.rows && db.rows[c].status.Succeeded?
  {
    MarkedRow(cfg, db, stage, outcome, item, g, now, wall);
  }

  lemma MarkKeepsUnique(cfg: Config, db: CommandDb, stage: Stage, outcome: Outcome, item: PendingCommand, g: Owner, now: Time, wall: Time)
    requires item.publishAttempts >= 1 && UniqueIds(db.events)
    ensures var m := MarkHead(cfg, db, stage, outcome, item, g, now, wall); m.Some? ==> UniqueIds(m.value.events)
  {
    forall e {
      PutKeepsUnique(db.events, RetryOf(item.commandId, item.publishAttempts), e);
    }
  }

  lemma MarkInv(cfg: Config, s: System, g: Owner, wall: Time)
    requires Commands.ValidConfig(cfg) && Inv(cfg, s) && Enabled(cfg, s, Mark(g, wall))
    ensures Inv(cfg, AfterMark(cfg, s, g, wall))
  {
    var gw := s.gateways[g];
    var item := gw.batch[0].item;
    assert GatewayOk(s.db.rows, s.past.claims, s.now, g, gw);
    assert HeldOk(s.db.rows, s.past.claims, s.now, g, gw.stage, gw.batch[0]);
    FencedMark(cfg, s, g, wall);
    MarkKeepsRows(cfg, s.db, gw.stage, gw.outcome, item, g, s.now, wall);
    MarkKeepsUnique(cfg, s.db, gw.stage, gw.outcome, item, g, s.now, wall);
    AccountedMark(cfg, s.db, s.past.reclaims, gw.stage, gw.outcome, item, g, s.now, wall);
    SettledMark(cfg, s.db, s.past.writes, gw.stage, gw.outcome, item, g, s.now, wall);
    var m := MarkHead(cfg, s.db, gw.stage, gw.outcome, item, g, s.now, wall);
    if m.Some? {
      CarriedGrows(s.db.rows, m.value.rows, s.broker, s.past.answers, s.acks, s.log);
      BackedGrows(s.db.rows, m.value.rows, s.db.devices, s.past.seeded, s.past.answers, s.past.reached);
    }
  }

  lemma SettleKeepsRows(cfg: Config, db: CommandDb, now: Time, r: CommandResult)
    requires Commands.ValidConfig(cfg) && Shape(cfg, db.rows, db.devices, now)
    requires Known(db.rows, r) && (r.success ==> r.state.Some?)
    ensures var a := ApplyCommandResult(db, r);
            a.Ok? && RowsGrow(db.rows, a.value.rows) && Shape(cfg, a.value.rows, a.value.devices, now)
  {
    SettledRow(cfg, db, r, now);
  }

  lemma SettleKeepsUnique(db: CommandDb, r: CommandResult)
    requires UniqueIds(db.events)
    ensures var a := ApplyCommandResult(db, r); a.Ok? ==> UniqueIds(a.value.events)
  {
    forall e {
      PutKeepsUnique(db.events, TerminalOf(r.commandId), e);
    }
  }

  lemma SettleInv(cfg: Config, s: System, i: nat)
    requires Commands.ValidConfig(cfg) && Inv(cfg, s) && i < |s.log|
    ensures Inv(cfg, AfterSettle(s, i))
  {
    var r := s.log[i];
    assert Credible(s.db.rows, s.past.answers, r);
    FencedSettle(cfg, s.db, s.past.claims, s.now, s.gateways, r);
    AccountedSettle(cfg, s.db, s.past.reclaims, r, s.now);
    SettledSettle(cfg, s.db, s.past.writes, r, s.now);
    SettleKeepsUnique(s.db, r);
    var t := AfterSettle(s, i);
    SettleBacked(cfg, s.db, s.now, r, s.past.seeded, s.past.answers, s.past.reached);
    SettleKeepsRows(cfg, s.db, s.now, r);
    CarriedGrows(s.db.rows, t.db.rows, s.broker, s.past.answers, s.acks, s.log);
  }

  lemma CreateKeepsRows(cfg: Config, db: CommandDb, now: Time, payload: Command, at: Time)
    requires Commands.ValidConfig(cfg) && Shape(cfg, db.rows, db.devices, now)
    requires payload.deviceId in db.devices && WellFormedCommand(payload.commandId)
    ensures var t := CreateCommand(db, payload.deviceId, payload, at);
            && Shape(cfg, t.rows, t.devices, now) && RowsGrow(db.rows, t.rows) && t.devices == db.devices
            && forall c :: c in t.rows && t.rows[c].status.Succeeded? ==> c in db.rows && db.rows[c].status.Succeeded?
  {
    assert RowOk(cfg, NewRow(payload.deviceId, payload, at));
  }

  lemma CreateInv(cfg: Config, s: System, payload: Command, at: Time)
    requires Commands.ValidConfig(cfg) && Inv(cfg, s) && payload.deviceId in s.db.devices && WellFormedCommand(payload.commandId)
    ensures Inv(cfg, s.(db := CreateCommand(s.db, payload.deviceId, payload, at)))
  {
    var rows' := CreateCommand(s.db, payload.deviceId, payload, at).rows;
    CreateKeepsRows(cfg, s.db, s.now, payload, at);
    PutKeepsUnique(s.db.events, PendingOf(payload.commandId), PendingEvent(payload, payload.deviceId, at));
    FencedFrame(s.db.rows, rows', s.past.claims, s.now, s.now, s.gateways, s.gateways);
    CarriedGrows(s.db.rows, rows', s.broker, s.past.answers, s.acks, s.log);
    CreateSettled(s.db, s.past.writes, payload, at);
    CreateAccounted(cfg, s.db, s.past.reclaims, payload, at);
    BackedGrows(s.db.rows, rows', s.db.devices, s.past.seeded, s.past.answers, s.past.reached);
  }

  lemma CreateAccounted(cfg: Config, db: CommandDb, reclaims: Count, payload: Command, at: Time)
    requires Accounted(cfg, db.rows, db.events, reclaims)
    ensures var t := CreateCommand(db, payload.deviceId, payload, at);
            Accounted(cfg, t.rows, t.events, reclaims)
  {
  }

  lemma CreateSettled(db: CommandDb, writes: Count, payload: Command, at: Time)
    requires SettledOnce(db.rows, db.events, db.shadowed, writes)
    ensures var t := CreateCommand(db, payload.deviceId, payload, at);
            SettledOnce(t.rows, t.events, t.shadowed, writes)
  {
  }

  lemma ReportInv(cfg: Config, s: System, g: Owner, logged: bool, ok: bool, at: Time)
    requires Commands.ValidConfig(cfg) && Inv(cfg, s) && Enabled(cfg, s, Report(g, logged, ok, at))
    ensures Inv(cfg, AfterReport(s, g, logged, ok, at))
  {
    var t := AfterReport(s, g, logged, ok, at);
    var gw := s.gateways[g];
    assert GatewayOk(s.db.rows, s.past.claims, s.now, g, gw);
    assert HeldOk(s.db.rows, s.past.claims, s.now, g, gw.stage, gw.batch[0]);
    FencedFrame(s.db.rows, t.db.rows, s.past.claims, s.now, t.now, s.gateways, t.gateways);
    LogGrows(s.db.rows, s.broker, s.past.answers, s.acks, s.log, FailureReport(gw.stage, gw.batch[0].item, at));
  }

  lemma LogGrows(rows: Rows, broker: set<Command>, answers: set<CommandResult>, acks: set<CommandResult>, log: seq<CommandResult>, r: CommandResult)
    requires Carried(rows, broker, answers, acks, log) && Credible(rows, answers, r)
    ensures Carried(rows, broker, answers, acks, log + [r])
  {
  }

  lemma PublishInv(cfg: Config, s: System, g: Owner, reached: bool, ok: bool, error: string)
    requires Commands.ValidConfig(cfg) && Inv(cfg, s) && Enabled(cfg, s, Publish(g, reached, ok, error))
    ensures Inv(cfg, AfterPublish(s, g, reached, ok, error))
  {
    var t := AfterPublish(s, g, reached, ok, error);
    var gw := s.gateways[g];
    assert GatewayOk(s.db.rows, s.past.claims, s.now, g, gw);
    assert HeldOk(s.db.rows, s.past.claims, s.now, g, gw.stage, gw.batch[0]);
    FencedFrame(s.db.rows, t.db.rows, s.past.claims, s.now, t.now, s.gateways, t.gateways);
  }

  /** Starting or restarting a gateway, losing a mark, and ending a batch. */
  lemma GatewayInv(cfg: Config, s: System, step: Step)
    requires Commands.ValidConfig(cfg) && Inv(cfg, s) && Enabled(cfg, s, step)
    requires step.Start? || step.MarkFails? || step.EndBatch?
    ensures Inv(cfg, After(cfg, s, step))
  {
    var t := After(cfg, s, step);
    if step.MarkFails? {
      assert GatewayOk(s.db.rows, s.past.claims, s.now, step.g, s.gateways[step.g]);
    }
    FencedFrame(s.db.rows, t.db.rows, s.past.claims, s.now, t.now, s.gateways, t.gateways);
  }

  lemma AdvanceInv(cfg: Config, s: System, duration: nat)
    requires Commands.ValidConfig(cfg) && Inv(cfg, s)
    ensures Inv(cfg, s.(now := s.now + duration))
  {
    FencedFrame(s.db.rows, s.db.rows, s.past.claims, s.now, s.now + duration, s.gateways, s.gateways);
  }

  lemma AmbientInv(cfg: Config, s: System, events: Events, shadowed: set<EventKey>)
    requires Commands.ValidConfig(cfg) && Inv(cfg, s) && Enabled(cfg, s, Ambient(events, shadowed))
    ensures Inv(cfg, s.(db := s.db.(events := events, shadowed := shadowed)))
  {
    assert forall c :: IsCommandKey(TerminalOf(c)) && IsCommandKey(PendingOf(c));
  }

  lemma RestartInv(cfg: Config, s: System)
    requires Commands.ValidConfig(cfg) && Inv(cfg, s)
    ensures Inv(cfg, s.(device := Sim.Boot(), lifetime := s.lifetime + 1))
  {
    RestartHistory(s.device.results, s.lifetime, s.past.issued, s.past.answers, s.past.executions, s.past.reached);
  }

  lemma ForwardInv(cfg: Config, s: System, ack: CommandResult)
    requires Commands.ValidConfig(cfg) && Inv(cfg, s) && ack in s.acks
    ensures Inv(cfg, s.(log := s.log + [ack]))
  {
    LogGrows(s.db.rows, s.broker, s.past.answers, s.acks, s.log, ack);
  }

  predicate IsLoopStep(step: Step) {
    step.Start? || step.Claim? || step.ClaimUnseen? || step.Report? || step.Publish? || step.Mark? || step.MarkFails? || step.EndBatch?
  }

  lemma LoopStepInv(cfg: Config, s: System, step: Step)
    requires Commands.ValidConfig(cfg) && Inv(cfg, s) && Enabled(cfg, s, step) && IsLoopStep(step)
    ensures Inv(cfg, After(cfg, s, step))
  {
    match step {
      case Claim(g, locked, chosen) => ClaimInv(cfg, s, g, locked, chosen, true);
      case ClaimUnseen(g, locked, chosen) => ClaimInv(cfg, s, g, locked, chosen, false);
      case Report(g, logged, ok, at) => ReportInv(cfg, s, g, logged, ok, at);
      case Publish(g, reached, ok, error) => PublishInv(cfg, s, g, reached, ok, error);
      case Mark(g, wall) => MarkInv(cfg, s, g, wall);
      case _ => GatewayInv(cfg, s, step);
    }
  }

  lemma OutsideStepInv(cfg: Config, s: System, step: Step)
    requires Commands.ValidConfig(cfg) && Inv(cfg, s) && Enabled(cfg, s, step) && !IsLoopStep(step)
    ensures Inv(cfg, After(cfg, s, step))
  {
    match step {
      case Advance(duration) => AdvanceInv(cfg, s, duration);
      case Ambient(events, shadowed) => AmbientInv(cfg, s, events, shadowed);
      case Create(payload, at) => CreateInv(cfg, s, payload, at);
      case Deliver(command, injected, at) => DeliverInv(cfg, s, command, injected, at);
      case Restart => RestartInv(cfg, s);
      case Forward(ack) => ForwardInv(cfg, s, ack);
      case Settle(i) => SettleInv(cfg, s, i);
    }
  }

  /** Every step of every party keeps the invariant. */
  lemma StepInv(cfg: Config, s: System, step: Step)
    requires Commands.ValidConfig(cfg) && Inv(cfg, s) && Enabled(cfg, s, step)
    ensures Inv(cfg, After(cfg, s, step))
  {
    if IsLoopStep(step) {
      LoopStepInv(cfg, s, step);
    } else {
      OutsideStepInv(cfg, s, step);
    }
  }

  lemma MarkGrows(cfg: Config, s: System, g: Owner, wall: Time)
    requires Commands.ValidConfig(cfg) && Inv(cfg, s) && Enabled(cfg, s, Mark(g, wall))
    ensures RowsGrow(s.db.rows, AfterMark(cfg, s, g, wall).db.rows)
  {
    var gw := s.gateways[g];
    assert GatewayOk(s.db.rows, s.past.claims, s.now, g, gw);
    assert HeldOk(s.db.rows, s.past.claims, s.now, g, gw.stage, gw.batch[0]);
    MarkKeepsRows(cfg, s.db, gw.stage, gw.outcome, gw.batch[0].item, g, s.now, wall);
  }

  lemma SettleGrows(cfg: Config, s: System, i: nat)
    requires Commands.ValidConfig(cfg) && Inv(cfg, s) && i < |s.log|
    ensures RowsGrow(s.db.rows, AfterSettle(s, i).db.rows)
  {
    assert Credible(s.db.rows, s.past.answers, s.log[i]);
    SettleKeepsRows(cfg, s.db, s.now, s.log[i]);
  }

  lemma ClaimGrows(cfg: Config, s: System, g: Owner, locked: set<CommandId>, chosen: seq<CommandId>, seen: bool)
    requires Commands.ValidConfig(cfg) && Inv(cfg, s) && ClaimEnabled(cfg, s, g, locked, chosen)
    ensures RowsGrow(s.db.rows, AfterClaim(cfg, s, g, chosen, seen).db.rows)
  {
    assert ClaimMade(cfg, s.gateways[g].stage, s.db.rows, s.now, Elements(chosen));
    ClaimKeepsRows(cfg, s.gateways[g].stage, s.db.rows, s.db.devices, s.now, Elements(chosen), g);
  }

  lemma QuietGrows(cfg: Config, s: System, step: Step)
    requires Enabled(cfg, s, step)
    requires !step.Claim? && !step.ClaimUnseen? && !step.Mark? && !step.Settle?
    ensures RowsGrow(s.db.rows, After(cfg, s, step).db.rows)
  {
  }

  /** No step takes a row back. */
  lemma StepGrows(cfg: Config, s: System, step: Step)
    requires Commands.ValidConfig(cfg) && Inv(cfg, s) && Enabled(cfg, s, step)
    ensures RowsGrow(s.db.rows, After(cfg, s, step).db.rows)
  {
    match step {
      case Claim(g, locked, chosen) => ClaimGrows(cfg, s, g, locked, chosen, true);
      case ClaimUnseen(g, locked, chosen) => ClaimGrows(cfg, s, g, locked, chosen, false);
      case Mark(g, wall) => MarkGrows(cfg, s, g, wall);
      case Settle(i) => SettleGrows(cfg, s, i);
      case _ => QuietGrows(cfg, s, step);
    }
  }

  lemma {:induction false} RunInv(cfg: Config, s: System, steps: seq<Step>, t: System)
    requires Commands.ValidConfig(cfg) && Inv(cfg, s) && RunFrom(cfg, s, steps, t)
    ensures Inv(cfg, t)
    decreases |steps|
  {
    if steps != [] {
      StepInv(cfg, s, steps[0]);
      RunInv(cfg, After(cfg, s, steps[0]), steps[1..], t);
    }
  }

  lemma ReachableInv(cfg: Config, s: System)
    requires Commands.ValidConfig(cfg) && Reachable(cfg, s)
    ensures Inv(cfg, s)
  {
    var s0, steps :| Init(s0) && RunFrom(cfg, s0, steps, s);
    InitInv(cfg, s0);
    RunInv(cfg, s0, steps, s);
  }
}
