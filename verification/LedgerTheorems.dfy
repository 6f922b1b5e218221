/** What the ledger guarantees in every reachable state and over every run. */
module LedgerTheorems {
  import opened Prelude
  import opened Ids
  import opened Schema
  import opened Commands
  import opened Rules
  import opened Transactions
  import opened LedgerSafety

  // ---- At-most-once rule effect ------------------------------------------------------------------

  /** Under any redelivery, interleaving, crash between transactions and retention, a rule
      took effect on an event at most once: its audit row and its command exist exactly then.
      Its rule event and pending event exist exactly then too, except one whose id was taken
      when it was due; and only a telemetry id that was inserted can take it. */
  lemma AtMostOnceEffect(w: World, e: string, r: string)
    requires Reachable(w)
    ensures w.past.fired[(e, r)] <= 1
    ensures RuleMatchOf(e, r) in w.ledger.audits <==> w.past.fired[(e, r)] == 1
    ensures RuleCommand(e, r) in w.ledger.core.rows <==> w.past.fired[(e, r)] == 1
    ensures RuleEventOf(e, r) in w.ledger.core.events <==> w.past.fired[(e, r)] == 1 && RuleEventOf(e, r) !in w.ledger.core.shadowed
    ensures PendingOf(RuleCommand(e, r)) in w.ledger.core.events <==>
              w.past.fired[(e, r)] == 1 && PendingOf(RuleCommand(e, r)) !in w.ledger.core.shadowed
    ensures forall k :: k in w.ledger.core.shadowed && IsDerived(k) ==> EventText(k) in w.ledger.tombstones && Reserved(EventText(k))
  {
    ReachableInv(w);
    assert Traced(w.ledger.core.events, w.ledger.core.shadowed, RuleEventOf(e, r), RuleMatchOf(e, r) in w.ledger.audits);
    assert Traced(w.ledger.core.events, w.ledger.core.shadowed, PendingOf(RuleCommand(e, r)), RuleMatchOf(e, r) in w.ledger.audits);
    forall k | k in w.ledger.core.shadowed && IsDerived(k) ensures EventText(k) in w.ledger.tombstones && Reserved(EventText(k)) {
      DerivedIsReserved(k);
    }
  }

  /** The event has an id that some sensor has used for a reading. */
  predicate UsedAsTelemetryId(l: Ledger, k: EventKey) {
    EventText(k) in l.tombstones
  }

  /** All four traces exist or none does, for every event and rule of which neither derived id
      was ever used by a sensor. */
  lemma AllTracesOrNone(w: World, e: string, r: string)
    requires Reachable(w)
    requires !UsedAsTelemetryId(w.ledger, RuleEventOf(e, r)) && !UsedAsTelemetryId(w.ledger, PendingOf(RuleCommand(e, r)))
    ensures RuleMatchOf(e, r) in w.ledger.audits <==> w.past.fired[(e, r)] == 1
    ensures RuleEventOf(e, r) in w.ledger.core.events <==> w.past.fired[(e, r)] == 1
    ensures RuleCommand(e, r) in w.ledger.core.rows <==> w.past.fired[(e, r)] == 1
    ensures PendingOf(RuleCommand(e, r)) in w.ledger.core.events <==> w.past.fired[(e, r)] == 1
  {
    AtMostOnceEffect(w, e, r);
  }

  /** As long as no sensor uses a reserved id, no derived event is ever kept out. */
  lemma NothingShadowedIfUnreserved(w: World, k: EventKey)
    requires Reachable(w) && forall id :: id in w.ledger.tombstones ==> !Reserved(id)
    ensures IsDerived(k) ==> k !in w.ledger.core.shadowed
  {
    AtMostOnceEffect(w, "", "");
  }

  /** The ids of commands and audit rows never collide, whatever sensors send: comparing their
      text, as the unique keys do, is comparing the ids. */
  lemma CommandAndAuditIdsCompareByText(w: World, c: CommandId, a: AuditKey)
    requires Reachable(w) && WellFormedCommand(c) && WellFormedAudit(a)
    ensures c in w.ledger.core.rows <==> exists d :: d in w.ledger.core.rows && CommandText(d) == CommandText(c)
    ensures a in w.ledger.audits <==> exists b :: b in w.ledger.audits && AuditText(b) == AuditText(a)
  {
    ReachableInv(w);
    forall d | d in w.ledger.core.rows ensures CommandText(d) == CommandText(c) <==> d == c {
      CommandTextInjective(d, c);
    }
    forall b | b in w.ledger.audits ensures AuditText(b) == AuditText(a) <==> b == a {
      AuditTextInjective(b, a);
    }
  }

  /** The traces of a match never disappear and never change. */
  lemma TracesStay(w: World, steps: seq<Step>, t: World, e: string, r: string)
    requires Reachable(w) && RunFrom(w, steps, t) && RuleMatchOf(e, r) in w.ledger.audits
    ensures RuleMatchOf(e, r) in t.ledger.audits && t.ledger.audits[RuleMatchOf(e, r)] == w.ledger.audits[RuleMatchOf(e, r)]
    ensures RuleCommand(e, r) in w.ledger.core.rows && RuleCommand(e, r) in t.ledger.core.rows
    ensures t.ledger.core.rows[RuleCommand(e, r)].payload == w.ledger.core.rows[RuleCommand(e, r)].payload
    ensures RuleEventOf(e, r) in w.ledger.core.events ==>
              RuleEventOf(e, r) in t.ledger.core.events && t.ledger.core.events[RuleEventOf(e, r)] == w.ledger.core.events[RuleEventOf(e, r)]
    ensures RuleEventOf(e, r) in w.ledger.core.events || UsedAsTelemetryId(w.ledger, RuleEventOf(e, r))
  {
    AtMostOnceEffect(w, e, r);
    ReachableInv(w);
    RunKeeps(w, steps, t);
  }

  /** A pass commits exactly when the sensor is known and no rule that should fire meets an
      obstacle, and then it applies exactly the rules of the query that match, are not cooling
      down and were not applied before; it records matches for no other event or rule. */
  lemma PassAppliesExactlyTheMatches(l: Ledger, e: Telemetry, order: seq<string>, at: Time)
    requires RuleQuery(l.rules, e.sensorId, order) && forall r :: r in order ==> r in l.rules
    ensures ApplyRules(l, e, order, at).Ok? <==>
              Compatible(l.sensors, e) && forall r :: r in order && !Skipped(l, e, r, at) ==> Obstacle(l, r, at).None?
    ensures ApplyRules(l, e, order, at).Ok? ==>
              forall a :: a in ApplyRules(l, e, order, at).value.ledger.audits <==>
                a in l.audits || (a.RuleMatchOf? && a.eventId == e.eventId && a.ruleId in order && !Skipped(l, e, a.ruleId, at))
  {
    ExactPass(Pass(l, []), e, order, at);
  }

  lemma FireLeavesOthers(l: Ledger, e: Telemetry, r: string, o: string, at: Time)
    requires r in l.rules && o in l.rules && r != o
    ensures Skipped(Fire(l, e, r, at), e, o, at) == Skipped(l, e, o, at)
    ensures Obstacle(Fire(l, e, r, at), o, at) == Obstacle(l, o, at)
  {
  }

  lemma {:induction false} ExactPass(p: Pass, e: Telemetry, order: seq<string>, at: Time)
    requires Distinct(order) && forall r :: r in order ==> r in p.ledger.rules
    ensures PassRules(p, e, order, at).Ok? <==> forall r :: r in order && !Skipped(p.ledger, e, r, at) ==> Obstacle(p.ledger, r, at).None?
    ensures PassRules(p, e, order, at).Ok? ==>
              forall a :: a in PassRules(p, e, order, at).value.ledger.audits <==>
                a in p.ledger.audits || (a.RuleMatchOf? && a.eventId == e.eventId && a.ruleId in order && !Skipped(p.ledger, e, a.ruleId, at))
    decreases |order|
  {
    if order != [] {
      var r, rest := order[0], order[1..];
      assert order == [r] + rest;
      assert forall o :: o in order <==> o == r || o in rest;
      if Skipped(p.ledger, e, r, at) {
        ExactPass(p, e, rest, at);
      } else {
        var next := Pass(Fire(p.ledger, e, r, at), p.matched + [r]);
        forall o | o in rest
          ensures Skipped(next.ledger, e, o, at) == Skipped(p.ledger, e, o, at)
          ensures Obstacle(next.ledger, o, at) == Obstacle(p.ledger, o, at)
        {
          FireLeavesOthers(p.ledger, e, r, o, at);
        }
        ExactPass(next, e, rest, at);
      }
    }
  }

  // ---- Passing over an event again -----------------------------------------------------------------

  /** A pass leaves the rules it does not fire exactly as they are, and no rule's condition. */
  lemma {:induction false} UnfiredUntouched(p: Pass, e: Telemetry, order: seq<string>, at: Time, r: string)
    requires Distinct(order) && (forall o :: o in order ==> o in p.ledger.rules) && PassRules(p, e, order, at).Ok?
    requires r in p.ledger.rules
    ensures var q := PassRules(p, e, order, at).value.ledger;
      && q.rules.Keys == p.ledger.rules.Keys && q.sensors == p.ledger.sensors
      && q.rules[r].condition == p.ledger.rules[r].condition
      && (r !in order || Skipped(p.ledger, e, r, at) ==> q.rules[r] == p.ledger.rules[r])
    decreases |order|
  {
    if order != [] {
      var o, rest := order[0], order[1..];
      assert order == [o] + rest;
      if Skipped(p.ledger, e, o, at) {
        UnfiredUntouched(p, e, rest, at, r);
      } else {
        var next := Pass(Fire(p.ledger, e, o, at), p.matched + [o]);
        if r != o {
          FireLeavesOthers(p.ledger, e, o, r, at);
        }
        UnfiredUntouched(next, e, rest, at, r);
      }
    }
  }

  /** What a later pass over the same event may still do: after a committed pass at `at`, a
      rule of the query would fire at `later` exactly if it matched and was not applied before,
      but was cooling down at `at` and no longer is. */
  lemma LaterPassFiresOnlyCooled(l: Ledger, e: Telemetry, order: seq<string>, at: Time, later: Time, r: string)
    requires RuleQuery(l.rules, e.sensorId, order) && (forall o :: o in order ==> o in l.rules) && r in order
    requires ApplyRules(l, e, order, at).Ok?
    ensures var q := ApplyRules(l, e, order, at).value.ledger;
      && r in q.rules
      && (!Skipped(q, e, r, later) <==>
           && RuleMatchOf(e.eventId, r) !in l.audits && Satisfies(e.unit, e.value, l.rules[r].condition)
           && CoolingDown(l.rules[r], at) && !CoolingDown(l.rules[r], later))
  {
    MatchesIffSatisfies(l.rules[r].condition, e.unit, e.value);
    PassAppliesExactlyTheMatches(l, e, order, at);
    UnfiredUntouched(Pass(l, []), e, order, at, r);
    var q := ApplyRules(l, e, order, at).value.ledger;
    assert RuleMatchOf(e.eventId, r) in q.audits <==> RuleMatchOf(e.eventId, r) in l.audits || !Skipped(l, e, r, at);
  }

  /** Passing over the event a second time at the same moment changes nothing: the pass a
      duplicate delivery repeats after a crash is harmless. */
  lemma RepassIsIdle(l: Ledger, e: Telemetry, order: seq<string>, at: Time, again: seq<string>)
    requires RuleQuery(l.rules, e.sensorId, order) && (forall r :: r in order ==> r in l.rules) && ApplyRules(l, e, order, at).Ok?
    requires forall r :: r in again ==> r in order
    ensures var q := ApplyRules(l, e, order, at).value.ledger;
      (forall r :: r in again ==> r in q.rules) && ApplyRules(q, e, again, at) == Ok(Pass(q, []))
  {
    var q := ApplyRules(l, e, order, at).value.ledger;
    forall r | r in again ensures r in q.rules && Skipped(q, e, r, at) {
      LaterPassFiresOnlyCooled(l, e, order, at, at, r);
    }
    SensorsStay(l, e, order, at);
    IdleRules(Pass(q, []), e, again, at);
  }

  lemma SensorsStay(l: Ledger, e: Telemetry, order: seq<string>, at: Time)
    requires RuleQuery(l.rules, e.sensorId, order) && (forall r :: r in order ==> r in l.rules) && ApplyRules(l, e, order, at).Ok?
    ensures ApplyRules(l, e, order, at).value.ledger.sensors == l.sensors
  {
    if order != [] {
      UnfiredUntouched(Pass(l, []), e, order, at, order[0]);
    }
  }

  lemma {:induction false} IdleRules(p: Pass, e: Telemetry, order: seq<string>, at: Time)
    requires forall r :: r in order ==> r in p.ledger.rules && Skipped(p.ledger, e, r, at)
    ensures PassRules(p, e, order, at) == Ok(p)
    decreases |order|
  {
    if order != [] {
      assert order[0] in order && forall r :: r in order[1..] ==> r in order;
      IdleRules(p, e, order[1..], at);
    }
  }

  // ---- Cooldown ------------------------------------------------------------------------------------

  /** With clocks that disagree or jump, any two matches of one rule are still at least the
      cooldown of the later one apart. */
  lemma MatchesApart(w: World, i: nat, j: nat)
    requires Reachable(w) && i < j < |w.past.matches| && w.past.matches[i].ruleId == w.past.matches[j].ruleId
    ensures w.past.matches[i].at + w.past.matches[j].cooldownSeconds * SECOND <= w.past.matches[j].at
  {
    ReachableInv(w);
    assert Apart(w.past.matches, i, j);
  }

  /** Over any run a rule's clock never runs backwards. */
  lemma ClockNeverRunsBack(w: World, steps: seq<Step>, t: World, r: string)
    requires Reachable(w) && RunFrom(w, steps, t)
    requires r in w.ledger.rules && r in t.ledger.rules && w.ledger.rules[r].lastTriggeredAt.Some?
    ensures t.ledger.rules[r].lastTriggeredAt.Some?
    ensures w.ledger.rules[r].lastTriggeredAt.value <= t.ledger.rules[r].lastTriggeredAt.value
  {
    ReachableInv(w);
    RunKeeps(w, steps, t);
  }

  /** Only a pass moves a rule's clock: no edit, switch or other transaction touches it. */
  lemma ClockMovesOnlyInPasses(w: World, step: Step, r: string)
    requires Reachable(w) && Enabled(w, step) && !step.RulePass?
    requires r in w.ledger.rules && r in After(w, step).ledger.rules
    ensures After(w, step).ledger.rules[r].lastTriggeredAt == w.ledger.rules[r].lastTriggeredAt
  {
    ReachableInv(w);
  }

  // ---- Retention keeps idempotency --------------------------------------------------------------------

  /** A telemetry id is inserted at most once in the whole history, however much has been
      deleted since: everything stored still has its tombstone. */
  lemma InsertedOnce(w: World, e: string)
    requires Reachable(w)
    ensures w.past.inserted[e] == if e in w.ledger.tombstones then 1 else 0
    ensures e in w.ledger.telemetry ==> e in w.ledger.tombstones
    ensures ReadingOf(e) in w.ledger.core.events ==> e in w.ledger.tombstones
  {
    ReachableInv(w);
  }

  /** Redelivery after retention deleted the payload does not bring it back. */
  lemma DeletedStaysDeleted(w: World, steps: seq<Step>, t: World, e: Telemetry, position: Position)
    requires Reachable(w) && RunFrom(w, steps, t) && e.eventId in w.ledger.tombstones
    ensures Ingest(t.ledger, e, position, t.now) == (t.ledger, true)
  {
    ReachableInv(w);
    RunKeeps(w, steps, t);
  }

  /** `after` is `before` without at most `batch` rows. All of them may be deleted, `times`
      telling which may and from when they are, and are more than so many days old; and a row
      as old as that which is free stays only if the batch is full of rows no newer. */
  ghost predicate LosesOldest<K(!new), V>(before: map<K, V>, after: map<K, V>, times: map<K, Time>, days: nat, now: Time, locked: set<K>, batch: nat) {
    var gone := before.Keys - after.Keys;
    && after == before - gone
    && |gone| <= batch
    && (forall c :: c in gone ==> c in times && now - times[c] > days * 86_400_000_000_000)
    && (forall d :: d in times && d !in gone && d !in locked && now - times[d] > days * 86_400_000_000_000 ==>
         |gone| == batch && forall c :: c in gone ==> times[c] <= times[d])
  }

  lemma DeletionLosesOldest<K(!new), V>(before: map<K, V>, times: map<K, Time>, days: nat, now: Time, locked: set<K>,
                                        expired: set<K>, key: K -> Option<int>, batch: nat, chosen: set<K>)
    requires times.Keys <= before.Keys && expired == set k | k in times && times[k] < now - days * DAY
    requires forall k :: k in times ==> key(k) == Some(times[k])
    requires OldestFirst(expired - locked, key, batch, chosen)
    ensures LosesOldest(before, before - chosen, times, days, now, locked, batch)
  {
    assert before.Keys - (before - chosen).Keys == chosen;
    forall d | d in times && d !in chosen && d !in locked && now - times[d] > days * 86_400_000_000_000
      ensures |chosen| == batch && forall c :: c in chosen ==> times[c] <= times[d]
    {
      assert d in expired - locked;
      forall c | c in chosen ensures times[c] <= times[d] {
        assert SortsBefore(key(c), key(d));
      }
    }
  }

  /** When each telemetry row was stored. */
  function StoredAt(l: Ledger): map<string, Time> {
    map e | e in l.telemetry :: l.telemetry[e].processedAt
  }

  /** When the reading of each reading event was measured. */
  function MeasuredAt(l: Ledger): map<EventKey, Time> {
    map k | k in l.core.events && l.core.events[k].kind == SensorReading :: l.core.events[k].occurredAt
  }

  /** When each audit row was written that does not record a match. */
  function AuditedAt(l: Ledger): map<AuditKey, Time> {
    map a | a in l.audits && l.audits[a].kind != "rule.matched" :: l.audits[a].occurredAt
  }

  lemma TelemetrySwept(l: Ledger, retention: Retention, now: Time, locked: Sweep, sweep: Sweep)
    requires SweepOf(l, retention, now, locked, sweep)
    ensures LosesOldest(l.telemetry, AfterSweep(l, now, sweep).telemetry, StoredAt(l), retention.readingDays, now, locked.telemetry, retention.batchSize)
  {
    DeletionLosesOldest(l.telemetry, StoredAt(l), retention.readingDays, now, locked.telemetry,
      ExpiredTelemetry(l, retention, now), TelemetryKey(l), retention.batchSize, sweep.telemetry);
  }

  lemma ReadingsSwept(l: Ledger, retention: Retention, now: Time, locked: Sweep, sweep: Sweep)
    requires SweepOf(l, retention, now, locked, sweep)
    ensures LosesOldest(l.core.events, AfterSweep(l, now, sweep).core.events, MeasuredAt(l), retention.readingDays, now, locked.readings, retention.batchSize)
  {
    DeletionLosesOldest(l.core.events, MeasuredAt(l), retention.readingDays, now, locked.readings,
      ExpiredReadings(l, retention, now), ReadingKey(l), retention.batchSize, sweep.readings);
  }

  lemma AuditsSwept(l: Ledger, retention: Retention, now: Time, locked: Sweep, sweep: Sweep)
    requires SweepOf(l, retention, now, locked, sweep)
    ensures LosesOldest(l.audits, AfterSweep(l, now, sweep).audits, AuditedAt(l), retention.auditDays, now, locked.audits, retention.batchSize)
  {
    DeletionLosesOldest(l.audits, AuditedAt(l), retention.auditDays, now, locked.audits,
      ExpiredAudits(l, retention, now), AuditOrder(l), retention.batchSize, sweep.audits);
  }

  /** Within an interval of the last one a cleanup changes nothing. Otherwise it takes at most
      a batch of the oldest expired rows from each table, by the days their kind is kept, never
      a `rule.matched` audit row and no event but sensor readings, and leaves everything else
      as it was. */
  lemma CleanupIsBounded(w: World, retention: Retention, locked: Sweep, sweep: Sweep)
    requires Reachable(w) && Enabled(w, Cleanup(retention, locked, sweep))
    ensures var l, t := w.ledger, AfterCleanup(w, retention, sweep).ledger;
      if l.cleanupStartedAt.Some? && w.now - l.cleanupStartedAt.value < retention.interval then t == l
      else
        && LosesOldest(l.telemetry, t.telemetry, StoredAt(l), retention.readingDays, w.now, locked.telemetry, retention.batchSize)
        && LosesOldest(l.core.events, t.core.events, MeasuredAt(l), retention.readingDays, w.now, locked.readings, retention.batchSize)
        && LosesOldest(l.audits, t.audits, AuditedAt(l), retention.auditDays, w.now, locked.audits, retention.batchSize)
        && (forall k :: k in l.core.events && !k.ReadingOf? ==> k in t.core.events)
        && (forall a :: a in l.audits && a.RuleMatchOf? ==> a in t.audits)
        && t.core.rows == l.core.rows && t.core.devices == l.core.devices
        && t.tombstones == l.tombstones && t.rules == l.rules && t.deadLetters == l.deadLetters
        && t.cleanupStartedAt == Some(w.now)
  {
    ReachableInv(w);
    var l := w.ledger;
    TelemetrySwept(l, retention, w.now, locked, sweep);
    ReadingsSwept(l, retention, w.now, locked, sweep);
    AuditsSwept(l, retention, w.now, locked, sweep);
    SweepSpares(l, w.now, retention, locked, sweep);
  }

  /** Over all workers, cleanups start at least one interval apart. */
  lemma CleanupsApart(w: World, i: nat, j: nat)
    requires Reachable(w) && i < j < |w.past.sweeps|
    ensures w.past.sweeps[i].at + w.past.sweeps[j].interval <= w.past.sweeps[j].at
  {
    ReachableInv(w);
  }
}
