/** What an observer of the dispatch protocol writes down about times and attempts. The
    observer looks at which step is taken and at the rows before and after it, never at how a
    statement computes them; what the tables hold is then shown to be what the diary says. */
module DispatchDiary {
  import opened Prelude
  import opened Ids
  import opened Schema
  import opened Commands
  import opened Dispatch
  import opened DispatchSafety
  import Backoff
  import Sim = Simulator

  /** A claim for publishing, by whom and when. */
  datatype Try = Try(owner: Owner, at: Time)

  /** A refused publish that is to be repeated: the gateway's clock, the database's, and why. */
  datatype Retry = Retry(wall: Time, at: Time, error: string)

  /** A command that is out of attempts: why, and when its failure is to be reported. */
  datatype Failing = Failing(error: string, due: Time)

  /** A claim for reporting. `since` is when the command was last published or last had its
      timeout noted. */
  datatype Take = Take(stage: Stage, command: CommandId, attempt: nat, at: Time, since: Option<Time>, error: string)

  datatype Diary = Diary(
    created: map<CommandId, Time>,
    noted: map<CommandId, Time>,
    failing: map<CommandId, Failing>,
    claimed: map<CommandId, Time>,
    tries: map<(CommandId, nat), Try>,
    sends: map<(CommandId, nat), Time>,
    retries: map<(CommandId, nat), Retry>,
    reports: set<Take>,
    settled: seq<CommandId>)

  const BLANK := Diary(map[], map[], map[], map[], map[], map[], map[], {}, [])

  // ---- Taking notes --------------------------------------------------------------------------

  function KeyOf(item: PendingCommand): (CommandId, nat) {
    (item.commandId, item.publishAttempts)
  }

  function NoteCreate(d: Diary, before: Rows, c: CommandId, at: Time): Diary {
    if c in before then d else d.(created := d.created[c := at])
  }

  function TakeOf(d: Diary, stage: Stage, c: CommandId, attempt: nat, now: Time): Take {
    Take(stage, c, attempt, now,
      if c in d.noted then Some(d.noted[c]) else None,
      if c in d.failing then d.failing[c].error else "")
  }

  function NoteClaim(d: Diary, stage: Stage, g: Owner, ids: set<CommandId>, after: Rows, now: Time): Diary
    requires forall c :: c in ids ==> c in after
  {
    var e := d.(claimed := d.claimed + map c | c in ids :: now);
    if stage.DispatchStage? then
      e.(tries := d.tries + map c | c in ids :: (c, after[c].publishAttempts) := Try(g, now))
    else
      e.(reports := d.reports + set c | c in ids :: TakeOf(d, stage, c, after[c].publishAttempts, now))
  }

  function ErrorOf(outcome: Outcome): string {
    if outcome.Refused? then outcome.error else ""
  }

  /** A mark that takes effect shows in the row. */
  function NoteMark(d: Diary, before: Rows, after: Rows, item: PendingCommand, outcome: Outcome, now: Time, wall: Time): Diary {
    var c := item.commandId;
    if c !in before || c !in after || after[c] == before[c] then d
    else if after[c].status.Retrying? then d.(retries := d.retries[KeyOf(item) := Retry(wall, now, ErrorOf(outcome))])
    else if after[c].status.Published? then d.(noted := d.noted[c := now])
    else if after[c].status.Finalizing? && before[c].status.Publishing? then
      d.(failing := d.failing[c := Failing(ErrorOf(outcome), now)])
    else if after[c].status.Finalizing? && c in d.failing then
      d.(failing := d.failing[c := d.failing[c].(due := now + 2_000_000_000)])
    else d
  }

  function NoteSettle(d: Diary, before: Rows, after: Rows, c: CommandId): Diary {
    if c in before && c in after && !Terminal(before[c].status) && Terminal(after[c].status) then
      d.(settled := d.settled + [c])
    else d
  }

  ghost function Note(cfg: Config, s: System, step: Step, d: Diary): Diary
    requires Enabled(cfg, s, step)
  {
    var after := After(cfg, s, step).db.rows;
    match step
    case Create(payload, at) => NoteCreate(d, s.db.rows, payload.commandId, at)
    case Claim(g, _, chosen) => NoteClaim(d, s.gateways[g].stage, g, Elements(chosen), after, s.now)
    case ClaimUnseen(g, _, chosen) => NoteClaim(d, s.gateways[g].stage, g, Elements(chosen), after, s.now)
    case Publish(g, _, _, _) => d.(sends := d.sends[KeyOf(s.gateways[g].batch[0].item) := s.now])
    case Mark(g, wall) => NoteMark(d, s.db.rows, after, s.gateways[g].batch[0].item, s.gateways[g].outcome, s.now, wall)
    case Settle(offset) => NoteSettle(d, s.db.rows, after, s.log[offset].commandId)
    case _ => d
  }

  ghost predicate RunNoted(cfg: Config, s: System, d: Diary, steps: seq<Step>, t: System, e: Diary)
    decreases |steps|
  {
    if steps == [] then s == t && d == e
    else Enabled(cfg, s, steps[0]) && RunNoted(cfg, After(cfg, s, steps[0]), Note(cfg, s, steps[0], d), steps[1..], t, e)
  }

  /** `d` is the diary of some run that ends in `s`. */
  ghost predicate Recorded(cfg: Config, s: System, d: Diary) {
    exists s0, steps :: Init(s0) && RunNoted(cfg, s0, BLANK, steps, s, d)
  }

  // ---- What the diary says of the rows -----------------------------------------------------------

  type Tries = map<(CommandId, nat), Try>
  type Sends = map<(CommandId, nat), Time>
  type Retries = map<(CommandId, nat), Retry>

  ghost predicate CreatedOk(rows: Rows, created: map<CommandId, Time>) {
    forall c :: c in rows ==> c in created && rows[c].requestedAt == created[c]
  }

  ghost predicate NotedOk(rows: Rows, noted: map<CommandId, Time>) {
    forall c :: c in rows && rows[c].status.Published? ==> c in noted && rows[c].publishedAt == Some(noted[c])
  }

  ghost predicate FailingOk(rows: Rows, failing: map<CommandId, Failing>) {
    forall c :: c in rows && rows[c].status.Finalizing? ==>
      c in failing && rows[c].nextAttemptAt == Some(failing[c].due) && rows[c].lastError == Some(failing[c].error)
  }

  /** A lease lasts from the last claim. */
  ghost predicate LeasedOk(cfg: Config, rows: Rows, claimed: map<CommandId, Time>) {
    forall c :: c in rows && rows[c].leaseUntil.Some? ==> c in claimed && rows[c].leaseUntil == Some(claimed[c] + cfg.lease)
  }

  /** A row that waits for its next publish waits as long as the backoff says. */
  ghost predicate WaitingOk(cfg: Config, rows: Rows, retries: Retries) {
    forall c :: c in rows && rows[c].status.Retrying? ==>
      && rows[c].publishAttempts >= 1
      && (c, rows[c].publishAttempts) in retries
      && rows[c].nextAttemptAt == Some(retries[(c, rows[c].publishAttempts)].wall
                                       + Backoff.Delay(cfg.retryInitial, cfg.retryMax, rows[c].publishAttempts))
      && rows[c].lastError == Some(retries[(c, rows[c].publishAttempts)].error)
  }

  ghost predicate RetriesOk(rows: Rows, retries: Retries, sends: Sends, now: Time) {
    forall c, k: nat :: (c, k) in retries ==>
      && c in rows && 1 <= k <= rows[c].publishAttempts
      && (rows[c].status.Publishing? ==> k < rows[c].publishAttempts)
      && (c, k) in sends && sends[(c, k)] <= retries[(c, k)].at <= now
  }

  ghost predicate TriesOk(rows: Rows, tries: Tries, now: Time) {
    && (forall c, k: nat :: (c, k) in tries ==> c in rows && 1 <= k <= rows[c].publishAttempts && tries[(c, k)].at <= now)
    && (forall c :: c in rows && rows[c].publishAttempts >= 1 ==>
         && (c, rows[c].publishAttempts) in tries
         && rows[c].lastAttemptAt == Some(tries[(c, rows[c].publishAttempts)].at))
  }

  ghost predicate SendsOk(sends: Sends, tries: Tries, now: Time) {
    forall c, k: nat :: (c, k) in sends ==> (c, k) in tries && tries[(c, k)].at <= sends[(c, k)] <= now
  }

  /** What a publishing gateway holds is its own try, and sent exactly if it is the head and
      its message is out. */
  ghost predicate HoldsTries(gateways: map<Owner, Gateway>, tries: Tries, sends: Sends) {
    forall g, i :: g in gateways && gateways[g].stage.DispatchStage? && 0 <= i < |gateways[g].batch| ==>
      HoldsTry(gateways[g], g, i, tries, sends)
  }

  predicate HoldsTry(gw: Gateway, g: Owner, i: nat, tries: Tries, sends: Sends)
    requires i < |gw.batch|
  {
    var key := KeyOf(gw.batch[i].item);
    && key in tries && tries[key].owner == g
    && (key in sends <==> i == 0 && gw.outcome != Unsent)
  }

  /** Attempt `k` comes after the refusal of the one before, and after its backoff. */
  predicate Apart(cfg: Config, tries: Tries, retries: Retries, c: CommandId, k: nat)
    requires k >= 2 && (c, k) in tries
  {
    && (c, k - 1) in retries
    && retries[(c, k - 1)].at <= tries[(c, k)].at
    && retries[(c, k - 1)].wall + Backoff.Delay(cfg.retryInitial, cfg.retryMax, k - 1) <= tries[(c, k)].at
  }

  /** A command that was never reclaimed is tried again only after its backoff. */
  ghost predicate Spaced(cfg: Config, reclaims: Count, tries: Tries, retries: Retries) {
    forall c, k: nat {:trigger Apart(cfg, tries, retries, c, k)} ::
      k >= 2 && (c, k) in tries && reclaims[c] == 0 ==> Apart(cfg, tries, retries, c, k)
  }

  ghost predicate ReportsOk(cfg: Config, reports: set<Take>, now: Time) {
    forall k :: k in reports ==>
      && k.at <= now
      && (k.stage.TimeoutStage? ==> k.since.Some? && k.since.value + cfg.ackTimeout < k.at)
      && (k.stage.FailureStage? ==> k.attempt >= cfg.maxAttempts)
  }

  predicate TakenFor(k: Take, stage: Stage, item: PendingCommand) {
    && k.stage == stage && k.command == item.commandId && k.attempt == item.publishAttempts
    && (stage.FailureStage? ==> k.error == item.lastError)
  }

  ghost predicate HasTake(reports: set<Take>, stage: Stage, item: PendingCommand) {
    exists k :: k in reports && TakenFor(k, stage, item)
  }

  ghost predicate HoldsTake(gw: Gateway, i: nat, reports: set<Take>)
    requires i < |gw.batch|
  {
    HasTake(reports, gw.stage, gw.batch[i].item)
  }

  ghost predicate HoldsTakes(gateways: map<Owner, Gateway>, reports: set<Take>) {
    forall g, i :: g in gateways && !gateways[g].stage.DispatchStage? && 0 <= i < |gateways[g].batch| ==>
      HoldsTake(gateways[g], i, reports)
  }

  lemma TakesGrow(reports: set<Take>, reports': set<Take>, stage: Stage, item: PendingCommand)
    requires HasTake(reports, stage, item) && reports <= reports'
    ensures HasTake(reports', stage, item)
  {
    var k :| k in reports && TakenFor(k, stage, item);
    assert k in reports';
  }

  ghost predicate PlainAnswers(answers: set<CommandResult>) {
    forall r :: r in answers ==> r.failureCode.None?
  }

  /** What a gateway reports is what it took the command for. */
  predicate Tells(k: Take, r: CommandResult) {
    && k.command == r.commandId && r.publishAttempts == Some(k.attempt) && !r.success && r.state.None?
    && match k.stage
       case TimeoutStage => r.failureCode == Some("device.ack.timeout") && r.error == Some("device acknowledgement timeout")
       case FailureStage => r.failureCode == Some("mqtt.publish.exhausted") && r.error == Some(k.error)
       case DispatchStage => false
  }

  ghost predicate LogOk(log: seq<CommandResult>, answers: set<CommandResult>, reports: set<Take>) {
    forall i :: 0 <= i < |log| ==> log[i] in answers || exists k :: k in reports && Tells(k, log[i])
  }

  ghost predicate SettledOk(rows: Rows, settled: seq<CommandId>) {
    Distinct(settled) && forall c :: c in settled <==> c in rows && Terminal(rows[c].status)
  }

  /** The retry event of a refusal. */
  function RetryEvent(cfg: Config, c: CommandId, n: nat, deviceId: string, r: Retry): Event
    requires n >= 1
  {
    Event(CommandRetrying, deviceId, RetryBody(c, n, cfg.maxAttempts, r.error,
      r.wall + Backoff.Delay(cfg.retryInitial, cfg.retryMax, n)), r.at)
  }

  predicate RetryEventTold(cfg: Config, rows: Rows, e: Event, retries: Retries, c: CommandId, n: nat) {
    c in rows && n >= 1 && (c, n) in retries && e == RetryEvent(cfg, c, n, rows[c].deviceId, retries[(c, n)])
  }

  /** A retry event tells the refusal it comes from. */
  ghost predicate RetryEventsOk(cfg: Config, rows: Rows, events: Events, retries: Retries) {
    forall c, n: nat :: RetryOf(c, n) in events ==> RetryEventTold(cfg, rows, events[RetryOf(c, n)], retries, c, n)
  }

  ghost predicate RowsTold(cfg: Config, rows: Rows, d: Diary) {
    && CreatedOk(rows, d.created) && NotedOk(rows, d.noted) && FailingOk(rows, d.failing)
    && LeasedOk(cfg, rows, d.claimed) && WaitingOk(cfg, rows, d.retries) && SettledOk(rows, d.settled)
  }

  ghost predicate AttemptsTold(cfg: Config, rows: Rows, now: Time, gateways: map<Owner, Gateway>, reclaims: Count,
                               tries: Tries, sends: Sends, retries: Retries) {
    && RetriesOk(rows, retries, sends, now) && TriesOk(rows, tries, now) && SendsOk(sends, tries, now)
    && HoldsTries(gateways, tries, sends) && Spaced(cfg, reclaims, tries, retries)
  }

  ghost predicate ReportsTold(cfg: Config, now: Time, gateways: map<Owner, Gateway>, log: seq<CommandResult>, answers: set<CommandResult>, d: Diary) {
    && ReportsOk(cfg, d.reports, now) && HoldsTakes(gateways, d.reports)
    && PlainAnswers(answers) && LogOk(log, answers, d.reports)
  }

  /** The tables, the gateways and the log are as the diary says. */
  ghost predicate DiaryOk(cfg: Config, s: System, d: Diary) {
    && RowsTold(cfg, s.db.rows, d)
    && AttemptsTold(cfg, s.db.rows, s.now, s.gateways, s.past.reclaims, d.tries, d.sends, d.retries)
    && ReportsTold(cfg, s.now, s.gateways, s.log, s.past.answers, d)
    && RetryEventsOk(cfg, s.db.rows, s.db.events, d.retries)
  }

  lemma InitDiary(cfg: Config, s: System)
    requires Init(s)
    ensures DiaryOk(cfg, s, BLANK)
  {
  }

  // ---- Claims ------------------------------------------------------------------------------------

  /** What a claim does to a row. */
  predicate ClaimedAs(cfg: Config, stage: Stage, r: Row, t: Row, now: Time) {
    && t.leaseUntil == Some(now + cfg.lease)
    && t.requestedAt == r.requestedAt && t.deviceId == r.deviceId && !Terminal(r.status) && !Terminal(t.status)
    && match stage
       case TimeoutStage =>
         && r.status.Published? && t.status.Published? && t.publishedAt == r.publishedAt && t.publishAttempts == r.publishAttempts
         && t.lastAttemptAt == r.lastAttemptAt
         && r.publishedAt.Some? && r.publishedAt.value + cfg.ackTimeout < now
       case FailureStage =>
         && r.status.Finalizing? && t.status.Finalizing? && t.nextAttemptAt == r.nextAttemptAt && t.lastError == r.lastError
         && t.publishAttempts == r.publishAttempts && t.lastAttemptAt == r.lastAttemptAt
       case DispatchStage =>
         && t.status.Publishing? && t.publishAttempts == r.publishAttempts + 1 && t.lastAttemptAt == Some(now)
         && (r.status.Pending? || r.status.Retrying? || r.status.Publishing?)
         && (r.status.Retrying? ==> r.nextAttemptAt.Some? && r.nextAttemptAt.value <= now)
  }

  lemma ClaimMeans(cfg: Config, stage: Stage, r: Row, g: Owner, now: Time)
    requires Claimable(cfg, stage, r, now)
    ensures ClaimedAs(cfg, stage, r, ClaimRow(cfg, stage, r, g, now), now)
  {
  }

  /** The rows before and after a claim of `ids`. */
  ghost predicate ClaimedRows(cfg: Config, stage: Stage, rows: Rows, rows': Rows, ids: set<CommandId>, now: Time) {
    && rows'.Keys == rows.Keys && ids <= rows.Keys
    && (forall c :: c in ids ==> ClaimedAs(cfg, stage, rows[c], rows'[c], now))
    && (forall c :: c in rows && c !in ids ==> rows'[c] == rows[c])
  }

  lemma ClaimGivesRows(cfg: Config, stage: Stage, rows: Rows, ids: set<CommandId>, g: Owner, now: Time)
    requires ClaimMade(cfg, stage, rows, now, ids)
    ensures ClaimedRows(cfg, stage, rows, ClaimRows(cfg, stage, rows, ids, g, now), ids, now)
  {
    forall c | c in ids ensures ClaimedAs(cfg, stage, rows[c], ClaimRows(cfg, stage, rows, ids, g, now)[c], now) {
      ClaimMeans(cfg, stage, rows[c], g, now);
    }
  }

  lemma ClaimKeepsTimes(cfg: Config, stage: Stage, rows: Rows, rows': Rows, ids: set<CommandId>, now: Time, d: Diary)
    requires ClaimedRows(cfg, stage, rows, rows', ids, now)
    requires CreatedOk(rows, d.created) && NotedOk(rows, d.noted) && FailingOk(rows, d.failing)
    ensures CreatedOk(rows', d.created) && NotedOk(rows', d.noted) && FailingOk(rows', d.failing)
  {
    forall c | c in rows' ensures rows'[c] == rows[c] || (c in ids && ClaimedAs(cfg, stage, rows[c], rows'[c], now)) {
    }
  }

  lemma ClaimKeepsWaiting(cfg: Config, stage: Stage, rows: Rows, rows': Rows, ids: set<CommandId>, now: Time, d: Diary)
    requires ClaimedRows(cfg, stage, rows, rows', ids, now)
    requires WaitingOk(cfg, rows, d.retries) && SettledOk(rows, d.settled)
    ensures WaitingOk(cfg, rows', d.retries) && SettledOk(rows', d.settled)
  {
    forall c | c in rows' ensures rows'[c] == rows[c] || (!rows'[c].status.Retrying? && !Terminal(rows[c].status) && !Terminal(rows'[c].status)) {
      if c in ids {
        assert ClaimedAs(cfg, stage, rows[c], rows'[c], now);
      }
    }
  }

  lemma ClaimLeases(cfg: Config, stage: Stage, rows: Rows, rows': Rows, ids: set<CommandId>, now: Time, claimed: map<CommandId, Time>)
    requires ClaimedRows(cfg, stage, rows, rows', ids, now) && LeasedOk(cfg, rows, claimed)
    ensures LeasedOk(cfg, rows', claimed + map c | c in ids :: now)
  {
    forall c | c in ids ensures rows'[c].leaseUntil == Some(now + cfg.lease) {
      assert ClaimedAs(cfg, stage, rows[c], rows'[c], now);
    }
  }

  /** A claim for publishing adds one try per row, under a new number. */
  ghost predicate TriesAdded(stage: Stage, rows': Rows, ids: set<CommandId>, g: Owner, now: Time, tries: Tries, tries': Tries) {
    && (forall c, k: nat :: (c, k) in tries' <==> (c, k) in tries || NewTry(stage, rows', ids, c, k))
    && (forall c, k: nat :: (c, k) in tries' ==> tries'[(c, k)] == if NewTry(stage, rows', ids, c, k) then Try(g, now) else tries[(c, k)])
  }

  predicate NewTry(stage: Stage, rows': Rows, ids: set<CommandId>, c: CommandId, k: nat) {
    stage.DispatchStage? && c in ids && c in rows' && k == rows'[c].publishAttempts
  }

  lemma ClaimAddsTries(stage: Stage, g: Owner, ids: set<CommandId>, rows': Rows, now: Time, d: Diary)
    requires forall c :: c in ids ==> c in rows'
    ensures TriesAdded(stage, rows', ids, g, now, d.tries, NoteClaim(d, stage, g, ids, rows', now).tries)
  {
  }

  lemma NewTriesAreNew(cfg: Config, stage: Stage, rows: Rows, rows': Rows, ids: set<CommandId>, now: Time, tries: Tries, c: CommandId, k: nat)
    requires ClaimedRows(cfg, stage, rows, rows', ids, now) && TriesOk(rows, tries, now) && NewTry(stage, rows', ids, c, k)
    ensures (c, k) !in tries && k == rows[c].publishAttempts + 1
  {
    assert ClaimedAs(cfg, stage, rows[c], rows'[c], now);
  }

  lemma ClaimKeepsTries(cfg: Config, stage: Stage, rows: Rows, rows': Rows, ids: set<CommandId>, g: Owner, now: Time, tries: Tries, tries': Tries)
    requires ClaimedRows(cfg, stage, rows, rows', ids, now) && TriesAdded(stage, rows', ids, g, now, tries, tries')
    requires TriesOk(rows, tries, now)
    ensures TriesOk(rows', tries', now)
    ensures forall c, k: nat :: (c, k) in tries ==> (c, k) in tries' && tries'[(c, k)] == tries[(c, k)]
  {
    forall c, k: nat | (c, k) in tries' && NewTry(stage, rows', ids, c, k) ensures (c, k) !in tries && k == rows[c].publishAttempts + 1 {
      NewTriesAreNew(cfg, stage, rows, rows', ids, now, tries, c, k);
    }
    forall c | c in rows' ensures rows'[c] == rows[c] || (c in ids && ClaimedAs(cfg, stage, rows[c], rows'[c], now)) {
    }
  }

  lemma ClaimKeepsSends(cfg: Config, stage: Stage, rows: Rows, rows': Rows, ids: set<CommandId>, now: Time, sends: Sends, tries: Tries, tries': Tries, retries: Retries)
    requires ClaimedRows(cfg, stage, rows, rows', ids, now)
    requires forall c, k: nat :: (c, k) in tries ==> (c, k) in tries' && tries'[(c, k)] == tries[(c, k)]
    requires SendsOk(sends, tries, now) && RetriesOk(rows, retries, sends, now)
    ensures SendsOk(sends, tries', now) && RetriesOk(rows', retries, sends, now)
  {
    forall c | c in rows' ensures rows'[c] == rows[c] || (c in ids && ClaimedAs(cfg, stage, rows[c], rows'[c], now)) {
    }
  }

  /** A try after the first finds its row waiting, unless it is a reclaim. */
  lemma TryWaited(cfg: Config, rows: Rows, rows': Rows, ids: set<CommandId>, now: Time, retries: Retries, sends: Sends, c: CommandId)
    requires ClaimedRows(cfg, DispatchStage, rows, rows', ids, now) && c in ids && !rows[c].status.Publishing?
    requires WaitingOk(cfg, rows, retries) && RetriesOk(rows, retries, sends, now)
    requires rows[c].status.Pending? ==> rows[c].publishAttempts == 0
    ensures var k := rows'[c].publishAttempts;
      k >= 2 ==> (c, k - 1) in retries && retries[(c, k - 1)].at <= now
                 && retries[(c, k - 1)].wall + Backoff.Delay(cfg.retryInitial, cfg.retryMax, k - 1) <= now
  {
    assert ClaimedAs(cfg, DispatchStage, rows[c], rows'[c], now);
  }

  lemma ClaimKeepsSpaced(cfg: Config, stage: Stage, rows: Rows, rows': Rows, ids: set<CommandId>, g: Owner, now: Time,
                         tries: Tries, tries': Tries, retries: Retries, sends: Sends, reclaims: Count, again: set<CommandId>)
    requires ClaimedRows(cfg, stage, rows, rows', ids, now) && TriesAdded(stage, rows', ids, g, now, tries, tries')
    requires Spaced(cfg, reclaims, tries, retries) && WaitingOk(cfg, rows, retries) && RetriesOk(rows, retries, sends, now)
    requires forall c :: c in rows && rows[c].status.Pending? ==> rows[c].publishAttempts == 0
    requires again == Reclaimed(stage, rows, ids)
    ensures Spaced(cfg, reclaims + multiset(again), tries', retries)
  {
    forall c, k: nat | k >= 2 && (c, k) in tries' && (reclaims + multiset(again))[c] == 0
      ensures Apart(cfg, tries', retries, c, k)
    {
      assert c !in again && reclaims[c] == 0;
      if NewTry(stage, rows', ids, c, k) {
        TryWaited(cfg, rows, rows', ids, now, retries, sends, c);
      } else {
        assert Apart(cfg, tries, retries, c, k);
      }
    }
  }

  lemma ClaimKeepsReports(cfg: Config, stage: Stage, rows: Rows, rows': Rows, ids: set<CommandId>, g: Owner, now: Time, d: Diary)
    requires ClaimedRows(cfg, stage, rows, rows', ids, now) && ReportsOk(cfg, d.reports, now) && NotedOk(rows, d.noted)
    requires forall c :: c in rows && rows[c].status.Finalizing? ==> rows[c].publishAttempts >= cfg.maxAttempts
    ensures var e := NoteClaim(d, stage, g, ids, rows', now); ReportsOk(cfg, e.reports, now) && d.reports <= e.reports
  {
    var e := NoteClaim(d, stage, g, ids, rows', now);
    forall k | k in e.reports
      ensures k.at <= now
      ensures k.stage.TimeoutStage? ==> k.since.Some? && k.since.value + cfg.ackTimeout < k.at
      ensures k.stage.FailureStage? ==> k.attempt >= cfg.maxAttempts
    {
      if k !in d.reports {
        var c :| c in ids && k == TakeOf(d, stage, c, rows'[c].publishAttempts, now);
        assert ClaimedAs(cfg, stage, rows[c], rows'[c], now);
      }
    }
  }

  /** What the gateway holds after a claim is what it took. */
  lemma ClaimGivesTakes(cfg: Config, stage: Stage, rows: Rows, rows': Rows, ids: set<CommandId>, g: Owner, now: Time, d: Diary, c: CommandId)
    requires ClaimedRows(cfg, stage, rows, rows', ids, now) && FailingOk(rows, d.failing) && c in ids
    ensures var e := NoteClaim(d, stage, g, ids, rows', now);
      if stage.DispatchStage? then
        KeyOf(Item(stage, c, rows'[c])) in e.tries && e.tries[KeyOf(Item(stage, c, rows'[c]))].owner == g
      else HasTake(e.reports, stage, Item(stage, c, rows'[c]))
  {
    assert ClaimedAs(cfg, stage, rows[c], rows'[c], now);
    var e := NoteClaim(d, stage, g, ids, rows', now);
    if !stage.DispatchStage? {
      var k := TakeOf(d, stage, c, rows'[c].publishAttempts, now);
      assert k in e.reports && TakenFor(k, stage, Item(stage, c, rows'[c]));
    }
  }

  lemma ClaimBatchItem(cfg: Config, s: System, g: Owner, locked: set<CommandId>, chosen: seq<CommandId>, seen: bool, i: nat)
    requires ClaimEnabled(cfg, s, g, locked, chosen)
    requires i < |AfterClaim(cfg, s, g, chosen, seen).gateways[g].batch|
    ensures var t := AfterClaim(cfg, s, g, chosen, seen);
      && i < |chosen| && chosen[i] in t.db.rows && chosen[i] in Elements(chosen)
      && t.gateways[g].batch[i].item == Item(s.gateways[g].stage, chosen[i], t.db.rows[chosen[i]])
  {
  }

  lemma ClaimLeavesOthers(cfg: Config, s: System, g: Owner, chosen: seq<CommandId>, seen: bool)
    requires g in s.gateways && forall c :: c in chosen ==> c in s.db.rows
    ensures var t := AfterClaim(cfg, s, g, chosen, seen);
      && t.gateways.Keys == s.gateways.Keys && t.gateways[g].stage == s.gateways[g].stage && t.gateways[g].outcome == Unsent
      && (forall o :: o in s.gateways && o != g ==> t.gateways[o] == s.gateways[o])
      && t.db.rows == ClaimRows(cfg, s.gateways[g].stage, s.db.rows, Elements(chosen), g, s.now)
  {
  }

  lemma ClaimHoldsTries(cfg: Config, s: System, d: Diary, g: Owner, locked: set<CommandId>, chosen: seq<CommandId>, seen: bool)
    requires ClaimEnabled(cfg, s, g, locked, chosen)
    requires FailingOk(s.db.rows, d.failing) && TriesOk(s.db.rows, d.tries, s.now) && SendsOk(d.sends, d.tries, s.now)
    requires HoldsTries(s.gateways, d.tries, d.sends)
    ensures var t := AfterClaim(cfg, s, g, chosen, seen);
      HoldsTries(t.gateways, NoteClaim(d, s.gateways[g].stage, g, Elements(chosen), t.db.rows, s.now).tries, d.sends)
  {
    var stage, ids, t := s.gateways[g].stage, Elements(chosen), AfterClaim(cfg, s, g, chosen, seen);
    var rows, rows' := s.db.rows, t.db.rows;
    var e := NoteClaim(d, stage, g, ids, rows', s.now);
    ClaimLeavesOthers(cfg, s, g, chosen, seen);
    ClaimGivesRows(cfg, stage, rows, ids, g, s.now);
    ClaimAddsTries(stage, g, ids, rows', s.now, d);
    ClaimKeepsTries(cfg, stage, rows, rows', ids, g, s.now, d.tries, e.tries);
    forall o, i | o in t.gateways && t.gateways[o].stage.DispatchStage? && 0 <= i < |t.gateways[o].batch|
      ensures HoldsTry(t.gateways[o], o, i, e.tries, d.sends)
    {
      if o == g {
        ClaimBatchItem(cfg, s, g, locked, chosen, seen, i);
        ClaimGivesTakes(cfg, stage, rows, rows', ids, g, s.now, d, chosen[i]);
        NewTriesAreNew(cfg, stage, rows, rows', ids, s.now, d.tries, chosen[i], rows'[chosen[i]].publishAttempts);
      } else {
        assert HoldsTry(s.gateways[o], o, i, d.tries, d.sends);
      }
    }
  }

  lemma ClaimHoldsTakes(cfg: Config, s: System, d: Diary, g: Owner, locked: set<CommandId>, chosen: seq<CommandId>, seen: bool)
    requires ClaimEnabled(cfg, s, g, locked, chosen) && FailingOk(s.db.rows, d.failing) && HoldsTakes(s.gateways, d.reports)
    ensures var t := AfterClaim(cfg, s, g, chosen, seen);
      HoldsTakes(t.gateways, NoteClaim(d, s.gateways[g].stage, g, Elements(chosen), t.db.rows, s.now).reports)
  {
    var stage, ids, t := s.gateways[g].stage, Elements(chosen), AfterClaim(cfg, s, g, chosen, seen);
    var e := NoteClaim(d, stage, g, ids, t.db.rows, s.now);
    ClaimLeavesOthers(cfg, s, g, chosen, seen);
    ClaimGivesRows(cfg, stage, s.db.rows, ids, g, s.now);
    forall o, i | o in t.gateways && !t.gateways[o].stage.DispatchStage? && 0 <= i < |t.gateways[o].batch|
      ensures HoldsTake(t.gateways[o], i, e.reports)
    {
      if o == g {
        ClaimBatchItem(cfg, s, g, locked, chosen, seen, i);
        ClaimGivesTakes(cfg, stage, s.db.rows, t.db.rows, ids, g, s.now, d, chosen[i]);
      } else {
        assert HoldsTake(s.gateways[o], i, d.reports);
        TakesGrow(d.reports, e.reports, t.gateways[o].stage, t.gateways[o].batch[i].item);
      }
    }
  }

  lemma LogGrowsTakes(log: seq<CommandResult>, answers: set<CommandResult>, reports: set<Take>, reports': set<Take>)
    requires LogOk(log, answers, reports) && reports <= reports'
    ensures LogOk(log, answers, reports')
  {
    forall i | 0 <= i < |log| ensures log[i] in answers || exists k :: k in reports' && Tells(k, log[i]) {
      if log[i] !in answers {
        var k :| k in reports && Tells(k, log[i]);
        assert k in reports';
      }
    }
  }

  lemma RetryEventsKept(cfg: Config, rows: Rows, rows': Rows, events: Events, retries: Retries)
    requires RetryEventsOk(cfg, rows, events, retries)
    requires forall c :: c in rows ==> c in rows' && rows'[c].deviceId == rows[c].deviceId
    ensures RetryEventsOk(cfg, rows', events, retries)
  {
  }

  function Reclaimed(stage: Stage, rows: Rows, ids: set<CommandId>): set<CommandId> {
    set c | c in ids && c in rows && stage.DispatchStage? && rows[c].status.Publishing?
  }

  lemma ClaimParts(cfg: Config, s: System, g: Owner, chosen: seq<CommandId>, seen: bool)
    requires g in s.gateways && forall c :: c in chosen ==> c in s.db.rows
    ensures var t := AfterClaim(cfg, s, g, chosen, seen);
      && t.past.reclaims == s.past.reclaims + multiset(Reclaimed(s.gateways[g].stage, s.db.rows, Elements(chosen)))
      && t.now == s.now && t.log == s.log && t.past.answers == s.past.answers && t.db.events == s.db.events
      && t.db.rows == ClaimRows(cfg, s.gateways[g].stage, s.db.rows, Elements(chosen), g, s.now)
  {
  }

  lemma StatusAttempts(cfg: Config, s: System)
    requires Commands.ValidConfig(cfg) && Inv(cfg, s)
    ensures forall c :: c in s.db.rows && s.db.rows[c].status.Pending? ==> s.db.rows[c].publishAttempts == 0
    ensures forall c :: c in s.db.rows && s.db.rows[c].status.Finalizing? ==> s.db.rows[c].publishAttempts >= cfg.maxAttempts
  {
    assert forall c :: c in s.db.rows ==> RowOk(cfg, s.db.rows[c]);
  }

  lemma ClaimKeepsDevices(cfg: Config, stage: Stage, rows: Rows, rows': Rows, ids: set<CommandId>, now: Time)
    requires ClaimedRows(cfg, stage, rows, rows', ids, now)
    ensures forall c :: c in rows ==> c in rows' && rows'[c].deviceId == rows[c].deviceId
  {
    forall c | c in ids ensures rows'[c].deviceId == rows[c].deviceId {
      assert ClaimedAs(cfg, stage, rows[c], rows'[c], now);
    }
  }

  lemma ClaimRowsTold(cfg: Config, stage: Stage, rows: Rows, rows': Rows, ids: set<CommandId>, g: Owner, now: Time, d: Diary)
    requires ClaimedRows(cfg, stage, rows, rows', ids, now) && RowsTold(cfg, rows, d)
    ensures RowsTold(cfg, rows', NoteClaim(d, stage, g, ids, rows', now))
  {
    ClaimKeepsTimes(cfg, stage, rows, rows', ids, now, d);
    ClaimKeepsWaiting(cfg, stage, rows, rows', ids, now, d);
    ClaimLeases(cfg, stage, rows, rows', ids, now, d.claimed);
  }

  lemma ClaimAttemptsTold(cfg: Config, stage: Stage, rows: Rows, rows': Rows, ids: set<CommandId>, g: Owner, now: Time,
                          tries: Tries, tries': Tries, sends: Sends, retries: Retries,
                          gateways: map<Owner, Gateway>, gateways': map<Owner, Gateway>, reclaims: Count)
    requires ClaimedRows(cfg, stage, rows, rows', ids, now) && WaitingOk(cfg, rows, retries)
    requires TriesAdded(stage, rows', ids, g, now, tries, tries')
    requires AttemptsTold(cfg, rows, now, gateways, reclaims, tries, sends, retries)
    requires forall c :: c in rows && rows[c].status.Pending? ==> rows[c].publishAttempts == 0
    requires HoldsTries(gateways', tries', sends)
    ensures AttemptsTold(cfg, rows', now, gateways', reclaims + multiset(Reclaimed(stage, rows, ids)), tries', sends, retries)
  {
    ClaimKeepsTries(cfg, stage, rows, rows', ids, g, now, tries, tries');
    ClaimKeepsSends(cfg, stage, rows, rows', ids, now, sends, tries, tries', retries);
    ClaimKeepsSpaced(cfg, stage, rows, rows', ids, g, now, tries, tries', retries, sends, reclaims, Reclaimed(stage, rows, ids));
  }

  lemma ClaimDiaryAttempts(cfg: Config, s: System, d: Diary, g: Owner, locked: set<CommandId>, chosen: seq<CommandId>, seen: bool)
    requires Commands.ValidConfig(cfg) && Inv(cfg, s) && ClaimEnabled(cfg, s, g, locked, chosen)
    requires RowsTold(cfg, s.db.rows, d) && AttemptsTold(cfg, s.db.rows, s.now, s.gateways, s.past.reclaims, d.tries, d.sends, d.retries)
    ensures var t := AfterClaim(cfg, s, g, chosen, seen);
      var e := NoteClaim(d, s.gateways[g].stage, g, Elements(chosen), t.db.rows, s.now);
      RowsTold(cfg, t.db.rows, e) && AttemptsTold(cfg, t.db.rows, t.now, t.gateways, t.past.reclaims, e.tries, e.sends, e.retries)
  {
    var stage, ids, t := s.gateways[g].stage, Elements(chosen), AfterClaim(cfg, s, g, chosen, seen);
    var e := NoteClaim(d, stage, g, ids, t.db.rows, s.now);
    ClaimGivesRows(cfg, stage, s.db.rows, ids, g, s.now);
    ClaimParts(cfg, s, g, chosen, seen);
    StatusAttempts(cfg, s);
    ClaimRowsTold(cfg, stage, s.db.rows, t.db.rows, ids, g, s.now, d);
    ClaimHoldsTries(cfg, s, d, g, locked, chosen, seen);
    ClaimAddsTries(stage, g, ids, t.db.rows, s.now, d);
    ClaimAttemptsTold(cfg, stage, s.db.rows, t.db.rows, ids, g, s.now, d.tries, e.tries, d.sends, d.retries, s.gateways, t.gateways, s.past.reclaims);
  }

  lemma ClaimDiaryReports(cfg: Config, s: System, d: Diary, g: Owner, locked: set<CommandId>, chosen: seq<CommandId>, seen: bool)
    requires Commands.ValidConfig(cfg) && Inv(cfg, s) && ClaimEnabled(cfg, s, g, locked, chosen)
    requires RowsTold(cfg, s.db.rows, d) && ReportsTold(cfg, s.now, s.gateways, s.log, s.past.answers, d)
    requires RetryEventsOk(cfg, s.db.rows, s.db.events, d.retries)
    ensures var t := AfterClaim(cfg, s, g, chosen, seen);
      var e := NoteClaim(d, s.gateways[g].stage, g, Elements(chosen), t.db.rows, s.now);
      ReportsTold(cfg, t.now, t.gateways, t.log, t.past.answers, e) && RetryEventsOk(cfg, t.db.rows, t.db.events, e.retries)
  {
    var stage, ids, t := s.gateways[g].stage, Elements(chosen), AfterClaim(cfg, s, g, chosen, seen);
    var e := NoteClaim(d, stage, g, ids, t.db.rows, s.now);
    ClaimGivesRows(cfg, stage, s.db.rows, ids, g, s.now);
    ClaimParts(cfg, s, g, chosen, seen);
    StatusAttempts(cfg, s);
    ClaimKeepsReports(cfg, stage, s.db.rows, t.db.rows, ids, g, s.now, d);
    ClaimHoldsTakes(cfg, s, d, g, locked, chosen, seen);
    LogGrowsTakes(s.log, s.past.answers, d.reports, e.reports);
    ClaimKeepsDevices(cfg, stage, s.db.rows, t.db.rows, ids, s.now);
    RetryEventsKept(cfg, s.db.rows, t.db.rows, s.db.events, d.retries);
  }

  lemma ClaimDiary(cfg: Config, s: System, d: Diary, g: Owner, locked: set<CommandId>, chosen: seq<CommandId>, seen: bool)
    requires Commands.ValidConfig(cfg) && Inv(cfg, s) && DiaryOk(cfg, s, d) && ClaimEnabled(cfg, s, g, locked, chosen)
    ensures var t := AfterClaim(cfg, s, g, chosen, seen);
      DiaryOk(cfg, t, NoteClaim(d, s.gateways[g].stage, g, Elements(chosen), t.db.rows, s.now))
  {
    ClaimDiaryAttempts(cfg, s, d, g, locked, chosen, seen);
    ClaimDiaryReports(cfg, s, d, g, locked, chosen, seen);
  }

  // ---- Marks -------------------------------------------------------------------------------------

  /** The publish was refused and is to be repeated. */
  predicate Repeats(cfg: Config, stage: Stage, outcome: Outcome, item: PendingCommand) {
    stage.DispatchStage? && outcome.Refused? && item.publishAttempts < cfg.maxAttempts
  }

  /** What a mark that takes effect does to its row. */
  predicate MarkedAs(cfg: Config, stage: Stage, outcome: Outcome, item: PendingCommand, r: Row, t: Row, now: Time, wall: Time) {
    && t.dispatchOwner.None? && t.leaseUntil.None? && t.requestedAt == r.requestedAt && t.deviceId == r.deviceId
    && t.publishAttempts == r.publishAttempts && t.lastAttemptAt == r.lastAttemptAt
    && match stage
       case TimeoutStage => r.status.Published? && t.status.Published? && t.publishedAt == Some(now)
       case FailureStage =>
         r.status.Finalizing? && t.status.Finalizing? && t.nextAttemptAt == Some(now + 2_000_000_000) && t.lastError == r.lastError
       case DispatchStage =>
         && r.status.Publishing? && item.publishAttempts >= 1
         && if !outcome.Refused? then t.status.Published? && t.publishedAt == Some(now)
            else if item.publishAttempts >= cfg.maxAttempts then
              t.status.Finalizing? && t.nextAttemptAt == Some(now) && t.lastError == Some(outcome.error)
            else
              && t.status.Retrying?
              && t.nextAttemptAt == Some(wall + Backoff.Delay(cfg.retryInitial, cfg.retryMax, item.publishAttempts))
              && t.lastError == Some(outcome.error)
  }

  lemma MarkMeans(cfg: Config, db: CommandDb, stage: Stage, outcome: Outcome, item: PendingCommand, g: Owner, now: Time, wall: Time)
    requires stage.DispatchStage? ==> item.publishAttempts >= 1
    ensures var m, c := MarkHead(cfg, db, stage, outcome, item, g, now, wall), item.commandId;
      m.Some? ==>
        && c in db.rows && db.rows[c].dispatchOwner == Some(g)
        && c in m.value.rows && m.value.rows == db.rows[c := m.value.rows[c]]
        && MarkedAs(cfg, stage, outcome, item, db.rows[c], m.value.rows[c], now, wall)
  {
  }

  lemma RetryPuts(cfg: Config, db: CommandDb, item: PendingCommand, g: Owner, error: string, next: Time, now: Time)
    ensures var m, c, n := ScheduleRetry(cfg, db, item, g, error, next, now), item.commandId, item.publishAttempts;
      m.Some? ==>
        m.value.events == PutEvent(db.events, RetryOf(c, n),
          Event(CommandRetrying, item.deviceId, RetryBody(c, n, cfg.maxAttempts, error, next), now))
  {
  }

  lemma MarkMeansEvents(cfg: Config, db: CommandDb, stage: Stage, outcome: Outcome, item: PendingCommand, g: Owner, now: Time, wall: Time)
    requires stage.DispatchStage? ==> item.publishAttempts >= 1
    ensures var m, c, n := MarkHead(cfg, db, stage, outcome, item, g, now, wall), item.commandId, item.publishAttempts;
      m.Some? ==>
        m.value.events ==
        if Repeats(cfg, stage, outcome, item) then
          PutEvent(db.events, RetryOf(c, n), RetryEvent(cfg, c, n, item.deviceId, Retry(wall, now, outcome.error)))
        else db.events
  {
    if Repeats(cfg, stage, outcome, item) {
      var next := wall + Backoff.Delay(cfg.retryInitial, cfg.retryMax, item.publishAttempts);
      RetryPuts(cfg, db, item, g, outcome.error, next, now);
      assert MarkHead(cfg, db, stage, outcome, item, g, now, wall) == ScheduleRetry(cfg, db, item, g, outcome.error, next, now);
    }
  }

  // What is written down for it.

  function MarkedNoted(noted: map<CommandId, Time>, stage: Stage, outcome: Outcome, c: CommandId, now: Time): map<CommandId, Time> {
    if stage.TimeoutStage? || (stage.DispatchStage? && !outcome.Refused?) then noted[c := now] else noted
  }

  function MarkedFailing(cfg: Config, failing: map<CommandId, Failing>, stage: Stage, outcome: Outcome, item: PendingCommand, now: Time)
    : map<CommandId, Failing>
  {
    var c := item.commandId;
    if stage.FailureStage? then
      if c in failing then failing[c := failing[c].(due := now + 2_000_000_000)] else failing
    else if stage.DispatchStage? && outcome.Refused? && item.publishAttempts >= cfg.maxAttempts then
      failing[c := Failing(outcome.error, now)]
    else failing
  }

  function MarkedRetries(cfg: Config, retries: Retries, stage: Stage, outcome: Outcome, item: PendingCommand, now: Time, wall: Time): Retries {
    if Repeats(cfg, stage, outcome, item) then retries[KeyOf(item) := Retry(wall, now, outcome.error)] else retries
  }

  function NoteMarked(cfg: Config, d: Diary, stage: Stage, outcome: Outcome, item: PendingCommand, now: Time, wall: Time): Diary {
    d.(noted := MarkedNoted(d.noted, stage, outcome, item.commandId, now),
       failing := MarkedFailing(cfg, d.failing, stage, outcome, item, now),
       retries := MarkedRetries(cfg, d.retries, stage, outcome, item, now, wall))
  }

  lemma MarkIsNoted(cfg: Config, d: Diary, rows: Rows, rows': Rows, g: Owner, stage: Stage, outcome: Outcome, item: PendingCommand, now: Time, wall: Time)
    requires item.commandId in rows && item.commandId in rows' && rows[item.commandId].dispatchOwner == Some(g)
    requires MarkedAs(cfg, stage, outcome, item, rows[item.commandId], rows'[item.commandId], now, wall)
    ensures NoteMark(d, rows, rows', item, outcome, now, wall) == NoteMarked(cfg, d, stage, outcome, item, now, wall)
  {
    var r, t := rows[item.commandId], rows'[item.commandId];
    assert r != t;
    match stage
    case TimeoutStage =>
    case FailureStage =>
    case DispatchStage =>
      if outcome.Refused? {
        assert ErrorOf(outcome) == outcome.error;
      }
  }

  lemma MarkKeepsPlain(cfg: Config, d: Diary, rows: Rows, c: CommandId, t: Row)
    requires c in rows && t.leaseUntil.None? && t.requestedAt == rows[c].requestedAt
    requires !Terminal(rows[c].status) && !Terminal(t.status)
    requires CreatedOk(rows, d.created) && LeasedOk(cfg, rows, d.claimed) && SettledOk(rows, d.settled)
    ensures var rows' := rows[c := t];
      CreatedOk(rows', d.created) && LeasedOk(cfg, rows', d.claimed) && SettledOk(rows', d.settled)
  {
  }

  lemma MarkKeepsNoted(cfg: Config, noted: map<CommandId, Time>, rows: Rows, t: Row, stage: Stage, outcome: Outcome, item: PendingCommand, now: Time, wall: Time)
    requires item.commandId in rows && NotedOk(rows, noted)
    requires MarkedAs(cfg, stage, outcome, item, rows[item.commandId], t, now, wall)
    ensures NotedOk(rows[item.commandId := t], MarkedNoted(noted, stage, outcome, item.commandId, now))
  {
    assert t.status.Published? <==> stage.TimeoutStage? || (stage.DispatchStage? && !outcome.Refused?);
  }

  lemma MarkKeepsFailing(cfg: Config, failing: map<CommandId, Failing>, rows: Rows, t: Row, stage: Stage, outcome: Outcome, item: PendingCommand, now: Time, wall: Time)
    requires item.commandId in rows && FailingOk(rows, failing)
    requires MarkedAs(cfg, stage, outcome, item, rows[item.commandId], t, now, wall)
    ensures FailingOk(rows[item.commandId := t], MarkedFailing(cfg, failing, stage, outcome, item, now))
  {
    var c, failing' := item.commandId, MarkedFailing(cfg, failing, stage, outcome, item, now);
    assert forall x :: x in failing && x != c ==> x in failing' && failing'[x] == failing[x];
    assert t.status.Finalizing? ==>
      c in failing' && t.nextAttemptAt == Some(failing'[c].due) && t.lastError == Some(failing'[c].error);
  }

  lemma MarkKeepsWaiting(cfg: Config, retries: Retries, rows: Rows, t: Row, stage: Stage, outcome: Outcome, item: PendingCommand, now: Time, wall: Time)
    requires item.commandId in rows && rows[item.commandId].publishAttempts == item.publishAttempts && WaitingOk(cfg, rows, retries)
    requires MarkedAs(cfg, stage, outcome, item, rows[item.commandId], t, now, wall)
    ensures WaitingOk(cfg, rows[item.commandId := t], MarkedRetries(cfg, retries, stage, outcome, item, now, wall))
  {
    assert t.status.Retrying? <==> Repeats(cfg, stage, outcome, item);
  }

  lemma MarkRowsTold(cfg: Config, d: Diary, rows: Rows, t: Row, stage: Stage, outcome: Outcome, item: PendingCommand, now: Time, wall: Time)
    requires item.commandId in rows && rows[item.commandId].publishAttempts == item.publishAttempts
    requires MarkedAs(cfg, stage, outcome, item, rows[item.commandId], t, now, wall) && RowsTold(cfg, rows, d)
    ensures RowsTold(cfg, rows[item.commandId := t], NoteMarked(cfg, d, stage, outcome, item, now, wall))
  {
    MarkKeepsPlain(cfg, d, rows, item.commandId, t);
    MarkKeepsNoted(cfg, d.noted, rows, t, stage, outcome, item, now, wall);
    MarkKeepsFailing(cfg, d.failing, rows, t, stage, outcome, item, now, wall);
    MarkKeepsWaiting(cfg, d.retries, rows, t, stage, outcome, item, now, wall);
  }

  /** A retry noted for the command's current attempt. */
  lemma RetryAdded(cfg: Config, rows: Rows, c: CommandId, t: Row, now: Time, k: Retry, retries: Retries, sends: Sends, tries: Tries, reclaims: Count)
    requires c in rows && t.publishAttempts == rows[c].publishAttempts && t.publishAttempts >= 1 && !t.status.Publishing?
    requires rows[c].status.Publishing? && k.at == now
    requires RetriesOk(rows, retries, sends, now) && TriesOk(rows, tries, now) && SendsOk(sends, tries, now)
    requires Spaced(cfg, reclaims, tries, retries) && (c, t.publishAttempts) in sends
    ensures RetriesOk(rows[c := t], retries[(c, t.publishAttempts) := k], sends, now)
    ensures Spaced(cfg, reclaims, tries, retries[(c, t.publishAttempts) := k])
  {
    var n := t.publishAttempts;
    assert (c, n) !in retries;
    forall x, m: nat | m >= 2 && (x, m) in tries && reclaims[x] == 0
      ensures Apart(cfg, tries, retries[(c, n) := k], x, m)
    {
      assert Apart(cfg, tries, retries, x, m);
    }
  }

  /** Any other mark. */
  lemma RetriesStay(rows: Rows, c: CommandId, t: Row, now: Time, retries: Retries, sends: Sends)
    requires c in rows && t.publishAttempts == rows[c].publishAttempts && !t.status.Publishing?
    requires RetriesOk(rows, retries, sends, now)
    ensures RetriesOk(rows[c := t], retries, sends, now)
  {
  }

  lemma TriesStay(rows: Rows, c: CommandId, t: Row, now: Time, tries: Tries)
    requires c in rows && t.publishAttempts == rows[c].publishAttempts && t.lastAttemptAt == rows[c].lastAttemptAt
    requires TriesOk(rows, tries, now)
    ensures TriesOk(rows[c := t], tries, now)
  {
  }

  lemma MarkRetries(cfg: Config, rows: Rows, t: Row, stage: Stage, outcome: Outcome, item: PendingCommand, now: Time, wall: Time,
                    retries: Retries, sends: Sends, tries: Tries, reclaims: Count)
    requires item.commandId in rows && rows[item.commandId].publishAttempts == item.publishAttempts
    requires MarkedAs(cfg, stage, outcome, item, rows[item.commandId], t, now, wall)
    requires RetriesOk(rows, retries, sends, now) && TriesOk(rows, tries, now) && SendsOk(sends, tries, now)
    requires Spaced(cfg, reclaims, tries, retries) && (stage.DispatchStage? ==> KeyOf(item) in sends)
    ensures var rows', retries' := rows[item.commandId := t], MarkedRetries(cfg, retries, stage, outcome, item, now, wall);
      RetriesOk(rows', retries', sends, now) && TriesOk(rows', tries, now) && Spaced(cfg, reclaims, tries, retries')
  {
    var c := item.commandId;
    TriesStay(rows, c, t, now, tries);
    if Repeats(cfg, stage, outcome, item) {
      RetryAdded(cfg, rows, c, t, now, Retry(wall, now, outcome.error), retries, sends, tries, reclaims);
    } else {
      RetriesStay(rows, c, t, now, retries, sends);
    }
  }

  /** Going on to the next item. */
  lemma PopHolds(gateways: map<Owner, Gateway>, g: Owner, tries: Tries, sends: Sends, reports: set<Take>)
    requires g in gateways && gateways[g].batch != []
    ensures HoldsTries(gateways, tries, sends) ==> HoldsTries(gateways[g := Pop(gateways[g])], tries, sends)
    ensures HoldsTakes(gateways, reports) ==> HoldsTakes(gateways[g := Pop(gateways[g])], reports)
  {
    var gw, gateways' := gateways[g], gateways[g := Pop(gateways[g])];
    assert forall i :: 0 <= i < |gw.batch[1..]| ==> gw.batch[1..][i] == gw.batch[i + 1];
    if HoldsTries(gateways, tries, sends) {
      forall o, i | o in gateways' && gateways'[o].stage.DispatchStage? && 0 <= i < |gateways'[o].batch|
        ensures HoldsTry(gateways'[o], o, i, tries, sends)
      {
        assert HoldsTry(gateways[o], o, if o == g then i + 1 else i, tries, sends);
      }
    }
    if HoldsTakes(gateways, reports) {
      forall o, i | o in gateways' && !gateways'[o].stage.DispatchStage? && 0 <= i < |gateways'[o].batch|
        ensures HoldsTake(gateways'[o], i, reports)
      {
        assert HoldsTake(gateways[o], if o == g then i + 1 else i, reports);
      }
    }
  }

  lemma RetryEventNoted(cfg: Config, rows: Rows, rows': Rows, events: Events, retries: Retries, c: CommandId, n: nat, r: Retry)
    requires RetryEventsOk(cfg, rows, events, retries) && c in rows && n >= 1 && (c, n) !in retries
    requires forall x :: x in rows ==> x in rows' && rows'[x].deviceId == rows[x].deviceId
    ensures RetryEventsOk(cfg, rows', PutEvent(events, RetryOf(c, n), RetryEvent(cfg, c, n, rows[c].deviceId, r)), retries[(c, n) := r])
  {
    var k, e := RetryOf(c, n), RetryEvent(cfg, c, n, rows[c].deviceId, r);
    var events', retries' := PutEvent(events, k, e), retries[(c, n) := r];
    assert k !in events;
    PutFrame(events, {}, k, e);
    forall x, m: nat | RetryOf(x, m) in events' ensures RetryEventTold(cfg, rows', events'[RetryOf(x, m)], retries', x, m) {
      if RetryOf(x, m) != k {
        assert RetryEventTold(cfg, rows, events[RetryOf(x, m)], retries, x, m);
      }
    }
  }

  lemma RetryEventsMarked(cfg: Config, rows: Rows, rows': Rows, events: Events, events': Events, retries: Retries, sends: Sends,
                          stage: Stage, outcome: Outcome, item: PendingCommand, now: Time, wall: Time)
    requires stage.DispatchStage? ==> item.publishAttempts >= 1
    requires item.commandId in rows && item.deviceId == rows[item.commandId].deviceId
    requires rows[item.commandId].publishAttempts == item.publishAttempts
    requires Repeats(cfg, stage, outcome, item) ==> rows[item.commandId].status.Publishing?
    requires forall x :: x in rows ==> x in rows' && rows'[x].deviceId == rows[x].deviceId
    requires RetryEventsOk(cfg, rows, events, retries) && RetriesOk(rows, retries, sends, now)
    requires var c, n := item.commandId, item.publishAttempts;
      events' ==
        if Repeats(cfg, stage, outcome, item) then
          PutEvent(events, RetryOf(c, n), RetryEvent(cfg, c, n, item.deviceId, Retry(wall, now, outcome.error)))
        else events
    ensures RetryEventsOk(cfg, rows', events', MarkedRetries(cfg, retries, stage, outcome, item, now, wall))
  {
    if Repeats(cfg, stage, outcome, item) {
      RetryEventNoted(cfg, rows, rows', events, retries, item.commandId, item.publishAttempts, Retry(wall, now, outcome.error));
    } else {
      RetryEventsKept(cfg, rows, rows', events, retries);
    }
  }

  lemma MarkRetryEvents(cfg: Config, db: CommandDb, retries: Retries, sends: Sends, stage: Stage, outcome: Outcome, item: PendingCommand,
                        g: Owner, now: Time, wall: Time)
    requires stage.DispatchStage? ==> item.publishAttempts >= 1
    requires item.commandId in db.rows && item.deviceId == db.rows[item.commandId].deviceId
    requires db.rows[item.commandId].publishAttempts == item.publishAttempts
    requires RetryEventsOk(cfg, db.rows, db.events, retries) && RetriesOk(db.rows, retries, sends, now)
    ensures var m := MarkHead(cfg, db, stage, outcome, item, g, now, wall);
      m.Some? ==> RetryEventsOk(cfg, m.value.rows, m.value.events, MarkedRetries(cfg, retries, stage, outcome, item, now, wall))
  {
    MarkMeans(cfg, db, stage, outcome, item, g, now, wall);
    MarkMeansEvents(cfg, db, stage, outcome, item, g, now, wall);
    var m := MarkHead(cfg, db, stage, outcome, item, g, now, wall);
    if m.Some? {
      MarkKeepsDevices(cfg, db.rows, m.value.rows, stage, outcome, item, now, wall);
      RetryEventsMarked(cfg, db.rows, m.value.rows, db.events, m.value.events, retries, sends, stage, outcome, item, now, wall);
    }
  }

  lemma MarkKeepsDevices(cfg: Config, rows: Rows, rows': Rows, stage: Stage, outcome: Outcome, item: PendingCommand, now: Time, wall: Time)
    requires item.commandId in rows && item.commandId in rows' && rows' == rows[item.commandId := rows'[item.commandId]]
    requires MarkedAs(cfg, stage, outcome, item, rows[item.commandId], rows'[item.commandId], now, wall)
    ensures forall x :: x in rows ==> x in rows' && rows'[x].deviceId == rows[x].deviceId
  {
  }

  /** What the head of a batch is, when it is marked. */
  lemma MarkedItem(cfg: Config, s: System, d: Diary, g: Owner, wall: Time)
    requires Commands.ValidConfig(cfg) && Inv(cfg, s) && HoldsTries(s.gateways, d.tries, d.sends) && Enabled(cfg, s, Mark(g, wall))
    ensures var gw := s.gateways[g];
      var item := gw.batch[0].item;
      && item.commandId in s.db.rows && item.deviceId == s.db.rows[item.commandId].deviceId && item.publishAttempts >= 1
      && (s.db.rows[item.commandId].dispatchOwner == Some(g) ==> s.db.rows[item.commandId].publishAttempts == item.publishAttempts)
      && (gw.stage.DispatchStage? ==> KeyOf(item) in d.sends)
  {
    var gw := s.gateways[g];
    assert GatewayOk(s.db.rows, s.past.claims, s.now, g, gw);
    assert HeldOk(s.db.rows, s.past.claims, s.now, g, gw.stage, gw.batch[0]);
    if gw.stage.DispatchStage? {
      assert HoldsTry(gw, g, 0, d.tries, d.sends);
    }
  }

  lemma MarkParts(cfg: Config, s: System, g: Owner, wall: Time)
    requires Enabled(cfg, s, Mark(g, wall))
    ensures var gw, t := s.gateways[g], AfterMark(cfg, s, g, wall);
      var m := MarkHead(cfg, s.db, gw.stage, gw.outcome, gw.batch[0].item, g, s.now, wall);
      && t.db == (if m.Some? then m.value else s.db)
      && t.gateways == s.gateways[g := Pop(gw)]
      && t.now == s.now && t.log == s.log && t.past == s.past
  {
  }

  lemma MarkTables(cfg: Config, db: CommandDb, d: Diary, stage: Stage, outcome: Outcome, item: PendingCommand, g: Owner, now: Time, wall: Time, reclaims: Count)
    requires item.publishAttempts >= 1 && item.commandId in db.rows && item.deviceId == db.rows[item.commandId].deviceId
    requires db.rows[item.commandId].dispatchOwner == Some(g) ==> db.rows[item.commandId].publishAttempts == item.publishAttempts
    requires stage.DispatchStage? ==> KeyOf(item) in d.sends
    requires RowsTold(cfg, db.rows, d) && RetryEventsOk(cfg, db.rows, db.events, d.retries)
    requires RetriesOk(db.rows, d.retries, d.sends, now) && TriesOk(db.rows, d.tries, now) && SendsOk(d.sends, d.tries, now)
    requires Spaced(cfg, reclaims, d.tries, d.retries)
    ensures var m := MarkHead(cfg, db, stage, outcome, item, g, now, wall);
      m.Some? ==>
        var e := NoteMark(d, db.rows, m.value.rows, item, outcome, now, wall);
        && e == NoteMarked(cfg, d, stage, outcome, item, now, wall)
        && RowsTold(cfg, m.value.rows, e) && RetryEventsOk(cfg, m.value.rows, m.value.events, e.retries)
        && RetriesOk(m.value.rows, e.retries, d.sends, now) && TriesOk(m.value.rows, d.tries, now)
        && Spaced(cfg, reclaims, d.tries, e.retries)
  {
    var m := MarkHead(cfg, db, stage, outcome, item, g, now, wall);
    if m.Some? {
      MarkMeans(cfg, db, stage, outcome, item, g, now, wall);
      var t := m.value.rows[item.commandId];
      MarkIsNoted(cfg, d, db.rows, m.value.rows, g, stage, outcome, item, now, wall);
      MarkRowsTold(cfg, d, db.rows, t, stage, outcome, item, now, wall);
      MarkRetries(cfg, db.rows, t, stage, outcome, item, now, wall, d.retries, d.sends, d.tries, reclaims);
      MarkRetryEvents(cfg, db, d.retries, d.sends, stage, outcome, item, g, now, wall);
    }
  }

  lemma MarkDiary(cfg: Config, s: System, d: Diary, g: Owner, wall: Time)
    requires Commands.ValidConfig(cfg) && Inv(cfg, s) && DiaryOk(cfg, s, d) && Enabled(cfg, s, Mark(g, wall))
    ensures var gw, t := s.gateways[g], AfterMark(cfg, s, g, wall);
      DiaryOk(cfg, t, NoteMark(d, s.db.rows, t.db.rows, gw.batch[0].item, gw.outcome, s.now, wall))
  {
    var gw := s.gateways[g];
    MarkedItem(cfg, s, d, g, wall);
    MarkParts(cfg, s, g, wall);
    PopHolds(s.gateways, g, d.tries, d.sends, d.reports);
    MarkTables(cfg, s.db, d, gw.stage, gw.outcome, gw.batch[0].item, g, s.now, wall, s.past.reclaims);
  }

  // ---- New commands --------------------------------------------------------------------------------

  lemma CreateParts(db: CommandDb, payload: Command, at: Time)
    ensures var c, t := payload.commandId, CreateCommand(db, payload.deviceId, payload, at);
      && (c in db.rows ==> t.rows == db.rows)
      && (c !in db.rows ==>
           && c in t.rows && t.rows == db.rows[c := t.rows[c]]
           && t.rows[c].status.Pending? && t.rows[c].requestedAt == at && t.rows[c].publishAttempts == 0 && t.rows[c].leaseUntil.None?)
      && (forall x, n: nat :: RetryOf(x, n) in t.events <==> RetryOf(x, n) in db.events)
      && (forall x, n: nat :: RetryOf(x, n) in t.events ==> t.events[RetryOf(x, n)] == db.events[RetryOf(x, n)])
  {
  }

  lemma NewRowTold(cfg: Config, rows: Rows, c: CommandId, t: Row, at: Time, d: Diary)
    requires c !in rows && t.status.Pending? && t.requestedAt == at && t.leaseUntil.None? && RowsTold(cfg, rows, d)
    ensures RowsTold(cfg, rows[c := t], d.(created := d.created[c := at]))
  {
    NewRowPlain(cfg, rows, c, t, d);
    assert c !in d.settled;
    assert CreatedOk(rows[c := t], d.created[c := at]);
  }

  lemma NewRowPlain(cfg: Config, rows: Rows, c: CommandId, t: Row, d: Diary)
    requires c !in rows && t.status.Pending? && t.leaseUntil.None?
    requires NotedOk(rows, d.noted) && FailingOk(rows, d.failing) && LeasedOk(cfg, rows, d.claimed) && WaitingOk(cfg, rows, d.retries)
    ensures var rows' := rows[c := t];
      NotedOk(rows', d.noted) && FailingOk(rows', d.failing) && LeasedOk(cfg, rows', d.claimed) && WaitingOk(cfg, rows', d.retries)
  {
    NewRowWaits(cfg, rows, c, t, d.retries);
  }

  lemma NewRowWaits(cfg: Config, rows: Rows, c: CommandId, t: Row, retries: Retries)
    requires c !in rows && t.status.Pending? && WaitingOk(cfg, rows, retries)
    ensures WaitingOk(cfg, rows[c := t], retries)
  {
  }

  lemma NewRowAttempts(cfg: Config, rows: Rows, c: CommandId, t: Row, now: Time, gateways: map<Owner, Gateway>, reclaims: Count,
                       tries: Tries, sends: Sends, retries: Retries)
    requires c !in rows && t.publishAttempts == 0 && AttemptsTold(cfg, rows, now, gateways, reclaims, tries, sends, retries)
    ensures AttemptsTold(cfg, rows[c := t], now, gateways, reclaims, tries, sends, retries)
  {
  }

  lemma RetryEventsFrame(cfg: Config, rows: Rows, rows': Rows, events: Events, events': Events, retries: Retries)
    requires RetryEventsOk(cfg, rows, events, retries)
    requires forall c :: c in rows ==> c in rows' && rows'[c].deviceId == rows[c].deviceId
    requires forall c, n: nat :: RetryOf(c, n) in events' ==> RetryOf(c, n) in events && events'[RetryOf(c, n)] == events[RetryOf(c, n)]
    ensures RetryEventsOk(cfg, rows', events', retries)
  {
  }

  lemma CreateDiary(cfg: Config, s: System, d: Diary, payload: Command, at: Time)
    requires DiaryOk(cfg, s, d)
    ensures var t := s.(db := CreateCommand(s.db, payload.deviceId, payload, at));
      DiaryOk(cfg, t, NoteCreate(d, s.db.rows, payload.commandId, at))
  {
    var c, db := payload.commandId, CreateCommand(s.db, payload.deviceId, payload, at);
    CreateParts(s.db, payload, at);
    RetryEventsFrame(cfg, s.db.rows, db.rows, s.db.events, db.events, d.retries);
    if c !in s.db.rows {
      NewRowTold(cfg, s.db.rows, c, db.rows[c], at, d);
      NewRowAttempts(cfg, s.db.rows, c, db.rows[c], s.now, s.gateways, s.past.reclaims, d.tries, d.sends, d.retries);
    }
  }

  // ---- Sending and reporting -----------------------------------------------------------------------

  lemma SendHoldsTries(now: Time, gateways: map<Owner, Gateway>, g: Owner, outcome: Outcome, tries: Tries, sends: Sends)
    requires g in gateways && gateways[g].stage.DispatchStage? && gateways[g].batch != [] && gateways[g].outcome == Unsent && outcome != Unsent
    requires BatchDistinct(gateways[g].batch) && HoldsTries(gateways, tries, sends)
    ensures var key := KeyOf(gateways[g].batch[0].item);
      && key in tries && key !in sends
      && HoldsTries(gateways[g := gateways[g].(outcome := outcome)], tries, sends[key := now])
  {
    var key := KeyOf(gateways[g].batch[0].item);
    assert HoldsTry(gateways[g], g, 0, tries, sends);
    var gateways', sends' := gateways[g := gateways[g].(outcome := outcome)], sends[key := now];
    forall o, i | o in gateways' && gateways'[o].stage.DispatchStage? && 0 <= i < |gateways'[o].batch|
      ensures HoldsTry(gateways'[o], o, i, tries, sends')
    {
      assert HoldsTry(gateways[o], o, i, tries, sends);
      assert o == g && i > 0 ==> gateways[g].batch[0].item.commandId != gateways[g].batch[i].item.commandId;
    }
  }

  lemma OutcomeHolds(gateways: map<Owner, Gateway>, g: Owner, outcome: Outcome, tries: Tries, sends: Sends, reports: set<Take>)
    requires g in gateways
    ensures HoldsTakes(gateways, reports) ==> HoldsTakes(gateways[g := gateways[g].(outcome := outcome)], reports)
    ensures HoldsTries(gateways, tries, sends) && !gateways[g].stage.DispatchStage? ==>
              HoldsTries(gateways[g := gateways[g].(outcome := outcome)], tries, sends)
  {
    var gateways' := gateways[g := gateways[g].(outcome := outcome)];
    if HoldsTakes(gateways, reports) {
      forall o, i | o in gateways' && !gateways'[o].stage.DispatchStage? && 0 <= i < |gateways'[o].batch|
        ensures HoldsTake(gateways'[o], i, reports)
      {
        assert HoldsTake(gateways[o], i, reports);
      }
    }
    if HoldsTries(gateways, tries, sends) && !gateways[g].stage.DispatchStage? {
      forall o, i | o in gateways' && gateways'[o].stage.DispatchStage? && 0 <= i < |gateways'[o].batch|
        ensures HoldsTry(gateways'[o], o, i, tries, sends)
      {
        assert HoldsTry(gateways[o], o, i, tries, sends);
      }
    }
  }

  lemma SendKeepsAttempts(rows: Rows, now: Time, key: (CommandId, nat), tries: Tries, sends: Sends, retries: Retries)
    requires RetriesOk(rows, retries, sends, now) && TriesOk(rows, tries, now) && SendsOk(sends, tries, now)
    requires key in tries && key !in sends
    ensures RetriesOk(rows, retries, sends[key := now], now) && SendsOk(sends[key := now], tries, now)
  {
    var (c, k) := key;
    assert tries[(c, k)].at <= now;
  }

  /** What a publish with its note changes. */
  ghost predicate Published(s: System, d: Diary, g: Owner, outcome: Outcome, t: System, e: Diary)
    requires g in s.gateways && s.gateways[g].batch != []
  {
    && t.db == s.db && t.now == s.now && t.log == s.log && t.past == s.past
    && t.gateways == s.gateways[g := s.gateways[g].(outcome := outcome)]
    && e == d.(sends := d.sends[KeyOf(s.gateways[g].batch[0].item) := s.now])
  }

  lemma PublishParts(cfg: Config, s: System, d: Diary, step: Step)
    requires Enabled(cfg, s, step) && step.Publish?
    ensures Published(s, d, step.g, if step.ok then Sent else Refused(step.error), After(cfg, s, step), Note(cfg, s, step, d))
  {
  }

  lemma PublishAttempts(cfg: Config, s: System, d: Diary, g: Owner, outcome: Outcome)
    requires g in s.gateways && s.gateways[g].stage.DispatchStage? && s.gateways[g].batch != [] && s.gateways[g].outcome == Unsent
    requires outcome != Unsent && BatchDistinct(s.gateways[g].batch)
    requires AttemptsTold(cfg, s.db.rows, s.now, s.gateways, s.past.reclaims, d.tries, d.sends, d.retries)
    ensures var key := KeyOf(s.gateways[g].batch[0].item);
      && key !in d.sends
      && AttemptsTold(cfg, s.db.rows, s.now, s.gateways[g := s.gateways[g].(outcome := outcome)], s.past.reclaims, d.tries, d.sends[key := s.now], d.retries)
  {
    SendHoldsTries(s.now, s.gateways, g, outcome, d.tries, d.sends);
    SendKeepsAttempts(s.db.rows, s.now, KeyOf(s.gateways[g].batch[0].item), d.tries, d.sends, d.retries);
  }

  /** No attempt is published twice. */
  lemma PublishIsNew(cfg: Config, s: System, d: Diary, step: Step)
    requires Commands.ValidConfig(cfg) && Inv(cfg, s) && DiaryOk(cfg, s, d) && Enabled(cfg, s, step) && step.Publish?
    ensures KeyOf(s.gateways[step.g].batch[0].item) !in d.sends
  {
    assert HoldsTry(s.gateways[step.g], step.g, 0, d.tries, d.sends);
  }

  lemma PublishedDiary(cfg: Config, s: System, d: Diary, g: Owner, outcome: Outcome, t: System, e: Diary)
    requires DiaryOk(cfg, s, d) && g in s.gateways && s.gateways[g].stage.DispatchStage? && s.gateways[g].batch != []
    requires s.gateways[g].outcome == Unsent && outcome != Unsent && BatchDistinct(s.gateways[g].batch)
    requires Published(s, d, g, outcome, t, e)
    ensures DiaryOk(cfg, t, e)
  {
    OutcomeHolds(s.gateways, g, outcome, d.tries, d.sends, d.reports);
    PublishAttempts(cfg, s, d, g, outcome);
  }

  lemma PublishDiary(cfg: Config, s: System, d: Diary, step: Step)
    requires Commands.ValidConfig(cfg) && Inv(cfg, s) && DiaryOk(cfg, s, d) && Enabled(cfg, s, step) && step.Publish?
    ensures DiaryOk(cfg, After(cfg, s, step), Note(cfg, s, step, d))
  {
    assert GatewayOk(s.db.rows, s.past.claims, s.now, step.g, s.gateways[step.g]);
    PublishParts(cfg, s, d, step);
    PublishedDiary(cfg, s, d, step.g, if step.ok then Sent else Refused(step.error), After(cfg, s, step), Note(cfg, s, step, d));
  }

  lemma ReportTells(stage: Stage, item: PendingCommand, at: Time, reports: set<Take>)
    requires !stage.DispatchStage? && HasTake(reports, stage, item)
    ensures exists k :: k in reports && Tells(k, FailureReport(stage, item, at))
  {
    var k :| k in reports && TakenFor(k, stage, item);
    assert Tells(k, FailureReport(stage, item, at));
  }

  lemma LogTold(log: seq<CommandResult>, answers: set<CommandResult>, reports: set<Take>, r: CommandResult)
    requires LogOk(log, answers, reports) && (r in answers || exists k :: k in reports && Tells(k, r))
    ensures LogOk(log + [r], answers, reports)
  {
    forall i | 0 <= i < |log + [r]| ensures (log + [r])[i] in answers || exists k :: k in reports && Tells(k, (log + [r])[i]) {
      assert i < |log| ==> (log + [r])[i] == log[i];
    }
  }

  lemma ReportDiary(cfg: Config, s: System, d: Diary, step: Step)
    requires DiaryOk(cfg, s, d) && Enabled(cfg, s, step) && step.Report?
    ensures DiaryOk(cfg, After(cfg, s, step), Note(cfg, s, step, d))
  {
    var g, at := step.g, step.at;
    var gw := s.gateways[g];
    assert HoldsTake(gw, 0, d.reports);
    ReportTells(gw.stage, gw.batch[0].item, at, d.reports);
    LogTold(s.log, s.past.answers, d.reports, FailureReport(gw.stage, gw.batch[0].item, at));
    OutcomeHolds(s.gateways, g, Sent, d.tries, d.sends, d.reports);
    PopHolds(s.gateways, g, d.tries, d.sends, d.reports);
  }

  // ---- The device and the log ----------------------------------------------------------------------

  lemma FirstAnswerPlain(p: Sim.Process, command: Command, injected: bool, at: Time)
    requires command.deviceId in p.states
    ensures Sim.FirstAnswer(p, command, injected, at).failureCode.None?
  {
  }

  lemma DeliverParts(s: System, command: Command, injected: bool, at: Time)
    requires CacheIssued(s.device.results, s.lifetime, s.past.issued) && PlainAnswers(s.past.answers)
    requires forall l, r :: (l, r) in s.past.issued ==> r in s.past.answers
    ensures var t := AfterDeliver(s, command, injected, at);
      && t.db == s.db && t.now == s.now && t.gateways == s.gateways && t.log == s.log && t.past.reclaims == s.past.reclaims
      && PlainAnswers(t.past.answers) && s.past.answers <= t.past.answers
  {
    var c := command.commandId;
    if Sim.Accepts(s.device, command.deviceId, Sim.Message("command.v1", command)) {
      if c in s.device.results {
        assert (s.lifetime, s.device.results[c]) in s.past.issued;
      } else {
        FirstAnswerPlain(s.device, command, injected, at);
      }
    }
  }

  lemma DeliverDiary(cfg: Config, s: System, d: Diary, command: Command, injected: bool, at: Time)
    requires Commands.ValidConfig(cfg) && Inv(cfg, s) && DiaryOk(cfg, s, d)
    ensures DiaryOk(cfg, AfterDeliver(s, command, injected, at), d)
  {
    DeliverParts(s, command, injected, at);
    LogMoreAnswers(s.log, s.past.answers, AfterDeliver(s, command, injected, at).past.answers, d.reports);
  }

  lemma LogMoreAnswers(log: seq<CommandResult>, answers: set<CommandResult>, answers': set<CommandResult>, reports: set<Take>)
    requires LogOk(log, answers, reports) && answers <= answers'
    ensures LogOk(log, answers', reports)
  {
  }

  lemma SettleRowsTold(cfg: Config, rows: Rows, c: CommandId, t: Row, d: Diary)
    requires c in rows && !Terminal(rows[c].status) && Terminal(t.status)
    requires t.requestedAt == rows[c].requestedAt && t.leaseUntil == rows[c].leaseUntil && RowsTold(cfg, rows, d)
    ensures RowsTold(cfg, rows[c := t], d.(settled := d.settled + [c]))
  {
    SettledNext(rows, c, t, d.settled);
    assert CreatedOk(rows[c := t], d.created) && LeasedOk(cfg, rows[c := t], d.claimed);
  }

  lemma SettledNext(rows: Rows, c: CommandId, t: Row, settled: seq<CommandId>)
    requires c in rows && !Terminal(rows[c].status) && Terminal(t.status) && SettledOk(rows, settled)
    ensures SettledOk(rows[c := t], settled + [c])
  {
    assert c !in settled;
    assert forall x :: x in settled + [c] <==> x in settled || x == c;
  }

  lemma SettleAttempts(cfg: Config, rows: Rows, c: CommandId, t: Row, now: Time, gateways: map<Owner, Gateway>, reclaims: Count,
                       tries: Tries, sends: Sends, retries: Retries)
    requires c in rows && Terminal(t.status) && t.publishAttempts == rows[c].publishAttempts && t.lastAttemptAt == rows[c].lastAttemptAt
    requires AttemptsTold(cfg, rows, now, gateways, reclaims, tries, sends, retries)
    ensures AttemptsTold(cfg, rows[c := t], now, gateways, reclaims, tries, sends, retries)
  {
    TriesStay(rows, c, t, now, tries);
    RetriesStay(rows, c, t, now, retries, sends);
  }

  lemma SettleParts(cfg: Config, s: System, i: nat)
    requires Commands.ValidConfig(cfg) && Inv(cfg, s) && i < |s.log|
    ensures var t, c := AfterSettle(s, i), s.log[i].commandId;
      && c in s.db.rows && t.now == s.now && t.gateways == s.gateways && t.log == s.log
      && t.past.reclaims == s.past.reclaims && t.past.answers == s.past.answers
      && (Terminal(s.db.rows[c].status) ==> t.db == s.db)
      && (!Terminal(s.db.rows[c].status) ==>
          && c in t.db.rows && t.db.rows == s.db.rows[c := t.db.rows[c]]
          && (var r := t.db.rows[c];
              && Terminal(r.status) && r.deviceId == s.db.rows[c].deviceId && r.requestedAt == s.db.rows[c].requestedAt
              && r.leaseUntil == s.db.rows[c].leaseUntil && r.lastAttemptAt == s.db.rows[c].lastAttemptAt
              && r.publishAttempts == s.db.rows[c].publishAttempts)
          && (forall k :: k in t.db.events && k != TerminalOf(c) ==> k in s.db.events && t.db.events[k] == s.db.events[k]))
  {
    assert Credible(s.db.rows, s.past.answers, s.log[i]);
    SettledRow(cfg, s.db, s.log[i], s.now);
  }

  lemma SettleTables(cfg: Config, rows: Rows, rows': Rows, events: Events, events': Events, c: CommandId, now: Time,
                     gateways: map<Owner, Gateway>, reclaims: Count, d: Diary)
    requires c in rows && c in rows' && !Terminal(rows[c].status) && rows' == rows[c := rows'[c]]
    requires Terminal(rows'[c].status) && rows'[c].deviceId == rows[c].deviceId && rows'[c].requestedAt == rows[c].requestedAt
    requires rows'[c].leaseUntil == rows[c].leaseUntil && rows'[c].lastAttemptAt == rows[c].lastAttemptAt
    requires rows'[c].publishAttempts == rows[c].publishAttempts
    requires forall k :: k in events' && k != TerminalOf(c) ==> k in events && events'[k] == events[k]
    requires RowsTold(cfg, rows, d) && AttemptsTold(cfg, rows, now, gateways, reclaims, d.tries, d.sends, d.retries)
    requires RetryEventsOk(cfg, rows, events, d.retries)
    ensures var e := NoteSettle(d, rows, rows', c);
      && e == d.(settled := d.settled + [c])
      && RowsTold(cfg, rows', e) && AttemptsTold(cfg, rows', now, gateways, reclaims, d.tries, d.sends, d.retries)
      && RetryEventsOk(cfg, rows', events', d.retries)
  {
    SettleRowsTold(cfg, rows, c, rows'[c], d);
    SettleAttempts(cfg, rows, c, rows'[c], now, gateways, reclaims, d.tries, d.sends, d.retries);
    RetryEventsFrame(cfg, rows, rows', events, events', d.retries);
  }

  lemma SettleDiary(cfg: Config, s: System, d: Diary, i: nat)
    requires Commands.ValidConfig(cfg) && Inv(cfg, s) && DiaryOk(cfg, s, d) && i < |s.log|
    ensures var t := AfterSettle(s, i); DiaryOk(cfg, t, NoteSettle(d, s.db.rows, t.db.rows, s.log[i].commandId))
  {
    var t, c := AfterSettle(s, i), s.log[i].commandId;
    SettleParts(cfg, s, i);
    if !Terminal(s.db.rows[c].status) {
      SettleTables(cfg, s.db.rows, t.db.rows, s.db.events, t.db.events, c, s.now, s.gateways, s.past.reclaims, d);
    }
  }

  // ---- All steps -----------------------------------------------------------------------------------

  /** Starting a gateway, losing a mark, ending a batch. */
  lemma LoopDiary(cfg: Config, s: System, d: Diary, step: Step)
    requires DiaryOk(cfg, s, d) && Enabled(cfg, s, step) && (step.Start? || step.MarkFails? || step.EndBatch?)
    ensures DiaryOk(cfg, After(cfg, s, step), d)
  {
    if step.MarkFails? {
      PopHolds(s.gateways, step.g, d.tries, d.sends, d.reports);
    } else {
      var gw := if step.Start? then IDLE else AfterEndBatch(s, step.g).gateways[step.g];
      EmptyHolds(s.gateways, step.g, gw, d.tries, d.sends, d.reports);
    }
  }

  lemma EmptyHolds(gateways: map<Owner, Gateway>, g: Owner, gw: Gateway, tries: Tries, sends: Sends, reports: set<Take>)
    requires gw.batch == [] && HoldsTries(gateways, tries, sends) && HoldsTakes(gateways, reports)
    ensures HoldsTries(gateways[g := gw], tries, sends) && HoldsTakes(gateways[g := gw], reports)
  {
    var gateways' := gateways[g := gw];
    forall o, i | o in gateways' && !gateways'[o].stage.DispatchStage? && 0 <= i < |gateways'[o].batch|
      ensures HoldsTake(gateways'[o], i, reports)
    {
      assert HoldsTake(gateways[o], i, reports);
    }
  }

  lemma QuietDiary(cfg: Config, s: System, d: Diary, step: Step)
    requires Commands.ValidConfig(cfg) && Inv(cfg, s) && DiaryOk(cfg, s, d) && Enabled(cfg, s, step)
    requires step.Advance? || step.Ambient? || step.Restart? || step.Forward?
    ensures DiaryOk(cfg, After(cfg, s, step), d)
  {
    if step.Forward? {
      LogTold(s.log, s.past.answers, d.reports, step.ack);
    } else if step.Ambient? {
      assert forall c, n: nat :: IsCommandKey(RetryOf(c, n));
      RetryEventsFrame(cfg, s.db.rows, s.db.rows, s.db.events, step.events, d.retries);
    }
  }

  lemma ClaimStepDiary(cfg: Config, s: System, d: Diary, step: Step)
    requires Commands.ValidConfig(cfg) && Inv(cfg, s) && DiaryOk(cfg, s, d) && Enabled(cfg, s, step) && (step.Claim? || step.ClaimUnseen?)
    ensures DiaryOk(cfg, After(cfg, s, step), Note(cfg, s, step, d))
  {
    ClaimDiary(cfg, s, d, step.g, step.locked, step.chosen, step.Claim?);
  }

  lemma MarkStepDiary(cfg: Config, s: System, d: Diary, step: Step)
    requires Commands.ValidConfig(cfg) && Inv(cfg, s) && DiaryOk(cfg, s, d) && Enabled(cfg, s, step) && step.Mark?
    ensures DiaryOk(cfg, After(cfg, s, step), Note(cfg, s, step, d))
  {
    MarkDiary(cfg, s, d, step.g, step.wall);
  }

  lemma TableStepDiary(cfg: Config, s: System, d: Diary, step: Step)
    requires Commands.ValidConfig(cfg) && Inv(cfg, s) && DiaryOk(cfg, s, d) && Enabled(cfg, s, step) && (step.Create? || step.Settle?)
    ensures DiaryOk(cfg, After(cfg, s, step), Note(cfg, s, step, d))
  {
    if step.Create? {
      CreateDiary(cfg, s, d, step.payload, step.at);
    } else {
      SettleDiary(cfg, s, d, step.offset);
    }
  }

  lemma DeliverStepDiary(cfg: Config, s: System, d: Diary, step: Step)
    requires Commands.ValidConfig(cfg) && Inv(cfg, s) && DiaryOk(cfg, s, d) && Enabled(cfg, s, step) && step.Deliver?
    ensures DiaryOk(cfg, After(cfg, s, step), Note(cfg, s, step, d))
  {
    DeliverDiary(cfg, s, d, step.command, step.injected, step.at);
  }

  /** Every step keeps the tables, the gateways and the log as the diary says. */
  lemma StepDiary(cfg: Config, s: System, d: Diary, step: Step)
    requires Commands.ValidConfig(cfg) && Inv(cfg, s) && DiaryOk(cfg, s, d) && Enabled(cfg, s, step)
    ensures DiaryOk(cfg, After(cfg, s, step), Note(cfg, s, step, d))
  {
    if step.Claim? || step.ClaimUnseen? {
      ClaimStepDiary(cfg, s, d, step);
    } else if step.Report? {
      ReportDiary(cfg, s, d, step);
    } else if step.Publish? {
      PublishDiary(cfg, s, d, step);
    } else if step.Mark? {
      MarkStepDiary(cfg, s, d, step);
    } else if step.Create? || step.Settle? {
      TableStepDiary(cfg, s, d, step);
    } else if step.Deliver? {
      DeliverStepDiary(cfg, s, d, step);
    } else if step.Start? || step.MarkFails? || step.EndBatch? {
      LoopDiary(cfg, s, d, step);
    } else {
      QuietDiary(cfg, s, d, step);
    }
  }

  lemma {:induction false} RunDiary(cfg: Config, s: System, d: Diary, steps: seq<Step>, t: System, e: Diary)
    requires Commands.ValidConfig(cfg) && Inv(cfg, s) && DiaryOk(cfg, s, d) && RunNoted(cfg, s, d, steps, t, e)
    ensures Inv(cfg, t) && DiaryOk(cfg, t, e)
    decreases |steps|
  {
    if steps != [] {
      StepInv(cfg, s, steps[0]);
      StepDiary(cfg, s, d, steps[0]);
      RunDiary(cfg, After(cfg, s, steps[0]), Note(cfg, s, steps[0], d), steps[1..], t, e);
    }
  }

  lemma RecordedOk(cfg: Config, s: System, d: Diary)
    requires Commands.ValidConfig(cfg) && Recorded(cfg, s, d)
    ensures Inv(cfg, s) && DiaryOk(cfg, s, d)
  {
    var s0, steps :| Init(s0) && RunNoted(cfg, s0, BLANK, steps, s, d);
    InitInv(cfg, s0);
    InitDiary(cfg, s0);
    RunDiary(cfg, s0, BLANK, steps, s, d);
  }

  lemma {:induction false} RunHasDiary(cfg: Config, s: System, d: Diary, steps: seq<Step>, t: System)
    requires RunFrom(cfg, s, steps, t)
    ensures exists e :: RunNoted(cfg, s, d, steps, t, e)
    decreases |steps|
  {
    if steps == [] {
      assert RunNoted(cfg, s, d, steps, t, d);
    } else {
      var u, f := After(cfg, s, steps[0]), Note(cfg, s, steps[0], d);
      RunHasDiary(cfg, u, f, steps[1..], t);
      var e :| RunNoted(cfg, u, f, steps[1..], t, e);
      assert RunNoted(cfg, s, d, steps, t, e);
    }
  }

  lemma {:induction false} NotedIsRun(cfg: Config, s: System, d: Diary, steps: seq<Step>, t: System, e: Diary)
    requires RunNoted(cfg, s, d, steps, t, e)
    ensures RunFrom(cfg, s, steps, t)
    decreases |steps|
  {
    if steps != [] {
      NotedIsRun(cfg, After(cfg, s, steps[0]), Note(cfg, s, steps[0], d), steps[1..], t, e);
    }
  }

  /** The reachable states are those that have a diary. */
  lemma ReachableIffRecorded(cfg: Config, s: System)
    ensures Reachable(cfg, s) <==> exists d :: Recorded(cfg, s, d)
  {
    if Reachable(cfg, s) {
      var s0, steps :| Init(s0) && RunFrom(cfg, s0, steps, s);
      RunHasDiary(cfg, s0, BLANK, steps, s);
      var d :| RunNoted(cfg, s0, BLANK, steps, s, d);
      assert Recorded(cfg, s, d);
    }
    if d :| Recorded(cfg, s, d) {
      var s0, steps :| Init(s0) && RunNoted(cfg, s0, BLANK, steps, s, d);
      NotedIsRun(cfg, s0, BLANK, steps, s, d);
      assert Reachable(cfg, s);
    }
  }
}
