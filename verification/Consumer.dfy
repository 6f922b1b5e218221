/** One partition of the telemetry topic, from the MQTT acknowledgement to the committed
    offset. Storing a reading, passing over its rules, recording a dead letter, publishing
    it and committing the offset are separate steps; a consumer may crash or be replaced
    between any two of them, and a replaced one may run on without noticing. */
module Consumer {
  import opened Prelude
  import opened Ids
  import opened Schema
  import opened Transactions
  import L = LedgerSafety

  const TOPIC := "telemetry.raw"

  // ---- Messages --------------------------------------------------------------------------------

  datatype Timestamp = Instant(time: Time) | NotATime

  datatype Json = JsonNumber(n: real) | JsonFlag(b: bool) | JsonOther

  /** A telemetry event as JSON: the fields both services look at. */
  datatype Document = Document(
    schemaVersion: string,
    eventId: string,
    deviceId: string,
    sensorId: string,
    sequence: int,
    measuredAt: Timestamp,
    source: Option<string>,
    kind: string,
    value: Json,
    unit: string,
    correlationId: Option<string>)

  /** An MQTT payload: one that does not decode, or an event. */
  datatype Payload = Undecodable | Decoded(event: Document)

  /** A Kafka message value: none, no JSON, JSON of another shape, or an event. */
  datatype Message = NoValue | NotJson | NotAnEvent | Carries(document: Document)

  const SCHEMA := "telemetry.v1"
  const KINDS := {"temperature", "light", "distance", "button"}

  predicate WellFormed(d: Document) {
    && d.schemaVersion == SCHEMA
    && d.eventId != "" && d.deviceId != "" && d.sensorId != ""
    && d.sequence >= 0 && d.measuredAt.Instant? && d.unit != ""
  }

  /** The gateway's check. */
  predicate Validates(d: Document) {
    WellFormed(d) && d.kind != ""
  }

  /** What the gateway writes: empty optional fields are left out, a missing source is "mqtt". */
  function Stamped(d: Document): Document {
    d.(source := if d.source == None || d.source == Some("") then Some("mqtt") else d.source,
       correlationId := if d.correlationId == Some("") then None else d.correlationId)
  }

  /** The worker's check, which also knows the kinds and the values of sensors. */
  predicate Parses(d: Document) {
    WellFormed(d) && d.kind in KINDS && !d.value.JsonOther?
  }

  function EventIn(d: Document): Telemetry
    requires Parses(d)
  {
    Telemetry(d.eventId, d.deviceId, d.sensorId, d.sequence, d.kind, if d.value.JsonNumber? then Number(d.value.n) else Flag(d.value.b),
      d.unit, d.measuredAt.time, d.source, d.correlationId)
  }

  /** What the handler throws before it handles anything. */
  datatype Refusal = EmptyValue | BadJson | InvalidEvent

  function ParseTelemetry(m: Message): Result<Telemetry, Refusal> {
    match m
    case NoValue => Err(EmptyValue)
    case NotJson => Err(BadJson)
    case NotAnEvent => Err(InvalidEvent)
    case Carries(d) => if Parses(d) then Ok(EventIn(d)) else Err(InvalidEvent)
  }

  /** Only an event that was read and refused counts as a validation failure. */
  function ClassifyFailure(refusal: Refusal): string {
    if refusal.InvalidEvent? then "telemetry.validation" else "telemetry.processing"
  }

  /** Of what the gateway lets through, the worker refuses exactly the events of unknown kind
      and those whose value is neither a number nor a boolean. */
  lemma RefusedIffUnknown(d: Document)
    requires Validates(d)
    ensures ParseTelemetry(Carries(Stamped(d))).Err? <==> d.kind !in KINDS || d.value.JsonOther?
    ensures ParseTelemetry(Carries(Stamped(d))).Err? ==>
              ClassifyFailure(ParseTelemetry(Carries(Stamped(d))).error) == "telemetry.validation"
  {
  }

  /** What the gateway lets through, and what becomes of it at the worker: every field as sent,
      a missing or empty source as "mqtt", an empty correlation as none. */
  lemma EventIsAsSent(d: Document)
    requires Validates(d) && d.kind in ["temperature", "light", "distance", "button"] && !d.value.JsonOther?
    ensures d.schemaVersion == "telemetry.v1" && d.eventId != "" && d.deviceId != "" && d.sensorId != "" && d.sequence >= 0 && d.unit != ""
    ensures ParseTelemetry(Carries(Stamped(d))).Ok?
    ensures var e := ParseTelemetry(Carries(Stamped(d))).value;
      && e.eventId == d.eventId && e.deviceId == d.deviceId && e.sensorId == d.sensorId && e.sequence == d.sequence
      && e.kind == d.kind && e.unit == d.unit && Instant(e.measuredAt) == d.measuredAt
      && e.value == (match d.value case JsonNumber(n) => Number(n) case JsonFlag(b) => Flag(b) case JsonOther => Flag(false))
      && e.source == Some(if d.source in [None, Some("")] then "mqtt" else d.source.value)
      && e.correlationId == if d.correlationId == Some("") then None else d.correlationId
  {
  }

  /** The worker takes a message for an event exactly if it carries one with all it needs, and
      only one that it read and refused counts as a validation failure. */
  lemma ParsesIff(m: Message)
    ensures ParseTelemetry(m).Ok? <==>
      && m.Carries?
      && m.document.schemaVersion == "telemetry.v1" && m.document.eventId != "" && m.document.deviceId != "" && m.document.sensorId != ""
      && m.document.sequence >= 0 && m.document.measuredAt != NotATime && m.document.unit != ""
      && m.document.kind in ["temperature", "light", "distance", "button"] && (m.document.value.JsonNumber? || m.document.value.JsonFlag?)
    ensures ParseTelemetry(m).Err? ==>
      ClassifyFailure(ParseTelemetry(m).error) == if m.NoValue? || m.NotJson? then "telemetry.processing" else "telemetry.validation"
  {
  }

  lemma ParsedHasId(m: Message)
    requires ParseTelemetry(m).Ok?
    ensures ParseTelemetry(m).value.eventId != ""
  {
  }

  // ---- The partition -----------------------------------------------------------------------------

  /** How far a consumer is with the message it is at. */
  datatype Stage = Fetched | Stored(duplicate: bool) | Matched(duplicate: bool) | Rejected(reason: string) | Recorded | Done

  datatype Session = Session(at: nat, stage: Stage)

  datatype Stream = Stream(
    world: L.World,
    partition: nat,
    log: seq<Message>,
    committed: Option<nat>,
    base: nat,
    sessions: map<nat, Session>,
    current: Option<nat>,
    published: set<nat>,
    acked: set<Document>)

  datatype Step =
    | Elsewhere(step: L.Step)
    | Receive(payload: Payload, logged: bool, ok: bool)
    | Append(message: Message)
    | Join(id: nat)
    | Store(id: nat)
    | PassOver(id: nat, order: seq<string>, at: Time)
    | Fail(id: nat, reason: string)
    | Finish(id: nat)
    | Record(id: nat, letter: DeadLetter)
    | Publish(id: nat)
    | Commit(id: nat)
    | Crash(id: nat)

  function PositionAt(st: Stream, offset: nat): Position {
    Position(TOPIC, st.partition, offset)
  }

  ghost predicate Init(st: Stream) {
    && L.Init(st.world) && st.committed.None? && st.base == 0
    && st.sessions == map[] && st.current.None? && st.published == {} && st.acked == {}
  }

  predicate Running(st: Stream, id: nat) {
    id in st.sessions && st.sessions[id].at < |st.log|
  }

  function MessageOf(st: Stream, id: nat): Message
    requires Running(st, id)
  {
    st.log[st.sessions[id].at]
  }

  ghost predicate Enabled(st: Stream, step: Step) {
    match step
    case Elsewhere(s) => L.Enabled(st.world, s)
    case Receive(_, logged, ok) => ok ==> logged
    case Append(_) => true
    case Join(_) => true
    case Store(id) => Running(st, id) && st.sessions[id].stage.Fetched? && ParseTelemetry(MessageOf(st, id)).Ok?
    case PassOver(id, order, at) =>
      Running(st, id) && st.sessions[id].stage.Stored? && ParseTelemetry(MessageOf(st, id)).Ok?
      && L.Enabled(st.world, L.RulePass(ParseTelemetry(MessageOf(st, id)).value, order, at))
    case Fail(id, _) => Running(st, id) && !st.sessions[id].stage.Done? && !st.sessions[id].stage.Recorded? && !st.sessions[id].stage.Rejected?
    case Finish(id) => Running(st, id) && st.sessions[id].stage.Matched?
    case Record(id, _) => Running(st, id) && st.sessions[id].stage.Rejected?
    case Publish(id) => Running(st, id) && st.sessions[id].stage.Recorded?
    case Commit(id) => Running(st, id) && st.sessions[id].stage.Done? && st.current == Some(id)
    case Crash(id) => id in st.sessions
  }

  function Advance(st: Stream, id: nat, stage: Stage): Stream
    requires id in st.sessions
  {
    st.(sessions := st.sessions[id := st.sessions[id].(stage := stage)])
  }

  /** handleMessage: a payload that does not decode or validate is dropped, and acknowledged;
      any other is written to the log, and acknowledged if Kafka confirmed it. */
  function AfterReceive(st: Stream, payload: Payload, logged: bool, ok: bool): Stream {
    if payload.Decoded? && Validates(payload.event) then
      st.(log := if logged then st.log + [Carries(Stamped(payload.event))] else st.log,
          acked := if ok then st.acked + {payload.event} else st.acked)
    else st
  }

  ghost function After(st: Stream, step: Step): Stream
    requires Enabled(st, step)
  {
    match step
    case Elsewhere(s) => st.(world := L.After(st.world, s))
    case Receive(payload, logged, ok) => AfterReceive(st, payload, logged, ok)
    case Append(message) => st.(log := st.log + [message])
    case Join(id) =>
      var at := if st.committed.Some? then st.committed.value else |st.log|;
      st.(sessions := st.sessions[id := Session(at, Fetched)], current := Some(id))
    case Store(id) =>
      var e := ParseTelemetry(MessageOf(st, id)).value;
      var duplicate := Transactions.Ingest(st.world.ledger, e, PositionAt(st, st.sessions[id].at), st.world.now).1;
      Advance(st, id, Stored(duplicate)).(world := L.After(st.world, L.Insert(e, PositionAt(st, st.sessions[id].at))))
    case PassOver(id, order, at) =>
      var e := ParseTelemetry(MessageOf(st, id)).value;
      var stage := if ApplyRules(st.world.ledger, e, order, at).Ok? then Matched(st.sessions[id].stage.duplicate)
                   else Rejected("telemetry.processing");
      Advance(st, id, stage).(world := L.After(st.world, L.RulePass(e, order, at)))
    case Fail(id, reason) => Advance(st, id, Rejected(reason))
    case Finish(id) => Advance(st, id, Done)
    case Record(id, letter) =>
      Advance(st, id, Recorded).(world := L.After(st.world, L.Bury(PositionAt(st, st.sessions[id].at), letter)))
    case Publish(id) => Advance(st, id, Done).(published := st.published + {st.sessions[id].at})
    case Commit(id) =>
      var at := st.sessions[id].at;
      st.(committed := Some(at + 1), base := if st.committed.None? then at else st.base,
          sessions := st.sessions[id := Session(at + 1, Fetched)])
    case Crash(id) => st.(sessions := st.sessions - {id}, current := if st.current == Some(id) then None else st.current)
  }

  ghost predicate RunFrom(st: Stream, steps: seq<Step>, t: Stream)
    decreases |steps|
  {
    if steps == [] then st == t
    else Enabled(st, steps[0]) && RunFrom(After(st, steps[0]), steps[1..], t)
  }

  ghost predicate Reachable(st: Stream) {
    exists s0, steps :: Init(s0) && RunFrom(s0, steps, st)
  }

  // ---- What becomes of every message --------------------------------------------------------------

  /** The reading is stored, once and for all, and a rule pass over it has committed. */
  predicate Processed(world: L.World, m: Message) {
    var parsed := ParseTelemetry(m);
    parsed.Ok? && parsed.value.eventId in world.ledger.tombstones && parsed.value in world.past.passed
  }

  /** The reading has left its tombstone. */
  predicate Filed(world: L.World, m: Message) {
    ParseTelemetry(m).Ok? && ParseTelemetry(m).value.eventId in world.ledger.tombstones
  }

  /** The message is recorded as a dead letter at its own position, and was published as one. */
  predicate DeadLettered(world: L.World, published: set<nat>, position: Position) {
    position in world.ledger.deadLetters && position.offset in published
  }

  predicate TakenCareOf(st: Stream, offset: nat)
    requires offset < |st.log|
  {
    Processed(st.world, st.log[offset]) || DeadLettered(st.world, st.published, PositionAt(st, offset))
  }

  /** What a consumer has achieved by the stage it is at. */
  predicate SessionOk(st: Stream, s: Session) {
    && (s.stage != Fetched ==> s.at < |st.log|)
    && (s.stage.Stored? ==> Filed(st.world, st.log[s.at]))
    && (s.stage.Matched? ==> Processed(st.world, st.log[s.at]))
    && (s.stage.Recorded? ==> PositionAt(st, s.at) in st.world.ledger.deadLetters)
    && (s.stage.Done? ==> TakenCareOf(st, s.at))
  }

  ghost predicate Inv(st: Stream) {
    && L.Inv(st.world)
    && (forall id :: id in st.sessions ==> SessionOk(st, st.sessions[id]))
    && (st.current.Some? ==> st.current.value in st.sessions)
    && (st.current.Some? && st.committed.Some? ==> st.sessions[st.current.value].at == st.committed.value)
    && (st.committed.Some? ==>
         && st.base < st.committed.value <= |st.log|
         && forall o :: st.base <= o < st.committed.value ==> TakenCareOf(st, o))
    && (forall d :: d in st.acked ==> Validates(d) && Carries(Stamped(d)) in st.log)
  }

  /** More log, more tombstones, more passes, more dead letters: nothing achieved is undone. */
  ghost predicate Grows(st: Stream, t: Stream) {
    && L.Keeps(st.world, t.world)
    && t.partition == st.partition
    && |st.log| <= |t.log| && t.log[..|st.log|] == st.log
    && st.published <= t.published
  }

  lemma TakenCareStays(st: Stream, t: Stream, offset: nat)
    requires Grows(st, t) && offset < |st.log| && TakenCareOf(st, offset)
    ensures TakenCareOf(t, offset)
  {
    assert t.log[offset] == t.log[..|st.log|][offset];
  }

  lemma SessionStays(st: Stream, t: Stream, s: Session)
    requires Grows(st, t) && SessionOk(st, s)
    ensures SessionOk(t, s)
  {
    if s.stage != Fetched {
      assert t.log[s.at] == t.log[..|st.log|][s.at];
    }
    if s.stage.Done? {
      TakenCareStays(st, t, s.at);
    }
  }

  /** The world under the consumers moves on, by whoever's step. */
  lemma WorldMoves(w: L.World, s: L.Step)
    requires L.Inv(w) && L.Enabled(w, s)
    ensures L.Inv(L.After(w, s)) && L.Keeps(w, L.After(w, s))
  {
    L.StepInv(w, s);
    L.StepKeeps(w, s);
  }

  lemma GrowsOk(st: Stream, t: Stream)
    requires Inv(st) && Grows(st, t) && L.Inv(t.world)
    requires t.sessions == st.sessions && t.current == st.current && t.committed == st.committed && t.base == st.base
    requires forall d :: d in t.acked ==> d in st.acked || (Validates(d) && Carries(Stamped(d)) in t.log)
    ensures Inv(t)
  {
    forall id | id in t.sessions ensures SessionOk(t, t.sessions[id]) {
      SessionStays(st, t, st.sessions[id]);
    }
    if st.committed.Some? {
      forall o | st.base <= o < st.committed.value ensures TakenCareOf(t, o) {
        TakenCareStays(st, t, o);
      }
    }
    forall d | d in t.acked ensures Validates(d) && Carries(Stamped(d)) in t.log {
      if d in st.acked {
        assert Carries(Stamped(d)) in t.log[..|st.log|];
      }
    }
  }

  /** One consumer makes progress; the others keep what they had. */
  lemma AdvanceOk(st: Stream, t: Stream, id: nat, stage: Stage)
    requires Inv(st) && Grows(st, t) && L.Inv(t.world) && id in st.sessions
    requires t.sessions == st.sessions[id := st.sessions[id].(stage := stage)]
    requires t.current == st.current && t.committed == st.committed && t.base == st.base && t.acked == st.acked
    requires SessionOk(t, t.sessions[id])
    ensures Inv(t)
  {
    forall i | i in t.sessions ensures SessionOk(t, t.sessions[i]) {
      if i != id {
        SessionStays(st, t, st.sessions[i]);
      }
    }
    if st.committed.Some? {
      forall o | st.base <= o < st.committed.value ensures TakenCareOf(t, o) {
        TakenCareStays(st, t, o);
      }
    }
    forall d | d in t.acked ensures Validates(d) && Carries(Stamped(d)) in t.log {
      assert Carries(Stamped(d)) in t.log[..|st.log|];
    }
  }

  lemma KeepsItself(w: L.World)
    ensures L.Keeps(w, w)
  {
  }

  /** A committed insertion leaves the tombstone, new or old. */
  lemma InsertLeavesTombstone(w: L.World, e: Telemetry, position: Position)
    ensures e.eventId in L.AfterInsert(w, e, position).ledger.tombstones
  {
  }

  /** A step of the ledger machine is all that happens to the world. */
  lemma WorldGrows(st: Stream, t: Stream, s: L.Step)
    requires L.Inv(st.world) && L.Enabled(st.world, s) && t.world == L.After(st.world, s)
    requires t.partition == st.partition && t.log == st.log && t.published == st.published
    ensures L.Inv(t.world) && Grows(st, t)
  {
    WorldMoves(st.world, s);
  }

  lemma StoreInv(st: Stream, id: nat)
    requires Inv(st) && Enabled(st, Store(id))
    ensures Inv(After(st, Store(id)))
  {
    var e, position := ParseTelemetry(MessageOf(st, id)).value, PositionAt(st, st.sessions[id].at);
    var t := After(st, Store(id));
    ParsedHasId(MessageOf(st, id));
    WorldGrows(st, t, L.Insert(e, position));
    InsertLeavesTombstone(st.world, e, position);
    assert SessionOk(t, t.sessions[id]);
    AdvanceOk(st, t, id, t.sessions[id].stage);
  }

  lemma PassLeavesMark(w: L.World, e: Telemetry, order: seq<string>, at: Time)
    requires L.Enabled(w, L.RulePass(e, order, at)) && ApplyRules(w.ledger, e, order, at).Ok?
    ensures e in L.AfterPass(w, e, order, at).past.passed
  {
  }

  lemma PassOverStage(st: Stream, id: nat, order: seq<string>, at: Time)
    requires Enabled(st, PassOver(id, order, at)) && SessionOk(st, st.sessions[id])
    requires L.Keeps(st.world, After(st, PassOver(id, order, at)).world)
    ensures var t := After(st, PassOver(id, order, at)); SessionOk(t, t.sessions[id])
  {
    var e := ParseTelemetry(MessageOf(st, id)).value;
    if ApplyRules(st.world.ledger, e, order, at).Ok? {
      PassLeavesMark(st.world, e, order, at);
    }
  }

  lemma PassOverInv(st: Stream, id: nat, order: seq<string>, at: Time)
    requires Inv(st) && Enabled(st, PassOver(id, order, at))
    ensures Inv(After(st, PassOver(id, order, at)))
  {
    var t := After(st, PassOver(id, order, at));
    WorldGrows(st, t, L.RulePass(ParseTelemetry(MessageOf(st, id)).value, order, at));
    PassOverStage(st, id, order, at);
    AdvanceOk(st, t, id, t.sessions[id].stage);
  }

  lemma RecordInv(st: Stream, id: nat, letter: DeadLetter)
    requires Inv(st) && Enabled(st, Record(id, letter))
    ensures Inv(After(st, Record(id, letter)))
  {
    var t := After(st, Record(id, letter));
    WorldGrows(st, t, L.Bury(PositionAt(st, st.sessions[id].at), letter));
    assert SessionOk(t, t.sessions[id]);
    AdvanceOk(st, t, id, Recorded);
  }

  /** Giving up on a message, finishing it, and publishing its dead letter. */
  lemma QuietInv(st: Stream, step: Step)
    requires Inv(st) && Enabled(st, step) && (step.Fail? || step.Finish? || step.Publish?)
    ensures Inv(After(st, step))
  {
    var t := After(st, step);
    KeepsItself(st.world);
    assert SessionOk(st, st.sessions[step.id]);
    AdvanceOk(st, t, step.id, t.sessions[step.id].stage);
  }

  /** The commit of the current consumer extends the part that is taken care of by one. */
  lemma CommitInv(st: Stream, id: nat)
    requires Inv(st) && Enabled(st, Commit(id))
    ensures Inv(After(st, Commit(id)))
  {
    var t := After(st, Commit(id));
    var at := st.sessions[id].at;
    assert SessionOk(st, st.sessions[id]);
    forall o | t.base <= o < at + 1 ensures TakenCareOf(t, o) {
      assert TakenCareOf(st, o);
    }
    forall i | i in t.sessions ensures SessionOk(t, t.sessions[i]) {
      if i != id {
        assert SessionOk(st, st.sessions[i]);
      }
    }
  }

  lemma MembershipInv(st: Stream, step: Step)
    requires Inv(st) && Enabled(st, step) && (step.Join? || step.Crash?)
    ensures Inv(After(st, step))
  {
    var t := After(st, step);
    forall i | i in t.sessions ensures SessionOk(t, t.sessions[i]) {
      if i != step.id {
        assert SessionOk(st, st.sessions[i]);
      }
    }
    if t.committed.Some? {
      forall o | t.base <= o < t.committed.value ensures TakenCareOf(t, o) {
        assert TakenCareOf(st, o);
      }
    }
  }

  lemma LogInv(st: Stream, step: Step)
    requires Inv(st) && Enabled(st, step) && (step.Receive? || step.Append?)
    ensures Inv(After(st, step))
  {
    var t := After(st, step);
    KeepsItself(st.world);
    if step.Receive? && step.payload.Decoded? && Validates(step.payload.event) && step.logged {
      assert t.log[|st.log|] == Carries(Stamped(step.payload.event));
    }
    GrowsOk(st, t);
  }

  lemma WorkInv(st: Stream, step: Step)
    requires Inv(st) && Enabled(st, step) && (step.Elsewhere? || step.Store? || step.PassOver? || step.Record?)
    ensures Inv(After(st, step))
  {
    match step {
      case Elsewhere(s) =>
        WorldMoves(st.world, s);
        GrowsOk(st, After(st, step));
      case Store(id) => StoreInv(st, id);
      case PassOver(id, order, at) => PassOverInv(st, id, order, at);
      case Record(id, letter) => RecordInv(st, id, letter);
    }
  }

  lemma StepInv(st: Stream, step: Step)
    requires Inv(st) && Enabled(st, step)
    ensures Inv(After(st, step))
  {
    if step.Elsewhere? || step.Store? || step.PassOver? || step.Record? {
      WorkInv(st, step);
    } else if step.Commit? {
      CommitInv(st, step.id);
    } else if step.Join? || step.Crash? {
      MembershipInv(st, step);
    } else if step.Receive? || step.Append? {
      LogInv(st, step);
    } else {
      QuietInv(st, step);
    }
  }

  lemma {:induction false} RunInv(st: Stream, steps: seq<Step>, t: Stream)
    requires Inv(st) && RunFrom(st, steps, t)
    ensures Inv(t)
    decreases |steps|
  {
    if steps != [] {
      StepInv(st, steps[0]);
      RunInv(After(st, steps[0]), steps[1..], t);
    }
  }

  /** No message is lost: counting from the first offset ever committed, every message below
      the committed offset was stored and passed over, or is recorded as a dead letter at its
      exact position and was published as one; one the worker cannot parse always took
      the second way. */
  lemma NoMessageLost(st: Stream, offset: nat)
    requires Reachable(st) && st.committed.Some? && st.base <= offset < st.committed.value
    ensures offset < |st.log|
    ensures Processed(st.world, st.log[offset]) || DeadLettered(st.world, st.published, PositionAt(st, offset))
    ensures ParseTelemetry(st.log[offset]).Err? ==> DeadLettered(st.world, st.published, PositionAt(st, offset))
  {
    var s0, steps :| Init(s0) && RunFrom(s0, steps, st);
    RunInv(s0, steps, st);
    assert TakenCareOf(st, offset);
  }

  /** Every valid telemetry message the gateway acknowledged is in the log. */
  lemma AcknowledgedIsLogged(st: Stream, d: Document)
    requires Reachable(st) && d in st.acked
    ensures Validates(d) && Carries(Stamped(d)) in st.log
  {
    var s0, steps :| Init(s0) && RunFrom(s0, steps, st);
    RunInv(s0, steps, st);
  }

  lemma RunCons(st: Stream, step: Step, rest: seq<Step>, t: Stream)
    requires Enabled(st, step) && RunFrom(After(st, step), rest, t)
    ensures RunFrom(st, [step] + rest, t)
  {
    assert ([step] + rest)[1..] == rest;
  }

  lemma PublishRun(st: Stream, id: nat) returns (steps: seq<Step>, t: Stream)
    requires Running(st, id) && st.sessions[id].stage.Recorded? && st.current == Some(id)
    ensures RunFrom(st, steps, t)
    ensures t.log == st.log && t.acked == st.acked && t.world == st.world
    ensures t.committed == Some(st.sessions[id].at + 1)
    ensures t.base == if st.committed.None? then st.sessions[id].at else st.base
    ensures t.published == st.published + {st.sessions[id].at}
  {
    var s1 := After(st, Publish(id));
    t := After(s1, Commit(id));
    assert RunFrom(t, [], t);
    RunCons(s1, Commit(id), [], t);
    steps := [Commit(id)] + [];
    RunCons(st, Publish(id), steps, t);
    steps := [Publish(id)] + steps;
  }

  /** A message given up on is recorded, published and committed past. */
  lemma BuryRun(st: Stream, id: nat, letter: DeadLetter) returns (steps: seq<Step>, t: Stream)
    requires Running(st, id) && st.sessions[id].stage.Rejected? && st.current == Some(id)
    ensures RunFrom(st, steps, t)
    ensures t.log == st.log && t.acked == st.acked && t.world.past == st.world.past
    ensures t.committed == Some(st.sessions[id].at + 1)
    ensures t.base == if st.committed.None? then st.sessions[id].at else st.base
    ensures t.published == st.published + {st.sessions[id].at}
  {
    var s1 := After(st, Record(id, letter));
    steps, t := PublishRun(s1, id);
    RunCons(st, Record(id, letter), steps, t);
    steps := [Record(id, letter)] + steps;
  }

  function Logged(ds: seq<Document>): seq<Message> {
    seq(|ds|, i requires 0 <= i < |ds| => Carries(Stamped(ds[i])))
  }

  /** The gateway receives one valid message after the other, and all goes well. */
  lemma {:induction false} ReceiveRun(st: Stream, ds: seq<Document>) returns (steps: seq<Step>, t: Stream)
    requires forall i :: 0 <= i < |ds| ==> Validates(ds[i])
    ensures RunFrom(st, steps, t)
    ensures t == st.(log := st.log + Logged(ds), acked := st.acked + Elements(ds))
    decreases |ds|
  {
    if ds == [] {
      steps, t := [], st;
      assert st.log + Logged(ds) == st.log && st.acked + Elements(ds) == st.acked;
    } else {
      var step := Receive(Decoded(ds[0]), true, true);
      var s1 := After(st, step);
      steps, t := ReceiveRun(s1, ds[1..]);
      RunCons(st, step, steps, t);
      steps := [step] + steps;
      assert s1.log + Logged(ds[1..]) == st.log + Logged(ds);
      assert ds == [ds[0]] + ds[1..];
      assert s1.acked + Elements(ds[1..]) == st.acked + Elements(ds);
    }
  }

  /** A consumer joins at the end of the log; the next message there is given up on and
      committed past. */
  lemma JoinAndBury(st: Stream, m: Message, letter: DeadLetter) returns (steps: seq<Step>, t: Stream)
    requires st.committed.None?
    ensures RunFrom(st, steps, t)
    ensures t.log == st.log + [m] && t.acked == st.acked && t.world.past == st.world.past
    ensures t.committed == Some(|st.log| + 1) && t.base == |st.log| && t.published == st.published + {|st.log|}
  {
    var fail := Fail(0, "telemetry.processing");
    var s2 := After(st, Join(0));
    var s3 := After(s2, Append(m));
    var s4 := After(s3, fail);
    steps, t := BuryRun(s4, 0, letter);
    RunCons(s3, fail, steps, t);
    steps := [fail] + steps;
    RunCons(s2, Append(m), steps, t);
    steps := [Append(m)] + steps;
    RunCons(st, Join(0), steps, t);
    steps := [Join(0)] + steps;
  }

  /** Before the first commit there is no such promise: a consumer without a committed offset
      starts at the end of the log, however long it is. Whatever valid messages were
      acknowledged by then, there is a run after which the committed offset is past all of
      them and not one has been looked at. */
  lemma MissedBeforeFirstCommit(st: Stream, ds: seq<Document>, letter: DeadLetter) returns (steps: seq<Step>, t: Stream)
    requires Init(st) && st.log == [] && forall i :: 0 <= i < |ds| ==> Validates(ds[i])
    ensures RunFrom(st, steps, t)
    ensures t.log == Logged(ds) + [NotJson] && t.acked == Elements(ds)
    ensures t.committed == Some(|ds| + 1) && t.base == |ds|
    ensures forall o :: 0 <= o < |ds| ==> !TakenCareOf(t, o)
  {
    var first, s1 := ReceiveRun(st, ds);
    var rest;
    rest, t := JoinAndBury(s1, NotJson, letter);
    JoinRuns(st, first, s1, rest, t);
    steps := first + rest;
    assert t.acked == Elements(ds);
  }

  lemma {:induction false} JoinRuns(s: Stream, a: seq<Step>, t: Stream, b: seq<Step>, u: Stream)
    requires RunFrom(s, a, t) && RunFrom(t, b, u)
    ensures RunFrom(s, a + b, u)
    decreases |a|
  {
    if a == [] {
      assert a + b == b;
    } else {
      JoinRuns(After(s, a[0]), a[1..], t, b, u);
      assert (a + b)[1..] == a[1..] + b;
    }
  }
}
