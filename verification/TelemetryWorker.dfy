/** The worker's message handler as it runs: handle or dead-letter, then commit. Every call is
    a run of the partition's machine, so what is proved of that machine holds of it. */
module TelemetryWorker {
  import opened Prelude
  import opened Ids
  import opened Schema
  import opened Transactions
  import opened LedgerStore
  import opened Consumer
  import L = LedgerSafety

  /** Which of the handler's calls throw; a call that throws has been rolled back. */
  datatype Faults = Faults(store: bool, pass: bool, decide: bool, record: bool, publish: bool, commit: bool)

  /** The machine can run from `s` to `t`. */
  ghost predicate Goes(s: Stream, t: Stream) {
    exists steps :: RunFrom(s, steps, t)
  }

  lemma {:induction false} RunAppend(s: Stream, steps: seq<Step>, t: Stream, step: Step)
    requires RunFrom(s, steps, t) && Enabled(t, step)
    ensures RunFrom(s, steps + [step], After(t, step))
    decreases |steps|
  {
    if steps == [] {
      var u := After(t, step);
      assert ([step])[1..] == [];
      assert RunFrom(u, [], u);
    } else {
      RunAppend(After(s, steps[0]), steps[1..], t, step);
      assert (steps + [step])[1..] == steps[1..] + [step];
    }
  }

  /** The consumer is at message `at` of an otherwise unchanged stream, as far as `stage`. */
  ghost predicate AtStage(start: Stream, st: Stream, id: nat, at: nat, stage: Stage) {
    && Goes(start, st)
    && id in st.sessions && st.sessions[id] == Session(at, stage)
    && at < |st.log|
    && st.log == start.log && st.partition == start.partition && st.current == start.current
    && st.committed == start.committed && st.base == start.base && st.world.now == start.world.now
  }

  lemma StageStep(start: Stream, st: Stream, id: nat, at: nat, stage: Stage, step: Step, next: Stage)
    requires AtStage(start, st, id, at, stage) && Enabled(st, step)
    requires var t := After(st, step);
             && id in t.sessions && t.sessions[id] == Session(at, next)
             && t.log == st.log && t.partition == st.partition && t.current == st.current
             && t.committed == st.committed && t.base == st.base && t.world.now == st.world.now
    ensures AtStage(start, After(st, step), id, at, next)
  {
    var steps :| RunFrom(start, steps, st);
    RunAppend(start, steps, st, step);
  }

  lemma StoreStep(start: Stream, st: Stream, id: nat, at: nat) returns (t: Stream)
    requires AtStage(start, st, id, at, Fetched) && ParseTelemetry(st.log[at]).Ok?
    ensures var (l, duplicate) := Ingest(st.world.ledger, ParseTelemetry(st.log[at]).value, PositionAt(st, at), st.world.now);
            AtStage(start, t, id, at, Stored(duplicate)) && t.world.ledger == l && t.published == st.published
  {
    t := After(st, Store(id));
    StageStep(start, st, id, at, Fetched, Store(id), t.sessions[id].stage);
  }

  lemma PassStep(start: Stream, st: Stream, id: nat, at: nat, duplicate: bool, order: seq<string>, clock: Time) returns (t: Stream)
    requires AtStage(start, st, id, at, Stored(duplicate)) && ParseTelemetry(st.log[at]).Ok?
    requires RuleQuery(st.world.ledger.rules, ParseTelemetry(st.log[at]).value.sensorId, order) && forall r :: r in order ==> r in st.world.ledger.rules
    ensures var a := ApplyRules(st.world.ledger, ParseTelemetry(st.log[at]).value, order, clock);
            && AtStage(start, t, id, at, if a.Ok? then Matched(duplicate) else Rejected("telemetry.processing"))
            && t.world.ledger == (if a.Ok? then a.value.ledger else st.world.ledger)
            && t.published == st.published
  {
    var e := ParseTelemetry(st.log[at]).value;
    ParsedHasId(st.log[at]);
    var step := PassOver(id, order, clock);
    t := After(st, step);
    if ApplyRules(st.world.ledger, e, order, clock).Ok? {
      L.PassIsTransaction(st.world, e, order, clock);
    }
    L.RulesClockStays(st.world, e, order, clock);
    StageStep(start, st, id, at, Stored(duplicate), step, t.sessions[id].stage);
  }

  lemma FailStep(start: Stream, st: Stream, id: nat, at: nat, stage: Stage, reason: string) returns (t: Stream)
    requires AtStage(start, st, id, at, stage) && (stage.Fetched? || stage.Stored? || stage.Matched?)
    ensures AtStage(start, t, id, at, Rejected(reason)) && t.world == st.world && t.published == st.published
  {
    t := After(st, Fail(id, reason));
    StageStep(start, st, id, at, stage, Fail(id, reason), Rejected(reason));
  }

  lemma FinishStep(start: Stream, st: Stream, id: nat, at: nat, duplicate: bool) returns (t: Stream)
    requires AtStage(start, st, id, at, Matched(duplicate))
    ensures AtStage(start, t, id, at, Done) && t.world == st.world && t.published == st.published
  {
    t := After(st, Finish(id));
    StageStep(start, st, id, at, Matched(duplicate), Finish(id), Done);
  }

  lemma RecordStep(start: Stream, st: Stream, id: nat, at: nat, reason: string, letter: DeadLetter) returns (t: Stream)
    requires AtStage(start, st, id, at, Rejected(reason))
    ensures AtStage(start, t, id, at, Recorded) && t.published == st.published
    ensures t.world.ledger == st.world.ledger.(deadLetters := InsertIfAbsent(st.world.ledger.deadLetters, PositionAt(st, at), letter))
  {
    t := After(st, Record(id, letter));
    StageStep(start, st, id, at, Rejected(reason), Record(id, letter), Recorded);
  }

  lemma PublishStep(start: Stream, st: Stream, id: nat, at: nat) returns (t: Stream)
    requires AtStage(start, st, id, at, Recorded)
    ensures AtStage(start, t, id, at, Done) && t.world == st.world && t.published == st.published + {at}
  {
    t := After(st, Publish(id));
    StageStep(start, st, id, at, Recorded, Publish(id), Done);
  }

  lemma CommitStep(start: Stream, st: Stream, id: nat, at: nat) returns (t: Stream)
    requires AtStage(start, st, id, at, Done) && st.current == Some(id)
    ensures Goes(start, t) && t.world == st.world && t.published == st.published && t.partition == st.partition
    ensures t.committed == Some(at + 1) && id in t.sessions && t.sessions[id] == Session(at + 1, Fetched)
  {
    t := After(st, Commit(id));
    var steps :| RunFrom(start, steps, st);
    RunAppend(start, steps, st, Commit(id));
  }

  lemma CrashStep(start: Stream, st: Stream, id: nat) returns (t: Stream)
    requires Goes(start, st) && id in st.sessions
    ensures Goes(start, t) && id !in t.sessions
    ensures t.world == st.world && t.published == st.published && t.partition == st.partition && t.committed == st.committed
  {
    t := After(st, Crash(id));
    var steps :| RunFrom(start, steps, st);
    RunAppend(start, steps, st, Crash(id));
  }

  class TelemetryConsumer {
    const postgres: PostgresService
    const partition: nat
    const id: nat
    var committed: Option<nat>
    var published: set<nat>
    ghost var st: Stream

    /** What this consumer sees of the stream. */
    ghost predicate Synced()
      reads this, postgres
    {
      && st.world.ledger == postgres.Snapshot() && st.partition == partition
      && st.committed == committed && st.published == published
    }

    constructor (postgres: PostgresService, partition: nat, id: nat, ghost st: Stream, committed: Option<nat>, published: set<nat>)
      requires st.world.ledger == postgres.Snapshot() && st.partition == partition && st.committed == committed && st.published == published
      ensures this.postgres == postgres && this.id == id && Synced()
      ensures this.st == After(st, Join(id))
    {
      this.postgres, this.partition, this.id := postgres, partition, id;
      this.committed, this.published, this.st := committed, published, After(st, Join(id));
    }

    /** Stores the reading and passes over its rules, also for a duplicate: the rules of its
        first delivery may not have been applied. Returns why it failed, if it did. */
    method Handle(e: Telemetry, offset: nat, now: Time, at: Time, faults: Faults, ghost start: Stream) returns (failure: Option<string>)
      requires Synced() && AtStage(start, st, id, offset, Fetched) && ParseTelemetry(st.log[offset]) == Ok(e) && st.world.now == now
      modifies this`st, postgres
      ensures Synced()
      ensures failure.None? ==> AtStage(start, st, id, offset, Done)
      ensures failure.Some? ==> AtStage(start, st, id, offset, Rejected(failure.value))
    {
      if faults.store {
        st := FailStep(start, st, id, offset, Fetched, "telemetry.processing");
        return Some("telemetry.processing");
      }
      var duplicate := postgres.InsertTelemetry(e, Position(TOPIC, partition, offset), now);
      st := StoreStep(start, st, id, offset);
      if faults.pass {
        st := FailStep(start, st, id, offset, Stored(duplicate), "telemetry.processing");
        return Some("telemetry.processing");
      }
      var outcome;
      ghost var order;
      outcome, order := postgres.ApplyDeterministicRules(e, at);
      st := PassStep(start, st, id, offset, duplicate, order, at);
      if outcome.Err? {
        return Some("telemetry.processing");
      }
      if !duplicate && faults.decide {
        st := FailStep(start, st, id, offset, Matched(duplicate), "telemetry.processing");
        return Some("telemetry.processing");
      }
      st := FinishStep(start, st, id, offset, duplicate);
      return None;
    }

    /** Stores the dead letter, then publishes it. */
    method RecordDeadLetter(offset: nat, letter: DeadLetter, faults: Faults, ghost start: Stream, ghost reason: string) returns (ok: bool)
      requires Synced() && AtStage(start, st, id, offset, Rejected(reason))
      modifies this`st, this`published, postgres
      ensures Synced() && Goes(start, st) && id in st.sessions && st.committed == start.committed
      ensures ok ==> AtStage(start, st, id, offset, Done)
      ensures ok ==> Position(TOPIC, partition, offset) in postgres.deadLetters && offset in published
      ensures ok ==> postgres.deadLetters == InsertIfAbsent(old(postgres.deadLetters), Position("telemetry.raw", partition, offset), letter)
    {
      if faults.record {
        return false;
      }
      var duplicate := postgres.InsertDeadLetter(Position(TOPIC, partition, offset), letter);
      st := RecordStep(start, st, id, offset, reason, letter);
      if faults.publish {
        return false;
      }
      published := published + {offset};
      st := PublishStep(start, st, id, offset);
      return true;
    }

    /** Whatever its calls do, the handler's work on one message is a run of the partition's
        machine: either the message is taken care of and its offset committed, or the
        handler throws, the consumer leaves and the offset stays. */
    method EachMessage(message: Message, offset: nat, now: Time, at: Time, uuid: string, faults: Faults) returns (done: bool)
      requires Synced() && id in st.sessions && st.sessions[id] == Session(offset, Fetched)
      requires offset < |st.log| && st.log[offset] == message && st.world.now == now
      requires st.current != Some(id) ==> faults.commit
      modifies this, postgres
      ensures Synced() && Goes(old(st), st)
      ensures done ==> committed == Some(offset + 1) && id in st.sessions && st.sessions[id] == Session(offset + 1, Fetched)
      ensures !done ==> committed == old(committed) && id !in st.sessions
      ensures done && ParseTelemetry(message).Err? ==>
                && Position("telemetry.raw", partition, offset) in postgres.deadLetters && offset in published
                && (Position("telemetry.raw", partition, offset) !in old(postgres.deadLetters) ==>
                      postgres.deadLetters[Position("telemetry.raw", partition, offset)] ==
                        DeadLetter(uuid, if message.NoValue? || message.NotJson? then "telemetry.processing" else "telemetry.validation", now))
    {
      ghost var start := st;
      assert RunFrom(st, [], st);
      var failure;
      var parsed := ParseTelemetry(message);
      if parsed.Err? {
        failure := Some(ClassifyFailure(parsed.error));
        st := FailStep(start, st, id, offset, Fetched, failure.value);
      } else {
        failure := Handle(parsed.value, offset, now, at, faults, start);
      }
      if failure.Some? {
        var ok := RecordDeadLetter(offset, DeadLetter(uuid, failure.value, now), faults, start, failure.value);
        if !ok {
          st := CrashStep(start, st, id);
          return false;
        }
      }
      if faults.commit {
        st := CrashStep(start, st, id);
        return false;
      }
      committed := Some(offset + 1);
      st := CommitStep(start, st, id, offset);
      return true;
    }
  }
}
