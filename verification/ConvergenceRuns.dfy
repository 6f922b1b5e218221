/** The pipeline can always converge: from every reachable state in which the worker is not
    facing an unreadable message, relay and worker have a run, without any further mutation,
    that ends with Neo4j the exact image of the ontology. */
module ConvergenceRuns {
  import opened Prelude
  import opened Ontology
  import opened Projection
  import opened Convergence

  ghost predicate Goes(s: System, t: System) {
    exists steps :: RunFrom(s, steps, t)
  }

  lemma {:induction false} RunAppend(s: System, steps: seq<Step>, t: System, step: Step)
    requires RunFrom(s, steps, t) && Enabled(t, step)
    ensures RunFrom(s, steps + [step], After(t, step))
    decreases |steps|
  {
    if steps == [] {
      var u := After(t, step);
      assert ([step])[1..] == [];
      assert RunFrom(u, [], u);
    } else {
      RunAppend(After(s, steps[0]), steps[1..], t, step);
      assert (steps + [step])[1..] == steps[1..] + [step];
    }
  }

  lemma Then(s: System, t: System, step: Step)
    requires Goes(s, t) && Enabled(t, step)
    ensures Goes(s, After(t, step))
  {
    var steps :| RunFrom(s, steps, t);
    RunAppend(s, steps, t, step);
  }

  lemma {:induction false} RunJoin(s: System, a: seq<Step>, t: System, b: seq<Step>, u: System)
    requires RunFrom(s, a, t) && RunFrom(t, b, u)
    ensures RunFrom(s, a + b, u)
    decreases |a|
  {
    if a == [] {
      assert a + b == b;
    } else {
      RunJoin(After(s, a[0]), a[1..], t, b, u);
      assert (a + b)[1..] == a[1..] + b;
    }
  }

  lemma StaysReachable(s: System, t: System)
    requires Reachable(s) && Goes(s, t)
    ensures Reachable(t)
  {
    var s0, a :| Init(s0) && RunFrom(s0, a, s);
    var b :| RunFrom(s, b, t);
    RunJoin(s0, a, s, b, t);
  }

  /** Every message the worker has still to consume is acceptable. */
  predicate Ahead(s: System) {
    s.committed <= |s.log| && forall o :: s.committed <= o < |s.log| ==> Acceptable(s.log[o])
  }

  // ---- The relay drains the outbox ------------------------------------------------------------------

  /** The rows before `k` are published. */
  predicate PublishedTo(outbox: seq<Row>, k: nat) {
    k <= |outbox| && forall i :: 0 <= i < k ==> outbox[i].published
  }

  predicate SameDatabase(s: System, t: System) {
    t.tables == s.tables && t.version == s.version && |t.outbox| == |s.outbox|
  }

  lemma PublishOne(s0: System, s: System, k: nat) returns (t: System)
    requires Goes(s0, s) && Ahead(s) && PublishedTo(s.outbox, k) && k < |s.outbox| && !s.outbox[k].published
    ensures Goes(s0, t) && Ahead(t) && PublishedTo(t.outbox, k + 1) && SameDatabase(s, t)
  {
    Then(s0, s, Fetch(0, k));
    var s1 := After(s, Fetch(0, k));
    Then(s0, s1, Send(0, true, true));
    var s2 := After(s1, Send(0, true, true));
    Then(s0, s2, MarkSent(0));
    t := After(s2, MarkSent(0));
  }

  lemma {:induction false} PublishAll(s0: System, s: System, k: nat) returns (t: System)
    requires Goes(s0, s) && Ahead(s) && PublishedTo(s.outbox, k)
    ensures Goes(s0, t) && Ahead(t) && PublishedTo(t.outbox, |t.outbox|) && SameDatabase(s, t)
    decreases |s.outbox| - k
  {
    if k == |s.outbox| {
      t := s;
    } else if s.outbox[k].published {
      t := PublishAll(s0, s, k + 1);
    } else {
      t := PublishOne(s0, s, k);
      t := PublishAll(s0, t, k + 1);
    }
  }

  // ---- The worker consumes the topic -------------------------------------------------------------------

  lemma Prepend(least: nat, rest: seq<nat>, keys: set<nat>)
    requires least in keys && (forall k :: k in keys ==> least <= k) && Enumerates(rest, keys - {least})
    ensures Enumerates([least] + rest, keys)
  {
    var ids := [least] + rest;
    assert Elements(ids) == {least} + Elements(rest);
    forall i, j | 0 <= i < j < |ids| ensures ids[i] < ids[j] {
      assert ids[j] == rest[j - 1] && rest[j - 1] in Elements(rest);
    }
  }

  lemma {:induction false} Listing(keys: set<nat>) returns (ids: seq<nat>)
    ensures Enumerates(ids, keys)
    decreases |keys|
  {
    if keys == {} {
      ids := [];
      assert Elements(ids) == {};
    } else {
      var least := Least(keys);
      var rest := Listing(keys - {least});
      Prepend(least, rest, keys);
      ids := [least] + rest;
    }
  }

  lemma {:induction false} Least(keys: set<nat>) returns (least: nat)
    requires keys != {}
    ensures least in keys && forall k :: k in keys ==> least <= k
    decreases |keys|
  {
    var first :| first in keys;
    least := first;
    var rest := keys - {first};
    if rest != {} {
      var other := Least(rest);
      least := if other < first then other else first;
    }
    assert forall k :: k in keys ==> k == first || k in rest;
  }

  lemma QueriesExist(o: Tables) returns (cs: seq<ClassRow>, ps: seq<PropertyRow>, ns: seq<IndividualRow>, rs: seq<RelationRow>)
    ensures ClassQuery(o, cs) && PropertyQuery(o, ps) && IndividualQuery(o, ns) && RelationQuery(o, rs)
  {
    var a := Listing(o.classes.Keys);
    var b := Listing(JoinedProperties(o));
    var c := Listing(JoinedIndividuals(o));
    var d := Listing(JoinedRelations(o));
    assert forall x :: x in a ==> x in Elements(a);
    assert forall x :: x in b ==> x in Elements(b);
    assert forall x :: x in c ==> x in Elements(c);
    assert forall x :: x in d ==> x in Elements(d);
    cs, ps, ns, rs := ClassRows(o, a), PropertyRows(o, b), IndividualRows(o, c), RelationRows(o, d);
  }

  /** What the worker's steps leave alone. */
  predicate OnlyWorker(s: System, t: System) {
    SameDatabase(s, t) && t.outbox == s.outbox && t.log == s.log
  }

  lemma ReadFour(s0: System, s: System) returns (t: System)
    requires Goes(s0, s) && s.worker.Idle? && s.committed < |s.log| && Acceptable(s.log[s.committed])
    ensures Goes(s0, t) && OnlyWorker(s, t) && t.committed == s.committed
    ensures t.worker.ReadAll? && t.worker.offset == s.committed
  {
    var cs, ps, ns, rs := QueriesExist(s.tables);
    Then(s0, s, Receive);
    t := After(s, Receive);
    Then(s0, t, QueryClasses(cs));
    t := After(t, QueryClasses(cs));
    Then(s0, t, QueryProperties(ps));
    t := After(t, QueryProperties(ps));
    Then(s0, t, QueryIndividuals(ns));
    t := After(t, QueryIndividuals(ns));
    Then(s0, t, QueryRelations(rs));
    t := After(t, QueryRelations(rs));
  }

  lemma ConsumeOne(s0: System, s: System) returns (t: System)
    requires Goes(s0, s) && s.worker.Idle? && s.committed < |s.log| && Acceptable(s.log[s.committed])
    ensures Goes(s0, t) && OnlyWorker(s, t) && t.committed == s.committed + 1 && t.worker.Idle?
  {
    t := ReadFour(s0, s);
    Then(s0, t, Replace);
    t := After(t, Replace);
    Then(s0, t, MarkReady);
    t := After(t, MarkReady);
    Then(s0, t, Commit);
    t := After(t, Commit);
  }

  lemma {:induction false} ConsumeAll(s0: System, s: System) returns (t: System)
    requires Goes(s0, s) && s.worker.Idle? && Ahead(s)
    ensures Goes(s0, t) && OnlyWorker(s, t) && t.committed == |t.log|
    decreases |s.log| - s.committed
  {
    if s.committed == |s.log| {
      t := s;
    } else {
      t := ConsumeOne(s0, s);
      t := ConsumeAll(s0, t);
    }
  }

  /** From every reachable state with a request in the outbox and no unreadable message ahead
      there is a run, without mutations, to a state in which the graph is the exact image of
      the ontology as it is now. */
  lemma EveryStateCanConverge(s: System) returns (t: System)
    requires Reachable(s) && s.outbox != [] && Ahead(s)
    ensures Goes(s, t) && Settled(t) && t.tables == s.tables
    ensures Mirrors(t.graph, s.tables)
  {
    assert RunFrom(s, [], s);
    var u := PublishAll(s, s, 0);
    Then(s, u, WorkerCrash);
    t := ConsumeAll(s, After(u, WorkerCrash));
    StaysReachable(s, t);
    ProjectionConverges(t);
  }
}
