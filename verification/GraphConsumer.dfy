/** The graph worker's consume loop: decode, validate, rebuild, commit, one message after the
    other, and stop at the first that fails. */
module GraphConsumer {
  import opened Prelude

  datatype GraphRebuild = GraphRebuild(schemaVersion: string, rebuildId: string, requestedAt: string, scope: string)

  datatype Problem = UnsupportedSchema | RebuildIdRequired | RequestedAtRequired | InvalidScope

  predicate Blank(s: string) {
    forall i :: 0 <= i < |s| ==> s[i] in " \t\r\n"
  }

  function Validate(e: GraphRebuild): Option<Problem> {
    if e.schemaVersion != "graph-rebuild.v1" then Some(UnsupportedSchema)
    else if Blank(e.rebuildId) then Some(RebuildIdRequired)
    else if Blank(e.requestedAt) then Some(RequestedAtRequired)
    else if e.scope !in {"all", "ontology", "operations"} then Some(InvalidScope)
    else None
  }

  /** A message whose payload is missing or does not decode is None. */
  predicate Acceptable(message: Option<GraphRebuild>) {
    message.Some? && Validate(message.value).None?
  }

  /** A request is accepted exactly if it has the one schema and one of the three scopes, and
      something else than white space for its id and its time. */
  lemma AcceptedIff(message: Option<GraphRebuild>)
    ensures Acceptable(message) <==>
      && message.Some?
      && message.value.schemaVersion == "graph-rebuild.v1"
      && (exists i :: 0 <= i < |message.value.rebuildId| && message.value.rebuildId[i] !in {' ', '\t', '\r', '\n'})
      && (exists i :: 0 <= i < |message.value.requestedAt| && message.value.requestedAt[i] !in {' ', '\t', '\r', '\n'})
      && message.value.scope in ["all", "ontology", "operations"]
  {
  }

  class Worker {
    var committed: nat
    var ready: bool
    ghost var rebuilt: seq<GraphRebuild>

    constructor (committed: nat)
      ensures this.committed == committed && !ready && rebuilt == []
    {
      this.committed, ready, rebuilt := committed, false, [];
    }

    /** `works(o)` tells whether the rebuild for the message at offset `o` succeeds, and
        `commits(o)` whether its commit does. The loop ends with the first failure or with
        the topic; the readiness flag is down afterwards either way. */
    method Run(topic: seq<Option<GraphRebuild>>, works: nat -> bool, commits: nat -> bool) returns (failed: bool)
      requires committed <= |topic|
      modifies this
      ensures !ready && old(committed) <= committed <= |topic|
      ensures forall o :: old(committed) <= o < committed ==> Acceptable(topic[o]) && works(o) && commits(o)
      ensures failed <==> committed < |topic|
      ensures failed ==> !Acceptable(topic[committed]) || !works(committed) || !commits(committed)
      ensures old(rebuilt) <= rebuilt
      ensures forall o :: old(committed) <= o < committed ==> topic[o].Some? && topic[o].value in rebuilt
    {
      ready := true;
      while committed < |topic|
        invariant old(committed) <= committed <= |topic|
        invariant forall o :: old(committed) <= o < committed ==> Acceptable(topic[o]) && works(o) && commits(o)
        invariant old(rebuilt) <= rebuilt
        invariant forall o :: old(committed) <= o < committed ==> topic[o].Some? && topic[o].value in rebuilt
        decreases |topic| - committed
      {
        var message := topic[committed];
        if message.None? || Validate(message.value).Some? || !works(committed) {
          ready := false;
          return true;
        }
        rebuilt := rebuilt + [message.value];
        if !commits(committed) {
          ready := false;
          return true;
        }
        committed := committed + 1;
      }
      ready := false;
      return false;
    }
  }
}
