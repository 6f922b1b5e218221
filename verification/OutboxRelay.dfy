/** The outbox relay: it publishes the oldest unpublished row, marks it, and goes on until
    none is left or something fails. */
module OutboxRelay {
  import opened Prelude
  import opened Ontology

  /** What becomes of one turn: it succeeds, the publish fails although the message may be in
      the topic, or the mark fails after the message got there. */
  datatype Turn = Delivered | PublishFails(logged: bool) | MarkFails

  predicate AllPublished(rows: seq<OutboxRow>) {
    forall i :: 0 <= i < |rows| ==> rows[i].published
  }

  /** Rows keep their requests and are never unmarked; whatever got marked is in the topic. */
  ghost predicate Relayed(before: seq<OutboxRow>, after: seq<OutboxRow>, topic: seq<string>) {
    && |before| == |after|
    && forall i :: 0 <= i < |before| ==>
         && after[i].rebuildId == before[i].rebuildId
         && (before[i].published ==> after[i].published)
         && (after[i].published && !before[i].published ==> after[i].rebuildId in topic)
  }

  lemma {:induction false} PublishedQueue(rows: seq<OutboxRow>)
    requires AllPublished(rows)
    ensures Queue(rows) == []
    decreases |rows|
  {
    if rows != [] {
      assert rows[0].published && AllPublished(rows[1..]);
      PublishedQueue(rows[1..]);
    }
  }

  lemma AroundRow(rows: seq<OutboxRow>, row: nat)
    requires row < |rows|
    ensures rows == rows[..row] + ([rows[row]] + rows[row + 1..])
  {
  }

  lemma QueuePieces(before: seq<OutboxRow>, r: OutboxRow, after: seq<OutboxRow>)
    ensures Queue(before + ([r] + after)) == Queue(before) + (Waiting(r) + Queue(after))
  {
    QueueJoin(before, [r] + after);
    QueueSplit(r, after);
  }

  lemma QueueAround(rows: seq<OutboxRow>, row: nat)
    requires row < |rows|
    ensures Queue(rows) == Queue(rows[..row]) + (Waiting(rows[row]) + Queue(rows[row + 1..]))
  {
    AroundRow(rows, row);
    QueuePieces(rows[..row], rows[row], rows[row + 1..]);
  }

  /** The first row that is not published is the head of the queue. */
  lemma QueueHead(rows: seq<OutboxRow>, row: nat)
    requires row < |rows| && !rows[row].published && Queue(rows[..row]) == []
    ensures Queue(rows) == [rows[row].rebuildId] + Queue(rows[row + 1..])
    ensures Queue(rows) != [] && Queue(rows)[0] == rows[row].rebuildId && Queue(rows)[1..] == Queue(rows[row + 1..])
  {
    QueueAround(rows, row);
  }

  lemma MarkedQueue(rows: seq<OutboxRow>, row: nat)
    requires row < |rows|
    ensures Queue(rows[row := rows[row].(published := true)]) == Queue(rows[..row]) + Queue(rows[row + 1..])
  {
    var marked := rows[row := rows[row].(published := true)];
    QueueAround(marked, row);
    assert marked[..row] == rows[..row] && marked[row + 1..] == rows[row + 1..];
  }

  /** `sent` requests of the queue went to the topic, and `marked` of them left the queue. */
  ghost predicate Sent(queue: seq<string>, before: seq<string>, topic: seq<string>, rest: seq<string>, sent: nat, marked: nat) {
    && marked <= sent <= marked + 1 && sent <= |queue|
    && topic == before + queue[..sent] && rest == queue[marked..]
  }

  lemma SendNext(queue: seq<string>, before: seq<string>, topic: seq<string>, rest: seq<string>, n: nat)
    requires Sent(queue, before, topic, rest, n, n) && rest != []
    ensures n < |queue| && Sent(queue, before, topic + [rest[0]], rest, n + 1, n)
    ensures Sent(queue, before, topic + [rest[0]], rest[1..], n + 1, n + 1)
  {
    assert queue[..n + 1] == queue[..n] + [queue[n]];
  }

  class Relay {
    const store: OntologyStore
    var topic: seq<string>

    constructor (store: OntologyStore)
      ensures this.store == store && topic == []
    {
      this.store, topic := store, [];
    }

    /** select ... where published_at is null order by id limit 1 */
    method NextOutbox() returns (next: Option<nat>)
      ensures next.None? ==> AllPublished(store.outbox) && Queue(store.outbox) == []
      ensures next.Some? ==> next.value < |store.outbox| && !store.outbox[next.value].published
      ensures next.Some? ==> forall i :: 0 <= i < next.value ==> store.outbox[i].published
      ensures next.Some? ==> Queue(store.outbox[..next.value]) == [] && Queue(store.outbox) != []
                             && Queue(store.outbox)[0] == store.outbox[next.value].rebuildId
    {
      var i := 0;
      while i < |store.outbox|
        invariant 0 <= i <= |store.outbox| && forall k :: 0 <= k < i ==> store.outbox[k].published
      {
        if !store.outbox[i].published {
          PublishedQueue(store.outbox[..i]);
          QueueHead(store.outbox, i);
          return Some(i);
        }
        i := i + 1;
      }
      PublishedQueue(store.outbox);
      return None;
    }

    /** Takes the row out of the queue for good, and no other: the rest keep their order. */
    method MarkOutboxPublished(row: nat)
      requires row < |store.outbox|
      modifies store`outbox
      ensures Queue(store.outbox) == Queue(old(store.outbox)[..row]) + Queue(old(store.outbox)[row + 1..])
      ensures store.outbox == old(store.outbox)[row := old(store.outbox)[row].(published := true)]
    {
      MarkedQueue(store.outbox, row);
      store.outbox := store.outbox[row := store.outbox[row].(published := true)];
    }

    /** The queue goes to the topic in order, from its head; what leaves the queue is in the
        topic, and at most the last one sent is still in the queue. Unless a turn failed the
        whole queue is in the topic and none is left. */
    method PublishAvailable(turn: nat -> Turn) returns (drained: bool)
      modifies this`topic, store`outbox
      ensures exists sent, marked :: Sent(old(Queue(store.outbox)), old(topic), topic, Queue(store.outbox), sent, marked)
      ensures Relayed(old(store.outbox), store.outbox, topic)
      ensures drained ==> AllPublished(store.outbox) && topic == old(topic) + old(Queue(store.outbox))
      ensures (forall row :: turn(row) == Delivered) ==> drained
    {
      ghost var queue, before, marked := Queue(store.outbox), topic, 0;
      while true
        invariant Sent(queue, before, topic, Queue(store.outbox), marked, marked)
        invariant Relayed(old(store.outbox), store.outbox, topic)
        decreases |queue| - marked
      {
        var next := NextOutbox();
        if next.None? {
          return true;
        }
        var row := next.value;
        var outcome := turn(row);
        SendNext(queue, before, topic, Queue(store.outbox), marked);
        QueueHead(store.outbox, row);
        if !outcome.PublishFails? || outcome.logged {
          topic := topic + [store.outbox[row].rebuildId];
        }
        if !outcome.Delivered? {
          return false;
        }
        MarkOutboxPublished(row);
        marked := marked + 1;
      }
    }
  }
}
