/** The server-sent event stream of workspace events: a cursor moved along a table in which
    rows appear and expire, to a client that may lose its connection in the middle of a
    batch and come back with the last id it saw. */
module EventStream {
  import opened Prelude
  import opened Selection

  const BATCH: nat := 50

  /** eventLimit */
  function ClampLimit(limit: int): nat {
    if limit < 1 then 1 else if limit > 200 then 200 else limit
  }

  predicate Ascending(ids: seq<int>) {
    forall i, j :: 0 <= i < j < |ids| ==> ids[i] < ids[j]
  }

  function Above(rows: set<int>, cursor: int): set<int> {
    set id | id in rows && id > cursor
  }

  /** where id > cursor order by id limit n */
  ghost predicate ListAfter(rows: set<int>, cursor: int, limit: nat, batch: seq<int>) {
    && Ascending(batch)
    && Elements(batch) <= Above(rows, cursor)
    && |batch| <= limit
    && (|batch| < limit ==> Elements(batch) == Above(rows, cursor))
    && forall x, y :: x in Above(rows, cursor) && x !in batch && y in batch ==> y < x
  }

  // ---- One client --------------------------------------------------------------------------------

  /** A client and the connection it has, whose `cursor` the server moves. `appeared`, `late`
      and `lost` are history: every id that ever became visible, those that did so behind the
      client's position, and those deleted before the client got them. */
  datatype Client = Client(
    rows: set<int>,
    start: int,
    received: seq<int>,
    connected: bool,
    cursor: int,
    appeared: set<int>,
    late: set<int>,
    lost: set<int>)

  datatype Step =
    | Appear(id: int)
    | Expire(ids: set<int>)
    | Connect(after: Option<int>, latest: int)
    | Poll(batch: seq<int>, delivered: nat)
    | Drop

  /** The last id the client saw, or where it started. */
  function Position(c: Client): int {
    if c.received == [] then c.start else c.received[|c.received| - 1]
  }

  ghost predicate Init(c: Client) {
    c.received == [] && !c.connected && c.appeared == c.rows && c.late == {} && c.lost == {}
  }

  /** Without a cursor of its own, a connection starts at the row that occurred last, which may
      be any, or at 0 if there is none or it cannot be read. */
  predicate StartsAt(rows: set<int>, latest: int) {
    latest == 0 || latest in rows
  }

  ghost predicate Enabled(c: Client, step: Step) {
    match step
    case Appear(id) => id !in c.appeared
    case Expire(_) => true
    case Connect(after, latest) => !c.connected && StartsAt(c.rows, latest)
    case Poll(batch, delivered) => c.connected && ListAfter(c.rows, c.cursor, BATCH, batch) && delivered <= |batch|
    case Drop => true
  }

  /** The cursor of a new connection: the `after` parameter, else the Last-Event-ID header a
      reconnecting client sends, else the latest row. */
  function StartCursor(c: Client, after: Option<int>, latest: int): int {
    if after.Some? then after.value
    else if c.received != [] then Position(c)
    else latest
  }

  ghost function After(c: Client, step: Step): Client
    requires Enabled(c, step)
  {
    match step
    case Appear(id) =>
      c.(rows := c.rows + {id}, appeared := c.appeared + {id},
         late := if c.start < id <= Position(c) then c.late + {id} else c.late)
    case Expire(ids) =>
      c.(rows := c.rows - ids, lost := c.lost + (set id | id in ids * c.rows && id !in c.received))
    case Connect(after, latest) =>
      var cursor := StartCursor(c, after, latest);
      c.(connected := true, cursor := cursor, start := if c.received == [] then cursor else c.start)
    case Poll(batch, delivered) =>
      c.(received := c.received + batch[..delivered], connected := delivered == |batch|,
         cursor := if batch == [] then c.cursor else batch[|batch| - 1])
    case Drop => c.(connected := false)
  }

  ghost predicate RunFrom(c: Client, steps: seq<Step>, d: Client)
    decreases |steps|
  {
    if steps == [] then c == d
    else Enabled(c, steps[0]) && RunFrom(After(c, steps[0]), steps[1..], d)
  }

  // ---- Connections that resume --------------------------------------------------------------------

  predicate Between(a: int, b: int, id: int) {
    a < id <= b || b < id <= a
  }

  /** From either cursor one gets the same rows now and ever after: between them there is no
      row, and none can appear, because every id has been used. */
  ghost predicate SameRows(c: Client, a: int, b: int) {
    forall id :: Between(a, b, id) ==> id in c.appeared && id !in c.rows
  }

  /** A connection with this parameter goes on where the client is. */
  ghost predicate Resumes(c: Client, after: Option<int>) {
    c.received != [] && after.Some? ==> SameRows(c, after.value, Position(c))
  }

  /** Every connection of the run resumes. */
  ghost predicate Resuming(c: Client, steps: seq<Step>)
    decreases |steps|
  {
    steps != [] && Enabled(c, steps[0]) ==>
      (steps[0].Connect? ==> Resumes(c, steps[0].after)) && Resuming(After(c, steps[0]), steps[1..])
  }

  /** No gap and no repeat: events came in ascending order, and the client got every row it has
      gone past but those that appeared behind it or were deleted before it got to them. */
  ghost predicate Faithful(c: Client) {
    && Ascending(c.received)
    && (forall id :: id in c.appeared && c.start < id <= Position(c) ==> id in c.received || id in c.late || id in c.lost)
  }

  /** Every id that ever appeared is in the table, was received, or is lost. */
  ghost predicate Accounted(c: Client) {
    forall id :: id in c.appeared ==> id in c.rows || id in c.lost || id in c.received
  }

  ghost predicate Inv(c: Client) {
    && Faithful(c) && Accounted(c)
    && (forall i :: 0 <= i < |c.received| ==> c.received[i] > c.start)
    && Elements(c.received) + c.rows + c.lost + c.late <= c.appeared
    && c.lost !! c.rows && c.lost !! Elements(c.received) && c.late !! Elements(c.received)
    && (forall id :: id in c.late ==> c.start < id <= Position(c))
    && (c.connected ==> SameRows(c, c.cursor, Position(c)))
  }

  lemma AppearInv(c: Client, id: int)
    requires Inv(c) && Enabled(c, Appear(id))
    ensures Inv(After(c, Appear(id)))
  {
    assert forall x :: x in c.received ==> x in Elements(c.received);
  }

  lemma ExpireInv(c: Client, ids: set<int>)
    requires Inv(c)
    ensures Inv(After(c, Expire(ids)))
  {
    var d := After(c, Expire(ids));
    assert forall x :: x in c.received <==> x in Elements(c.received);
    assert d.lost !! Elements(d.received);
  }

  lemma SameAbove(c: Client, id: int)
    requires SameRows(c, c.cursor, Position(c)) && id in c.rows
    ensures id > c.cursor <==> id > Position(c)
  {
    assert !Between(c.cursor, Position(c), id);
  }

  /** A partial batch is still a run of the rows above the cursor, from the first on. */
  lemma DeliveredRows(rows: set<int>, cursor: int, batch: seq<int>, delivered: nat, id: int)
    requires ListAfter(rows, cursor, BATCH, batch) && 0 < delivered <= |batch|
    requires id in Above(rows, cursor) && id <= batch[delivered - 1]
    ensures id in batch[..delivered]
  {
    assert batch[delivered - 1] in batch;
    assert id in batch;
    var i :| 0 <= i < |batch| && batch[i] == id;
    assert i < delivered;
    assert batch[..delivered][i] == id;
  }

  lemma PollOrder(c: Client, batch: seq<int>, delivered: nat)
    requires Inv(c) && Enabled(c, Poll(batch, delivered))
    ensures Ascending(c.received + batch[..delivered])
    ensures forall i :: 0 <= i < delivered ==> batch[i] > Position(c) && batch[i] in c.rows
  {
    forall i | 0 <= i < delivered ensures batch[i] > Position(c) && batch[i] in c.rows {
      assert batch[i] in Elements(batch);
      SameAbove(c, batch[i]);
    }
  }

  lemma PollFaithful(c: Client, batch: seq<int>, delivered: nat)
    requires Inv(c) && Enabled(c, Poll(batch, delivered))
    ensures Faithful(After(c, Poll(batch, delivered)))
  {
    var d := After(c, Poll(batch, delivered));
    PollOrder(c, batch, delivered);
    if delivered > 0 {
      assert Position(d) == batch[delivered - 1];
      forall id | id in d.appeared && d.start < id <= Position(d) ensures id in d.received || id in d.late || id in d.lost {
        if id > Position(c) && id in c.rows {
          SameAbove(c, id);
          DeliveredRows(c.rows, c.cursor, batch, delivered, id);
          assert id in batch[..delivered];
        }
      }
    } else {
      assert d.received == c.received;
    }
  }

  lemma PollAligned(c: Client, batch: seq<int>, delivered: nat)
    requires Inv(c) && Enabled(c, Poll(batch, delivered)) && delivered == |batch|
    ensures var d := After(c, Poll(batch, delivered)); SameRows(d, d.cursor, Position(d))
  {
    var d := After(c, Poll(batch, delivered));
    assert batch[..delivered] == batch;
    if batch != [] {
      assert d.cursor == Position(d);
    } else {
      assert Position(d) == Position(c);
    }
  }

  lemma PollInv(c: Client, batch: seq<int>, delivered: nat)
    requires Inv(c) && Enabled(c, Poll(batch, delivered))
    ensures Inv(After(c, Poll(batch, delivered)))
  {
    var d := After(c, Poll(batch, delivered));
    PollOrder(c, batch, delivered);
    PollFaithful(c, batch, delivered);
    assert Position(c) >= c.start;
    assert Elements(d.received) == Elements(c.received) + Elements(batch[..delivered]);
    forall x | x in batch[..delivered] ensures x in c.rows && x > Position(c) {
      var i :| 0 <= i < delivered && batch[i] == x;
    }
    if delivered == |batch| {
      PollAligned(c, batch, delivered);
    }
  }

  lemma ConnectInv(c: Client, after: Option<int>, latest: int)
    requires Inv(c) && Enabled(c, Connect(after, latest)) && Resumes(c, after)
    ensures Inv(After(c, Connect(after, latest)))
  {
    assert c.received != [] ==> c.received[0] > c.start;
  }

  lemma StepInv(c: Client, step: Step)
    requires Inv(c) && Enabled(c, step) && (step.Connect? ==> Resumes(c, step.after))
    ensures Inv(After(c, step))
  {
    match step {
      case Appear(id) => AppearInv(c, id);
      case Expire(ids) => ExpireInv(c, ids);
      case Connect(after, latest) => ConnectInv(c, after, latest);
      case Poll(batch, delivered) => PollInv(c, batch, delivered);
      case Drop =>
    }
  }

  lemma {:induction false} RunInv(c: Client, steps: seq<Step>, d: Client)
    requires Inv(c) && RunFrom(c, steps, d) && Resuming(c, steps)
    ensures Inv(d)
    decreases |steps|
  {
    if steps != [] {
      StepInv(c, steps[0]);
      RunInv(After(c, steps[0]), steps[1..], d);
    }
  }

  /** Over any polls, broken connections and reconnects that resume, as those of a client
      without an `after` parameter do: events come in ascending order and never twice, all from
      above the starting cursor; and a row the client has gone past was received exactly if it
      did not become visible behind the client and was not deleted before the client got to it. */
  lemma ReceivedExactly(c0: Client, steps: seq<Step>, c: Client)
    requires Init(c0) && RunFrom(c0, steps, c) && Resuming(c0, steps)
    ensures Ascending(c.received)
    ensures forall id :: id in c.received ==> id in c.appeared && id > c.start
    ensures forall id :: id in c.appeared && c.start < id <= Position(c) ==> (id in c.received <==> id !in c.late && id !in c.lost)
  {
    RunInv(c0, steps, c);
    assert forall x :: x in c.received <==> x in Elements(c.received);
  }

  lemma {:induction false} NoParameterResumes(c: Client, steps: seq<Step>, d: Client)
    requires RunFrom(c, steps, d) && forall i :: 0 <= i < |steps| && steps[i].Connect? ==> steps[i].after.None?
    ensures Resuming(c, steps)
    decreases |steps|
  {
    if steps != [] {
      assert steps[0] == steps[..][0];
      NoParameterResumes(After(c, steps[0]), steps[1..], d);
    }
  }

  // ---- Reconnecting with an `after` parameter -------------------------------------------------------------

  /** A run in which the client does not connect again. */
  predicate OneConnection(steps: seq<Step>) {
    forall i :: 0 <= i < |steps| ==> !steps[i].Connect?
  }

  /** Whatever rows come and go, all later polls of the connection leave neither gap nor repeat. */
  ghost predicate GoesOn(c: Client) {
    forall steps, d :: OneConnection(steps) && RunFrom(c, steps, d) ==> Faithful(d)
  }

  lemma {:induction false} OneConnectionResumes(c: Client, steps: seq<Step>)
    requires OneConnection(steps)
    ensures Resuming(c, steps)
    decreases |steps|
  {
    if steps != [] && Enabled(c, steps[0]) {
      OneConnectionResumes(After(c, steps[0]), steps[1..]);
    }
  }

  lemma ResumingGoesOn(c: Client, after: Option<int>, latest: int)
    requires Inv(c) && Enabled(c, Connect(after, latest)) && Resumes(c, after)
    ensures GoesOn(After(c, Connect(after, latest)))
  {
    var d := After(c, Connect(after, latest));
    ConnectInv(c, after, latest);
    forall steps, e | OneConnection(steps) && RunFrom(d, steps, e) ensures Faithful(e) {
      OneConnectionResumes(d, steps);
      RunInv(d, steps, e);
    }
  }

  lemma Member<T>(s: set<T>) returns (x: T)
    requires s != {}
    ensures x in s
  {
    x :| x in s;
  }

  lemma {:induction false} LeastOf(s: set<int>) returns (least: int)
    requires s != {}
    ensures least in s && forall x :: x in s ==> least <= x
    decreases |s|
  {
    var m := Member(s);
    var rest := s - {m};
    least := m;
    if rest != {} {
      var other := LeastOf(rest);
      least := if other < m then other else m;
      forall x | x in s ensures least <= x {
        assert x == m || x in rest;
      }
    } else {
      forall x | x in s ensures x == m {
        assert x !in rest;
      }
    }
  }

  lemma {:induction false} BeyondAll(s: set<int>, a: int) returns (n: int)
    ensures n > a && forall x :: x in s ==> x < n
    decreases |s|
  {
    if s == {} {
      n := a + 1;
    } else {
      var m := Member(s);
      var rest := s - {m};
      var k := BeyondAll(rest, a);
      n := if k > m then k else m + 1;
      forall x | x in s ensures x < n {
        assert x == m || x in rest;
      }
    }
  }

  lemma {:induction false} BatchExists(rows: set<int>, cursor: int, limit: nat) returns (batch: seq<int>)
    ensures ListAfter(rows, cursor, limit, batch)
    decreases |Above(rows, cursor)|
  {
    var above := Above(rows, cursor);
    if above == {} || limit == 0 {
      batch := [];
    } else {
      var least := LeastOf(above);
      assert Above(rows, least) == above - {least};
      var rest := BatchExists(rows, least, limit - 1);
      batch := [least] + rest;
      assert Elements(batch) == {least} + Elements(rest);
      ListedFirst(rows, cursor, limit, least, rest);
    }
  }

  lemma ListedFirst(rows: set<int>, cursor: int, limit: nat, least: int, rest: seq<int>)
    requires limit > 0 && least in Above(rows, cursor) && forall x :: x in Above(rows, cursor) ==> least <= x
    requires ListAfter(rows, least, limit - 1, rest)
    ensures ListAfter(rows, cursor, limit, [least] + rest)
  {
    var batch := [least] + rest;
    assert Elements(batch) == {least} + Elements(rest) && Above(rows, cursor) == {least} + Above(rows, least);
    forall i | 0 <= i < |rest| ensures rest[i] > least {
      assert rest[i] in Elements(rest);
    }
  }

  lemma OneStep(c: Client, step: Step)
    requires Enabled(c, step)
    ensures RunFrom(c, [step], After(c, step))
  {
    assert [step][1..] == [] && RunFrom(After(c, step), [], After(c, step));
  }

  lemma StepFirst(c: Client, step: Step, steps: seq<Step>, d: Client)
    requires Enabled(c, step) && RunFrom(After(c, step), steps, d)
    ensures RunFrom(c, [step] + steps, d)
  {
    assert ([step] + steps)[1..] == steps;
  }

  lemma SomethingListed(rows: set<int>, cursor: int, batch: seq<int>, id: int)
    requires ListAfter(rows, cursor, BATCH, batch) && id in Above(rows, cursor)
    ensures batch != []
  {
    assert |batch| < BATCH ==> id in batch;
  }

  /** A poll from a cursor behind the client brings a row at or behind its position. */
  lemma PollBehind(c: Client, id: int) returns (step: Step)
    requires c.connected && c.received != [] && id in c.rows && c.cursor < id <= Position(c)
    ensures Enabled(c, step) && step.Poll? && !Faithful(After(c, step))
  {
    var batch := BatchExists(c.rows, c.cursor, BATCH);
    step := Poll(batch, |batch|);
    var d := After(c, step);
    SomethingListed(c.rows, c.cursor, batch, id);
    assert batch[0] in batch;
    assert batch[0] <= id;
    assert d.received[|c.received| - 1] == Position(c) && d.received[|c.received|] == batch[0];
  }

  /** A poll from a cursor ahead of the client goes past a row for good, once there is a row
      above the cursor. */
  lemma PollAhead(c: Client, id: int, n: int) returns (step: Step)
    requires c.connected && c.received != [] && c.start < Position(c) && Position(c) < id <= c.cursor < n && n in c.rows
    requires Ascending(c.received) && id in c.appeared && id !in c.late && id !in c.lost
    ensures Enabled(c, step) && step.Poll? && !Faithful(After(c, step))
  {
    var batch := BatchExists(c.rows, c.cursor, BATCH);
    step := Poll(batch, |batch|);
    var d := After(c, step);
    SomethingListed(c.rows, c.cursor, batch, n);
    var last := batch[|batch| - 1];
    assert last in Elements(batch) && d.received[|d.received| - 1] == last;
    forall i | 0 <= i < |d.received| ensures d.received[i] != id {
      if i < |c.received| {
        assert d.received[i] == c.received[i] <= Position(c);
      } else {
        assert d.received[i] == batch[i - |c.received|] && d.received[i] in Elements(batch);
      }
    }
  }

  /** A row between the two cursors makes the connection unfaithful. */
  lemma RowBetween(c: Client, id: int) returns (steps: seq<Step>, d: Client)
    requires c.connected && c.received != [] && c.start < Position(c)
    requires Ascending(c.received) && c.rows <= c.appeared
    requires Between(c.cursor, Position(c), id) && id in c.rows && (Position(c) < id ==> id !in c.lost && id !in c.late)
    ensures OneConnection(steps) && RunFrom(c, steps, d) && !Faithful(d)
  {
    if id <= Position(c) {
      var poll := PollBehind(c, id);
      OneStep(c, poll);
      steps, d := [poll], After(c, poll);
    } else {
      var n := BeyondAll(c.appeared, c.cursor);
      var u := After(c, Appear(n));
      var poll := PollAhead(u, id, n);
      OneStep(u, poll);
      d := After(u, poll);
      StepFirst(c, Appear(n), [poll], d);
      steps := [Appear(n)] + [poll];
    }
  }

  /** The same for a row that can still appear there. */
  lemma GapBetween(c: Client, id: int) returns (steps: seq<Step>, d: Client)
    requires c.connected && c.received != [] && c.start < Position(c)
    requires Ascending(c.received) && c.rows + c.lost + c.late <= c.appeared
    requires Between(c.cursor, Position(c), id) && id !in c.appeared
    ensures OneConnection(steps) && RunFrom(c, steps, d) && !Faithful(d)
  {
    var rest;
    rest, d := RowBetween(After(c, Appear(id)), id);
    StepFirst(c, Appear(id), rest, d);
    steps := [Appear(id)] + rest;
  }

  lemma NotResumingFails(c: Client, after: int, latest: int) returns (steps: seq<Step>, d: Client)
    requires Inv(c) && c.received != [] && Enabled(c, Connect(Some(after), latest)) && !Resumes(c, Some(after))
    ensures OneConnection(steps) && RunFrom(After(c, Connect(Some(after), latest)), steps, d) && !Faithful(d)
  {
    var id :| Between(after, Position(c), id) && !(id in c.appeared && id !in c.rows);
    var u := After(c, Connect(Some(after), latest));
    if id in c.rows {
      steps, d := RowBetween(u, id);
    } else {
      steps, d := GapBetween(u, id);
    }
  }

  /** A client that has received something and reconnects gets no gap and no repeat in all
      later polls, whatever rows come and go, exactly if it sends no `after` parameter or one
      between which and the last id it saw there is no row and can be none. */
  lemma ReconnectGoesOnIff(c0: Client, steps: seq<Step>, c: Client, after: Option<int>, latest: int)
    requires Init(c0) && RunFrom(c0, steps, c) && Resuming(c0, steps)
    requires c.received != [] && Enabled(c, Connect(after, latest))
    ensures GoesOn(After(c, Connect(after, latest))) <==>
              after.None? || forall id :: Between(after.value, Position(c), id) ==> id in c.appeared && id !in c.rows
  {
    RunInv(c0, steps, c);
    if Resumes(c, after) {
      ResumingGoesOn(c, after, latest);
    } else {
      var rest, d := NotResumingFails(c, after.value, latest);
    }
  }

  /** While nothing has been deleted that leaves one parameter: the last id it saw. */
  lemma OnlyLastIdGoesOn(c0: Client, steps: seq<Step>, c: Client, after: Option<int>, latest: int)
    requires Init(c0) && RunFrom(c0, steps, c) && Resuming(c0, steps)
    requires c.received != [] && Enabled(c, Connect(after, latest)) && c.rows == c.appeared
    ensures GoesOn(After(c, Connect(after, latest))) <==> after.None? || after.value == Position(c)
  {
    ReconnectGoesOnIff(c0, steps, c, after, latest);
    if after.Some? && after.value != Position(c) {
      assert Between(after.value, Position(c), if after.value < Position(c) then Position(c) else after.value);
    }
  }

  /** A client that keeps an `after` parameter in its address gets the same rows again after
      every reconnect: the parameter wins over the id it last saw. */
  lemma AfterParameterRepeats(c0: Client, after: int, latest: int) returns (batch: seq<int>, d: Client)
    requires Init(c0) && StartsAt(c0.rows, latest) && Above(c0.rows, after) != {}
    ensures batch != [] && d.received == batch + batch
    ensures RunFrom(c0, [Connect(Some(after), latest), Poll(batch, |batch|), Drop, Connect(Some(after), latest), Poll(batch, |batch|)], d)
  {
    batch := BatchExists(c0.rows, after, BATCH);
    var id := Member(Above(c0.rows, after));
    SomethingListed(c0.rows, after, batch, id);
    var connect, poll := Connect(Some(after), latest), Poll(batch, |batch|);
    var c1 := After(c0, connect);
    var c2 := After(c1, poll);
    var c3 := After(c2, Drop);
    var c4 := After(c3, connect);
    d := After(c4, poll);
    assert batch[..|batch|] == batch;
    OneStep(c4, poll);
    StepFirst(c3, connect, [poll], d);
    StepFirst(c2, Drop, [connect] + [poll], d);
    StepFirst(c1, poll, [Drop] + ([connect] + [poll]), d);
    StepFirst(c0, connect, [poll] + ([Drop] + ([connect] + [poll])), d);
    assert [connect] + ([poll] + ([Drop] + ([connect] + [poll]))) == [connect, poll, Drop, connect, poll];
  }

  // ---- Rows that become visible in id order ------------------------------------------------------------

  /** Every row of the run has a larger id than all before it. */
  ghost predicate InOrder(c: Client, steps: seq<Step>)
    decreases |steps|
  {
    steps != [] && Enabled(c, steps[0]) ==>
      && (steps[0].Appear? ==> forall x :: x in c.appeared ==> x < steps[0].id)
      && InOrder(After(c, steps[0]), steps[1..])
  }

  lemma {:induction false} NothingLate(c: Client, steps: seq<Step>, d: Client)
    requires Inv(c) && c.late == {} && RunFrom(c, steps, d) && Resuming(c, steps) && InOrder(c, steps)
    ensures d.late == {}
    decreases |steps|
  {
    if steps != [] {
      StepInv(c, steps[0]);
      if c.received != [] {
        assert Position(c) in Elements(c.received);
      }
      NothingLate(After(c, steps[0]), steps[1..], d);
    }
  }

  /** When rows become visible in id order and none is deleted between the client's start and
      its position before it got there, the client has received exactly the rows between the
      two: no gap and no repeat. */
  lemma NoGapNoRepeat(c0: Client, steps: seq<Step>, c: Client)
    requires Init(c0) && RunFrom(c0, steps, c) && Resuming(c0, steps) && InOrder(c0, steps)
    requires forall id :: id in c.lost ==> !(c.start < id <= Position(c))
    ensures Ascending(c.received)
    ensures forall id :: id in c.received <==> id in c.appeared && c.start < id <= Position(c)
  {
    NothingLate(c0, steps, c);
    RunInv(c0, steps, c);
    assert forall x :: x in c.received <==> x in Elements(c.received);
    forall id | id in c.received ensures id <= Position(c) {
      var i :| 0 <= i < |c.received| && c.received[i] == id;
    }
  }

  // ---- The handler's loop --------------------------------------------------------------------------------

  function IdKey(id: int): Option<int> {
    Some(id)
  }

  class Connection {
    var cursor: int
    var written: seq<int>

    constructor (cursor: int)
      ensures this.cursor == cursor && written == []
    {
      this.cursor, written := cursor, [];
    }

    method ListWorkspaceEventsAfter(rows: set<int>, id: int, limit: int) returns (items: seq<int>)
      ensures ListAfter(rows, id, ClampLimit(limit), items)
      ensures 1 <= limit <= 200 ==> ListAfter(rows, id, limit, items)
      ensures limit < 1 ==> ListAfter(rows, id, 1, items)
      ensures limit > 200 ==> ListAfter(rows, id, 200, items)
    {
      items := SelectOldest(Above(rows, id), IdKey, ClampLimit(limit));
      assert forall i, j :: 0 <= i < j < |items| ==> SortsBefore(IdKey(items[i]), IdKey(items[j]));
      ListedInOrder(rows, id, ClampLimit(limit), items);
    }

    /** One tick: writes the next rows and moves the cursor along. */
    method Tick(rows: set<int>)
      modifies this
      ensures exists batch: seq<int> :: ListAfter(rows, old(cursor), 50, batch) && written == old(written) + batch
                && cursor == if batch == [] then old(cursor) else batch[|batch| - 1]
    {
      var items := ListWorkspaceEventsAfter(rows, cursor, BATCH);
      for n := 0 to |items|
        invariant written == old(written) + items[..n]
        invariant cursor == if n == 0 then old(cursor) else items[n - 1]
      {
        written := written + [items[n]];
        cursor := items[n];
      }
      assert items[..|items|] == items;
      assert ListAfter(rows, old(cursor), BATCH, items);
    }
  }

  lemma ListedInOrder(rows: set<int>, cursor: int, limit: nat, items: seq<int>)
    requires Distinct(items) && SortedBy(items, IdKey) && OldestFirst(Above(rows, cursor), IdKey, limit, Elements(items))
    requires limit > 0 && |items| == |Elements(items)|
    ensures ListAfter(rows, cursor, limit, items)
  {
    forall i, j | 0 <= i < j < |items| ensures items[i] < items[j] {
      assert SortsBefore(IdKey(items[i]), IdKey(items[j]));
    }
    forall x, y | x in Above(rows, cursor) && x !in items && y in items ensures y < x {
      assert x !in Elements(items) && y in Elements(items);
      assert SortsBefore(IdKey(y), IdKey(x));
    }
  }
}
