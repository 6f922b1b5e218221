/** The dashboard's timeline: the newest forty events, merged one at a time while the page is
    visible, and held back in a buffer of their own while it is hidden. */
module Timeline {
  import opened Prelude
  import opened Selection

  datatype Event = Event(id: int, eventId: string, body: string)

  const LIMIT: nat := 40

  /** The same stored row, whenever it is seen: ids and event ids stand for each other. */
  ghost predicate Coherent(events: set<Event>) {
    forall e, f :: e in events && f in events && (e.id == f.id || e.eventId == f.eventId) ==> e == f
  }

  predicate Descending(s: seq<Event>) {
    forall i, j :: 0 <= i < j < |s| ==> s[i].id > s[j].id
  }

  /** `list` is the forty events of `seen` with the largest ids, newest first. */
  ghost predicate Newest(list: seq<Event>, seen: set<Event>) {
    && Descending(list)
    && Elements(list) <= seen
    && |list| <= 40
    && (|list| < 40 ==> Elements(list) == seen)
    && forall x, y :: x in seen && x !in list && y in list ==> x.id < y.id
  }

  // ---- mergeEvents ----------------------------------------------------------------------------

  /** Puts an event in its place, unless an event with its id is there. */
  function Place(s: seq<Event>, e: Event): seq<Event> {
    if s == [] then [e]
    else if e.id > s[0].id then [e] + s
    else if e.id == s[0].id then s
    else [s[0]] + Place(s[1..], e)
  }

  function PlaceAll(s: seq<Event>, es: seq<Event>): seq<Event>
    decreases |es|
  {
    if es == [] then s else PlaceAll(Place(s, es[|es| - 1]), es[..|es| - 1])
  }

  function Take(s: seq<Event>): seq<Event> {
    if |s| <= LIMIT then s else s[..LIMIT]
  }

  function Merge(current: seq<Event>, incoming: seq<Event>): seq<Event> {
    Take(PlaceAll([], incoming + current))
  }

  lemma {:induction false} PlaceMembers(s: seq<Event>, e: Event, x: Event)
    requires Coherent(Elements(s) + {e})
    ensures x in Place(s, e) <==> x in s || x == e
    decreases |s|
  {
    if s != [] {
      assert s == [s[0]] + s[1..];
      assert s[0] in Elements(s) + {e} && e in Elements(s) + {e};
      if e.id < s[0].id {
        assert Elements(s[1..]) + {e} <= Elements(s) + {e};
        PlaceMembers(s[1..], e, x);
      }
    }
  }

  lemma {:induction false} PlaceBelow(s: seq<Event>, e: Event, top: int)
    requires Descending(s) && e.id < top && forall i :: 0 <= i < |s| ==> s[i].id < top
    ensures Descending(Place(s, e)) && forall i :: 0 <= i < |Place(s, e)| ==> Place(s, e)[i].id < top
    decreases |s|
  {
    if s != [] && e.id < s[0].id {
      PlaceBelow(s[1..], e, s[0].id);
    }
  }

  lemma PlaceDescending(s: seq<Event>, e: Event)
    requires Descending(s) && Coherent(Elements(s) + {e})
    ensures Descending(Place(s, e)) && Elements(Place(s, e)) == Elements(s) + {e}
  {
    PlaceBelow(s, e, 1 + if s == [] || e.id > s[0].id then e.id else s[0].id);
    forall x ensures x in Elements(Place(s, e)) <==> x in Elements(s) + {e} {
      PlaceMembers(s, e, x);
    }
  }

  lemma LastElement(es: seq<Event>)
    requires es != []
    ensures Elements(es) == Elements(es[..|es| - 1]) + {es[|es| - 1]}
  {
    assert es == es[..|es| - 1] + [es[|es| - 1]];
  }

  lemma {:induction false} PlaceAllDescending(s: seq<Event>, es: seq<Event>)
    requires Descending(s) && Coherent(Elements(s) + Elements(es))
    ensures Descending(PlaceAll(s, es)) && Elements(PlaceAll(s, es)) == Elements(s) + Elements(es)
    decreases |es|
  {
    if es != [] {
      var init, last := es[..|es| - 1], es[|es| - 1];
      LastElement(es);
      PlaceDescending(s, last);
      var placed := Place(s, last);
      assert Elements(placed) + Elements(init) == Elements(s) + Elements(es);
      PlaceAllDescending(placed, init);
    }
  }

  lemma TakeNewest(s: seq<Event>, seen: set<Event>)
    requires Descending(s) && Elements(s) == seen
    ensures Newest(Take(s), seen)
  {
    var list := Take(s);
    forall x, y | x in seen && x !in list && y in list ensures x.id < y.id {
      var j :| 0 <= j < |list| && list[j] == y;
      assert x in s;
      var i :| 0 <= i < |s| && s[i] == x;
    }
  }

  /** A merge gives the newest forty of both lists together. */
  lemma MergeIsNewest(current: seq<Event>, incoming: seq<Event>)
    requires Coherent(Elements(current) + Elements(incoming))
    ensures Newest(Merge(current, incoming), Elements(current) + Elements(incoming))
  {
    assert Elements(incoming + current) == Elements(current) + Elements(incoming);
    assert Elements<Event>([]) + Elements(incoming + current) == Elements(incoming + current);
    PlaceAllDescending([], incoming + current);
    TakeNewest(PlaceAll([], incoming + current), Elements(current) + Elements(incoming));
  }

  // ---- The newest forty are unique, and forty of forty are enough ------------------------------------

  predicate SameUpTo(a: seq<Event>, b: seq<Event>, n: nat)
    requires n <= |a| && n <= |b|
  {
    forall k :: 0 <= k < n ==> a[k] == b[k]
  }

  lemma NotSmaller(a: seq<Event>, b: seq<Event>, seen: set<Event>, i: nat)
    requires Newest(a, seen) && Newest(b, seen) && i < |a| && i < |b| && SameUpTo(a, b, i)
    ensures a[i].id >= b[i].id
  {
    assert b[i] in Elements(b) && a[i] in a;
    if b[i] in a {
      var k :| 0 <= k < |a| && a[k] == b[i];
    }
  }

  lemma SameAt(a: seq<Event>, b: seq<Event>, seen: set<Event>, i: nat)
    requires Coherent(seen) && Newest(a, seen) && Newest(b, seen) && i < |a| && i < |b| && SameUpTo(a, b, i)
    ensures a[i] == b[i]
  {
    NotSmaller(a, b, seen, i);
    NotSmaller(b, a, seen, i);
    assert a[i] in Elements(a) && b[i] in Elements(b);
  }

  lemma {:induction false} SamePrefix(a: seq<Event>, b: seq<Event>, n: nat)
    requires n <= |a| && n <= |b|
    requires forall i :: 0 <= i < n && SameUpTo(a, b, i) ==> a[i] == b[i]
    ensures SameUpTo(a, b, n)
    decreases n
  {
    if n > 0 {
      SamePrefix(a, b, n - 1);
    }
  }

  lemma NewestIsUnique(a: seq<Event>, b: seq<Event>, seen: set<Event>)
    requires Coherent(seen) && Newest(a, seen) && Newest(b, seen)
    ensures a == b
  {
    NoLonger(a, b, seen);
    NoLonger(b, a, seen);
    forall i | 0 <= i < |a| && SameUpTo(a, b, i) ensures a[i] == b[i] {
      SameAt(a, b, seen, i);
    }
    SamePrefix(a, b, |a|);
  }

  lemma NoLonger(a: seq<Event>, b: seq<Event>, seen: set<Event>)
    requires Newest(a, seen) && Newest(b, seen)
    ensures |a| >= |b|
  {
    ElementCount(a);
    ElementCount(b);
    SubsetSize(Elements(b), seen);
  }

  lemma {:induction false} ElementCount(s: seq<Event>)
    requires Descending(s)
    ensures |Elements(s)| == |s|
    decreases |s|
  {
    if s != [] {
      ElementCount(s[1..]);
      assert Elements(s) == {s[0]} + Elements(s[1..]);
    }
  }

  /** What fell out of a list once can never come back in: merging into the newest forty is
      as good as merging into everything. */
  lemma NewestOfNewest(kept: seq<Event>, seen: set<Event>, list: seq<Event>, more: set<Event>)
    requires Newest(kept, seen) && Newest(list, Elements(kept) + more)
    ensures Newest(list, seen + more)
  {
    ElementCount(kept);
    ElementCount(list);
    if |list| < LIMIT {
      SubsetSize(Elements(kept), Elements(list));
    }
    forall x, y | x in seen + more && x !in list && y in list ensures x.id < y.id {
      if x in kept {
        assert x in Elements(kept) + more;
      } else if x !in more {
        assert y in Elements(list);
        if y !in kept {
          Squeezed(kept, list, y);
          var z :| z in kept && z !in list;
          assert z in Elements(kept) + more;
        }
      }
    }
  }

  /** A full list that holds something else has lost one of forty. */
  lemma Squeezed(kept: seq<Event>, list: seq<Event>, y: Event)
    requires Descending(kept) && Descending(list) && |list| <= |kept| && y in list && y !in kept
    ensures exists z :: z in kept && z !in list
  {
    ElementCount(kept);
    ElementCount(list);
    assert Elements(list) == Elements(list) - {y} + {y};
    if Elements(kept) <= Elements(list) - {y} {
      SubsetSize(Elements(kept), Elements(list) - {y});
    } else {
      var z :| z in Elements(kept) && z !in Elements(list) - {y};
      assert z in kept && z !in list;
    }
  }

  // ---- How the page merges -----------------------------------------------------------------------------

  function NewestFirst(e: Event): Option<int> {
    Some(-e.id)
  }

  /** Fills a map by event id, sorts its values by descending id and keeps forty. */
  method MergeEvents(current: seq<Event>, incoming: seq<Event>) returns (merged: seq<Event>)
    ensures Coherent(Elements(current) + Elements(incoming)) ==> merged == Merge(current, incoming)
  {
    var byId: map<string, Event> := map[];
    var all := incoming + current;
    for n := 0 to |all|
      invariant forall k :: k in byId ==> byId[k] in all && byId[k].eventId == k
      invariant forall i :: 0 <= i < n ==> all[i].eventId in byId
    {
      byId := byId[all[n].eventId := all[n]];
    }
    var values := byId.Values;
    var sorted := SelectOldest(values, NewestFirst, |values|);
    merged := if |sorted| <= LIMIT then sorted else sorted[..LIMIT];
    SortedMerge(current, incoming, byId, sorted);
  }

  lemma SortedMerge(current: seq<Event>, incoming: seq<Event>, byId: map<string, Event>, sorted: seq<Event>)
    requires forall k :: k in byId ==> byId[k] in incoming + current && byId[k].eventId == k
    requires forall i :: 0 <= i < |incoming + current| ==> (incoming + current)[i].eventId in byId
    requires Distinct(sorted) && SortedBy(sorted, NewestFirst) && Elements(sorted) == byId.Values
    ensures Coherent(Elements(current) + Elements(incoming)) ==> Take(sorted) == Merge(current, incoming)
  {
    var all, seen := incoming + current, Elements(current) + Elements(incoming);
    if Coherent(seen) {
      forall e ensures e in byId.Values <==> e in seen {
        if e in seen {
          assert e in all;
          var i :| 0 <= i < |all| && all[i] == e;
          var k := all[i].eventId;
          assert byId[k] in seen && byId[k] in byId.Values;
        }
      }
      forall i, j | 0 <= i < j < |sorted| ensures sorted[i].id > sorted[j].id {
        assert SortsBefore(NewestFirst(sorted[i]), NewestFirst(sorted[j]));
        assert sorted[i] in Elements(sorted) && sorted[j] in Elements(sorted);
      }
      TakeNewest(sorted, seen);
      MergeIsNewest(current, incoming);
      NewestIsUnique(Take(sorted), Merge(current, incoming), seen);
    }
  }

  // ---- Streaming and buffering -----------------------------------------------------------------------------

  datatype View = View(events: seq<Event>, buffered: seq<Event>, visible: bool)

  datatype Action = Arrive(event: Event) | Visibility(visible: bool)

  function Next(v: View, a: Action): View {
    match a
    case Arrive(e) =>
      if v.visible then v.(events := Merge(v.events, [e])) else v.(buffered := Merge(v.buffered, [e]))
    case Visibility(visible) =>
      if !visible then v.(visible := false)
      else View(if v.buffered == [] then v.events else Merge(v.events, v.buffered), [], true)
  }

  function Play(v: View, actions: seq<Action>): View
    decreases |actions|
  {
    if actions == [] then v else Next(Play(v, actions[..|actions| - 1]), actions[|actions| - 1])
  }

  /** Everything that has arrived. */
  function Arrived(actions: seq<Action>): set<Event>
    decreases |actions|
  {
    if actions == [] then {}
    else
      var last := actions[|actions| - 1];
      Arrived(actions[..|actions| - 1]) + Arriving(last)
  }

  function Arriving(a: Action): set<Event> {
    if a.Arrive? then {a.event} else {}
  }

  function StillHeld(visible: bool, held: set<Event>, a: Action): set<Event> {
    match a
    case Arrive(e) => if visible then held else held + {e}
    case Visibility(nowVisible) => if nowVisible then {} else held
  }

  /** What was buffered or has arrived and is still held back. */
  function HeldBack(v: View, actions: seq<Action>): set<Event>
    decreases |actions|
  {
    if actions == [] then Elements(v.buffered)
    else
      var init := actions[..|actions| - 1];
      StillHeld(Play(v, init).visible, HeldBack(v, init), actions[|actions| - 1])
  }

  /** The action merges something into the list. */
  predicate MergesNow(v: View, a: Action) {
    match a
    case Arrive(_) => v.visible
    case Visibility(visible) => visible && v.buffered != []
  }

  /** Some action of the run has merged something into the list. */
  predicate HasMerged(v: View, actions: seq<Action>)
    decreases |actions|
  {
    actions != [] &&
      (HasMerged(v, actions[..|actions| - 1]) || MergesNow(Play(v, actions[..|actions| - 1]), actions[|actions| - 1]))
  }

  ghost predicate Lists(v: View, shown: set<Event>, held: set<Event>) {
    Newest(v.events, shown) && Newest(v.buffered, held)
  }

  lemma MergeOne(list: seq<Event>, seen: set<Event>, incoming: seq<Event>, more: set<Event>)
    requires Newest(list, seen) && Newest(incoming, more) && Coherent(seen + more)
    ensures Newest(Merge(list, incoming), seen + more)
  {
    assert Elements(list) + Elements(incoming) <= seen + more;
    MergeIsNewest(list, incoming);
    assert Elements(list) + Elements(incoming) == Elements(incoming) + Elements(list);
    NewestOfNewest(incoming, more, Merge(list, incoming), Elements(list));
    assert more + Elements(list) == Elements(list) + more;
    NewestOfNewest(list, seen, Merge(list, incoming), more);
  }

  lemma OneIsNewest(e: Event)
    ensures Newest([e], {e})
  {
    assert Elements([e]) == {e};
  }

  lemma NextLists(v: View, shown: set<Event>, held: set<Event>, a: Action) returns (shown': set<Event>)
    requires Lists(v, shown, held) && Coherent(shown + held + Arriving(a))
    ensures Lists(Next(v, a), shown', StillHeld(v.visible, held, a))
    ensures shown' + StillHeld(v.visible, held, a) == shown + held + Arriving(a)
  {
    match a
    case Arrive(e) =>
      OneIsNewest(e);
      if v.visible {
        MergeOne(v.events, shown, [e], {e});
        return shown + {e};
      } else {
        MergeOne(v.buffered, held, [e], {e});
        return shown;
      }
    case Visibility(nowVisible) =>
      if nowVisible {
        ShowHeld(v, shown, held);
        return shown + held;
      } else {
        return shown;
      }
  }

  lemma ShowHeld(v: View, shown: set<Event>, held: set<Event>)
    requires Lists(v, shown, held) && Coherent(shown + held)
    ensures Lists(Next(v, Visibility(true)), shown + held, {})
  {
    if v.buffered != [] {
      MergeOne(v.events, shown, v.buffered, held);
    } else {
      assert held == {} && shown + held == shown;
    }
  }

  /** A view as the page can have it: the buffer comes from merges and is empty while the page
      is visible; the list may be a loaded snapshot in any order. */
  ghost predicate Viewable(v: View) {
    && |v.events| <= LIMIT && |v.buffered| <= LIMIT && Descending(v.buffered)
    && (v.visible ==> v.buffered == [])
  }

  /** All there is to list: what was loaded, what was buffered and what has arrived. */
  function Everything(v: View, actions: seq<Action>): set<Event> {
    Elements(v.events) + Elements(v.buffered) + Arrived(actions)
  }

  /** From a list in order: at any time the list is the newest forty of what was loaded or
      shown since, and the buffer the newest forty of what is held back. */
  lemma {:induction false} Tracks(v: View, actions: seq<Action>) returns (shown: set<Event>)
    requires Viewable(v) && Newest(v.events, Elements(v.events)) && Coherent(Everything(v, actions))
    ensures shown + HeldBack(v, actions) == Everything(v, actions)
    ensures Lists(Play(v, actions), shown, HeldBack(v, actions))
    ensures Play(v, actions).visible ==> HeldBack(v, actions) == {}
    decreases |actions|
  {
    if actions == [] {
      assert Arrived(actions) == {};
      return Elements(v.events);
    }
    var init, last := actions[..|actions| - 1], actions[|actions| - 1];
    assert Everything(v, init) <= Everything(v, actions);
    var before := Tracks(v, init);
    assert before + HeldBack(v, init) + Arriving(last) == Everything(v, actions);
    shown := NextLists(Play(v, init), before, HeldBack(v, init), last);
  }

  /** The view with its list put in order. */
  function InOrder(v: View): View {
    v.(events := Merge([], v.events))
  }

  lemma OrderedHasAll(v: View)
    requires |v.events| <= LIMIT && Coherent(Elements(v.events))
    ensures var list := InOrder(v).events; Newest(list, Elements(list)) && Elements(list) == Elements(v.events)
  {
    assert Elements<Event>([]) + Elements(v.events) == Elements(v.events);
    MergeIsNewest([], v.events);
    var list := InOrder(v).events;
    ElementCount(list);
    SizeBound(v.events);
    if |list| == LIMIT {
      SubsetSize(Elements(list), Elements(v.events));
    }
  }

  lemma {:induction false} SizeBound(s: seq<Event>)
    ensures |Elements(s)| <= |s|
    decreases |s|
  {
    if s != [] {
      SizeBound(s[1..]);
      assert Elements(s) == {s[0]} + Elements(s[1..]);
    }
  }

  /** Merges do not depend on the order of the list. */
  lemma MergeForgetsOrder(a: seq<Event>, b: seq<Event>, incoming: seq<Event>)
    requires Elements(a) == Elements(b) && Coherent(Elements(a) + Elements(incoming))
    ensures Merge(a, incoming) == Merge(b, incoming)
  {
    MergeIsNewest(a, incoming);
    MergeIsNewest(b, incoming);
    NewestIsUnique(Merge(a, incoming), Merge(b, incoming), Elements(a) + Elements(incoming));
  }

  /** Two views that differ at most in the order of a list nothing has been merged into. */
  ghost predicate SameButOrder(v: View, w: View, p: View, q: View, merged: bool) {
    && p.buffered == q.buffered && p.visible == q.visible
    && if merged then p.events == q.events else p.events == v.events && q.events == w.events
  }

  lemma NextButOrder(v: View, w: View, p: View, q: View, merged: bool, a: Action)
    requires SameButOrder(v, w, p, q, merged) && Elements(v.events) == Elements(w.events)
    requires Coherent(Elements(v.events) + Elements(p.buffered) + Arriving(a))
    ensures SameButOrder(v, w, Next(p, a), Next(q, a), merged || MergesNow(p, a))
  {
    if MergesNow(p, a) && !merged {
      var incoming := if a.Arrive? then [a.event] else p.buffered;
      assert Elements(v.events) + Elements(incoming) <= Elements(v.events) + Elements(p.buffered) + Arriving(a);
      MergeForgetsOrder(v.events, w.events, incoming);
    }
  }

  lemma {:induction false} PlayButOrder(v: View, actions: seq<Action>)
    requires Viewable(v) && Coherent(Everything(v, actions)) && Elements(InOrder(v).events) == Elements(v.events)
    requires Newest(InOrder(v).events, Elements(v.events))
    ensures SameButOrder(v, InOrder(v), Play(v, actions), Play(InOrder(v), actions), HasMerged(v, actions))
    decreases |actions|
  {
    if actions != [] {
      var init, last := actions[..|actions| - 1], actions[|actions| - 1];
      var w := InOrder(v);
      assert Everything(v, init) <= Everything(v, actions) && Everything(w, init) == Everything(v, init);
      PlayButOrder(v, init);
      var shown := Tracks(w, init);
      assert Elements(Play(w, init).buffered) <= HeldBack(w, init) <= Everything(v, init);
      assert Elements(v.events) + Elements(Play(v, init).buffered) + Arriving(last) <= Everything(v, actions);
      NextButOrder(v, w, Play(v, init), Play(w, init), HasMerged(v, init), last);
    }
  }

  /** As long as nothing has been merged, all that has come is held back. */
  lemma {:induction false} UnmergedIsHeld(v: View, actions: seq<Action>)
    requires Viewable(v) && Newest(v.events, Elements(v.events)) && Coherent(Everything(v, actions))
    requires !HasMerged(v, actions)
    ensures Elements(v.buffered) + Arrived(actions) == HeldBack(v, actions)
    decreases |actions|
  {
    if actions != [] {
      var init, last := actions[..|actions| - 1], actions[|actions| - 1];
      assert Everything(v, init) <= Everything(v, actions);
      UnmergedIsHeld(v, init);
      var shown := Tracks(v, init);
    }
  }

  /** However the events arrive, one by one, through the buffer or after any number of
      visibility changes, and in whatever order the snapshot was loaded: once anything has
      been merged into it, a visible page lists exactly what one merge of everything would,
      the forty events with the largest ids of all that were loaded, buffered or arrived,
      newest first and each once. Until then it lists the snapshot as it was loaded, and
      nothing else has come. */
  lemma StreamingIsOneMerge(v: View, actions: seq<Action>, everything: seq<Event>)
    requires Viewable(v) && Coherent(Everything(v, actions)) && Elements(everything) == Everything(v, actions)
    requires Play(v, actions).visible
    ensures HasMerged(v, actions) ==>
              Play(v, actions).events == Merge([], everything) && Newest(Play(v, actions).events, Elements(everything))
    ensures !HasMerged(v, actions) ==>
              Play(v, actions).events == v.events && Elements(everything) == Elements(v.events)
  {
    var w := InOrder(v);
    assert Elements(v.events) <= Everything(v, actions);
    OrderedHasAll(v);
    assert Everything(w, actions) == Everything(v, actions);
    PlayButOrder(v, actions);
    var shown := Tracks(w, actions);
    MergeIsNewest([], everything);
    assert Elements<Event>([]) + Elements(everything) == Elements(everything);
    if HasMerged(v, actions) {
      NewestIsUnique(Play(w, actions).events, Merge([], everything), Elements(everything));
    } else {
      SameMerged(v, w, actions);
      UnmergedIsHeld(w, actions);
    }
  }

  lemma {:induction false} SameMerged(v: View, w: View, actions: seq<Action>)
    requires w == InOrder(v) && Viewable(v) && Coherent(Everything(v, actions))
    requires Elements(w.events) == Elements(v.events) && Newest(w.events, Elements(v.events))
    ensures HasMerged(w, actions) == HasMerged(v, actions)
    decreases |actions|
  {
    if actions != [] {
      var init := actions[..|actions| - 1];
      assert Everything(v, init) <= Everything(v, actions);
      SameMerged(v, w, init);
      PlayButOrder(v, init);
    }
  }

  class Page {
    var events: seq<Event>
    var buffered: seq<Event>
    var visible: bool

    function Snapshot(): View
      reads this
    {
      View(events, buffered, visible)
    }

    constructor (events: seq<Event>, visible: bool)
      ensures Snapshot() == View(events, [], visible)
    {
      this.events, this.buffered, this.visible := events, [], visible;
    }

    /** A `workspace-event` message of the stream. */
    method OnWorkspaceEvent(e: Event)
      modifies this
      ensures Coherent(Elements(if old(visible) then old(events) else old(buffered)) + Elements([e]))
              ==> Snapshot() == Next(old(Snapshot()), Arrive(e))
    {
      if visible {
        events := MergeEvents(events, [e]);
        return;
      }
      buffered := MergeEvents(buffered, [e]);
    }

    method OnVisibilityChange(nowVisible: bool)
      modifies this
      ensures Coherent(Elements(old(events)) + Elements(old(buffered))) ==> Snapshot() == Next(old(Snapshot()), Visibility(nowVisible))
    {
      visible := nowVisible;
      if !visible {
        return;
      }
      var bufferedEvents := buffered;
      buffered := [];
      if bufferedEvents != [] {
        events := MergeEvents(events, bufferedEvents);
      }
    }
  }
}