/** The in-memory usage ledger (src/storage.ts). */
module Storage {
  import opened Wrappers
  import opened Types

  /** Whether `event` passes `filter`: set text fields must equal the event's,
      `since`/`until` bound `createdAt` inclusively, and no filter passes all. */
  predicate MatchesFilter(event: UsageEvent, filter: Option<StorageQuery>)
  {
    if filter.None? then true
    else
      var f := filter.value;
      if Present(f.model) && event.model != f.model.value then false
      else if Present(f.userId) && event.userId != f.userId then false
      else if Present(f.feature) && event.feature != f.feature then false
      else if f.since.Some? && event.createdAt < f.since.value then false
      else if f.until.Some? && event.createdAt > f.until.value then false
      else true
  }

  /** Each condition of a filter, stated on its own. */
  lemma MatchesFilterMeaning(event: UsageEvent, f: StorageQuery)
    ensures MatchesFilter(event, Some(f)) <==>
      && (Present(f.model) ==> event.model == f.model.value)
      && (Present(f.userId) ==> event.userId == f.userId)
      && (Present(f.feature) ==> event.feature == f.feature)
      && (f.since.Some? ==> f.since.value <= event.createdAt)
      && (f.until.Some? ==> event.createdAt <= f.until.value)
  {
  }

  /** The events of `events` that pass `filter`, in their stored order. */
  function FilterEvents(events: seq<UsageEvent>, filter: Option<StorageQuery>): (r: seq<UsageEvent>)
    ensures |r| <= |events|
  {
    if events == [] then []
    else
      var rest := FilterEvents(events[..|events| - 1], filter);
      var last := events[|events| - 1];
      if MatchesFilter(last, filter) then rest + [last] else rest
  }

  /** A query returns exactly the stored events that match it. */
  lemma {:induction false} FilterMembership(events: seq<UsageEvent>, filter: Option<StorageQuery>)
    ensures forall e :: e in FilterEvents(events, filter) <==> e in events && MatchesFilter(e, filter)
  {
    if events != [] {
      var prefix, last := events[..|events| - 1], events[|events| - 1];
      FilterMembership(prefix, filter);
      assert events == prefix + [last];
    }
  }

  /** Filtering distributes over concatenation, so the result keeps the
      relative order in which events were appended. */
  lemma {:induction false} FilterConcat(a: seq<UsageEvent>, b: seq<UsageEvent>, filter: Option<StorageQuery>)
    ensures FilterEvents(a + b, filter) == FilterEvents(a, filter) + FilterEvents(b, filter)
    decreases |b|
  {
    if b == [] {
      assert a + b == a;
    } else {
      var b', x := b[..|b| - 1], b[|b| - 1];
      var tail := if MatchesFilter(x, filter) then [x] else [];
      assert b == b' + [x];
      assert a + b == (a + b') + [x];
      FilterAppend(a + b', x, filter);
      FilterAppend(b', x, filter);
      FilterConcat(a, b', filter);
      assert FilterEvents(a + b, filter) == FilterEvents(a, filter) + FilterEvents(b', filter) + tail;
    }
  }

  /** Proof helper: appending one event extends every query result by that
      event exactly when it matches. */
  lemma FilterAppend(events: seq<UsageEvent>, e: UsageEvent, filter: Option<StorageQuery>)
    ensures FilterEvents(events + [e], filter)
         == FilterEvents(events, filter) + (if MatchesFilter(e, filter) then [e] else [])
  {
    assert (events + [e])[..|events|] == events;
  }

  /** Without a filter, or with an empty one, every event is returned. */
  lemma {:induction false} NoFilterKeepsAll(events: seq<UsageEvent>)
    ensures FilterEvents(events, None) == events
    ensures FilterEvents(events, Some(NoFilter)) == events
  {
    if events != [] {
      NoFilterKeepsAll(events[..|events| - 1]);
      assert events[..|events| - 1] + [events[|events| - 1]] == events;
    }
  }

  function EventAt(createdAt: int): UsageEvent {
    UsageEvent("gpt-4o-mini", 100.0, 50.0, Some("u1"), Some("chat"), createdAt, 0.001, createdAt)
  }

  function Since(t: int): StorageQuery {
    UsageFilter(None, None, None, Some(t), None, None)
  }

  /** Proof helper: what one event contributes to a query result. */
  function Keep(e: UsageEvent, filter: Option<StorageQuery>): seq<UsageEvent> {
    if MatchesFilter(e, filter) then [e] else []
  }

  /** Proof helper: a five-event ledger filtered event by event. */
  lemma FilterFive(a: UsageEvent, b: UsageEvent, c: UsageEvent, d: UsageEvent, e: UsageEvent, filter: Option<StorageQuery>)
    ensures FilterEvents([a, b, c, d, e], filter)
         == Keep(a, filter) + Keep(b, filter) + Keep(c, filter) + Keep(d, filter) + Keep(e, filter)
  {
    var s1 := [a];
    var s2 := s1 + [b];
    var s3 := s2 + [c];
    var s4 := s3 + [d];
    var s5 := s4 + [e];
    assert FilterEvents(s1, filter) == Keep(a, filter) by {
      FilterAppend([], a, filter);
      assert [] + [a] == s1;
    }
    FilterAppend(s1, b, filter);
    FilterAppend(s2, c, filter);
    FilterAppend(s3, d, filter);
    FilterAppend(s4, e, filter);
    assert s5 == [a, b, c, d, e];
  }

  /** The bounds are inclusive: over events created at 100, 200, ..., 500,
      `since = 300` keeps 300..500, `since = 250, until = 450` keeps 300 and
      400, and `since = 501` keeps nothing. */
  lemma InclusiveBoundsExample()
    ensures var events := [EventAt(100), EventAt(200), EventAt(300), EventAt(400), EventAt(500)];
      && FilterEvents(events, Some(Since(300))) == [EventAt(300), EventAt(400), EventAt(500)]
      && FilterEvents(events, Some(Since(250).(until := Some(450)))) == [EventAt(300), EventAt(400)]
      && FilterEvents(events, Some(Since(501))) == []
  {
    FilterFive(EventAt(100), EventAt(200), EventAt(300), EventAt(400), EventAt(500), Some(Since(300)));
    FilterFive(EventAt(100), EventAt(200), EventAt(300), EventAt(400), EventAt(500), Some(Since(250).(until := Some(450))));
    FilterFive(EventAt(100), EventAt(200), EventAt(300), EventAt(400), EventAt(500), Some(Since(501)));
  }

  /** `MemoryStorageAdapter`: an append-only list of usage events. */
  class MemoryStorageAdapter {
    var events: seq<UsageEvent>

    constructor ()
      ensures events == []
    {
      events := [];
    }

    /** Adds one event at the end; earlier events are untouched. */
    method Append(event: UsageEvent)
      modifies this
      ensures events == old(events) + [event]
    {
      events := events + [event];
    }

    /** The stored events that match `filter`, in append order; the store is
        not changed (a function cannot change it). */
    function List(filter: Option<StorageQuery>): (r: seq<UsageEvent>)
      reads this
      ensures |r| <= |events|
      ensures forall e :: e in r <==> e in events && MatchesFilter(e, filter)
    {
      FilterMembership(events, filter);
      FilterEvents(events, filter)
    }

    /** Empties the store: afterwards every query lists nothing. */
    method Reset()
      modifies this
      ensures events == []
      ensures forall filter :: List(filter) == []
    {
      events := [];
    }
  }
}
