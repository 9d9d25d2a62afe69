/**
 * AnalyticsServiceImpl: stamps tracked events with an id and the current
 * time, stores them in an InMemoryAnalyticsStorage, and answers queries
 * by name and date range over the stored log.
 */
module AnalyticsService {
  import opened Wrappers
  import opened Sequences
  import opened AnalyticsEvents
  import opened AnalyticsStorage

  /**
   * The query filter: a nil or empty name applies no name filter, otherwise
   * the name must be equal; each date bound, when present, is inclusive; all
   * conditions must hold together.
   */
  predicate Matches(e: AnalyticsEvent, name: Option<string>, fromDate: Option<int>, toDate: Option<int>) {
    (name.None? || name.value == [] || e.name == name.value)
    && (fromDate.None? || e.date >= fromDate.value)
    && (toDate.None? || e.date <= toDate.value)
  }

  /** The events of s that match the query, in their order in s. */
  function Matching(s: seq<AnalyticsEvent>, name: Option<string>, fromDate: Option<int>, toDate: Option<int>): (r: seq<AnalyticsEvent>)
    ensures forall e :: e in r <==> e in s && Matches(e, name, fromDate, toDate)
    ensures |r| <= |s|
    ensures SortedDesc(s, EventDate) ==> SortedDesc(r, EventDate)
  {
    if s == [] then []
    else
      var rest := Matching(s[1..], name, fromDate, toDate);
      assert forall e :: e in s[1..] ==> e in s;
      if Matches(s[0], name, fromDate, toDate) then
        KeepHeadInOrder(s, rest);
        [s[0]] + rest
      else
        assert SortedDesc(s, EventDate) ==> SortedDesc(s[1..], EventDate);
        rest
  }

  /** The answer keeps every matching event as often as it is stored, and no other event. */
  lemma {:induction false} MatchingIsFilter(s: seq<AnalyticsEvent>, name: Option<string>, fromDate: Option<int>, toDate: Option<int>)
    ensures var r := Matching(s, name, fromDate, toDate);
      forall e :: multiset(r)[e] == if Matches(e, name, fromDate, toDate) then multiset(s)[e] else 0
  {
    if s != [] {
      MatchingIsFilter(s[1..], name, fromDate, toDate);
      assert s == [s[0]] + s[1..];
    }
  }

  lemma KeepHeadInOrder(s: seq<AnalyticsEvent>, rest: seq<AnalyticsEvent>)
    requires s != []
    requires forall e :: e in rest ==> e in s[1..]
    requires SortedDesc(s[1..], EventDate) ==> SortedDesc(rest, EventDate)
    ensures SortedDesc(s, EventDate) ==> SortedDesc([s[0]] + rest, EventDate)
  {
    if SortedDesc(s, EventDate) {
      assert SortedDesc(s[1..], EventDate);
      PrependSorted(s[0], rest, EventDate);
    }
  }

  /** A query with no name, or an empty name, and no bounds returns everything. */
  lemma {:induction false} NoFilterKeepsAll(s: seq<AnalyticsEvent>, name: Option<string>)
    requires name.None? || name.value == []
    ensures Matching(s, name, None, None) == s
  {
    if s != [] {
      NoFilterKeepsAll(s[1..], name);
      assert Matches(s[0], name, None, None);
      assert s == [s[0]] + s[1..];
    }
  }

  class AnalyticsServiceImpl {
    const storage: InMemoryAnalyticsStorage
    /** The current time, in seconds, that `Date()` would return. */
    var clock: int
    /** The next UUID to hand out. */
    var nextId: nat

    constructor (storage: InMemoryAnalyticsStorage, clock: int)
      ensures this.storage == storage && this.clock == clock && nextId == 0
    {
      this.storage := storage;
      this.clock := clock;
      nextId := 0;
    }

    /** `trackEvent(name:parameters:)`: store one event with exactly this name and these parameters. */
    method TrackEvent(name: string, parameters: Params)
      modifies this, storage
      ensures storage.events == Retain(old(storage.events) + [AnalyticsEvent(old(nextId), name, parameters, clock)], storage.maxEventsCount)
      ensures storage.Valid()
      ensures nextId == old(nextId) + 1 && clock == old(clock)
    {
      var event := AnalyticsEvent(nextId, name, parameters, clock);
      nextId := nextId + 1;
      storage.SaveEvent(event);
    }

    /** `trackEvent(_:)`: store a structured event under its name with its parameters. */
    method Track(event: EventRecord)
      modifies this, storage
      ensures storage.events == Retain(old(storage.events) + [AnalyticsEvent(old(nextId), event.name, event.parameters, clock)], storage.maxEventsCount)
      ensures storage.Valid()
      ensures nextId == old(nextId) + 1 && clock == old(clock)
    {
      TrackEvent(event.name, event.parameters);
    }

    /** `getEvents`: the stored log, newest first. */
    method GetEvents() returns (r: seq<AnalyticsEvent>)
      ensures multiset(r) == multiset(storage.events)
      ensures SortedDesc(r, EventDate)
      ensures r == SortDesc(storage.events, EventDate)
    {
      r := storage.GetEvents();
    }

    method ClearEvents()
      modifies storage
      ensures storage.Valid()
      ensures storage.events == []
    {
      storage.ClearEvents();
    }

    /**
     * `getEvents(name:fromDate:toDate:)`: exactly the stored events that match
     * the query, newest first.
     */
    method GetFilteredEvents(name: Option<string>, fromDate: Option<int>, toDate: Option<int>) returns (r: seq<AnalyticsEvent>)
      ensures forall e :: e in r <==> e in storage.events && Matches(e, name, fromDate, toDate)
      ensures SortedDesc(r, EventDate)
      ensures r == Matching(SortDesc(storage.events, EventDate), name, fromDate, toDate)
    {
      var all := storage.GetEvents();
      forall e ensures e in all <==> e in storage.events {
        assert e in all <==> e in multiset(all);
      }
      r := Matching(all, name, fromDate, toDate);
    }
  }

  /** Of two events tracked one after the other at increasing times, the later is listed first. */
  lemma LaterTrackedListedFirst(first: AnalyticsEvent, second: AnalyticsEvent)
    requires first.date < second.date
    ensures SortDesc([first, second], EventDate) == [second, first]
  {
    assert StrictlyAscending([first, second], EventDate);
    SortDescOfAscending([first, second], EventDate);
    assert Reverse([first, second]) == Reverse([second]) + [first];
  }
}
