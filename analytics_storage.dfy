/**
 * InMemoryAnalyticsStorage: an append-only event list with a retention
 * cap. Inserting past the cap evicts the oldest surplus; reads return
 * the events newest first.
 */
module AnalyticsStorage {
  import opened AnalyticsEvents
  import opened Sequences

  /** AnalyticsEvent: `id` stands for the UUID, `date` for the creation time in seconds. */
  datatype AnalyticsEvent = AnalyticsEvent(id: nat, name: string, parameters: Params, date: int)

  function EventDate(e: AnalyticsEvent): int {
    e.date
  }

  const DefaultMaxEventsCount: nat := 10000

  /** The newest `cap` elements of s: all of s when it fits, otherwise its last `cap` elements. */
  function Retain<T>(s: seq<T>, cap: nat): (r: seq<T>)
    ensures |r| == if |s| > cap then cap else |s|
    ensures r == s[|s| - |r|..]
  {
    if |s| > cap then s[|s| - cap..] else s
  }

  /**
   * One insert into a store that respects the cap: below the cap the event
   * is appended; at the cap exactly the oldest event is evicted. The new
   * event is always last, and the cap is never exceeded.
   */
  lemma SaveEvictsOldest<T>(stored: seq<T>, e: T, cap: nat)
    requires |stored| <= cap && cap > 0
    ensures Retain(stored + [e], cap) == (if |stored| < cap then stored else stored[1..]) + [e]
    ensures |Retain(stored + [e], cap)| <= cap
  {
  }

  /** Capping after every insert keeps the same events as capping once at the end. */
  lemma {:induction false} RetainAppend<T>(s: seq<T>, e: T, cap: nat)
    ensures Retain(Retain(s, cap) + [e], cap) == Retain(s + [e], cap)
  {
    var t := Retain(s, cap);
    if |s| > cap {
      assert t + [e] == (s + [e])[|s| - cap..];
      if cap > 0 {
        assert (t + [e])[|t + [e]| - cap..] == (s + [e])[|s| + 1 - cap..];
      }
    }
  }

  /** The store after saving each event of `es` in turn. */
  function SaveAll<T>(stored: seq<T>, es: seq<T>, cap: nat): seq<T>
    decreases |es|
  {
    if es == [] then stored else SaveAll(Retain(stored + [es[0]], cap), es[1..], cap)
  }

  /**
   * Saving events one by one into an empty store leaves exactly the newest
   * `cap` of them: with 10050 events and a cap of 10000 the 50 oldest are gone.
   */
  lemma {:induction false} SaveAllKeepsNewest<T>(stored: seq<T>, es: seq<T>, cap: nat)
    requires |stored| <= cap
    ensures SaveAll(stored, es, cap) == Retain(stored + es, cap)
    decreases |es|
  {
    if es == [] {
      assert stored + es == stored;
    } else {
      var next := Retain(stored + [es[0]], cap);
      assert SaveAll(stored, es, cap) == SaveAll(next, es[1..], cap);
      SaveAllKeepsNewest(next, es[1..], cap);
      RetainFirst(stored, es, cap);
    }
  }

  /** Capping after the first event and again after the others is capping once. */
  lemma RetainFirst<T>(stored: seq<T>, es: seq<T>, cap: nat)
    requires es != []
    ensures Retain(Retain(stored + [es[0]], cap) + es[1..], cap) == Retain(stored + es, cap)
  {
    RetainPrefix(stored + [es[0]], es[1..], cap);
    assert (stored + [es[0]]) + es[1..] == stored + es;
  }

  lemma {:induction false} RetainPrefix<T>(s: seq<T>, rest: seq<T>, cap: nat)
    ensures Retain(Retain(s, cap) + rest, cap) == Retain(s + rest, cap)
    decreases |rest|
  {
    if rest != [] {
      var last := rest[|rest| - 1];
      var front := rest[..|rest| - 1];
      assert rest == front + [last];
      RetainPrefix(s, front, cap);
      RetainAppend(Retain(s, cap) + front, last, cap);
      RetainAppend(s + front, last, cap);
      assert Retain(s, cap) + rest == (Retain(s, cap) + front) + [last];
      assert s + rest == (s + front) + [last];
    }
  }

  class InMemoryAnalyticsStorage {
    var events: seq<AnalyticsEvent>
    const maxEventsCount: nat

    ghost predicate Valid()
      reads this
    {
      |events| <= maxEventsCount
    }

    constructor (maxEventsCount: nat := DefaultMaxEventsCount)
      ensures Valid()
      ensures events == [] && this.maxEventsCount == maxEventsCount
    {
      this.maxEventsCount := maxEventsCount;
      events := [];
    }

    /** `saveEvent`: append, then drop the oldest surplus. */
    method SaveEvent(event: AnalyticsEvent)
      modifies this
      ensures Valid()
      ensures events == Retain(old(events) + [event], maxEventsCount)
    {
      events := events + [event];
      if |events| > maxEventsCount {
        var excessCount := |events| - maxEventsCount;
        events := events[excessCount..];
      }
    }

    /** `getEvents`: a sorted copy, newest first; the store is not changed. */
    method GetEvents() returns (r: seq<AnalyticsEvent>)
      ensures multiset(r) == multiset(events)
      ensures SortedDesc(r, EventDate)
      ensures r == SortDesc(events, EventDate)
    {
      r := SortDesc(events, EventDate);
    }

    method ClearEvents()
      modifies this
      ensures Valid()
      ensures events == []
    {
      events := [];
    }

    method GetEventCount() returns (n: nat)
      ensures n == |events|
    {
      n := |events|;
    }
  }
}
