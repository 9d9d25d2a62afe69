/**
 * BitcoinRateServiceRepository: a refresh timer that is either scheduled or
 * not, and a refresh that asks the rate service when the device is online
 * and otherwise, or when the online fetch fails, falls back to the newest
 * stored rate. Every step hands fixed analytics events to the analytics
 * service, and a rate that is obtained is relayed to the subscriber.
 */
module RateRepository {
  import opened Wrappers
  import opened Text
  import opened AnalyticsEvents
  import opened NetworkProtocols
  import opened CoreData

  /** `updateInterval`, in seconds. */
  const UpdateIntervalSeconds := 120

  /** What the rate service reports to the repository for one fetch. */
  datatype FetchOutcome = Fetched(rate: real) | FetchFailed(error: NetworkError)

  /** The events tracked and the rates relayed to the subscriber by one step. */
  datatype Output = Output(events: seq<EventRecord>, notified: seq<real>)

  /** The repository as the outside sees it. */
  datatype RepoState = RepoState(timerActive: bool, events: seq<EventRecord>, notified: seq<real>)

  /** One call into the repository, with the connectivity and fetch outcome it meets. */
  datatype Command =
    | Start(connected: bool, outcome: FetchOutcome)
    | Stop
    | Force(connected: bool, outcome: FetchOutcome)
    | Tick(connected: bool, outcome: FetchOutcome)

  const NoCachedRateError := "no_cached_rate_available"

  /** Neither of the timer's own events occurs in s. */
  ghost predicate NoTimerEvents(s: seq<EventRecord>) {
    forall i :: 0 <= i < |s| ==> s[i].name != PeriodicUpdatesStartedName && s[i].name != PeriodicUpdatesStoppedName
  }

  /** `useCachedRate`: report the newest stored rate, or that there is none. */
  function CachedOutput(latest: Option<Rate>, timestamp: string): (r: Output)
    ensures |r.events| == 1 && NoTimerEvents(r.events)
    ensures r.events[0].name == OfflineSuccessName <==> latest.Some?
    ensures r.events[0].name == OfflineFailureName <==> latest.None?
    ensures "source" in r.events[0].parameters && r.events[0].parameters["source"] == "cached"
    ensures latest.None? ==> "error" in r.events[0].parameters && r.events[0].parameters["error"] == NoCachedRateError
    ensures latest.Some? ==>
      "cached_date" in r.events[0].parameters && r.events[0].parameters["cached_date"] == IntegralDoubleText(latest.value.date)
    ensures r.notified == if latest.Some? then [latest.value.rate] else []
  {
    match latest
    case Some(rate) =>
      Output([BitcoinRateEvent(OfflineSuccessName, timestamp,
                map["source" := "cached", "cached_date" := IntegralDoubleText(rate.date)]).Record()],
             [rate.rate])
    case None =>
      Output([BitcoinRateEvent(OfflineFailureName, timestamp,
                map["source" := "cached", "error" := NoCachedRateError]).Record()],
             [])
  }

  /** A cached-rate event is one of the two offline outcomes. */
  predicate IsCacheEvent(e: EventRecord) {
    e.name == OfflineSuccessName || e.name == OfflineFailureName
  }

  /**
   * `getCurrentRateFromAvailableSource`: online, one attempt and then its
   * success or its failure followed by the cache fallback; offline, the
   * cache alone.
   */
  function RefreshOutput(connected: bool, outcome: FetchOutcome, latest: Option<Rate>, timestamp: string): (r: Output)
    ensures NoTimerEvents(r.events)
    ensures connected ==> |r.events| >= 2
    ensures connected ==> r.events[0] == OnlineAttempt(timestamp).Record()
    ensures connected && outcome.Fetched? ==>
      r.events == [OnlineAttempt(timestamp).Record(), OnlineSuccess(timestamp).Record()] && r.notified == [outcome.rate]
    ensures connected && outcome.FetchFailed? ==>
      r.events[1] == OnlineFailure(ErrorText(outcome.error), timestamp).Record()
    ensures (exists i :: 0 <= i < |r.events| && IsCacheEvent(r.events[i])) <==> !connected || outcome.FetchFailed?
    ensures !connected || outcome.FetchFailed? ==>
      r.events[|r.events| - 1] == CachedOutput(latest, timestamp).events[0] && r.notified == CachedOutput(latest, timestamp).notified
    ensures |r.notified| <= 1
  {
    if !connected then
      CachedOutput(latest, timestamp)
    else
      match outcome
      case Fetched(v) =>
        Output([OnlineAttempt(timestamp).Record(), OnlineSuccess(timestamp).Record()], [v])
      case FetchFailed(e) =>
        var cached := CachedOutput(latest, timestamp);
        var events := [OnlineAttempt(timestamp).Record(), OnlineFailure(ErrorText(e), timestamp).Record()] + cached.events;
        assert IsCacheEvent(events[2]);
        Output([OnlineAttempt(timestamp).Record(), OnlineFailure(ErrorText(e), timestamp).Record()] + cached.events,
               cached.notified)
  }

  /** A refresh never reports both a cached rate and the lack of one. */
  lemma {:induction false} RefreshNeverBothOffline(connected: bool, outcome: FetchOutcome, latest: Option<Rate>, timestamp: string)
    ensures var names := RefreshOutput(connected, outcome, latest, timestamp).events;
      !((exists i :: 0 <= i < |names| && names[i].name == OfflineSuccessName)
        && (exists j :: 0 <= j < |names| && names[j].name == OfflineFailureName))
  {
    var r := RefreshOutput(connected, outcome, latest, timestamp);
    var cached := CachedOutput(latest, timestamp);
    if connected && outcome.Fetched? {
      assert r.events == [OnlineAttempt(timestamp).Record(), OnlineSuccess(timestamp).Record()];
    } else if connected {
      assert r.events == [OnlineAttempt(timestamp).Record(), OnlineFailure(ErrorText(outcome.error), timestamp).Record()] + cached.events;
    }
  }

  function StopEvents(timerActive: bool, timestamp: string): (r: seq<EventRecord>)
    ensures |r| == if timerActive then 1 else 0
    ensures timerActive ==> r[0].name == PeriodicUpdatesStoppedName
  {
    if timerActive then [PeriodicUpdatesStopped(timestamp).Record()] else []
  }

  /** The state after one call. A tick only comes from a scheduled timer. */
  function Step(s: RepoState, c: Command, latest: Option<Rate>, timestamp: string): RepoState {
    match c
    case Start(connected, outcome) =>
      var refresh := RefreshOutput(connected, outcome, latest, timestamp);
      RepoState(true,
        s.events + StopEvents(s.timerActive, timestamp)
          + [PeriodicUpdatesStarted(UpdateIntervalSeconds, timestamp).Record()] + refresh.events,
        s.notified + refresh.notified)
    case Stop =>
      RepoState(false, s.events + StopEvents(s.timerActive, timestamp), s.notified)
    case Force(connected, outcome) =>
      var refresh := RefreshOutput(connected, outcome, latest, timestamp);
      RepoState(s.timerActive, s.events + [ForceUpdate(timestamp).Record()] + refresh.events, s.notified + refresh.notified)
    case Tick(connected, outcome) =>
      if s.timerActive then
        var refresh := RefreshOutput(connected, outcome, latest, timestamp);
        RepoState(true, s.events + refresh.events, s.notified + refresh.notified)
      else s
  }

  function Run(s: RepoState, cs: seq<Command>, latest: Option<Rate>, timestamp: string): RepoState
    decreases |cs|
  {
    if cs == [] then s else Run(Step(s, cs[0], latest, timestamp), cs[1..], latest, timestamp)
  }

  function CountNamed(s: seq<EventRecord>, name: string): nat {
    if s == [] then 0 else (if s[0].name == name then 1 else 0) + CountNamed(s[1..], name)
  }

  lemma {:induction false} CountNamedAppend(a: seq<EventRecord>, b: seq<EventRecord>, name: string)
    ensures CountNamed(a + b, name) == CountNamed(a, name) + CountNamed(b, name)
  {
    if a == [] {
      assert a + b == b;
    } else {
      assert (a + b)[1..] == a[1..] + b;
      CountNamedAppend(a[1..], b, name);
    }
  }

  lemma {:induction false} CountNamedNone(s: seq<EventRecord>, name: string)
    requires forall i :: 0 <= i < |s| ==> s[i].name != name
    ensures CountNamed(s, name) == 0
  {
    if s != [] {
      CountNamedNone(s[1..], name);
    }
  }

  function CountStarts(cs: seq<Command>): nat {
    if cs == [] then 0 else (if cs[0].Start? then 1 else 0) + CountStarts(cs[1..])
  }

  /** The number of started events and stopped events one call adds. */
  lemma StepCounts(s: RepoState, c: Command, latest: Option<Rate>, timestamp: string)
    ensures var t := Step(s, c, latest, timestamp);
      && CountNamed(t.events, PeriodicUpdatesStartedName) == CountNamed(s.events, PeriodicUpdatesStartedName) + (if c.Start? then 1 else 0)
      && CountNamed(t.events, PeriodicUpdatesStoppedName) == CountNamed(s.events, PeriodicUpdatesStoppedName)
           + (if s.timerActive && (c.Start? || c.Stop?) then 1 else 0)
      && t.timerActive == (c.Start? || (s.timerActive && !c.Stop?))
  {
    var started := PeriodicUpdatesStartedName;
    var stopped := PeriodicUpdatesStoppedName;
    var stops := StopEvents(s.timerActive, timestamp);
    CountNamedNone([], started);
    if s.timerActive {
      assert CountNamed(stops, stopped) == 1 && CountNamed(stops, started) == 0;
    } else {
      assert stops == [];
    }
    match c
    case Start(connected, outcome) =>
      var refresh := RefreshOutput(connected, outcome, latest, timestamp);
      var st := [PeriodicUpdatesStarted(UpdateIntervalSeconds, timestamp).Record()];
      CountNamedNone(refresh.events, started);
      CountNamedNone(refresh.events, stopped);
      CountNamedAppend(s.events, stops, started);
      CountNamedAppend(s.events + stops, st, started);
      CountNamedAppend(s.events + stops + st, refresh.events, started);
      CountNamedAppend(s.events, stops, stopped);
      CountNamedAppend(s.events + stops, st, stopped);
      CountNamedAppend(s.events + stops + st, refresh.events, stopped);
    case Stop =>
      CountNamedAppend(s.events, stops, started);
      CountNamedAppend(s.events, stops, stopped);
    case Force(connected, outcome) =>
      var refresh := RefreshOutput(connected, outcome, latest, timestamp);
      var f := [ForceUpdate(timestamp).Record()];
      CountNamedNone(refresh.events, started);
      CountNamedNone(refresh.events, stopped);
      CountNamedAppend(s.events, f, started);
      CountNamedAppend(s.events + f, refresh.events, started);
      CountNamedAppend(s.events, f, stopped);
      CountNamedAppend(s.events + f, refresh.events, stopped);
    case Tick(connected, outcome) =>
      if s.timerActive {
        var refresh := RefreshOutput(connected, outcome, latest, timestamp);
        CountNamedNone(refresh.events, started);
        CountNamedNone(refresh.events, stopped);
        CountNamedAppend(s.events, refresh.events, started);
        CountNamedAppend(s.events, refresh.events, stopped);
      }
  }

  /** Every start call adds exactly one started event, whatever came before. */
  lemma {:induction false} StartedEventPerStart(s: RepoState, cs: seq<Command>, latest: Option<Rate>, timestamp: string)
    ensures CountNamed(Run(s, cs, latest, timestamp).events, PeriodicUpdatesStartedName)
      == CountNamed(s.events, PeriodicUpdatesStartedName) + CountStarts(cs)
    decreases |cs|
  {
    if cs != [] {
      StepCounts(s, cs[0], latest, timestamp);
      StartedEventPerStart(Step(s, cs[0], latest, timestamp), cs[1..], latest, timestamp);
    }
  }

  /** Started and stopped events pair up: one more started event exactly while the timer runs. */
  ghost predicate EventsBalanced(s: RepoState) {
    CountNamed(s.events, PeriodicUpdatesStartedName)
      == CountNamed(s.events, PeriodicUpdatesStoppedName) + (if s.timerActive then 1 else 0)
  }

  lemma {:induction false} RunKeepsBalance(s: RepoState, cs: seq<Command>, latest: Option<Rate>, timestamp: string)
    requires EventsBalanced(s)
    ensures EventsBalanced(Run(s, cs, latest, timestamp))
    decreases |cs|
  {
    if cs != [] {
      StepCounts(s, cs[0], latest, timestamp);
      RunKeepsBalance(Step(s, cs[0], latest, timestamp), cs[1..], latest, timestamp);
    }
  }

  /**
   * A start first stops a running timer, then tracks one started event with
   * an `interval_seconds` of "120.0", then refreshes, and leaves the timer
   * running; earlier events are kept.
   */
  lemma StartShape(s: RepoState, connected: bool, outcome: FetchOutcome, latest: Option<Rate>, timestamp: string)
    ensures var t := Step(s, Start(connected, outcome), latest, timestamp);
      var k := |s.events| + (if s.timerActive then 1 else 0);
      && t.timerActive
      && |t.events| > k && t.events[..|s.events|] == s.events
      && (s.timerActive ==> t.events[k - 1].name == PeriodicUpdatesStoppedName)
      && t.events[k] == EventRecord(PeriodicUpdatesStartedName, map["timestamp" := timestamp, "interval_seconds" := "120.0"])
      && t.events[k + 1..] == RefreshOutput(connected, outcome, latest, timestamp).events
  {
    StartedParameters(timestamp);
    var stops := StopEvents(s.timerActive, timestamp);
    var st := [PeriodicUpdatesStarted(UpdateIntervalSeconds, timestamp).Record()];
    var refresh := RefreshOutput(connected, outcome, latest, timestamp);
    var t := Step(s, Start(connected, outcome), latest, timestamp);
    assert t.events == s.events + stops + st + refresh.events;
  }

  /** A forced update keeps the timer as it was, tracks its event, then refreshes exactly once. */
  lemma ForceShape(s: RepoState, connected: bool, outcome: FetchOutcome, latest: Option<Rate>, timestamp: string)
    ensures var t := Step(s, Force(connected, outcome), latest, timestamp);
      && t.timerActive == s.timerActive
      && |t.events| > |s.events| && t.events[..|s.events|] == s.events
      && t.events[|s.events|].name == ForceUpdateName
      && t.events[|s.events| + 1..] == RefreshOutput(connected, outcome, latest, timestamp).events
      && t.notified == s.notified + RefreshOutput(connected, outcome, latest, timestamp).notified
  {
    var f := [ForceUpdate(timestamp).Record()];
    var refresh := RefreshOutput(connected, outcome, latest, timestamp);
    var t := Step(s, Force(connected, outcome), latest, timestamp);
    assert t.events == s.events + f + refresh.events;
  }

  /** Stopping is idempotent: a second stop changes nothing. */
  lemma StopIdempotent(s: RepoState, latest: Option<Rate>, timestamp: string)
    ensures var once := Step(s, Stop, latest, timestamp);
      Step(once, Stop, latest, timestamp) == once && !once.timerActive
  {
    var once := Step(s, Stop, latest, timestamp);
    assert once.events + [] == once.events;
  }

  /** From a fresh repository, a start and then three stops leave exactly one stopped event. */
  lemma StartThenThreeStops(connected: bool, outcome: FetchOutcome, latest: Option<Rate>, timestamp: string)
    ensures var s := Run(RepoState(false, [], []), [Start(connected, outcome), Stop, Stop, Stop], latest, timestamp);
      CountNamed(s.events, PeriodicUpdatesStoppedName) == 1 && !s.timerActive
  {
    var init := RepoState(false, [], []);
    var cs := [Start(connected, outcome), Stop, Stop, Stop];
    assert EventsBalanced(init);
    RunKeepsBalance(init, cs, latest, timestamp);
    StartedEventPerStart(init, cs, latest, timestamp);
    assert CountStarts(cs) == 1 by {
      assert CountStarts([Stop]) == 0 by { assert [Stop][1..] == []; }
      assert CountStarts([Stop, Stop]) == 0 by { assert [Stop, Stop][1..] == [Stop]; }
      assert CountStarts([Stop, Stop, Stop]) == 0 by { assert [Stop, Stop, Stop][1..] == [Stop, Stop]; }
      assert cs[1..] == [Stop, Stop, Stop];
    }
    var s1 := Step(init, cs[0], latest, timestamp);
    var s2 := Step(s1, Stop, latest, timestamp);
    StopIdempotent(s1, latest, timestamp);
    StopIdempotent(s2, latest, timestamp);
    assert Run(s2, [Stop], latest, timestamp) == s2 by { assert [Stop][1..] == []; }
    assert Run(s2, [Stop, Stop], latest, timestamp) == s2 by { assert [Stop, Stop][1..] == [Stop]; }
    assert Run(s1, [Stop, Stop, Stop], latest, timestamp) == s2 by { assert [Stop, Stop, Stop][1..] == [Stop, Stop]; }
    assert Run(init, cs, latest, timestamp) == s2 by { assert cs[1..] == [Stop, Stop, Stop]; }
  }

  class BitcoinRateServiceRepository {
    /** Whether `updateTimer` is scheduled. */
    var timerActive: bool
    /** What the network monitor reports. */
    var connected: bool
    /** The rates in the store that `fetchLatestRate` reads. */
    var storedRates: seq<Rate>
    /** The current time, in seconds, that `Date()` would return. */
    var clock: int
    /** The events handed to the analytics service, oldest first. */
    var events: seq<EventRecord>
    /** The rates relayed to `onRateUpdate`, oldest first. */
    var notified: seq<real>

    function State(): RepoState
      reads this
    {
      RepoState(timerActive, events, notified)
    }

    function Timestamp(): string
      reads this
    {
      TimestampText(clock)
    }

    function Latest(): Option<Rate>
      reads this
    {
      LatestRate(storedRates)
    }

    constructor (connected: bool, storedRates: seq<Rate>, clock: int)
      ensures State() == RepoState(false, [], [])
      ensures this.connected == connected && this.storedRates == storedRates && this.clock == clock
    {
      timerActive := false;
      this.connected := connected;
      this.storedRates := storedRates;
      this.clock := clock;
      events := [];
      notified := [];
    }

    /** `startPeriodicUpdates`, with the outcome of the immediate fetch. */
    method StartPeriodicUpdates(outcome: FetchOutcome)
      modifies this`timerActive, this`events, this`notified
      ensures State() == Step(old(State()), Start(connected, outcome), Latest(), Timestamp())
    {
      StopPeriodicUpdates();
      events := events + [PeriodicUpdatesStarted(UpdateIntervalSeconds, Timestamp()).Record()];
      GetCurrentRateFromAvailableSource(outcome);
      timerActive := true;
    }

    method StopPeriodicUpdates()
      modifies this`timerActive, this`events
      ensures State() == Step(old(State()), Stop, Latest(), Timestamp())
    {
      if timerActive {
        events := events + [PeriodicUpdatesStopped(Timestamp()).Record()];
      }
      timerActive := false;
    }

    /** `getCurrentRate`: the newest stored rate's value; no event is tracked. */
    method GetCurrentRate() returns (r: Option<real>)
      ensures r.None? <==> storedRates == []
      ensures r.Some? ==> exists x :: x in storedRates && x.rate == r.value
      ensures r.Some? ==> r == Some(Latest().value.rate)
    {
      var latestRate := LatestRate(storedRates);
      if latestRate.Some? {
        return Some(latestRate.value.rate);
      }
      return None;
    }

    /** `forceUpdate`, with the outcome of its fetch. */
    method ForceUpdate(outcome: FetchOutcome)
      modifies this`events, this`notified
      ensures State() == Step(old(State()), Force(connected, outcome), Latest(), Timestamp())
    {
      events := events + [AnalyticsEvents.ForceUpdate(Timestamp()).Record()];
      GetCurrentRateFromAvailableSource(outcome);
    }

    /** The scheduled timer fires: one refresh. */
    method TimerFired(outcome: FetchOutcome)
      requires timerActive
      modifies this`events, this`notified
      ensures State() == Step(old(State()), Tick(connected, outcome), Latest(), Timestamp())
    {
      GetCurrentRateFromAvailableSource(outcome);
    }

    method GetCurrentRateFromAvailableSource(outcome: FetchOutcome)
      modifies this`events, this`notified
      ensures events == old(events) + RefreshOutput(connected, outcome, Latest(), Timestamp()).events
      ensures notified == old(notified) + RefreshOutput(connected, outcome, Latest(), Timestamp()).notified
    {
      if connected {
        FetchRateFromInternet(outcome);
      } else {
        UseCachedRate();
      }
    }

    /**
     * `fetchRateFromInternet`: the rate service relays a fetched rate to the
     * subscriber before it completes.
     */
    method FetchRateFromInternet(outcome: FetchOutcome)
      modifies this`events, this`notified
      ensures events == old(events) + RefreshOutput(true, outcome, Latest(), Timestamp()).events
      ensures notified == old(notified) + RefreshOutput(true, outcome, Latest(), Timestamp()).notified
    {
      events := events + [OnlineAttempt(Timestamp()).Record()];
      match outcome {
        case Fetched(v) =>
          notified := notified + [v];
          events := events + [OnlineSuccess(Timestamp()).Record()];
        case FetchFailed(error) =>
          events := events + [OnlineFailure(ErrorText(error), Timestamp()).Record()];
          UseCachedRate();
      }
    }

    method UseCachedRate()
      modifies this`events, this`notified
      ensures events == old(events) + CachedOutput(Latest(), Timestamp()).events
      ensures notified == old(notified) + CachedOutput(Latest(), Timestamp()).notified
    {
      var latestRate := LatestRate(storedRates);
      if latestRate.Some? {
        var event := BitcoinRateEvent(OfflineSuccessName, Timestamp(),
          map["source" := "cached", "cached_date" := IntegralDoubleText(latestRate.value.date)]);
        events := events + [event.Record()];
        notified := notified + [latestRate.value.rate];
      } else {
        var event := BitcoinRateEvent(OfflineFailureName, Timestamp(),
          map["source" := "cached", "error" := NoCachedRateError]);
        events := events + [event.Record()];
      }
    }
  }
}
