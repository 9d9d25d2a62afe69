/**
 * Structured analytics events: CoreDataErrorEvent, BitcoinRateEvent and
 * the BitcoinRateEventFactory constructors. Every event is seen by the
 * analytics service through its `eventName` and `parameters`.
 */
module AnalyticsEvents {
  import opened Text

  type Params = map<string, string>

  /** What a tracked event stores: AnalyticsEventProtocol's `eventName` and `parameters`. */
  datatype EventRecord = EventRecord(name: string, parameters: Params)

  /**
   * `params.merge(additional) { _, new in new }`: every key of either map,
   * with the additional value winning on a clash.
   */
  function Merge(base: Params, additional: Params): (r: Params)
    ensures r.Keys == base.Keys + additional.Keys
    ensures forall k :: k in additional ==> r[k] == additional[k]
    ensures forall k :: k in base && k !in additional ==> r[k] == base[k]
  {
    base + additional
  }

  /** `"\(Date().timeIntervalSince1970)"` for a clock reading in whole seconds. */
  function TimestampText(clock: int): string {
    IntegralDoubleText(clock)
  }

  const CoreDataErrorName := "coredata_error"

  datatype CoreDataErrorEvent = CoreDataErrorEvent(
    operation: string,
    error: string,
    timestamp: string,
    additionalParameters: Params)
  {
    function EventName(): string {
      CoreDataErrorName
    }

    function Parameters(): Params {
      Merge(map["operation" := operation, "error" := error, "timestamp" := timestamp], additionalParameters)
    }

    function Record(): EventRecord {
      EventRecord(EventName(), Parameters())
    }
  }

  datatype BitcoinRateEvent = BitcoinRateEvent(
    eventName: string,
    timestamp: string,
    additionalParameters: Params)
  {
    function Parameters(): Params {
      Merge(map["timestamp" := timestamp], additionalParameters)
    }

    function Record(): EventRecord {
      EventRecord(eventName, Parameters())
    }
  }

  /**
   * A storage error event carries the operation, the error and the
   * timestamp, plus the additional parameters, which win on a clash.
   */
  lemma CoreDataErrorParameters(e: CoreDataErrorEvent)
    ensures e.Record().name == "coredata_error"
    ensures e.Parameters().Keys == {"operation", "error", "timestamp"} + e.additionalParameters.Keys
    ensures forall k :: k in e.additionalParameters ==> e.Parameters()[k] == e.additionalParameters[k]
    ensures "operation" !in e.additionalParameters ==> e.Parameters()["operation"] == e.operation
    ensures "error" !in e.additionalParameters ==> e.Parameters()["error"] == e.error
    ensures "timestamp" !in e.additionalParameters ==> e.Parameters()["timestamp"] == e.timestamp
  {
  }

  /** A rate event's parameters are its timestamp merged with the additional parameters. */
  lemma BitcoinRateParameters(e: BitcoinRateEvent)
    ensures e.Parameters().Keys == {"timestamp"} + e.additionalParameters.Keys
    ensures forall k :: k in e.additionalParameters ==> e.Parameters()[k] == e.additionalParameters[k]
    ensures "timestamp" !in e.additionalParameters ==> e.Parameters()["timestamp"] == e.timestamp
  {
  }

  // BitcoinRateEventFactory

  const PeriodicUpdatesStartedName := "bitcoin_rate_periodic_updates_started"
  const PeriodicUpdatesStoppedName := "bitcoin_rate_periodic_updates_stopped"
  const ForceUpdateName := "bitcoin_rate_force_update"
  const OnlineAttemptName := "bitcoin_rate_update_online_attempt"
  const OnlineSuccessName := "bitcoin_rate_update_online_success"
  const OnlineFailureName := "bitcoin_rate_update_online_failure"
  const OfflineSuccessName := "bitcoin_rate_update_offline_success"
  const OfflineFailureName := "bitcoin_rate_update_offline_failure"

  /** `periodicUpdatesStarted(interval:)` for an interval of whole seconds. */
  function PeriodicUpdatesStarted(interval: int, timestamp: string): BitcoinRateEvent {
    BitcoinRateEvent(PeriodicUpdatesStartedName, timestamp, map["interval_seconds" := IntegralDoubleText(interval)])
  }

  function PeriodicUpdatesStopped(timestamp: string): BitcoinRateEvent {
    BitcoinRateEvent(PeriodicUpdatesStoppedName, timestamp, map[])
  }

  function ForceUpdate(timestamp: string): BitcoinRateEvent {
    BitcoinRateEvent(ForceUpdateName, timestamp, map[])
  }

  function OnlineAttempt(timestamp: string): BitcoinRateEvent {
    BitcoinRateEvent(OnlineAttemptName, timestamp, map[])
  }

  function OnlineSuccess(timestamp: string): BitcoinRateEvent {
    BitcoinRateEvent(OnlineSuccessName, timestamp, map["source" := "internet"])
  }

  function OnlineFailure(error: string, timestamp: string): BitcoinRateEvent {
    BitcoinRateEvent(OnlineFailureName, timestamp, map["source" := "internet", "error" := error])
  }

  function OfflineSuccess(timestamp: string): BitcoinRateEvent {
    BitcoinRateEvent(OfflineSuccessName, timestamp, map["source" := "coredata"])
  }

  function OfflineFailure(timestamp: string): BitcoinRateEvent {
    BitcoinRateEvent(OfflineFailureName, timestamp, map["source" := "coredata"])
  }

  /** The factory's event names are pairwise distinct. */
  lemma FactoryNamesDistinct()
    ensures var names := [PeriodicUpdatesStartedName, PeriodicUpdatesStoppedName, ForceUpdateName,
                          OnlineAttemptName, OnlineSuccessName, OnlineFailureName,
                          OfflineSuccessName, OfflineFailureName];
      forall i, j :: 0 <= i < j < |names| ==> names[i] != names[j]
  {
  }

  /** An interval of 120 seconds renders as "120.0". */
  lemma IntervalText()
    ensures IntegralDoubleText(120) == "120.0"
  {
    assert NatToString(1) == ['1'];
    assert NatToString(12) == NatToString(1) + ['2'];
    assert NatToString(120) == NatToString(12) + ['0'];
  }

  /** The started event records the interval next to its timestamp. */
  lemma StartedParameters(timestamp: string)
    ensures PeriodicUpdatesStarted(120, timestamp).Parameters()
         == map["timestamp" := timestamp, "interval_seconds" := "120.0"]
  {
    IntervalText();
    assert map["timestamp" := timestamp] + map["interval_seconds" := "120.0"]
        == map["timestamp" := timestamp, "interval_seconds" := "120.0"];
  }

  /** The online success event names the internet as its source. */
  lemma OnlineSuccessParameters(timestamp: string)
    ensures OnlineSuccess(timestamp).Parameters() == map["timestamp" := timestamp, "source" := "internet"]
  {
    assert map["timestamp" := timestamp] + map["source" := "internet"]
        == map["timestamp" := timestamp, "source" := "internet"];
  }

  /** The online failure event names the error it was given and the internet as its source. */
  lemma OnlineFailureParameters(error: string, timestamp: string)
    ensures OnlineFailure(error, timestamp).Parameters()
         == map["timestamp" := timestamp, "source" := "internet", "error" := error]
  {
    assert map["timestamp" := timestamp] + map["source" := "internet", "error" := error]
        == map["timestamp" := timestamp, "source" := "internet", "error" := error];
  }
}
