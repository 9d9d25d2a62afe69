/**
 * BitcoinRateServiceImpl: asks the network for the ticker and turns the
 * answer into, in order, a call of the subscriber with the USD price, a
 * `bitcoin_rate_updated` analytics event and a successful completion; or
 * into a failed completion alone.
 */
module RateService {
  import opened Wrappers
  import opened AnalyticsEvents
  import opened NetworkProtocols

  datatype CurrencyRate = CurrencyRate(last: real)

  /** The decoded ticker: a price per currency code. */
  datatype BitcoinRateResponse = BitcoinRateResponse(rates: map<string, CurrencyRate>)

  datatype Completion = Succeeded | Failed(error: NetworkError)

  /** What the service does, in order: notify the subscriber, track an event, complete. */
  datatype Effect = Notified(rate: real) | Tracked(event: EventRecord) | Completed(outcome: Completion)

  const RateUpdatedName := "bitcoin_rate_updated"

  /** `response.rates["USD"]?.last` */
  function UsdRate(response: BitcoinRateResponse): (r: Option<real>)
    ensures r.Some? <==> "USD" in response.rates
    ensures r.Some? ==> r.value == response.rates["USD"].last
  {
    if "USD" in response.rates then Some(response.rates["USD"].last) else None
  }

  /** Completion is the last effect, and there is no other. */
  ghost predicate CompletesOnceAtEnd(effects: seq<Effect>) {
    effects != [] && effects[|effects| - 1].Completed?
    && forall i :: 0 <= i < |effects| - 1 ==> !effects[i].Completed?
  }

  /**
   * The effects of `getBitcoinRate` for the network's answer `result`:
   * `subscribed` says whether `onRateUpdate` is set, and `show` renders a
   * Double as `String(_:)` does.
   */
  function FetchEffects(result: Result<BitcoinRateResponse, NetworkError>, subscribed: bool, show: real -> string): (effects: seq<Effect>)
    ensures CompletesOnceAtEnd(effects)
    ensures effects[|effects| - 1] == Completed(Succeeded) <==> result.Success? && UsdRate(result.value).Some?
    ensures result.Failure? ==> effects == [Completed(Failed(result.error))]
    ensures result.Success? && UsdRate(result.value).None? ==> effects == [Completed(Failed(NoData))]
    ensures forall v :: Notified(v) in effects <==> subscribed && result.Success? && UsdRate(result.value) == Some(v)
    ensures forall e :: Tracked(e) in effects <==>
      result.Success? && UsdRate(result.value).Some? && e == EventRecord(RateUpdatedName, map["rate" := show(UsdRate(result.value).value)])
  {
    match result
    case Failure(e) => [Completed(Failed(e))]
    case Success(response) =>
      match UsdRate(response)
      case None => [Completed(Failed(NoData))]
      case Some(v) =>
        (if subscribed then [Notified(v)] else [])
        + [Tracked(EventRecord(RateUpdatedName, map["rate" := show(v)])), Completed(Succeeded)]
  }

  /** On the success path the subscriber hears first, then the event is tracked, then completion. */
  lemma SuccessOrder(response: BitcoinRateResponse, show: real -> string)
    requires UsdRate(response).Some?
    ensures var v := UsdRate(response).value;
      FetchEffects(Success(response), true, show)
        == [Notified(v), Tracked(EventRecord(RateUpdatedName, map["rate" := show(v)])), Completed(Succeeded)]
  {
  }

  class BitcoinRateServiceImpl {
    /** Whether `onRateUpdate` is set. */
    var subscribed: bool
    /** Everything the service has done, oldest first. */
    var trace: seq<Effect>
    /** `String(_:)` for a Double. */
    const show: real -> string

    constructor (show: real -> string)
      ensures !subscribed && trace == [] && this.show == show
    {
      subscribed := false;
      trace := [];
      this.show := show;
    }

    /** `getBitcoinRate`, given what the network service answered. */
    method GetBitcoinRate(result: Result<BitcoinRateResponse, NetworkError>)
      modifies this`trace
      ensures trace == old(trace) + FetchEffects(result, subscribed, show)
    {
      match result {
        case Success(response) =>
          HandleBitcoinRateResponse(response);
        case Failure(error) =>
          trace := trace + [Completed(Failed(error))];
      }
    }

    method HandleBitcoinRateResponse(response: BitcoinRateResponse)
      modifies this`trace
      ensures trace == old(trace) + FetchEffects(Success(response), subscribed, show)
    {
      var usdRate := UsdRate(response);
      if usdRate.None? {
        trace := trace + [Completed(Failed(NoData))];
        return;
      }
      if subscribed {
        trace := trace + [Notified(usdRate.value)];
      }
      trace := trace + [Tracked(EventRecord(RateUpdatedName, map["rate" := show(usdRate.value)]))];
      trace := trace + [Completed(Succeeded)];
    }
  }
}
