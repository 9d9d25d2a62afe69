/**
 * NetworkService: building a request from an endpoint and classifying
 * what the transport hands back. The transport itself is a parameter
 * (`server`), the URL parser and the JSON decoder are parameters too.
 */
module NetworkService {
  import opened Wrappers
  import opened NetworkProtocols

  /** `createURL(from:)`: base URL and path concatenated, kept when the URL parser accepts it. */
  function CreateURL(endpoint: Endpoint, parses: string -> bool): (url: Option<string>)
    ensures url.Some? <==> parses(endpoint.baseURL + endpoint.path)
    ensures url.Some? ==> url.value == endpoint.baseURL + endpoint.path
  {
    var full := endpoint.baseURL + endpoint.path;
    if parses(full) then Some(full) else None
  }

  /** The parts of a `URLRequest` the service sets. */
  datatype URLRequest = URLRequest(
    url: string,
    query: Option<map<string, string>>,
    httpMethod: string,
    headers: map<string, string>)

  /** What `URLSession.dataTask` hands to its completion handler. */
  datatype URLResponse = HTTPURLResponse(statusCode: int) | OtherResponse
  datatype Reply<D> = Reply(data: Option<D>, response: Option<URLResponse>, error: Option<string>)

  /** The 2xx (Successful) class of status codes, section 15.3 of RFC 9110. */
  predicate IsSuccessStatus(code: int) {
    200 <= code <= 299
  }

  /**
   * Builds the request: method, every header of the endpoint, and the
   * query items only for a GET with parameters (and only when the URL
   * can be split into components, `componentsOk`).
   */
  method BuildRequest(endpoint: Endpoint, url: string, componentsOk: bool) returns (request: URLRequest)
    ensures request.url == url
    ensures request.httpMethod == RawValue(endpoint.httpMethod)
    ensures request.headers == endpoint.headers.GetOr(map[])
    ensures request.query.Some? <==> endpoint.parameters.Some? && endpoint.httpMethod == GET && componentsOk
    ensures request.query.Some? ==> request.query == endpoint.parameters
  {
    var fields: map<string, string> := map[];
    if endpoint.headers.Some? {
      var headers := endpoint.headers.value;
      var pending := headers.Keys;
      while pending != {}
        invariant pending <= headers.Keys
        invariant fields.Keys == headers.Keys - pending
        invariant forall k :: k in fields ==> fields[k] == headers[k]
        decreases pending
      {
        var key :| key in pending;
        fields := fields[key := headers[key]];
        pending := pending - {key};
      }
    }
    var query: Option<map<string, string>> := None;
    if endpoint.parameters.Some? && endpoint.httpMethod == GET && componentsOk {
      query := endpoint.parameters;
    }
    request := URLRequest(url, query, RawValue(endpoint.httpMethod), fields);
  }

  /** The guard chain of `performRequest` followed by `decodeResponse`. */
  function Classify<D, T>(reply: Reply<D>, decode: D -> Result<T, string>): Result<T, NetworkError> {
    if reply.error.Some? then Failure(NetworkFailure(reply.error.value))
    else if reply.response.None? || !reply.response.value.HTTPURLResponse? then Failure(Unknown)
    else if !IsSuccessStatus(reply.response.value.statusCode) then Failure(ServerError(reply.response.value.statusCode))
    else if reply.data.None? then Failure(NoData)
    else match decode(reply.data.value)
      case Success(v) => Success(v)
      case Failure(cause) => Failure(DecodingError(cause))
  }

  /**
   * The outcome of every reply: a transport error wins over everything,
   * then a non-HTTP response, then a status outside 2xx, then missing
   * data; success exactly when all guards pass and decoding succeeds.
   */
  lemma ClassifyOutcomes<D, T>(reply: Reply<D>, decode: D -> Result<T, string>)
    ensures var r := Classify(reply, decode);
      && (r.Success? <==>
            && reply.error.None?
            && reply.response.Some? && reply.response.value.HTTPURLResponse?
            && IsSuccessStatus(reply.response.value.statusCode)
            && reply.data.Some? && decode(reply.data.value).Success?)
      && (r.Success? ==> r.value == decode(reply.data.value).value)
      && (reply.error.None? && reply.response.Some? && reply.response.value.HTTPURLResponse?
          && IsSuccessStatus(reply.response.value.statusCode) && reply.data.Some? && decode(reply.data.value).Failure?
          ==> r == Failure(DecodingError(decode(reply.data.value).error)))
      && (reply.error.Some? ==> r == Failure(NetworkFailure(reply.error.value)))
      && (reply.error.None? && (reply.response.None? || reply.response.value.OtherResponse?) ==> r == Failure(Unknown))
      && (reply.error.None? && reply.response.Some? && reply.response.value.HTTPURLResponse?
          && !IsSuccessStatus(reply.response.value.statusCode)
          ==> r == Failure(ServerError(reply.response.value.statusCode)))
      && (r == Failure(NoData) <==>
            reply.error.None? && reply.response.Some? && reply.response.value.HTTPURLResponse?
            && IsSuccessStatus(reply.response.value.statusCode) && reply.data.None?)
  {
  }

  /** Both ends of the 2xx range pass; their neighbours do not. */
  lemma SuccessStatusBounds()
    ensures IsSuccessStatus(200) && IsSuccessStatus(299)
    ensures !IsSuccessStatus(199) && !IsSuccessStatus(300)
  {
  }

  /**
   * `request(endpoint:responseType:completion:)`: the request sent (none
   * when the URL is invalid) and the single result delivered to the
   * completion handler.
   */
  method Request<D, T>(
    endpoint: Endpoint,
    parses: string -> bool,
    componentsOk: bool,
    server: URLRequest -> Reply<D>,
    decode: D -> Result<T, string>)
    returns (sent: Option<URLRequest>, result: Result<T, NetworkError>)
    ensures sent.None? <==> !parses(endpoint.baseURL + endpoint.path)
    ensures sent.None? ==> result == Failure(InvalidURL)
    ensures sent.Some? ==> sent.value.url == endpoint.baseURL + endpoint.path
    ensures sent.Some? ==> sent.value.httpMethod == RawValue(endpoint.httpMethod)
    ensures sent.Some? ==> sent.value.headers == endpoint.headers.GetOr(map[])
    ensures sent.Some? ==> (sent.value.query.Some? <==> endpoint.parameters.Some? && endpoint.httpMethod == GET && componentsOk)
    ensures sent.Some? ==> result == Classify(server(sent.value), decode)
  {
    var url := CreateURL(endpoint, parses);
    if url.None? {
      return None, Failure(InvalidURL);
    }
    var request := BuildRequest(endpoint, url.value, componentsOk);
    sent := Some(request);
    result := Classify(server(request), decode);
  }
}
