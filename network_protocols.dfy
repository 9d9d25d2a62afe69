/**
 * The network layer's closed error taxonomy, its user-facing
 * descriptions, the HTTP methods and the endpoint descriptor.
 */
module NetworkProtocols {
  import opened Wrappers
  import opened Text

  /**
   * NetworkError. The underlying Swift `Error` of a decoding or transport
   * failure is represented by its localized description.
   */
  datatype NetworkError =
    | InvalidURL
    | NoData
    | DecodingError(cause: string)
    | NetworkFailure(cause: string)
    | ServerError(code: int)
    | Unknown

  /** `errorDescription` (LocalizedError). */
  function ErrorDescription(e: NetworkError): string {
    match e
    case InvalidURL => "Invalid URL"
    case NoData => "No data received"
    case DecodingError(cause) => "Decoding error: " + cause
    case NetworkFailure(cause) => "Network error: " + cause
    case ServerError(code) => "Server error with code: " + IntToString(code)
    case Unknown => "Unknown error occurred"
  }

  /**
   * `"\(error)"`: Swift's default rendering of the enum value, its case
   * name followed by the associated value in parentheses.
   */
  function ErrorText(e: NetworkError): string {
    match e
    case InvalidURL => "invalidURL"
    case NoData => "noData"
    case DecodingError(cause) => "decodingError(" + cause + ")"
    case NetworkFailure(cause) => "networkError(" + cause + ")"
    case ServerError(code) => "serverError(" + IntToString(code) + ")"
    case Unknown => "unknown"
  }

  const ServerErrorPrefix := "Server error with code: "

  /**
   * The description of a server error is the fixed prefix followed by the
   * status code, and the code can be read back from it.
   */
  lemma ServerErrorDescriptionCarriesCode(code: int)
    ensures var d := ErrorDescription(ServerError(code));
      && |d| > |ServerErrorPrefix|
      && d[..|ServerErrorPrefix|] == ServerErrorPrefix
      && var digits := d[|ServerErrorPrefix|..];
      && digits != [] && (if digits[0] == '-' then AllDigits(digits[1..]) else AllDigits(digits))
      && ParseInt(digits) == code
  {
    var d := ErrorDescription(ServerError(code));
    assert d[|ServerErrorPrefix|..] == IntToString(code);
    IntRoundTrip(code);
  }

  /** Two server errors are described alike only when their codes are equal. */
  lemma ServerErrorDescriptionsDistinct(a: int, b: int)
    requires a != b
    ensures ErrorDescription(ServerError(a)) != ErrorDescription(ServerError(b))
  {
    if ErrorDescription(ServerError(a)) == ErrorDescription(ServerError(b)) {
      assert IntToString(a) == ErrorDescription(ServerError(a))[|ServerErrorPrefix|..];
      assert IntToString(b) == ErrorDescription(ServerError(b))[|ServerErrorPrefix|..];
      IntToStringInjective(a, b);
    }
  }

  /** The failure text the rate repository logs for a server error contains the status code. */
  lemma ServerErrorTextCarriesCode(code: int)
    ensures var t := ErrorText(ServerError(code));
      && t == "serverError(" + IntToString(code) + ")"
      && ParseInt(t[12..|t| - 1]) == code
  {
    var t := ErrorText(ServerError(code));
    assert t[12..|t| - 1] == IntToString(code);
    IntRoundTrip(code);
  }

  datatype HTTPMethod = GET | POST | PUT | DELETE | PATCH

  /** `rawValue`: the case name. */
  function RawValue(m: HTTPMethod): string {
    match m
    case GET => "GET"
    case POST => "POST"
    case PUT => "PUT"
    case DELETE => "DELETE"
    case PATCH => "PATCH"
  }

  /** `HTTPMethod(rawValue:)`, synthesised by Swift for a String-backed enum. */
  function FromRawValue(s: string): Option<HTTPMethod> {
    if s == "GET" then Some(GET)
    else if s == "POST" then Some(POST)
    else if s == "PUT" then Some(PUT)
    else if s == "DELETE" then Some(DELETE)
    else if s == "PATCH" then Some(PATCH)
    else None
  }

  /** The raw values are the inverse of the raw-value initializer, in both directions. */
  lemma RawValueRoundTrip(m: HTTPMethod, s: string)
    ensures FromRawValue(RawValue(m)) == Some(m)
    ensures FromRawValue(s) == Some(m) <==> RawValue(m) == s
  {
  }

  /** APIEndpoint. Query parameter values are already rendered with `"\(value)"`. */
  datatype Endpoint = Endpoint(
    baseURL: string,
    path: string,
    httpMethod: HTTPMethod,
    headers: Option<map<string, string>>,
    parameters: Option<map<string, string>>)
}
