/** The canonical records every provider adapter produces and the error values they raise.
    A field the JavaScript object leaves `undefined` (or sets to `NaN`) is `None`. Times are
    epoch seconds and calendar dates are UTC day numbers (days since 1970-01-01). */
module Weather {
  import opened Wrappers
  import opened Strings

  /** The three provider bindings. */
  datatype Provider = OpenWeather | WeatherApi | WeatherBit {

    /** The tag the transformer writes into `provider` and the allowlist names the provider by. */
    function Name(): string {
      match this
      case OpenWeather => "openweather"
      case WeatherApi => "weatherapi"
      case WeatherBit => "weatherbit"
    }
  }

  /** `location` of a transformed record; `region` is WeatherAPI's, `state` WeatherBit's. */
  datatype Location = Location(
    name: string, country: string, lat: Option<real>, lon: Option<real>,
    region: Option<string>, state: Option<string>)

  /** `current` of a transformed record, in metric units (degrees C, km/h, hPa, mm). */
  datatype Current = Current(
    temp: Option<real>, feelsLike: Option<real>, humidity: Option<real>, pressure: Option<real>,
    windSpeed: Option<real>, windDirection: Option<real>,
    description: Option<string>, condition: Option<string>, icon: Option<string>,
    clouds: Option<real>, uvIndex: Option<real>, visibility: Option<real>,
    rain1h: Option<real>, snow1h: Option<real>, aqi: Option<real>, isDay: Option<bool>)

  /** One transformed observation or forecast day; `date` is set on forecast days only. */
  datatype Reading = Reading(
    provider: Provider, timestamp: int, location: Location, current: Current, date: Option<int>)

  /** `x || d` for a string that may be absent: the empty string is falsy too. */
  function OrDefault(s: Option<string>, d: string): (r: string)
    ensures s.Some? && s.value != "" ==> r == s.value
    ensures (s.None? || s.value == "") ==> r == d
  {
    if s.Some? && s.value != "" then s.value else d
  }

  /** `x || 0` for a number that may be absent (0 itself is falsy, with the same result). */
  function OrZero(x: Option<real>): (r: real)
    ensures x.Some? ==> r == x.value
    ensures x.None? ==> r == 0.0
  {
    x.GetOr(0.0)
  }

  /** The `error` member of a provider's error body: WeatherBit sends a string, WeatherAPI an
      object with a `message`. */
  datatype ErrorField = ErrorText(text: string) | ErrorObject(message: Option<string>)

  /** The JSON body of an HTTP error response, reduced to the members the adapters read. */
  datatype ErrorBody = ErrorBody(message: Option<string>, error: Option<ErrorField>)

  /** `error.response` of an HTTP client error: status, body and `config.url`. */
  datatype ApiResponse = ApiResponse(status: int, data: ErrorBody, url: Option<string>)

  /** A thrown JavaScript error: its `message`, its `code` (such as "ECONNABORTED") and, for an
      HTTP error response, the response. */
  datatype JsError = JsError(message: string, code: Option<string>, response: Option<ApiResponse>)

  /** `new Error(message)`. */
  function PlainError(message: string): (e: JsError)
    ensures e.message == message && e.code.None? && e.response.None?
  {
    JsError(message, None, None)
  }

  /** What one HTTP request yields: the response payload, or the error the client threw
      (an error response, a timeout, a refused connection). */
  datatype HttpResult<T> = Received(body: T) | Failed(error: JsError)

  /** The message an adapter throws for an HTTP error response:
      `<prefix> (<status>): <detail>`. */
  function ApiErrorMessage(prefix: string, status: int, detail: string): (m: string)
    ensures var n, s := |prefix|, IntToString(status);
      && |m| == n + 2 + |s| + 3 + |detail|
      && m[..n + 2] == prefix + " ("
      && m[n + 2..n + 2 + |s|] == s
      && m[n + 2 + |s|..] == "): " + detail
  {
    var m := prefix + " (" + IntToString(status) + "): " + detail;
    var n, s := |prefix|, IntToString(status);
    assert m[n + 2..] == s + "): " + detail;
    m
  }

  /** In the message, the status is followed by the first `)` after `<prefix> (`. */
  lemma StatusEndsAtParen(prefix: string, status: int, detail: string)
    ensures var m, n, s := ApiErrorMessage(prefix, status, detail), |prefix| + 2, IntToString(status);
      && m[n + |s|] == ')'
      && forall k :: n <= k < n + |s| ==> m[k] != ')'
  {
    var m, n, s := ApiErrorMessage(prefix, status, detail), |prefix| + 2, IntToString(status);
    assert m[n + |s|] == m[n + |s|..][0];
    forall k | n <= k < n + |s|
      ensures m[k] != ')'
    {
      assert m[k] == m[n..n + |s|][k - n];
    }
  }

  /** The status and the detail can be read back from the message: the status is the digits
      after `<prefix> (`, which end at the first `)`. */
  lemma ApiErrorMessageReadsBack(prefix: string, s1: int, d1: string, s2: int, d2: string)
    requires ApiErrorMessage(prefix, s1, d1) == ApiErrorMessage(prefix, s2, d2)
    ensures s1 == s2 && d1 == d2
  {
    var m, n := ApiErrorMessage(prefix, s1, d1), |prefix| + 2;
    var t1, t2 := IntToString(s1), IntToString(s2);
    StatusEndsAtParen(prefix, s1, d1);
    StatusEndsAtParen(prefix, s2, d2);
    assert |t1| == |t2|;
    assert t1 == m[n..n + |t1|] == t2;
    IntToStringInjective(s1, s2);
    assert "): " + d1 == m[n + |t1|..] == "): " + d2;
    assert d1 == ("): " + d1)[3..] == ("): " + d2)[3..] == d2;
  }

}
