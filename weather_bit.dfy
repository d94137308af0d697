/** The WeatherBit adapter (services/weatherProviders/weatherBit.js): current observations and a
    daily forecast, both delivered as a `data` array. */
module WeatherBit {
  import opened Wrappers
  import opened Weather
  import opened DataTransformer

  const NoCurrentData := "No weather data returned from Weatherbit"
  const NoForecastData := "No forecast data returned from Weatherbit"

  /** The query parameters the adapter sends (the API key and base URL left out); the forecast
      also sends a day count. */
  datatype Query = Query(path: string, lat: real, lon: real, units: string, days: Option<int>)

  /** `Math.min(Math.max(days, 1), 16)`. */
  function ClampDays(days: int): (v: int)
    ensures 1 <= v <= 16
    ensures 1 <= days <= 16 ==> v == days
    ensures days < 1 ==> v == 1
    ensures days > 16 ==> v == 16
  {
    if days < 1 then 1 else if days > 16 then 16 else days
  }

  /** Units default to 'M' (metric); the aggregator never passes any. */
  function CurrentQuery(lat: real, lon: real, units: Option<string>): (q: Query)
    ensures q.units == if units.Some? then units.value else "M"
    ensures q.days.None?
  {
    Query("/current", lat, lon, units.GetOr("M"), None)
  }

  /** `days` defaults to 5 and is clamped before it is sent. */
  function ForecastQuery(lat: real, lon: real, days: Option<int>, units: Option<string>): (q: Query)
    ensures q.units == if units.Some? then units.value else "M"
    ensures q.days == Some(ClampDays(days.GetOr(5)))
  {
    Query("/forecast/daily", lat, lon, units.GetOr("M"), Some(ClampDays(days.GetOr(5))))
  }

  /** `error.response.data.error || error.message`: a non-empty text is used as it is, an
      object is interpolated as its default string form. */
  function ErrorDetail(body: ErrorBody, fallback: string): (m: string)
    ensures body.error.Some? && body.error.value.ErrorText? && body.error.value.text != "" ==>
      m == body.error.value.text
    ensures (body.error.None? || body.error.value == ErrorText("")) ==> m == fallback
    ensures body.error.Some? && body.error.value.ErrorObject? ==> m == "[object Object]"
  {
    match body.error
    case None => fallback
    case Some(ErrorText(t)) => if t != "" then t else fallback
    case Some(ErrorObject(_)) => "[object Object]"
  }

  /** The catch block: an HTTP error response is rewrapped under `prefix`; any other error,
      including the empty-data errors raised inside the `try`, is rethrown unchanged. */
  function Catch(prefix: string, err: JsError): (e: JsError)
    ensures err.response.None? ==> e == err
    ensures err.response.Some? ==> var resp := err.response.value;
      e == PlainError(ApiErrorMessage(prefix, resp.status, ErrorDetail(resp.data, err.message)))
  {
    match err.response
    case None => err
    case Some(resp) => PlainError(ApiErrorMessage(prefix, resp.status, ErrorDetail(resp.data, err.message)))
  }

  /** `getCurrentWeather`: a missing or empty `data` array is an error; otherwise the first
      observation transformed. `now` stands for the clock. */
  function GetCurrentWeather(res: HttpResult<WbEnvelope>, now: int): (r: Result<Reading, JsError>)
    ensures r.Success? <==> res.Received? && |res.body.data| > 0
    ensures r.Success? ==> r.value == TransformWeatherBit(res.body, now)
    ensures res.Received? && res.body.data == [] ==> r == Failure(PlainError(NoCurrentData))
    ensures res.Failed? ==> r == Failure(Catch("Weatherbit API error", res.error))
  {
    match res
    case Received(body) =>
      if |body.data| == 0 then Failure(Catch("Weatherbit API error", PlainError(NoCurrentData)))
      else Success(TransformWeatherBit(body, now))
    case Failed(err) => Failure(Catch("Weatherbit API error", err))
  }

  /** The one-day envelope the forecast map builds for `dayData`: the response's city and
      country, the request's coordinates, and no state. */
  function DayEnvelope(body: WbEnvelope, dayData: WbObservation, lat: real, lon: real): (e: WbEnvelope)
    ensures e.data == [dayData]
    ensures e.cityName == body.cityName && e.countryCode == body.countryCode
    ensures e.lat == Some(lat) && e.lon == Some(lon) && e.stateCode.None?
  {
    WbEnvelope([dayData], body.cityName, body.countryCode, Some(lat), Some(lon), None)
  }

  /** The forecast map: each day transformed on its own, then dated by its `valid_date`. The
      result keeps the length and order of `data`: entry i is day i of the response, placed at
      the response's city and country and the request's coordinates, with its wind speed
      converted to km/h. */
  function ForecastDays(body: WbEnvelope, lat: real, lon: real, now: int): (r: seq<Reading>)
    ensures |r| == |body.data|
    ensures forall i :: 0 <= i < |r| ==>
      && r[i].provider == WeatherBit
      && r[i].date == body.data[i].validDate
      && r[i].location.name == OrDefault(body.cityName, "Unknown")
      && r[i].location.country == OrDefault(body.countryCode, "")
      && r[i].location.lat == Some(lat) && r[i].location.lon == Some(lon)
      && r[i].location.state.None?
      && r[i].current.temp == body.data[i].temp
      && r[i].current.aqi == body.data[i].aqi
      && (r[i].current.windSpeed.Some? <==> body.data[i].windSpd.Some?)
      && (r[i].current.windSpeed.Some? ==> r[i].current.windSpeed.value == body.data[i].windSpd.value * 3.6)
    ensures forall i :: 0 <= i < |r| ==>
      r[i] == TransformWeatherBit(DayEnvelope(body, body.data[i], lat, lon), now).(date := body.data[i].validDate)
  {
    seq(|body.data|, i requires 0 <= i < |body.data| =>
      TransformWeatherBit(DayEnvelope(body, body.data[i], lat, lon), now).(date := body.data[i].validDate))
  }

  /** `getForecast`. */
  function GetForecast(lat: real, lon: real, res: HttpResult<WbEnvelope>, now: int): (r: Result<seq<Reading>, JsError>)
    ensures r.Success? <==> res.Received? && |res.body.data| > 0
    ensures r.Success? ==> r.value == ForecastDays(res.body, lat, lon, now)
    ensures res.Received? && res.body.data == [] ==> r == Failure(PlainError(NoForecastData))
    ensures res.Failed? ==> r == Failure(Catch("Weatherbit forecast API error", res.error))
  {
    match res
    case Received(body) =>
      if |body.data| == 0 then Failure(Catch("Weatherbit forecast API error", PlainError(NoForecastData)))
      else Success(ForecastDays(body, lat, lon, now))
    case Failed(err) => Failure(Catch("Weatherbit forecast API error", err))
  }
}
