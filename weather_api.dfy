/** The WeatherAPI adapter (services/weatherProviders/weatherApi.js). Its forecast days are
    rewritten into the shape of a current-weather block and run through the same transformer. */
module WeatherApi {
  import opened Wrappers
  import opened Weather
  import opened DataTransformer

  /** One element of `forecast.forecastday`: its date (a day number) and its `day` block,
      whose members are read under the names the transformer expects once spread into
      `current`. */
  datatype ForecastDay = ForecastDay(date: int, day: WaCurrent)

  datatype ForecastPayload = ForecastPayload(location: Option<WaLocation>, forecastday: seq<ForecastDay>)

  /** The query parameters the forecast request sends besides the key and `q = "lat,lon"`. */
  datatype Query = Query(days: int, aqi: string, alerts: string)

  /** `Math.min(Math.max(days, 1), 10)`. */
  function ClampDays(days: int): (v: int)
    ensures 1 <= v <= 10
    ensures 1 <= days <= 10 ==> v == days
    ensures days < 1 ==> v == 1
    ensures days > 10 ==> v == 10
  {
    if days < 1 then 1 else if days > 10 then 10 else days
  }

  /** `days` defaults to 5 and is clamped before it is sent. */
  function ForecastQuery(days: Option<int>): (q: Query)
    ensures 1 <= q.days <= 10
    ensures days.None? ==> q.days == 5
    ensures q.days == ClampDays(days.GetOr(5))
    ensures q.aqi == "no" && q.alerts == "no"
  {
    Query(ClampDays(days.GetOr(5)), "no", "no")
  }

  /** `error.response.data.error?.message || error.message`: only an error object with a
      non-empty message supplies the detail. */
  function ErrorDetail(body: ErrorBody, fallback: string): (m: string)
    ensures var e := body.error;
      e.Some? && e.value.ErrorObject? && e.value.message.Some? && e.value.message.value != "" ==>
        m == e.value.message.value
    ensures var e := body.error;
      !(e.Some? && e.value.ErrorObject? && e.value.message.Some? && e.value.message.value != "") ==>
        m == fallback
  {
    match body.error
    case Some(ErrorObject(Some(msg))) => if msg != "" then msg else fallback
    case _ => fallback
  }

  /** The catch block: an HTTP error response is rewrapped under `prefix`; any other error is
      rethrown unchanged. */
  function Catch(prefix: string, err: JsError): (e: JsError)
    ensures err.response.None? ==> e == err
    ensures err.response.Some? ==> var resp := err.response.value;
      e == PlainError(ApiErrorMessage(prefix, resp.status, ErrorDetail(resp.data, err.message)))
  {
    match err.response
    case None => err
    case Some(resp) => PlainError(ApiErrorMessage(prefix, resp.status, ErrorDetail(resp.data, err.message)))
  }

  /** `getCurrentWeather`: the transformed payload, or the shaped error. */
  function GetCurrentWeather(res: HttpResult<WaPayload>, now: int): (r: Result<Reading, JsError>)
    ensures r.Success? <==> res.Received?
    ensures res.Received? ==> r.value == TransformWeatherApi(res.body, now)
    ensures res.Failed? ==> r.error == Catch("WeatherAPI error", res.error)
  {
    match res
    case Received(body) => Success(TransformWeatherApi(body, now))
    case Failed(err) => Failure(Catch("WeatherAPI error", err))
  }

  /** `new Date(day.date).getTime() / 1000`: a `YYYY-MM-DD` date is read as UTC midnight. */
  function MidnightEpoch(date: int): int {
    date * 86400
  }

  /** The payload the forecast map builds for one day: the response's location, and as
      `current` the day's members with `last_updated_epoch` replaced by the day's midnight. */
  function DayPayload(p: ForecastPayload, day: ForecastDay): (d: WaPayload)
    ensures d.location == p.location
    ensures d.current == day.day.(lastUpdatedEpoch := Some(MidnightEpoch(day.date)))
  {
    WaPayload(p.location, day.day.(lastUpdatedEpoch := Some(MidnightEpoch(day.date))))
  }

  /** The forecast map. The result keeps the length and order of `forecastday`: entry i is
      the transformed day i, dated by it, at the response's location; its timestamp is the
      day's UTC midnight (or the clock for 1970-01-01, whose epoch 0 is falsy). */
  function ForecastDays(p: ForecastPayload, now: int): (r: seq<Reading>)
    ensures |r| == |p.forecastday|
    ensures forall i :: 0 <= i < |r| ==>
      && r[i].location == TransformWeatherApi(WaPayload(p.location, p.forecastday[i].day), now).location
      && r[i].provider == WeatherApi
      && r[i].date == Some(p.forecastday[i].date)
      && r[i].timestamp == (if p.forecastday[i].date != 0 then MidnightEpoch(p.forecastday[i].date) else now)
      && r[i].current.temp == p.forecastday[i].day.tempC
      && r[i].current.description == r[i].current.condition
    ensures forall i :: 0 <= i < |r| ==>
      r[i] == TransformWeatherApi(DayPayload(p, p.forecastday[i]), now).(date := Some(p.forecastday[i].date))
  {
    seq(|p.forecastday|, i requires 0 <= i < |p.forecastday| =>
      TransformWeatherApi(DayPayload(p, p.forecastday[i]), now).(date := Some(p.forecastday[i].date)))
  }

  /** A forecast day reads its measurements, its condition (as both description and condition)
      and its icon from the day's own block, not from the response's current weather. */
  lemma ForecastDayReadsDay(p: ForecastPayload, now: int, i: nat)
    requires i < |p.forecastday|
    ensures var c, a := ForecastDays(p, now)[i].current, p.forecastday[i].day;
      && c.temp == a.tempC && c.feelsLike == a.feelslikeC && c.humidity == a.humidity
      && c.pressure == a.pressureMb && c.windSpeed == a.windKph && c.windDirection == a.windDegree
      && c.clouds == a.cloud && c.uvIndex == a.uv && c.visibility == a.visKm
      && c.rain1h == Some(OrZero(a.precipMm)) && c.isDay == Some(a.isDay == Some(1))
      && (a.condition.Some? ==>
            c.description == a.condition.value.text && c.condition == a.condition.value.text
            && c.icon == a.condition.value.icon)
      && (a.condition.None? ==> c.description.None? && c.condition.None? && c.icon.None?)
  {
  }

  /** `getForecast`. */
  function GetForecast(res: HttpResult<ForecastPayload>, now: int): (r: Result<seq<Reading>, JsError>)
    ensures r.Success? <==> res.Received?
    ensures res.Received? ==> r.value == ForecastDays(res.body, now)
    ensures res.Failed? ==> r.error == Catch("WeatherAPI forecast error", res.error)
  {
    match res
    case Received(body) => Success(ForecastDays(body, now))
    case Failed(err) => Failure(Catch("WeatherAPI forecast error", err))
  }
}
