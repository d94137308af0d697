/** The three pure record mappings from a provider's payload to the canonical `Reading`. The
    payload types keep only the members the mappings read; an optional chain such as
    `data.main?.temp` is one optional member (`mainTemp`), absent when any link is absent. */
module DataTransformer {
  import opened Wrappers
  import opened Weather

  /** One entry of OpenWeather's `weather` array. */
  datatype OwCondition = OwCondition(main: Option<string>, description: Option<string>, icon: Option<string>)

  /** An OpenWeather current-weather payload, or one item of its 3-hourly forecast `list`. */
  datatype OwPayload = OwPayload(
    dt: int, name: Option<string>, sysCountry: Option<string>,
    coordLat: Option<real>, coordLon: Option<real>,
    mainTemp: Option<real>, mainFeelsLike: Option<real>, mainHumidity: Option<real>,
    mainPressure: Option<real>, windSpeed: Option<real>, windDeg: Option<real>,
    weather: seq<OwCondition>, cloudsAll: Option<real>, uvi: Option<real>,
    visibility: Option<real>, rain1h: Option<real>, snow1h: Option<real>)

  datatype WaLocation = WaLocation(
    name: Option<string>, country: Option<string>, lat: Option<real>, lon: Option<real>,
    region: Option<string>)

  datatype WaCondition = WaCondition(text: Option<string>, icon: Option<string>)

  /** WeatherAPI's `current` block (also the shape a forecast day is rewritten into). */
  datatype WaCurrent = WaCurrent(
    lastUpdatedEpoch: Option<int>, tempC: Option<real>, feelslikeC: Option<real>,
    humidity: Option<real>, pressureMb: Option<real>, windKph: Option<real>,
    windDegree: Option<real>, condition: Option<WaCondition>, cloud: Option<real>,
    uv: Option<real>, visKm: Option<real>, precipMm: Option<real>, isDay: Option<int>)

  datatype WaPayload = WaPayload(location: Option<WaLocation>, current: WaCurrent)

  datatype WbWeather = WbWeather(description: Option<string>, icon: Option<string>)

  /** One element of WeatherBit's `data` array; `validDate` is set on forecast days. */
  datatype WbObservation = WbObservation(
    ts: Option<int>, temp: Option<real>, appTemp: Option<real>, rh: Option<real>,
    pres: Option<real>, windSpd: Option<real>, windDir: Option<real>,
    weather: Option<WbWeather>, clouds: Option<real>, uv: Option<real>, vis: Option<real>,
    precip: Option<real>, snow: Option<real>, aqi: Option<real>, validDate: Option<int>)

  /** A WeatherBit response envelope. */
  datatype WbEnvelope = WbEnvelope(
    data: seq<WbObservation>, cityName: Option<string>, countryCode: Option<string>,
    lat: Option<real>, lon: Option<real>, stateCode: Option<string>)

  /** A present, non-zero (truthy) epoch, or else the current time. */
  function EpochOrNow(epoch: Option<int>, now: int): (t: int)
    ensures epoch.Some? && epoch.value != 0 ==> t == epoch.value
    ensures (epoch.None? || epoch.value == 0) ==> t == now
  {
    if epoch.Some? && epoch.value != 0 then epoch.value else now
  }

  function OwFirst(d: OwPayload): Option<OwCondition> {
    if |d.weather| > 0 then Some(d.weather[0]) else None
  }

  /** `transformOpenWeatherData`: the name defaults to "Unknown" and the country to "", the UV
      index and the rain and snow of the last hour default to 0, the conditions come from the
      first `weather` entry, and every other member is copied as it is. */
  function TransformOpenWeather(d: OwPayload): (r: Reading)
    ensures r.provider == OpenWeather && r.timestamp == d.dt && r.date.None?
    ensures r.location == Location(OrDefault(d.name, "Unknown"), OrDefault(d.sysCountry, ""), d.coordLat, d.coordLon, None, None)
    ensures r.location.name != ""
    ensures var c := r.current;
      && c.temp == d.mainTemp && c.feelsLike == d.mainFeelsLike && c.humidity == d.mainHumidity
      && c.pressure == d.mainPressure && c.windSpeed == d.windSpeed && c.windDirection == d.windDeg
      && c.clouds == d.cloudsAll && c.visibility == d.visibility
    ensures |d.weather| > 0 ==>
      && r.current.description == d.weather[0].description && r.current.condition == d.weather[0].main
      && r.current.icon == d.weather[0].icon
    ensures |d.weather| == 0 ==>
      r.current.description.None? && r.current.condition.None? && r.current.icon.None?
    ensures r.current.uvIndex == Some(OrZero(d.uvi))
    ensures r.current.rain1h == Some(OrZero(d.rain1h)) && r.current.snow1h == Some(OrZero(d.snow1h))
    ensures r.current.aqi.None? && r.current.isDay.None?
  {
    var w := OwFirst(d);
    Reading(
      OpenWeather,
      d.dt,
      Location(OrDefault(d.name, "Unknown"), OrDefault(d.sysCountry, ""), d.coordLat, d.coordLon, None, None),
      Current(
        temp := d.mainTemp, feelsLike := d.mainFeelsLike, humidity := d.mainHumidity,
        pressure := d.mainPressure, windSpeed := d.windSpeed, windDirection := d.windDeg,
        description := if w.Some? then w.value.description else None,
        condition := if w.Some? then w.value.main else None,
        icon := if w.Some? then w.value.icon else None,
        clouds := d.cloudsAll, uvIndex := Some(OrZero(d.uvi)), visibility := d.visibility,
        rain1h := Some(OrZero(d.rain1h)), snow1h := Some(OrZero(d.snow1h)),
        aqi := None, isDay := None),
      None)
  }

  /** `transformWeatherApiData`; `now` stands for `new Date()`. The time is the last update's,
      when it is truthy; the name defaults to "Unknown" and the country to ""; the condition
      text serves as both description and condition; the precipitation defaults to 0; `is_day`
      is true exactly for 1; every other member is copied as it is. */
  function TransformWeatherApi(d: WaPayload, now: int): (r: Reading)
    ensures r.provider == WeatherApi && r.date.None?
    ensures r.timestamp == EpochOrNow(d.current.lastUpdatedEpoch, now)
    ensures d.location.None? ==> r.location == Location("Unknown", "", None, None, None, None)
    ensures d.location.Some? ==> var l := d.location.value;
      r.location == Location(OrDefault(l.name, "Unknown"), OrDefault(l.country, ""), l.lat, l.lon, l.region, None)
    ensures r.location.name != ""
    ensures var c, a := r.current, d.current;
      && c.temp == a.tempC && c.feelsLike == a.feelslikeC && c.humidity == a.humidity
      && c.pressure == a.pressureMb && c.windSpeed == a.windKph && c.windDirection == a.windDegree
      && c.clouds == a.cloud && c.uvIndex == a.uv && c.visibility == a.visKm
    ensures d.current.condition.Some? ==>
      r.current.description == d.current.condition.value.text && r.current.icon == d.current.condition.value.icon
    ensures d.current.condition.None? ==> r.current.description.None? && r.current.icon.None?
    ensures r.current.description == r.current.condition
    ensures r.current.rain1h == Some(OrZero(d.current.precipMm))
    ensures r.current.snow1h.None? && r.current.aqi.None?
    ensures r.current.isDay == Some(d.current.isDay == Some(1))
  {
    var c := d.current;
    var loc := d.location;
    Reading(
      WeatherApi,
      EpochOrNow(c.lastUpdatedEpoch, now),
      Location(
        OrDefault(if loc.Some? then loc.value.name else None, "Unknown"),
        OrDefault(if loc.Some? then loc.value.country else None, ""),
        if loc.Some? then loc.value.lat else None,
        if loc.Some? then loc.value.lon else None,
        if loc.Some? then loc.value.region else None,
        None),
      Current(
        temp := c.tempC, feelsLike := c.feelslikeC, humidity := c.humidity,
        pressure := c.pressureMb, windSpeed := c.windKph, windDirection := c.windDegree,
        description := if c.condition.Some? then c.condition.value.text else None,
        condition := if c.condition.Some? then c.condition.value.text else None,
        icon := if c.condition.Some? then c.condition.value.icon else None,
        clouds := c.cloud, uvIndex := c.uv, visibility := c.visKm,
        rain1h := Some(OrZero(c.precipMm)), snow1h := None,
        aqi := None, isDay := Some(c.isDay == Some(1))),
      None)
  }

  /** WeatherBit reports wind speed in metres per second; the canonical unit is km/h. */
  function KmhOfMetresPerSecond(v: Option<real>): (r: Option<real>)
    ensures r.Some? <==> v.Some?
    ensures r.Some? ==> r.value / 3.6 == v.value
  {
    if v.Some? then Some(v.value * 3.6) else None
  }

  /** `transformWeatherBitData`: reads the first element of `data`, which its callers check is
      there. The time is the observation's, when it is truthy; the name defaults to "Unknown"
      and the country to ""; the description serves as the condition too; the wind speed is
      converted to km/h; precipitation and snow default to 0; every other member is copied. */
  function TransformWeatherBit(d: WbEnvelope, now: int): (r: Reading)
    requires |d.data| > 0
    ensures r.provider == WeatherBit && r.date.None?
    ensures r.timestamp == EpochOrNow(d.data[0].ts, now)
    ensures r.location == Location(OrDefault(d.cityName, "Unknown"), OrDefault(d.countryCode, ""), d.lat, d.lon, None, d.stateCode)
    ensures r.location.name != ""
    ensures var c, o := r.current, d.data[0];
      && c.temp == o.temp && c.feelsLike == o.appTemp && c.humidity == o.rh && c.pressure == o.pres
      && c.windDirection == o.windDir && c.clouds == o.clouds && c.uvIndex == o.uv && c.visibility == o.vis
      && c.aqi == o.aqi
    ensures d.data[0].weather.Some? ==>
      r.current.description == d.data[0].weather.value.description && r.current.icon == d.data[0].weather.value.icon
    ensures d.data[0].weather.None? ==> r.current.description.None? && r.current.icon.None?
    ensures r.current.description == r.current.condition
    ensures r.current.rain1h == Some(OrZero(d.data[0].precip)) && r.current.snow1h == Some(OrZero(d.data[0].snow))
    ensures r.current.isDay.None?
    ensures r.current.windSpeed.Some? <==> d.data[0].windSpd.Some?
    ensures r.current.windSpeed.Some? ==> r.current.windSpeed.value == d.data[0].windSpd.value * 3.6
  {
    var c := d.data[0];
    Reading(
      WeatherBit,
      EpochOrNow(c.ts, now),
      Location(OrDefault(d.cityName, "Unknown"), OrDefault(d.countryCode, ""), d.lat, d.lon, None, d.stateCode),
      Current(
        temp := c.temp, feelsLike := c.appTemp, humidity := c.rh, pressure := c.pres,
        windSpeed := KmhOfMetresPerSecond(c.windSpd), windDirection := c.windDir,
        description := if c.weather.Some? then c.weather.value.description else None,
        condition := if c.weather.Some? then c.weather.value.description else None,
        icon := if c.weather.Some? then c.weather.value.icon else None,
        clouds := c.clouds, uvIndex := c.uv, visibility := c.vis,
        rain1h := Some(OrZero(c.precip)), snow1h := Some(OrZero(c.snow)),
        aqi := c.aqi, isDay := None),
      None)
  }
}
