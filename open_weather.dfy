/** The OpenWeather adapter (services/weatherProviders/openWeather.js). Its forecast endpoint
    returns 3-hourly samples; the adapter groups them by UTC calendar date in first-seen order,
    keeps the first `days` dates, and represents each date by the sample closest to 12:00 UTC. */
module OpenWeather {
  import opened Wrappers
  import opened Sequences
  import opened Weather
  import opened DataTransformer

  const SecondsPerDay: int := 86400
  const NoonOffset: int := 43200

  /** The query parameters the adapter sends (the API key and base URL left out). */
  datatype Query = Query(path: string, lat: real, lon: real, units: string)

  /** The forecast response: `list` of 3-hourly items. */
  datatype ForecastPayload = ForecastPayload(list: seq<OwPayload>)

  /** `units = 'metric'` is the parameter's default when the caller passes none. */
  function CurrentQuery(lat: real, lon: real, units: Option<string>): (q: Query)
    ensures q.units == if units.Some? then units.value else "metric"
  {
    Query("/weather", lat, lon, units.GetOr("metric"))
  }

  function ForecastQuery(lat: real, lon: real, units: Option<string>): (q: Query)
    ensures q.units == if units.Some? then units.value else "metric"
  {
    Query("/forecast", lat, lon, units.GetOr("metric"))
  }

  // ---------------------------------------------------------------------------------------
  // Errors

  /** The catch block: an HTTP error response becomes `new Error("<prefix> (<status>): <msg>")`
      with `msg` the body's `message`, or the error's own message when that is missing or empty;
      any other error is rethrown as it is. */
  function Catch(prefix: string, err: JsError): (e: JsError)
    ensures err.response.None? ==> e == err
    ensures err.response.Some? ==> var resp := err.response.value;
      e == PlainError(ApiErrorMessage(prefix, resp.status, OrDefault(resp.data.message, err.message)))
  {
    match err.response
    case None => err
    case Some(resp) =>
      PlainError(ApiErrorMessage(prefix, resp.status, OrDefault(resp.data.message, err.message)))
  }

  /** `getCurrentWeather`: the transformed payload, or the shaped error. */
  function GetCurrentWeather(res: HttpResult<OwPayload>): (r: Result<Reading, JsError>)
    ensures r.Success? <==> res.Received?
    ensures res.Received? ==> r.value == TransformOpenWeather(res.body)
    ensures res.Failed? ==> r.error == Catch("OpenWeather API error", res.error)
  {
    match res
    case Received(body) => Success(TransformOpenWeather(body))
    case Failed(err) => Failure(Catch("OpenWeather API error", err))
  }

  // ---------------------------------------------------------------------------------------
  // Grouping by UTC date

  /** The UTC calendar date (day number) of epoch second `dt`: `toISOString().split('T')[0]`. */
  function UtcDay(dt: int): (d: int)
    ensures d * SecondsPerDay <= dt < (d + 1) * SecondsPerDay
  {
    dt / SecondsPerDay
  }

  /** 12:00:00 UTC on day `d`, in epoch seconds. */
  function NoonOf(d: int): int {
    d * SecondsPerDay + NoonOffset
  }

  /** The dates of the items, in list order. */
  function DaysOf(items: seq<OwPayload>): (ds: seq<int>)
    ensures |ds| == |items|
    decreases |items|
  {
    if |items| == 0 then [] else DaysOf(items[..|items| - 1]) + [UtcDay(items[|items| - 1].dt)]
  }

  /** `forecastByDay[d]`: the transformed items dated `d`, in list order. */
  function OnDay(items: seq<OwPayload>, d: int): seq<Reading>
    decreases |items|
  {
    if |items| == 0 then []
    else
      var last := items[|items| - 1];
      OnDay(items[..|items| - 1], d) + (if UtcDay(last.dt) == d then [TransformOpenWeather(last)] else [])
  }

  /** `forecastByDay` as a map from date to its items. */
  function Groups(items: seq<OwPayload>): map<int, seq<Reading>> {
    map d | d in DaysOf(items) :: OnDay(items, d)
  }

  /** The end index of `keys.slice(0, days)`: a negative `days` counts back from the end. */
  function SliceEnd(n: nat, days: int): (e: nat)
    ensures e <= n
    ensures days >= 0 ==> e == if days < n then days else n
    ensures days < 0 ==> e == if n + days < 0 then 0 else n + days
  {
    if days < 0 then (if n + days < 0 then 0 else n + days)
    else if days < n then days else n
  }

  // ---------------------------------------------------------------------------------------
  // Choosing the representative

  function Distance(t: int, target: int): nat {
    if t >= target then t - target else target - t
  }

  /** The index the noon scan settles on: the first sample whose distance to `noon` is strictly
      smaller than every earlier one. */
  function ClosestIndex(group: seq<Reading>, noon: int): (k: nat)
    requires |group| > 0
    ensures k < |group|
    decreases |group|
  {
    if |group| == 1 then 0
    else
      var k := ClosestIndex(group[..|group| - 1], noon);
      if Distance(group[|group| - 1].timestamp, noon) < Distance(group[k].timestamp, noon)
      then |group| - 1 else k
  }

  /** The scan picks a sample nearest to noon, and the earliest of several equally near ones. */
  lemma {:induction false} ClosestIndexIsNearest(group: seq<Reading>, noon: int)
    requires |group| > 0
    ensures var k := ClosestIndex(group, noon);
      && (forall j :: 0 <= j < |group| ==>
            Distance(group[k].timestamp, noon) <= Distance(group[j].timestamp, noon))
      && (forall j :: 0 <= j < k ==>
            Distance(group[k].timestamp, noon) < Distance(group[j].timestamp, noon))
    decreases |group|
  {
    if |group| > 1 {
      var p := group[..|group| - 1];
      ClosestIndexIsNearest(p, noon);
      assert forall j :: 0 <= j < |p| ==> p[j] == group[j];
    }
  }

  /** The day's representative, with `.date` set to the day. */
  function Representative(group: seq<Reading>, d: int): (r: Reading)
    requires |group| > 0
    ensures r.date == Some(d)
    ensures exists k :: 0 <= k < |group| && r == group[k].(date := Some(d))
    ensures forall j :: 0 <= j < |group| ==>
      Distance(r.timestamp, NoonOf(d)) <= Distance(group[j].timestamp, NoonOf(d))
  {
    var k := ClosestIndex(group, NoonOf(d));
    ClosestIndexIsNearest(group, NoonOf(d));
    group[k].(date := Some(d))
  }

  /** The dates kept: the first `days` dates in first-seen order. */
  function KeptDays(list: seq<OwPayload>, days: int): (ks: seq<int>)
    ensures ks <= FirstSeen(DaysOf(list))
  {
    var ks := FirstSeen(DaysOf(list));
    ks[..SliceEnd(|ks|, days)]
  }

  /** What `getForecast` returns for a `list` of items. */
  function DailyForecast(list: seq<OwPayload>, days: int): seq<Reading> {
    var ks := KeptDays(list, days);
    seq(|ks|, j requires 0 <= j < |ks| =>
      KeptDayHasItems(list, days, j);
      Representative(OnDay(list, ks[j]), ks[j]))
  }

  // ---------------------------------------------------------------------------------------
  // Lemmas about the grouping

  /** Every item of a group is dated by the group's date. */
  lemma {:induction false} OnDayDated(items: seq<OwPayload>, d: int)
    ensures forall r :: r in OnDay(items, d) ==> UtcDay(r.timestamp) == d && r.date.None?
    decreases |items|
  {
    if |items| > 0 {
      OnDayDated(items[..|items| - 1], d);
    }
  }

  /** A date has items exactly when some item carries it. */
  lemma {:induction false} OnDayNonEmpty(items: seq<OwPayload>, d: int)
    ensures |OnDay(items, d)| > 0 <==> d in DaysOf(items)
    decreases |items|
  {
    if |items| > 0 {
      var p, last := items[..|items| - 1], items[|items| - 1];
      OnDayNonEmpty(p, d);
      assert DaysOf(items) == DaysOf(p) + [UtcDay(last.dt)];
    }
  }

  /** Each item lands in the group of its own date. */
  lemma {:induction false} OnDayMembers(items: seq<OwPayload>, d: int)
    ensures forall i :: 0 <= i < |items| && UtcDay(items[i].dt) == d ==>
      TransformOpenWeather(items[i]) in OnDay(items, d)
    decreases |items|
  {
    if |items| > 0 {
      var p := items[..|items| - 1];
      OnDayMembers(p, d);
      assert forall i :: 0 <= i < |p| ==> p[i] == items[i];
      assert OnDay(p, d) <= OnDay(items, d);
    }
  }

  lemma KeptDayHasItems(list: seq<OwPayload>, days: int, j: nat)
    requires j < |KeptDays(list, days)|
    ensures |OnDay(list, KeptDays(list, days)[j])| > 0
  {
    var ks := KeptDays(list, days);
    FirstSeenOccurs(DaysOf(list), j);
    OnDayNonEmpty(list, ks[j]);
  }

  /** Reading one more item: a new date gets an empty group, then the transformed item is
      appended to its date's group. */
  lemma GroupsStep(items: seq<OwPayload>, x: OwPayload)
    ensures var d, g := UtcDay(x.dt), Groups(items);
      var g1 := if d in g then g else g[d := []];
      Groups(items + [x]) == g1[d := g1[d] + [TransformOpenWeather(x)]]
  {
    var items2, d := items + [x], UtcDay(x.dt);
    assert items2[..|items2| - 1] == items;
    assert DaysOf(items2) == DaysOf(items) + [d];
    var g := Groups(items);
    var g1 := if d in g then g else g[d := []];
    OnDayNonEmpty(items, d);
    forall e | e in DaysOf(items2)
      ensures OnDay(items2, e) == g1[d := g1[d] + [TransformOpenWeather(x)]][e]
    {
      if e != d {
        assert e in DaysOf(items);
      }
    }
  }

  /** Reading one more item: a date not seen before is appended to the key order. */
  lemma KeysStep(items: seq<OwPayload>, x: OwPayload)
    ensures var d, ks := UtcDay(x.dt), FirstSeen(DaysOf(items));
      FirstSeen(DaysOf(items + [x])) == if d in Groups(items) then ks else ks + [d]
  {
    var items2 := items + [x];
    assert items2[..|items2| - 1] == items;
    FirstSeenMembers(DaysOf(items));
  }

  /** The shape of the forecast: one entry per kept date, in first-seen order; each entry is a
      sample of its date (its timestamp falls on that UTC date), carries the date in `.date`,
      and is at least as close to noon as every other sample of the date and strictly closer
      than every earlier one. */
  lemma DailyForecastShape(list: seq<OwPayload>, days: int)
    ensures var ks := FirstSeen(DaysOf(list));
      |DailyForecast(list, days)| == SliceEnd(|ks|, days)
    ensures var ks, r := KeptDays(list, days), DailyForecast(list, days);
      forall j :: 0 <= j < |r| ==>
        && r[j].date == Some(ks[j])
        && UtcDay(r[j].timestamp) == ks[j]
        && r[j].(date := None) in OnDay(list, ks[j])
        && (forall s :: s in OnDay(list, ks[j]) ==>
              Distance(r[j].timestamp, NoonOf(ks[j])) <= Distance(s.timestamp, NoonOf(ks[j])))
  {
    var ks, r := KeptDays(list, days), DailyForecast(list, days);
    forall j | 0 <= j < |r|
      ensures r[j].date == Some(ks[j])
      ensures UtcDay(r[j].timestamp) == ks[j]
      ensures r[j].(date := None) in OnDay(list, ks[j])
      ensures forall s :: s in OnDay(list, ks[j]) ==>
        Distance(r[j].timestamp, NoonOf(ks[j])) <= Distance(s.timestamp, NoonOf(ks[j]))
    {
      var g := OnDay(list, ks[j]);
      KeptDayHasItems(list, days, j);
      var k := ClosestIndex(g, NoonOf(ks[j]));
      OnDayDated(list, ks[j]);
      ClosestIndexIsNearest(g, NoonOf(ks[j]));
      assert g[k] in g;
      assert r[j].(date := None) == g[k];
    }
  }

  /** With a non-negative `days` the forecast has `min(days, number of dates)` entries; there is
      no clamp. */
  lemma DailyForecastLength(list: seq<OwPayload>, days: int)
    requires days >= 0
    ensures var n := |FirstSeen(DaysOf(list))|;
      |DailyForecast(list, days)| == if days < n then days else n
  {
    DailyForecastShape(list, days);
  }

  // ---------------------------------------------------------------------------------------
  // The imperative code

  /** The noon scan of one date: starts from the middle sample with distance `Infinity`
      (`None`) and keeps each sample strictly closer than the best so far. */
  method ClosestToNoon(dayForecasts: seq<Reading>, date: int) returns (selectedForecast: Reading)
    requires |dayForecasts| > 0
    ensures selectedForecast == dayForecasts[ClosestIndex(dayForecasts, NoonOf(date))]
    ensures forall j :: 0 <= j < |dayForecasts| ==>
      Distance(selectedForecast.timestamp, NoonOf(date)) <= Distance(dayForecasts[j].timestamp, NoonOf(date))
  {
    selectedForecast := dayForecasts[|dayForecasts| / 2];
    var noonTarget := NoonOf(date);
    var closestToDiff: Option<nat> := None;
    ghost var k := 0;
    for i := 0 to |dayForecasts|
      invariant i == 0 ==> closestToDiff.None?
      invariant i > 0 ==>
        && k < i && k == ClosestIndex(dayForecasts[..i], noonTarget)
        && closestToDiff == Some(Distance(dayForecasts[k].timestamp, noonTarget))
        && selectedForecast == dayForecasts[k]
    {
      assert dayForecasts[..i + 1][..i] == dayForecasts[..i];
      var diff := Distance(dayForecasts[i].timestamp, noonTarget);
      if closestToDiff.None? || diff < closestToDiff.value {
        closestToDiff := Some(diff);
        selectedForecast := dayForecasts[i];
        k := i;
      }
    }
    assert dayForecasts[..|dayForecasts|] == dayForecasts;
    ClosestIndexIsNearest(dayForecasts, noonTarget);
  }

  /** The `forEach` that builds `forecastByDay`, with the key order `Object.keys` reports. */
  method GroupByDay(list: seq<OwPayload>) returns (keys: seq<int>, forecastByDay: map<int, seq<Reading>>)
    ensures keys == FirstSeen(DaysOf(list))
    ensures forecastByDay == Groups(list)
  {
    keys, forecastByDay := [], map[];
    for i := 0 to |list|
      invariant keys == FirstSeen(DaysOf(list[..i]))
      invariant forecastByDay == Groups(list[..i])
    {
      var item := list[i];
      assert list[..i + 1] == list[..i] + [item];
      GroupsStep(list[..i], item);
      KeysStep(list[..i], item);
      var date := UtcDay(item.dt);
      if date !in forecastByDay {
        keys := keys + [date];
        forecastByDay := forecastByDay[date := []];
      }
      forecastByDay := forecastByDay[date := forecastByDay[date] + [TransformOpenWeather(item)]];
    }
    assert list[..|list|] == list;
  }

  /** Groups the list by date, then maps the first `days` dates to their representatives. */
  method DailyFromList(list: seq<OwPayload>, days: int) returns (dailyForecasts: seq<Reading>)
    ensures dailyForecasts == DailyForecast(list, days)
  {
    var keys, forecastByDay := GroupByDay(list);
    var kept := keys[..SliceEnd(|keys|, days)];
    assert kept == KeptDays(list, days);
    dailyForecasts := [];
    for j := 0 to |kept|
      invariant |dailyForecasts| == j
      invariant forall m :: 0 <= m < j ==> dailyForecasts[m] == DailyForecast(list, days)[m]
    {
      var date := kept[j];
      KeptDayHasItems(list, days, j);
      FirstSeenOccurs(DaysOf(list), j);
      var dayForecasts := forecastByDay[date];
      var selectedForecast := ClosestToNoon(dayForecasts, date);
      dailyForecasts := dailyForecasts + [selectedForecast.(date := Some(date))];
    }
  }

  /** What `getForecast` settles with: the daily representatives, or the shaped error. */
  function ForecastResult(days: int, res: HttpResult<ForecastPayload>): (r: Result<seq<Reading>, JsError>)
    ensures r.Success? <==> res.Received?
  {
    match res
    case Received(body) => Success(DailyForecast(body.list, days))
    case Failed(err) => Failure(Catch("OpenWeather forecast API error", err))
  }

  /** `getForecast`. */
  method GetForecast(days: int, res: HttpResult<ForecastPayload>) returns (r: Result<seq<Reading>, JsError>)
    ensures r == ForecastResult(days, res)
    ensures r.Success? <==> res.Received?
  {
    match res
    case Received(body) =>
      var daily := DailyFromList(body.list, days);
      r := Success(daily);
    case Failed(err) =>
      r := Failure(Catch("OpenWeather forecast API error", err));
  }
}
