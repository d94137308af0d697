/** The fan-out/fan-in of services/aggregator.js. `getCurrentWeather` and `getForecast` call the
    allowed adapters in parallel; each success handler appends the adapter's result to
    `results.sources` and overwrites `results.location`, so both follow the order in which the
    calls settle. The settled calls are given as a sequence in settlement order. */
module Aggregator {
  import opened Wrappers
  import opened Sequences
  import opened Weather
  import opened DataTransformer
  import opened Merge
  import OW = OpenWeather
  import WA = WeatherApi
  import WB = WeatherBit

  const NoCurrentData := "No weather data available from any provider"
  const NoForecastData := "No forecast data available from any provider"

  /** The default allowlist. */
  const AllProviders: seq<string> := ["openweather", "weatherapi", "weatherbit"]

  /** `options.providers` (absent, or a list of names) and `options.units`. */
  datatype Options = Options(providers: Option<seq<string>>, units: Option<string>)

  /** One adapter call: which adapter, the coordinates, the units it is passed, and the day
      count. */
  datatype Call = Call(provider: Provider, lat: real, lon: real, units: Option<string>, days: Option<int>)

  /** `options.providers || [...]`: any list, even an empty one, replaces the default. */
  function Allowlist(o: Options): (names: seq<string>)
    ensures o.providers.None? ==> names == AllProviders
    ensures o.providers.Some? ==> names == o.providers.value
  {
    o.providers.GetOr(AllProviders)
  }

  /** The adapters called, in the order the calls are made. */
  function Called(o: Options): (ps: seq<Provider>)
    ensures forall p :: p in ps <==> p.Name() in Allowlist(o)
  {
    var names := Allowlist(o);
    (if "openweather" in names then [OpenWeather] else [])
    + (if "weatherapi" in names then [WeatherApi] else [])
    + (if "weatherbit" in names then [WeatherBit] else [])
  }

  /** The calls `getCurrentWeather` makes: only OpenWeather's is passed `options.units`. */
  function CurrentCalls(lat: real, lon: real, o: Options): (cs: seq<Call>)
    ensures |cs| == |Called(o)|
    ensures forall i :: 0 <= i < |cs| ==> cs[i].provider == Called(o)[i] && cs[i].days.None?
    ensures forall i :: 0 <= i < |cs| ==> cs[i].lat == lat && cs[i].lon == lon
    ensures forall i :: 0 <= i < |cs| ==> cs[i].units == if cs[i].provider == OpenWeather then o.units else None
  {
    var ps := Called(o);
    seq(|ps|, i requires 0 <= i < |ps| => Call(ps[i], lat, lon, if ps[i] == OpenWeather then o.units else None, None))
  }

  /** The calls `getForecast` makes: every adapter is passed `days`, only OpenWeather `units`. */
  function ForecastCalls(lat: real, lon: real, o: Options, days: int): (cs: seq<Call>)
    ensures |cs| == |Called(o)|
    ensures forall i :: 0 <= i < |cs| ==> cs[i].provider == Called(o)[i] && cs[i].days == Some(days)
    ensures forall i :: 0 <= i < |cs| ==> cs[i].lat == lat && cs[i].lon == lon
    ensures forall i :: 0 <= i < |cs| ==> cs[i].units == if cs[i].provider == OpenWeather then o.units else None
  {
    var ps := Called(o);
    seq(|ps|, i requires 0 <= i < |ps| => Call(ps[i], lat, lon, if ps[i] == OpenWeather then o.units else None, Some(days)))
  }

  /** No list at all calls the three adapters in their fixed order. */
  lemma DefaultCallsAll(units: Option<string>)
    ensures Called(Options(None, units)) == [OpenWeather, WeatherApi, WeatherBit]
  {
    assert "openweather" in AllProviders && "weatherapi" in AllProviders && "weatherbit" in AllProviders;
  }

  /** A name other than the three adapters' is ignored, wherever it appears in the list. */
  lemma UnknownNamesIgnored(names: seq<string>, extra: string, k: nat, units: Option<string>)
    requires k <= |names|
    requires extra != "openweather" && extra != "weatherapi" && extra != "weatherbit"
    ensures Called(Options(Some(names[..k] + [extra] + names[k..]), units)) == Called(Options(Some(names), units))
  {
    var names2 := names[..k] + [extra] + names[k..];
    assert names == names[..k] + names[k..];
    forall v | v != extra
      ensures v in names2 <==> v in names
    {
      calc {
        v in names2;
        v in names[..k] || v in names[k..];
        v in names;
      }
    }
  }

  // ---------------------------------------------------------------------------------------
  // Settled calls

  /** One settled call: the adapter and what its promise settled with. */
  datatype Settled<T> = Settled(provider: Provider, outcome: Result<T, JsError>)

  /** The responses the three adapters' current-weather requests received. */
  datatype CurrentResponses = CurrentResponses(
    ow: HttpResult<OwPayload>, wa: HttpResult<WaPayload>, wb: HttpResult<WbEnvelope>)

  /** The responses the three adapters' forecast requests received. */
  datatype ForecastResponses = ForecastResponses(
    ow: HttpResult<OW.ForecastPayload>, wa: HttpResult<WA.ForecastPayload>, wb: HttpResult<WbEnvelope>)

  /** What each adapter's `getCurrentWeather` settles with; `now` stands for the clock. */
  function CurrentOutcome(p: Provider, res: CurrentResponses, now: int): (r: Result<Reading, JsError>)
    ensures r.Success? ==> r.value.provider == p && r.value.location.name != ""
  {
    match p
    case OpenWeather => OW.GetCurrentWeather(res.ow)
    case WeatherApi => WA.GetCurrentWeather(res.wa, now)
    case WeatherBit => WB.GetCurrentWeather(res.wb, now)
  }

  /** What each adapter's `getForecast(lat, lon, days)` settles with. */
  function ForecastOutcome(p: Provider, lat: real, lon: real, days: int, res: ForecastResponses, now: int)
    : (r: Result<seq<Reading>, JsError>)
    ensures p == OpenWeather ==> (r.Success? <==> res.ow.Received?)
    ensures p == WeatherApi ==> (r.Success? <==> res.wa.Received?)
    ensures p == WeatherBit ==> (r.Success? <==> res.wb.Received? && |res.wb.body.data| > 0)
    ensures p != OpenWeather && r.Success? ==> forall i :: 0 <= i < |r.value| ==> r.value[i].provider == p
    ensures p == WeatherBit && r.Success? ==> forall i :: 0 <= i < |r.value| ==>
      r.value[i].location.lat == Some(lat) && r.value[i].location.lon == Some(lon)
  {
    match p
    case OpenWeather => OW.ForecastResult(days, res.ow)
    case WeatherApi => WA.GetForecast(res.wa, now)
    case WeatherBit => WB.GetForecast(lat, lon, res.wb, now)
  }

  function ProvidersOf<T>(settled: seq<Settled<T>>): (ps: seq<Provider>)
    ensures |ps| == |settled|
    ensures forall i :: 0 <= i < |settled| ==> ps[i] == settled[i].provider
  {
    seq(|settled|, i requires 0 <= i < |settled| => settled[i].provider)
  }

  /** `settled` lists every call `getCurrentWeather` makes exactly once, each with its adapter's
      outcome, in some settlement order. */
  predicate SettlementOfCurrent(settled: seq<Settled<Reading>>, o: Options, res: CurrentResponses, now: int) {
    && multiset(ProvidersOf(settled)) == multiset(Called(o))
    && forall i :: 0 <= i < |settled| ==> settled[i].outcome == CurrentOutcome(settled[i].provider, res, now)
  }

  predicate SettlementOfForecast(settled: seq<Settled<seq<Reading>>>, o: Options, lat: real, lon: real,
                                 days: int, res: ForecastResponses, now: int) {
    && multiset(ProvidersOf(settled)) == multiset(Called(o))
    && forall i :: 0 <= i < |settled| ==>
         settled[i].outcome == ForecastOutcome(settled[i].provider, lat, lon, days, res, now)
  }

  /** The successful results, in settlement order. */
  function Successes<T>(settled: seq<Settled<T>>): seq<T>
    decreases |settled|
  {
    if |settled| == 0 then []
    else
      var last := settled[|settled| - 1];
      Successes(settled[..|settled| - 1]) + (if last.outcome.Success? then [last.outcome.value] else [])
  }

  /** The positions of the fulfilled calls, in settlement order: position k holds the call that
      produced the k-th success, and every fulfilled call appears once. */
  function SuccessIndices<T>(settled: seq<Settled<T>>): (js: seq<nat>)
    ensures |js| == |Successes(settled)|
    ensures forall k :: 0 <= k < |js| ==>
      js[k] < |settled| && settled[js[k]].outcome == Success(Successes(settled)[k])
    ensures forall k, l :: 0 <= k < l < |js| ==> js[k] < js[l]
    ensures forall j :: 0 <= j < |settled| && settled[j].outcome.Success? ==> j in js
    decreases |settled|
  {
    if |settled| == 0 then []
    else
      var n := |settled| - 1;
      var p := settled[..n];
      var js := SuccessIndices(p);
      assert forall j :: 0 <= j < n ==> p[j] == settled[j];
      js + (if settled[n].outcome.Success? then [n] else [])
  }

  /** The name and country a current-weather fan-in ends with: those of the last success whose
      location has a (non-empty) name. */
  function LastNamed(settled: seq<Settled<Reading>>): Option<(string, string)>
    decreases |settled|
  {
    if |settled| == 0 then None
    else
      var last := settled[|settled| - 1];
      if last.outcome.Success? && last.outcome.value.location.name != ""
      then Some((last.outcome.value.location.name, last.outcome.value.location.country))
      else LastNamed(settled[..|settled| - 1])
  }

  /** The name and country a forecast fan-in ends with: those of the first day of the last
      success with at least one day. */
  function LastPlaced(settled: seq<Settled<seq<Reading>>>): Option<(string, string)>
    decreases |settled|
  {
    if |settled| == 0 then None
    else
      var last := settled[|settled| - 1];
      if last.outcome.Success? && |last.outcome.value| > 0
      then Some((last.outcome.value[0].location.name, last.outcome.value[0].location.country))
      else LastPlaced(settled[..|settled| - 1])
  }

  /** `results.location`: the request's coordinates, and a name and country once a success
      supplied them. */
  datatype Place = Place(lat: real, lon: real, named: Option<(string, string)>)

  datatype CurrentReport = CurrentReport(sources: seq<Reading>, location: Place, timestamp: int, aggregated: Aggregated)

  /** One forecast source: the adapter's name and its list of days. */
  datatype ForecastSource = ForecastSource(provider: Provider, data: seq<Reading>)

  /** One source's forecast for a day. */
  datatype Contribution = Contribution(provider: Provider, forecast: Reading)

  /** A day of the result; `aggregated` starts as null and is set before the day is kept. */
  datatype DayForecast = DayForecast(date: int, sources: seq<Contribution>, aggregated: Option<Aggregated>)

  /** A date kept by the alignment, with its contributions (before merging). */
  datatype Slot = Slot(date: int, sources: seq<Contribution>)

  datatype ForecastReport = ForecastReport(sources: seq<ForecastSource>, daily: seq<DayForecast>, location: Place, timestamp: int)

  // ---------------------------------------------------------------------------------------
  // Lemmas about the fan-in

  /** The fan-in has no successes exactly when every settled call failed. */
  lemma {:induction false} NoSuccessesIffAllFailed<T>(settled: seq<Settled<T>>)
    ensures Successes(settled) == [] <==> forall i :: 0 <= i < |settled| ==> settled[i].outcome.Failure?
    decreases |settled|
  {
    if |settled| > 0 {
      var p := settled[..|settled| - 1];
      NoSuccessesIffAllFailed(p);
      assert forall i :: 0 <= i < |p| ==> p[i] == settled[i];
    }
  }

  /** Each success appears among the sources, and each source is some call's success. */
  lemma {:induction false} SuccessesMembers<T>(settled: seq<Settled<T>>)
    ensures forall i :: 0 <= i < |settled| && settled[i].outcome.Success? ==>
      settled[i].outcome.value in Successes(settled)
    ensures forall v :: v in Successes(settled) ==>
      exists i :: 0 <= i < |settled| && settled[i].outcome == Success(v)
    decreases |settled|
  {
    if |settled| > 0 {
      var p := settled[..|settled| - 1];
      SuccessesMembers(p);
      assert forall i :: 0 <= i < |p| ==> p[i] == settled[i];
    }
  }

  /** A settlement holds exactly the called adapters. */
  lemma SettledAreCalled<T>(settled: seq<Settled<T>>, o: Options)
    requires multiset(ProvidersOf(settled)) == multiset(Called(o))
    ensures forall p :: p in Called(o) <==> exists i :: 0 <= i < |settled| && settled[i].provider == p
  {
    var ps := ProvidersOf(settled);
    forall p | p in Called(o)
      ensures exists i :: 0 <= i < |settled| && settled[i].provider == p
    {
      assert p in multiset(ps);
      var i :| 0 <= i < |ps| && ps[i] == p;
    }
    forall i | 0 <= i < |settled|
      ensures settled[i].provider in Called(o)
    {
      assert ps[i] in multiset(ps);
    }
  }

  /** For every settlement order of the calls, current weather has no sources exactly when
      every called adapter failed. */
  lemma NoCurrentDataIffEveryCalledAdapterFailed(settled: seq<Settled<Reading>>, o: Options, res: CurrentResponses, now: int)
    requires SettlementOfCurrent(settled, o, res, now)
    ensures Successes(settled) == [] <==> forall p :: p in Called(o) ==> CurrentOutcome(p, res, now).Failure?
  {
    NoSuccessesIffAllFailed(settled);
    SettledAreCalled(settled, o);
  }

  /** Likewise for forecasts: an adapter that answers with an empty list still counts as a
      source. */
  lemma NoForecastDataIffEveryCalledAdapterFailed(settled: seq<Settled<seq<Reading>>>, o: Options, lat: real, lon: real,
                                                  days: int, res: ForecastResponses, now: int)
    requires SettlementOfForecast(settled, o, lat, lon, days, res, now)
    ensures Successes(settled) == [] <==>
      forall p :: p in Called(o) ==> ForecastOutcome(p, lat, lon, days, res, now).Failure?
  {
    NoSuccessesIffAllFailed(settled);
    SettledAreCalled(settled, o);
  }

  /** A current-weather fan-in has no location name exactly when no success has a name. */
  lemma {:induction false} NoNameIffNoNamedSuccess(settled: seq<Settled<Reading>>)
    ensures LastNamed(settled).None? <==>
      forall i :: 0 <= i < |settled| && settled[i].outcome.Success? ==> settled[i].outcome.value.location.name == ""
    decreases |settled|
  {
    if |settled| > 0 {
      var p := settled[..|settled| - 1];
      NoNameIffNoNamedSuccess(p);
      assert forall i :: 0 <= i < |p| ==> p[i] == settled[i];
    }
  }

  /** The location's name and country come from the last success that has a name, and every
      later success has none. */
  lemma {:induction false} LastNamedIsLastNamedSuccess(settled: seq<Settled<Reading>>)
    ensures LastNamed(settled).Some? ==>
      exists i :: 0 <= i < |settled| && settled[i].outcome.Success? &&
        (var loc := settled[i].outcome.value.location;
         && loc.name != "" && LastNamed(settled).value == (loc.name, loc.country)
         && forall j :: i < j < |settled| && settled[j].outcome.Success? ==> settled[j].outcome.value.location.name == "")
    decreases |settled|
  {
    if |settled| > 0 {
      var n, last, p := |settled|, settled[|settled| - 1], settled[..|settled| - 1];
      if !(last.outcome.Success? && last.outcome.value.location.name != "") {
        LastNamedIsLastNamedSuccess(p);
        if LastNamed(p).Some? {
          var i :| 0 <= i < |p| && p[i].outcome.Success? &&
            (var loc := p[i].outcome.value.location;
             && loc.name != "" && LastNamed(p).value == (loc.name, loc.country)
             && forall j :: i < j < |p| && p[j].outcome.Success? ==> p[j].outcome.value.location.name == "");
          assert settled[i] == p[i];
          assert forall j :: i < j < n - 1 ==> settled[j] == p[j];
        }
      }
    }
  }

  /** The adapters always name their location ('Unknown' at worst), so the last successful
      call to settle decides the name and country. */
  lemma LastSettledSuccessWins(settled: seq<Settled<Reading>>, o: Options, res: CurrentResponses, now: int, i: nat)
    requires SettlementOfCurrent(settled, o, res, now)
    requires i < |settled| && settled[i].outcome.Success?
    requires forall j :: i < j < |settled| ==> settled[j].outcome.Failure?
    ensures LastNamed(settled) ==
      Some((settled[i].outcome.value.location.name, settled[i].outcome.value.location.country))
  {
    assert settled[i].outcome == CurrentOutcome(settled[i].provider, res, now);
    LastNamedAt(settled, i);
  }

  lemma LastNamedAt(settled: seq<Settled<Reading>>, i: nat)
    requires i < |settled| && settled[i].outcome.Success? && settled[i].outcome.value.location.name != ""
    requires forall j :: i < j < |settled| ==> settled[j].outcome.Failure?
    ensures LastNamed(settled) ==
      Some((settled[i].outcome.value.location.name, settled[i].outcome.value.location.country))
  {
    var p := settled[..i + 1];
    assert settled[i] == p[|p| - 1];
    LastNamedSkipsFailures(settled, i + 1);
  }

  /** Failures settled after position `m` leave the location as it was. */
  lemma {:induction false} LastNamedSkipsFailures(settled: seq<Settled<Reading>>, m: nat)
    requires m <= |settled|
    requires forall j :: m <= j < |settled| ==> settled[j].outcome.Failure?
    ensures LastNamed(settled) == LastNamed(settled[..m])
    decreases |settled|
  {
    if |settled| > m {
      var p := settled[..|settled| - 1];
      assert p[..m] == settled[..m];
      LastNamedSkipsFailures(p, m);
    } else {
      assert settled[..m] == settled;
    }
  }

  /** A forecast fan-in has no location name exactly when no success has a day. */
  lemma {:induction false} NoPlaceIffNoDays(settled: seq<Settled<seq<Reading>>>)
    ensures LastPlaced(settled).None? <==>
      forall i :: 0 <= i < |settled| && settled[i].outcome.Success? ==> |settled[i].outcome.value| == 0
    decreases |settled|
  {
    if |settled| > 0 {
      var p := settled[..|settled| - 1];
      NoPlaceIffNoDays(p);
      assert forall i :: 0 <= i < |p| ==> p[i] == settled[i];
    }
  }

  /** For forecasts the location comes from the first day of the last success with days. */
  lemma {:induction false} LastPlacedIsLastNonEmptySuccess(settled: seq<Settled<seq<Reading>>>)
    ensures LastPlaced(settled).Some? ==>
      exists i :: 0 <= i < |settled| && settled[i].outcome.Success? &&
        (var days := settled[i].outcome.value;
         && |days| > 0 && LastPlaced(settled).value == (days[0].location.name, days[0].location.country)
         && forall j :: i < j < |settled| && settled[j].outcome.Success? ==> |settled[j].outcome.value| == 0)
    decreases |settled|
  {
    if |settled| > 0 {
      var n, last, p := |settled|, settled[|settled| - 1], settled[..|settled| - 1];
      if !(last.outcome.Success? && |last.outcome.value| > 0) {
        LastPlacedIsLastNonEmptySuccess(p);
        if LastPlaced(p).Some? {
          var i :| 0 <= i < |p| && p[i].outcome.Success? &&
            (var days := p[i].outcome.value;
             && |days| > 0 && LastPlaced(p).value == (days[0].location.name, days[0].location.country)
             && forall j :: i < j < |p| && p[j].outcome.Success? ==> |p[j].outcome.value| == 0);
          assert settled[i] == p[i];
          assert forall j :: i < j < n - 1 ==> settled[j] == p[j];
        }
      }
    }
  }

  // ---------------------------------------------------------------------------------------
  // Forecast alignment (`aggregateForecastData`)

  /** The dates of the next `days` days from `today`, as day numbers. */
  function Dates(days: int, today: int): (ds: seq<int>)
    ensures |ds| == if days < 0 then 0 else days
    ensures forall i :: 0 <= i < |ds| ==> ds[i] == today + i
  {
    seq(if days < 0 then 0 else days, i => today + i)
  }

  /** `dates.indexOf(date)`: the first position holding `v`, or -1. */
  function IndexOf(xs: seq<int>, v: int): (k: int)
    ensures -1 <= k < |xs|
    ensures k >= 0 ==> xs[k] == v && v !in xs[..k]
    ensures k == -1 ==> v !in xs
    decreases |xs|
  {
    if |xs| == 0 then -1
    else if xs[0] == v then 0
    else
      var k := IndexOf(xs[1..], v);
      assert k >= 0 ==> xs[..k + 1] == [xs[0]] + xs[1..][..k];
      if k < 0 then -1 else k + 1
  }

  /** The longest of the first `n` sources. */
  function MaxLen(sources: seq<ForecastSource>, n: nat): nat
    requires n <= |sources|
  {
    if n == 0 then 0
    else
      var m, l := MaxLen(sources, n - 1), |sources[n - 1].data|;
      if l > m then l else m
  }

  /** `MaxLen` is the length of the longest of the first `n` sources. */
  lemma {:induction false} MaxLenIsLongest(sources: seq<ForecastSource>, n: nat)
    requires n <= |sources|
    ensures forall s :: 0 <= s < n ==> |sources[s].data| <= MaxLen(sources, n)
    ensures MaxLen(sources, n) > 0 ==> exists s :: 0 <= s < n && |sources[s].data| == MaxLen(sources, n)
  {
    if n > 0 {
      MaxLenIsLongest(sources, n - 1);
    }
  }

  /** Day `i`'s contributions from the first `n` sources: each one long enough supplies its
      entry `i`, in source order. */
  function Contributors(sources: seq<ForecastSource>, n: nat, i: nat): seq<Contribution>
    requires n <= |sources|
  {
    if n == 0 then []
    else
      var s := sources[n - 1];
      Contributors(sources, n - 1, i) + (if i < |s.data| then [Contribution(s.provider, s.data[i])] else [])
  }

  function ForecastsOf(cs: seq<Contribution>): (rs: seq<Reading>)
    ensures |rs| == |cs|
    ensures forall k :: 0 <= k < |cs| ==> rs[k] == cs[k].forecast
  {
    seq(|cs|, k requires 0 <= k < |cs| => cs[k].forecast)
  }

  /** The days kept for `dates`: the dates from the first on, up to the end of `dates` or of
      the longest source, each with the contributions at its position. */
  function Alignment(sources: seq<ForecastSource>, dates: seq<int>): (r: seq<Slot>)
    ensures var n := MaxLen(sources, |sources|); |r| == if |dates| < n then |dates| else n
  {
    var n := MaxLen(sources, |sources|);
    var l := if |dates| < n then |dates| else n;
    seq(l, k requires 0 <= k < l => Slot(dates[k], Contributors(sources, |sources|, k)))
  }

  /** A kept day with its contributions merged. */
  function DayOf(slot: Slot): DayForecast {
    DayForecast(slot.date, slot.sources, Aggregate(ForecastsOf(slot.sources)))
  }

  function DaysOf(slots: seq<Slot>): (ds: seq<DayForecast>)
    ensures |ds| == |slots|
  {
    seq(|slots|, k requires 0 <= k < |slots| => DayOf(slots[k]))
  }

  /** What `aggregateForecastData(sources, days)` returns when the local date is `today`. */
  function DailyOf(sources: seq<ForecastSource>, days: int, today: int): seq<DayForecast> {
    DaysOf(Alignment(sources, Dates(days, today)))
  }

  /** A source contributes to day `i` exactly when it has an entry `i`, and then with that
      entry. */
  lemma {:induction false} ContributorsMembers(sources: seq<ForecastSource>, n: nat, i: nat)
    requires n <= |sources|
    ensures forall c :: c in Contributors(sources, n, i) <==>
      exists s :: 0 <= s < n && i < |sources[s].data| && c == Contribution(sources[s].provider, sources[s].data[i])
  {
    if n > 0 {
      ContributorsMembers(sources, n - 1, i);
      var last := sources[n - 1];
      if i < |last.data| {
        assert Contribution(last.provider, last.data[i]) in Contributors(sources, n, i);
      }
    }
  }

  /** A day has contributions exactly when it is before the longest source's end. */
  lemma {:induction false} ContributorsNonEmpty(sources: seq<ForecastSource>, n: nat, i: nat)
    requires n <= |sources|
    ensures |Contributors(sources, n, i)| > 0 <==> i < MaxLen(sources, n)
  {
    if n > 0 {
      ContributorsNonEmpty(sources, n - 1, i);
    }
  }

  /** Contributions keep the sources' order: a source settled earlier contributes earlier. */
  lemma {:induction false} ContributorsInSourceOrder(sources: seq<ForecastSource>, s: nat, n: nat, i: nat)
    requires s <= n <= |sources|
    ensures Contributors(sources, s, i) <= Contributors(sources, n, i)
  {
    if s < n {
      ContributorsInSourceOrder(sources, s, n - 1, i);
    }
  }

  /** One more date keeps the days so far and adds that date exactly when some source
      contributes to it: the step of the date loop. */
  lemma AlignmentStep(sources: seq<ForecastSource>, dates: seq<int>, j: nat)
    requires j < |dates|
    ensures var cs := Contributors(sources, |sources|, j);
      Alignment(sources, dates[..j + 1])
      == Alignment(sources, dates[..j]) + (if |cs| > 0 then [Slot(dates[j], cs)] else [])
  {
    var cs := Contributors(sources, |sources|, j);
    var prev, next := Alignment(sources, dates[..j]), Alignment(sources, dates[..j + 1]);
    ContributorsNonEmpty(sources, |sources|, j);
    if |cs| > 0 {
      assert |next| == |prev| + 1;
      forall k | 0 <= k < |next|
        ensures next[k] == (prev + [Slot(dates[j], cs)])[k]
      {
        if k < |prev| {
          assert next[k] == prev[k];
        }
      }
    } else {
      forall k | 0 <= k < |next|
        ensures next[k] == prev[k]
      {
      }
    }
  }

  /** The daily list has `min(days, longest source)` entries (none for a non-positive
      `days`); entry k is day `today + k` with the k-th entry of every source long enough, and
      their merge, which is never null. */
  lemma DailyOfShape(sources: seq<ForecastSource>, days: int, today: int)
    ensures var r, n, l := DailyOf(sources, days, today), (if days < 0 then 0 else days), MaxLen(sources, |sources|);
      && |r| == (if n < l then n else l)
      && forall k :: 0 <= k < |r| ==>
           && r[k].date == today + k
           && r[k].sources == Contributors(sources, |sources|, k)
           && |r[k].sources| > 0
           && r[k].aggregated == Aggregate(ForecastsOf(r[k].sources))
           && r[k].aggregated.Some?
  {
    var r := DailyOf(sources, days, today);
    forall k | 0 <= k < |r|
      ensures |r[k].sources| > 0 && r[k].aggregated.Some?
    {
      ContributorsNonEmpty(sources, |sources|, k);
    }
  }

  /** A single source is passed through day by day: each day is that source's entry alone,
      unmerged. */
  lemma SingleSourceForecast(source: ForecastSource, days: int, today: int)
    ensures |DailyOf([source], days, today)| <= |source.data|
    ensures var r := DailyOf([source], days, today);
      forall k :: 0 <= k < |r| ==> r[k].aggregated == Some(Single(source.data[k].current))
  {
    var sources := [source];
    DailyOfShape(sources, days, today);
    forall k | 0 <= k < |DailyOf(sources, days, today)|
      ensures DailyOf(sources, days, today)[k].aggregated == Some(Single(source.data[k].current))
    {
      assert Contributors(sources, 1, k) == [Contribution(source.provider, source.data[k])];
    }
  }

  /** The date loop of `aggregateForecastData`. */
  method NextDates(days: int, today: int) returns (dates: seq<int>)
    ensures dates == Dates(days, today)
  {
    dates := [];
    var i := 0;
    while i < days
      invariant 0 <= i && (i <= days || i == 0)
      invariant |dates| == i
      invariant forall k :: 0 <= k < i ==> dates[k] == today + k
    {
      dates := dates + [today + i];
      i := i + 1;
    }
  }

  /** The inner loop of `aggregateForecastData`: each source with an entry at `index`
      contributes it, in source order. */
  method GatherDay(sources: seq<ForecastSource>, index: nat) returns (daySources: seq<Contribution>)
    ensures daySources == Contributors(sources, |sources|, index)
  {
    daySources := [];
    for s := 0 to |sources|
      invariant daySources == Contributors(sources, s, index)
    {
      if index < |sources[s].data| {
        daySources := daySources + [Contribution(sources[s].provider, sources[s].data[index])];
      }
    }
  }

  /** `aggregateForecastData`: for each date, collect the sources' entries at the date's
      position in `dates`, and keep the date only when some source contributed. */
  method AggregateForecastData(sources: seq<ForecastSource>, days: int, today: int)
    returns (dailyForecasts: seq<DayForecast>)
    ensures dailyForecasts == DailyOf(sources, days, today)
  {
    var dates := NextDates(days, today);
    dailyForecasts := [];
    for j := 0 to |dates|
      invariant dailyForecasts == DaysOf(Alignment(sources, dates[..j]))
    {
      var date := dates[j];
      var index := IndexOf(dates, date);
      assert index == j;
      var daySources := GatherDay(sources, index);
      AlignmentStep(sources, dates, j);
      if |daySources| > 0 {
        var forecasts := ForecastsOf(daySources);
        var aggregated := AggregateWeatherData(forecasts);
        ghost var slots := Alignment(sources, dates[..j]);
        assert DaysOf(slots + [Slot(date, daySources)]) == DaysOf(slots) + [DayOf(Slot(date, daySources))];
        dailyForecasts := dailyForecasts + [DayForecast(date, daySources, aggregated)];
      }
    }
    assert dates[..|dates|] == dates;
  }

  // ---------------------------------------------------------------------------------------
  // The fetch functions

  /** `getCurrentWeather` after `Promise.allSettled`: the successes in settlement order, the
      location of the last one with a name, and the merge; an error when nothing succeeded.
      `now` stands for the clock. */
  method GetCurrentWeather(lat: real, lon: real, settled: seq<Settled<Reading>>, now: int)
    returns (r: Result<CurrentReport, JsError>)
    ensures r.Failure? <==> forall i :: 0 <= i < |settled| ==> settled[i].outcome.Failure?
    ensures r.Failure? ==> r.error == PlainError(NoCurrentData)
    ensures r.Success? ==>
      && r.value.sources == Successes(settled)
      && r.value.location == Place(lat, lon, LastNamed(settled))
      && r.value.timestamp == now
      && Some(r.value.aggregated) == Aggregate(Successes(settled))
  {
    var sources: seq<Reading> := [];
    var named: Option<(string, string)> := None;
    for i := 0 to |settled|
      invariant sources == Successes(settled[..i])
      invariant named == LastNamed(settled[..i])
    {
      assert settled[..i + 1][..i] == settled[..i];
      match settled[i].outcome
      case Success(data) =>
        sources := sources + [data];
        if data.location.name != "" {
          named := Some((data.location.name, data.location.country));
        }
      case Failure(_) =>
    }
    assert settled[..|settled|] == settled;
    NoSuccessesIffAllFailed(settled);
    if |sources| == 0 {
      return Failure(PlainError(NoCurrentData));
    }
    var aggregated := AggregateWeatherData(sources);
    r := Success(CurrentReport(sources, Place(lat, lon, named), now, aggregated.value));
  }

  /** The forecast sources a fan-in collects: each success tagged with its adapter. */
  function SourcesOf(settled: seq<Settled<seq<Reading>>>): (ss: seq<ForecastSource>)
    ensures |ss| == |Successes(settled)|
    ensures forall k :: 0 <= k < |ss| ==> ss[k].data == Successes(settled)[k]
    ensures forall k :: 0 <= k < |ss| ==> ss[k].provider == settled[SuccessIndices(settled)[k]].provider
    decreases |settled|
  {
    if |settled| == 0 then []
    else
      var last := settled[|settled| - 1];
      SourcesOf(settled[..|settled| - 1])
      + (if last.outcome.Success? then [ForecastSource(last.provider, last.outcome.value)] else [])
  }

  /** `getForecast` after `Promise.allSettled`: the sources in settlement order, the location
      from the last non-empty one, and the days aligned; an error when nothing succeeded. */
  method GetForecast(lat: real, lon: real, days: int, settled: seq<Settled<seq<Reading>>>, today: int, now: int)
    returns (r: Result<ForecastReport, JsError>)
    ensures r.Failure? <==> forall i :: 0 <= i < |settled| ==> settled[i].outcome.Failure?
    ensures r.Failure? ==> r.error == PlainError(NoForecastData)
    ensures r.Success? ==>
      && r.value.sources == SourcesOf(settled)
      && r.value.location == Place(lat, lon, LastPlaced(settled))
      && r.value.timestamp == now
      && r.value.daily == DailyOf(SourcesOf(settled), days, today)
  {
    var sources: seq<ForecastSource> := [];
    var placed: Option<(string, string)> := None;
    for i := 0 to |settled|
      invariant sources == SourcesOf(settled[..i])
      invariant placed == LastPlaced(settled[..i])
    {
      assert settled[..i + 1][..i] == settled[..i];
      match settled[i].outcome
      case Success(data) =>
        sources := sources + [ForecastSource(settled[i].provider, data)];
        if |data| > 0 {
          placed := Some((data[0].location.name, data[0].location.country));
        }
      case Failure(_) =>
    }
    assert settled[..|settled|] == settled;
    NoSuccessesIffAllFailed(settled);
    if |sources| == 0 {
      return Failure(PlainError(NoForecastData));
    }
    var daily := AggregateForecastData(sources, days, today);
    r := Success(ForecastReport(sources, daily, Place(lat, lon, placed), now));
  }
}
