# Weather data aggregator — a verified Dafny model

The weather data aggregator is an HTTP service. It asks up to three weather providers, in parallel,
for the same place: OpenWeather, WeatherAPI and Weatherbit.
- Each provider's payload is turned into one common reading: provider, timestamp, location, and
  current conditions (temperature, humidity, wind, description, icon and so on).
- The readings are merged. The six measurements (temperature, feels-like, humidity, pressure,
  wind speed and wind direction) become the mean of the providers, rounded to two decimals. The
  other numeric fields (clouds, UV index, visibility, rain, snow, aqi, is_day) are dropped. The description and the condition are decided by a plurality vote over lower-cased labels.
- For forecasts, each provider's daily list is aligned with the others by day offset, and
  each day is merged the same way.
- Responses are kept in a time-limited cache keyed by the request URL.
- Thrown errors are turned into HTTP error replies by one classification chain.

This project models that core and proves what each step promises. It has these modules:

- `Wrappers`, `Sequences`, `Strings`, `Rounding`: the option and result types, sequence
  helpers, substring search, and rounding to two decimals. `toFixed(2)` rounds halves away from zero.
- `Weather`: the common reading and the shape of thrown errors. An error has the message, the
  code, and the HTTP response when there was one.
- `DataTransformer`: the three payload transformers.
- `OpenWeather`, `WeatherApi`, `WeatherBit`: the three provider adapters. The model covers the
  request parameters, the clamping of day counts, the empty-data checks, the re-shaping of each
  forecast, the grouping of OpenWeather's 3-hour steps into days with the entry nearest noon, and
  the error messages.
- `Merge`: `aggregateWeatherData` and `findMostCommon`.
- `Aggregator`: the provider allowlist, the fan-in of settled outcomes, the "no data" failures, the
  location taken from the sources, and the forecast alignment `aggregateForecastData`.
  The alignment keeps a date when some source has an entry at its position. Every source's
  list starts at the first date, so the kept dates are the first min(days, longest list) dates,
  with no gaps. `Alignment` states that closed form; `AlignmentStep` and the loop of
  `AggregateForecastData` tie it to the date-by-date filter.
- `Cache`: the response cache as a class over a map of entries with expiry times, with hit
  and miss counters, the middleware, invalidation and statistics.
- `ErrorHandler`: the chain that maps an error to a status, a message and optional details.

Provider requests are not performed. Each adapter gets what its HTTP call produced as a parameter:
the payload, or the thrown error. The aggregator gets the settled outcomes in settlement order.
The clock is a parameter (`now`, `today`).

Three behaviours of the code worth noting:
- A provider that leaves one of the six averaged fields out adds 0 to that field's sum. The sum is still divided
  by the number of sources (`|| 0` in services/aggregator.js:265-270). Missing fields are not
  skipped.
- The merged location name comes from the provider whose success settled LAST: each success
  overwrites it (services/aggregator.js:34-37 and the copies). It is not the first success.
- The requested units reach only the OpenWeather adapter (services/aggregator.js:30, 43, 56).

## Model

| member | source | states |
|---|---|---|
| Rounding.Round2 | services/aggregator.js:283 | `toFixed(2)` yields a whole number of hundredths |
| Rounding.Round2Error | services/aggregator.js:283 | rounding a mean to two decimals moves it by at most 0.005 |
| Rounding.Round2Hundredths | services/aggregator.js:283 | a value that already has two decimals is unchanged by rounding |
| Rounding.Round2Odd | services/aggregator.js:283 | rounding is symmetric about zero: halves go away from zero |
| Weather.ApiErrorMessage | services/weatherProviders/openWeather.js:35 | an adapter's error message is `<prefix> (`, then the status in decimal, then `): ` and the detail text |
| Weather.ApiErrorMessageReadsBack | services/weatherProviders/openWeather.js:35 | messages with the same prefix are equal only for the same status and detail: both can be read back |
| Strings.IntToStringInjective | services/weatherProviders/openWeather.js:35 | distinct statuses are written differently in `${status}` |
| Weather.PlainError | services/aggregator.js:72 | `new Error(m)` has message m, no code and no response |
| DataTransformer.EpochOrNow | utils/dataTransformer.js:51-53 | a present, non-zero epoch is the timestamp; a missing or zero one (falsy in JavaScript) falls back to now |
| DataTransformer.TransformOpenWeather | utils/dataTransformer.js:11-38 | provider openweather and timestamp dt; name defaults to "Unknown" and country to ""; coordinates, temperatures, humidity, pressure, wind, clouds and visibility copied; conditions from the first `weather` entry, or none; uv, rain and snow are the payload's or 0; no aqi, no is_day |
| DataTransformer.TransformWeatherApi | utils/dataTransformer.js:45-78 | provider weatherapi; the last update's time when truthy, else now; name defaults to "Unknown" and country to "", coordinates and region copied; the measurements, uv and visibility copied; the condition text is both description and condition; rain is precip_mm or 0; no snow; is_day true exactly when the payload's is_day is 1 |
| DataTransformer.KmhOfMetresPerSecond | utils/dataTransformer.js:104 | the wind speed is the m/s value times 3.6, and is missing exactly when the input is |
| DataTransformer.TransformWeatherBit | utils/dataTransformer.js:85-117 | provider weatherbit, read from the first observation; its time when truthy, else now; name defaults to "Unknown" and country to "", coordinates and state copied; the measurements, uv, visibility and aqi copied; wind in km/h; the description is also the condition; rain and snow are the observation's or 0 |
| OpenWeather.CurrentQuery | services/weatherProviders/openWeather.js:14-22 | units default to "metric" |
| OpenWeather.ForecastQuery | services/weatherProviders/openWeather.js:50-58 | units default to "metric"; the day count is not sent |
| OpenWeather.Catch | services/weatherProviders/openWeather.js:27-38 | an error without a response is rethrown unchanged; one with a response becomes a plain error `<prefix> (<status>): <detail>`, the detail being the body's message or, when that is missing or empty, the error's own |
| OpenWeather.GetCurrentWeather | services/weatherProviders/openWeather.js:14-40 | succeeds exactly when a payload arrived, with the transformed reading; otherwise the error shaped with "OpenWeather API error" |
| OpenWeather.UtcDay | services/weatherProviders/openWeather.js:68 | the UTC day of an epoch: day*86400 <= dt < (day+1)*86400 |
| OpenWeather.OnDayDated | services/weatherProviders/openWeather.js:64-75 | every reading grouped under a day has its timestamp on that UTC day |
| OpenWeather.OnDayNonEmpty | services/weatherProviders/openWeather.js:66-75 | a day's group is non-empty exactly when some item falls on that day |
| OpenWeather.OnDayMembers | services/weatherProviders/openWeather.js:64-75 | every item falling on a day is in that day's group |
| OpenWeather.GroupsStep | services/weatherProviders/openWeather.js:66-75 | one forEach step appends the item to its day's group, creating the group when the day is new, and leaves the other groups alone |
| OpenWeather.KeysStep | services/weatherProviders/openWeather.js:70-72 | one forEach step adds the item's day to the keys, at the end, exactly when the day has no group yet |
| OpenWeather.GroupByDay | services/weatherProviders/openWeather.js:64-75 | the grouping loop produces the days in first-seen order and each day's readings in list order |
| OpenWeather.KeptDays | services/weatherProviders/openWeather.js:78 | the kept days are a prefix of the days in first-seen order |
| OpenWeather.SliceEnd | services/weatherProviders/openWeather.js:78 | `slice(0, days)`: a non-negative count keeps min(days, n); a negative count drops that many from the end |
| OpenWeather.Representative | services/weatherProviders/openWeather.js:85-101 | the day's representative is one of its readings, dated by the day, and at least as near noon as every reading of the day |
| OpenWeather.ForecastResult | services/weatherProviders/openWeather.js:50-115 | succeeds exactly when a response arrived |
| OpenWeather.ClosestIndexIsNearest | services/weatherProviders/openWeather.js:85-96 | the chosen entry is at least as near noon as every entry of its day, and strictly nearer than every earlier one (the first of equal distances wins) |
| OpenWeather.ClosestToNoon | services/weatherProviders/openWeather.js:79-96 | the loop selects that nearest-to-noon entry |
| OpenWeather.DailyForecastShape | services/weatherProviders/openWeather.js:78-102 | entry j of the daily forecast carries the j-th kept date, lies on that UTC day, belongs to that day's group and is nearest noon within it |
| OpenWeather.DailyForecastLength | services/weatherProviders/openWeather.js:78 | a forecast for days >= 0 has min(days, distinct days) entries |
| OpenWeather.DailyFromList | services/weatherProviders/openWeather.js:64-104 | the grouping loop and the per-day selection produce exactly the daily forecast |
| OpenWeather.GetForecast | services/weatherProviders/openWeather.js:50-117 | succeeds exactly when a payload arrived, with the daily forecast; otherwise the error shaped with "OpenWeather forecast API error" |
| WeatherApi.ClampDays | services/weatherProviders/weatherApi.js:49 | the day count is clamped into 1..10 and left alone inside that range |
| WeatherApi.ForecastQuery | services/weatherProviders/weatherApi.js:46-58 | the days sent are the given count (5 when none) clamped to 1..10, with aqi and alerts "no" |
| WeatherApi.ErrorDetail | services/weatherProviders/weatherApi.js:30 | a non-empty `error.message` of the body is the detail; in every other case the error's own message is |
| WeatherApi.Catch | services/weatherProviders/weatherApi.js:24-36 | rethrows an error without a response unchanged; one with a response becomes `<prefix> (<status>): <ErrorDetail>` |
| WeatherApi.GetCurrentWeather | services/weatherProviders/weatherApi.js:13-37 | succeeds exactly when a payload arrived, with the transformed reading; otherwise "WeatherAPI error" |
| WeatherApi.ForecastDays | services/weatherProviders/weatherApi.js:63-83 | one reading per forecast day, in order: entry i is the transformer applied to day i's payload, dated by the day; so the shared location and a timestamp at that day's UTC midnight (now for the epoch-0 day) |
| WeatherApi.DayPayload | services/weatherProviders/weatherApi.js:65-74 | the payload built for a day keeps the response's location and is the day's block with `last_updated_epoch` set to its midnight |
| WeatherApi.ForecastDayReadsDay | services/weatherProviders/weatherApi.js:65-77 | a forecast reading's measurements, condition, description and icon are the day's own |
| WeatherApi.GetForecast | services/weatherProviders/weatherApi.js:46-98 | succeeds exactly when a payload arrived, with those readings; otherwise "WeatherAPI forecast error" |
| WeatherBit.ClampDays | services/weatherProviders/weatherBit.js:58 | the day count is clamped into 1..16 and left alone inside that range |
| WeatherBit.CurrentQuery | services/weatherProviders/weatherBit.js:14-22 | units default to "M"; no day count |
| WeatherBit.ForecastQuery | services/weatherProviders/weatherBit.js:55-67 | units default to "M"; days default to 5, then clamped |
| WeatherBit.ErrorDetail | services/weatherProviders/weatherBit.js:38 | a non-empty text `error` of the body is the detail; a missing or empty one falls back to the error's message; an object-valued one interpolates as "[object Object]" |
| WeatherBit.Catch | services/weatherProviders/weatherBit.js:32-44 | rethrows an error without a response unchanged; one with a response becomes `<prefix> (<status>): <ErrorDetail>` |
| WeatherBit.GetCurrentWeather | services/weatherProviders/weatherBit.js:14-45 | succeeds exactly when a payload with at least one observation arrived; an empty one fails with "No weather data returned from Weatherbit" |
| WeatherBit.DayEnvelope | services/weatherProviders/weatherBit.js:78-84 | each day is wrapped as a one-observation payload with the response's city and country, the request's lat/lon and no state |
| WeatherBit.ForecastDays | services/weatherProviders/weatherBit.js:76-93 | one reading per day, in order: entry i is the transformer applied to day i's envelope, dated by valid_date; so the request's lat/lon, no state, the city's name and country, and wind in km/h |
| WeatherBit.GetForecast | services/weatherProviders/weatherBit.js:55-108 | succeeds exactly when a payload with at least one day arrived; an empty one fails with "No forecast data returned from Weatherbit" |
| Merge.SumAndCount | services/aggregator.js:261-278 | the forEach over the sources accumulates exactly each field's sum (missing as 0) and the lists of lower-cased labels |
| Merge.MissingCountsAsZero | services/aggregator.js:265-270 | a source that lacks a field contributes the same as one reporting 0 |
| Merge.SumPermutation | services/aggregator.js:265-270 | in exact arithmetic, a field's sum does not depend on the order of the sources |
| Merge.MeanIndependentOfOrder | services/aggregator.js:281-285 | in exact arithmetic, the merged mean does not depend on the order in which the providers settled |
| Merge.MeanOfAgreeing | services/aggregator.js:281-285 | when every source reports the same two-decimal value, the merged value is that value |
| Merge.MeanWithinRange | services/aggregator.js:281-285 | when all sources lie in [lo, hi], the merged value lies in [lo - 0.005, hi + 0.005] |
| Strings.ToLower | services/aggregator.js:273-274 | a string of the same length with each character lower-cased |
| Merge.Label | services/aggregator.js:273-276 | a source votes only with a non-empty label |
| Merge.LabelsComeFromSources | services/aggregator.js:273-277 | every label counted comes from some source's non-empty description or condition |
| Merge.IncrementCountsOf | services/aggregator.js:276-277 | one `(count || 0) + 1` step matches counting the extended list |
| Merge.TallyOfCounts | services/aggregator.js:273-277 | the tally built label by label holds, for each label, the number of its occurrences, with keys in first-seen order |
| Merge.LeaderIndexIsFirstMax | services/aggregator.js:308-313 | the winner has the highest count, and strictly more than every key before it |
| Merge.FindMostCommon | services/aggregator.js:304-316 | the loop returns no label exactly when every count is 0; otherwise a key with the maximum count, with the first seen winning ties |
| Merge.PluralityIsFirstSeenMax | services/aggregator.js:273-289 | the vote is empty exactly when there are no labels; otherwise it occurs most often, and no label seen earlier occurs as often |
| Merge.AggregateMerged | services/aggregator.js:249-296 | for two or more sources, each of the six measurements is the rounded mean, the description and condition are the votes, and the icon is the first source's |
| Merge.AggregateWeatherData | services/aggregator.js:242-296 | no sources give null; one source gives its current conditions unchanged; more give the merged record with the first source's icon |
| Aggregator.Allowlist | services/aggregator.js:16 | without a provider list, all three providers are allowed |
| Aggregator.Called | services/aggregator.js:29-66 | a provider is called exactly when its name is in the allowlist |
| Aggregator.DefaultCallsAll | services/aggregator.js:16 | by default OpenWeather, WeatherAPI and Weatherbit are called, in that order |
| Aggregator.UnknownNamesIgnored | services/aggregator.js:29-55 | adding a name that is not a provider changes nothing |
| Aggregator.CurrentCalls | services/aggregator.js:29-56 | one call per allowed adapter, in order; every call gets the request's lat/lon and no day count; only OpenWeather gets the units |
| Aggregator.ForecastCalls | services/aggregator.js:108-145 | one call per allowed adapter, in order; every call gets the request's lat/lon and the day count; only OpenWeather gets the units |
| Aggregator.ForecastOutcome | services/aggregator.js:108-145 | each adapter's forecast succeeds exactly when its response arrived (Weatherbit also needs a non-empty list); the WeatherAPI and Weatherbit days carry their provider, and Weatherbit's carry the request's lat/lon |
| Aggregator.CurrentOutcome | services/aggregator.js:30-65 | a successful outcome is the named provider's reading, with a non-empty location name |
| Aggregator.NoSuccessesIffAllFailed | services/aggregator.js:69-73 | there are no sources exactly when every settled outcome failed |
| Aggregator.SuccessesMembers | services/aggregator.js:31-32 | the sources are exactly the successful outcomes' values |
| Aggregator.SettledAreCalled | services/aggregator.js:68-69 | the settled outcomes are those of exactly the called providers |
| Aggregator.NoCurrentDataIffEveryCalledAdapterFailed | services/aggregator.js:26-73 | "No weather data available" is thrown exactly when every called adapter failed |
| Aggregator.NoForecastDataIffEveryCalledAdapterFailed | services/aggregator.js:105-167 | "No forecast data available" is thrown exactly when every called adapter failed |
| Aggregator.NoNameIffNoNamedSuccess | services/aggregator.js:34-37 | the location has no name and country exactly when no settled success has a name |
| Aggregator.LastNamedIsLastNamedSuccess | services/aggregator.js:34-37 | a location name and country are those of the last settled success with a name |
| Aggregator.LastSettledSuccessWins | services/aggregator.js:34-37 | when outcome i is the last success, its reading supplies the location |
| Aggregator.LastNamedSkipsFailures | services/aggregator.js:39 | failures settling after the last success do not change the location |
| Aggregator.NoPlaceIffNoDays | services/aggregator.js:117-120 | a forecast location has no name and country exactly when no settled success has a day |
| Aggregator.LastPlacedIsLastNonEmptySuccess | services/aggregator.js:117-120 | for forecasts the location comes from the first day of the last settled success with at least one day |
| Aggregator.Dates | services/aggregator.js:188-198 | max(days, 0) consecutive dates starting today |
| Aggregator.NextDates | services/aggregator.js:188-198 | the date loop produces exactly those dates |
| Aggregator.IndexOf | services/aggregator.js:216 | the first index holding the value, or -1 when it is absent |
| Aggregator.MaxLenIsLongest | services/aggregator.js:217 | the longest-source length bounds every source and is reached by one when positive |
| Aggregator.ContributorsMembers | services/aggregator.js:209-223 | a source contributes to day i exactly when it has more than i days, and it contributes its i-th day |
| Aggregator.ContributorsNonEmpty | services/aggregator.js:217-226 | day i has contributors exactly when some source has more than i days |
| Aggregator.ContributorsInSourceOrder | services/aggregator.js:209-223 | contributors are listed in the order of the sources |
| Aggregator.Alignment | services/aggregator.js:201-232 | the kept days are as many as the shorter of the dates and the longest source |
| Aggregator.AlignmentStep | services/aggregator.js:225-231 | one more date keeps the days so far and appends that date exactly when some source contributes to it, so the gapless prefix is what the date filter keeps |
| Aggregator.DailyOfShape | services/aggregator.js:184-235 | the daily forecast has min(max(days,0), longest source) entries; entry k is dated today+k, lists its (non-empty) contributors, and carries their merged forecast, which is never null |
| Aggregator.SingleSourceForecast | services/aggregator.js:226-230 | with one source, each day's aggregate is that source's day unchanged |
| Aggregator.GatherDay | services/aggregator.js:209-223 | the per-source loop collects exactly that day's contributions, in source order |
| Aggregator.AggregateForecastData | services/aggregator.js:184-235 | the alignment loop produces exactly the daily forecast |
| Aggregator.SourcesOf | services/aggregator.js:109-150 | one forecast source per successful adapter, in settlement order: source k holds the k-th success's data and the provider of the call that produced it |
| Aggregator.SuccessIndices | services/aggregator.js:109-150 | the positions of the fulfilled calls, increasing; each holds the matching success and every fulfilled call is listed |
| Aggregator.GetCurrentWeather | services/aggregator.js:13-82 | fails with "No weather data available from any provider" exactly when all outcomes failed; otherwise the sources, the request's lat/lon with the last name, the time, and the merged reading |
| Aggregator.GetForecast | services/aggregator.js:92-176 | fails with "No forecast data available from any provider" exactly when all outcomes failed; otherwise the sources, the location and the aligned daily forecast |
| Cache.CheckPeriod | middleware/cache.js:8 | the sweep period is a fifth of the TTL |
| Cache.ExpiryOf | middleware/cache.js:6-7 | a TTL of 0 never expires; otherwise the entry expires ttl seconds after now |
| Cache.Unexpired | middleware/cache.js:8 | a sweep keeps exactly the unexpired entries, unchanged |
| Cache.HitRate | middleware/cache.js:64 | hits over lookups, 0 without traffic, always within [0, 1] |
| Cache.ServedUntilExpiry | middleware/cache.js:6-8 | a stored value is found until its TTL runs out and not after |
| Cache.SweepPreservesLookups | middleware/cache.js:8 | a sweep never changes what a later lookup finds |
| Cache.ResponseCache.constructor | middleware/cache.js:6-10 | starts empty with zero counters and the configured TTL |
| Cache.ResponseCache.Get | middleware/cache.js:22 | returns the unexpired value and counts a hit, or counts a miss and drops the key |
| Cache.ResponseCache.Set | middleware/cache.js:34 | stores the value with the standard TTL |
| Cache.ResponseCache.Del | middleware/cache.js:49 | removes exactly that key |
| Cache.ResponseCache.FlushAll | middleware/cache.js:53 | empties the cache and resets the counters |
| Cache.ResponseCache.Sweep | middleware/cache.js:8 | the periodic check leaves exactly the unexpired entries |
| Cache.ResponseCache.Middleware | middleware/cache.js:17-39 | serves a cached value with 200, or proceeds with the URL as key |
| Cache.ResponseCache.Complete | routes/weather.js:39-47 | only a successful response is stored under its key; an error leaves the cache unchanged |
| Cache.ResponseCache.InvalidateCache | middleware/cache.js:45-55 | a non-empty key deletes that key; no key or an empty one flushes everything |
| Cache.ResponseCache.GetCacheStats | middleware/cache.js:58-66 | reports the keys, the counters and the hit rate |
| ErrorHandler.Rule | utils/errorHandler.js:23-48 | the first matching branch: each branch applies exactly when its test holds and no earlier test does; the default exactly when no test holds |
| ErrorHandler.Classify | utils/errorHandler.js:18-48 | each branch's status, message and details, with 500 "Server error" when none match |
| ErrorHandler.ServerErrorIffNoRuleMatches | utils/errorHandler.js:18-48 | the reply is 500 "Server error" exactly when there is no response, none of the three phrases and none of the three codes |
| ErrorHandler.Respond | utils/errorHandler.js:50-63 | the reply's status, message, path and time; details only outside production and only when present |
| ErrorHandler.StatusClasses | utils/errorHandler.js:18-48 | every status produced is the upstream one, or 400, 404, 500, 503 or 504 |
| ErrorHandler.ResponseRuleFirst | utils/errorHandler.js:23-30 | with a response, the message's text does not affect status or details |
| ErrorHandler.MissingParametersRule | utils/errorHandler.js:34-36 | "Missing required parameters" without a response or the 404 phrase is a 400 with the message kept |
| ErrorHandler.NoDataRule | utils/errorHandler.js:37-41 | a "no data" error without a response or an earlier match is a 503 with its message as cause |
| ErrorHandler.TimeoutRule | utils/errorHandler.js:42-44 | code ECONNABORTED, without a response or a phrase, is a 504 "Request to weather provider timed out" |
| ErrorHandler.UnreachableRule | utils/errorHandler.js:45-47 | code ENOTFOUND or ECONNREFUSED, without a response or a phrase, is a 503 "Weather provider service unavailable" |
| ErrorHandler.NoCurrentDataIsUnavailable | utils/errorHandler.js:37-41 | the aggregator's current-weather failure becomes 503 "Weather data services unavailable" |
| ErrorHandler.NoForecastDataIsUnavailable | utils/errorHandler.js:37-41 | the aggregator's forecast failure becomes 503 "Weather data services unavailable" |
| ErrorHandler.NotFoundAnywhere | utils/errorHandler.js:31-33 | "No locations found" anywhere in a message without a response gives 404 |

## Left out

- HTTP I/O: the axios calls, API keys, base URLs and 5-second timeouts are not modelled. Each adapter receives the payload or the thrown error as a parameter.
- Concurrency: `Promise.allSettled` is modelled as the outcomes in settlement order. Any order is allowed, as long as it holds the called providers.
- Dates and times: ISO strings are not modelled. Dates are day numbers and timestamps are epoch seconds. `setDate` in local time is modelled as today plus i, so the model's dates are always distinct and the alignment uses day offset i for date i. The code formats a local-time date as a UTC date. Near a daylight-saving change two offsets can then give the same date. In Europe/London, from 2024-03-30 00:30 GMT, the dates are 03-30, 03-31, 03-31, 04-01 and so on. `dates.indexOf(date)` then gives day 2 the index 1, so the code repeats each source's second day and never uses its third. The model does not capture this; time zones are out of scope.
- Floating point: numbers are exact reals and `toFixed(2)` is modelled as rounding halves away from zero. IEEE effects are not modelled. A NaN (for example `undefined * 3.6`) is a missing value.
- Express: routes, the query parsing, the rate limiter, config loading, geolocation and the server itself are not modelled. Only caching on success (routes/weather.js) is kept.
- Console logging is not modelled.
- Cache timers are not modelled: node-cache's periodic check is the explicit `Sweep`, clones are not modelled, and the stats object omits ksize/vsize.
- Cache.ResponseCache.GetCacheStats: `cache.keys()` is an array in insertion order, but the model reports the keys as a set, so their order is not modelled. The nested `stats: cache.getStats()` object is not modelled either; the top-level `hits`, `misses` and `hitRate` are. A stored response is assumed truthy, since responses are objects.
- Missing payload members: the JavaScript TypeErrors they cause (`data.current` undefined, no forecastday) are not modelled. Payload members are present records.
- WeatherApi.ForecastDays: `day.date` is taken to be a parseable date, given as its day number. The fields spread from `day.day` are taken under the names the transformer reads.
- WeatherBit.GetCurrentWeather and WeatherBit.GetForecast: a missing `data` array is modelled as an empty one; both throw the same error.
- Merge.TallyOfCounts: labels that collide with object-prototype names such as `constructor` are not modelled, nor is JavaScript's reordering of integer-like keys.
- Strings.ToLower: only ASCII letters are lower-cased, while `toLowerCase()` folds all of Unicode ("É" becomes "é"). So Merge.Plurality counts labels that differ only in non-ASCII case as different labels, where findMostCommon counts them as one. Unicode case tables are out of scope.
- DataTransformer.KmhOfMetresPerSecond: a JSON `null` and an absent member are both None. In JavaScript, `null * 3.6` is 0 while `undefined * 3.6` is NaN, so for a `null` wind speed the model gives None where the code gives 0. The payload types do not tell null from absent.
- OpenWeather.DailyForecastShape: OpenWeather sets `.date` on a reading that is shared with its group. That aliasing is not modelled, because each day picks from its own group.
