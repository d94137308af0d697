/** The error-handling middleware (utils/errorHandler.js): one ordered chain of rules picks the
    status, message and details for an error, and the reply body carries them with the request
    path. `now` stands for the clock and `production` for `NODE_ENV === 'production'`. */
module ErrorHandler {
  import opened Wrappers
  import opened Strings
  import opened Weather
  import Aggregator

  const ExternalPrefix := "External API error: "

  /** `details`: where an upstream error came from, or the cause of a no-data error. */
  datatype Details =
    | UpstreamDetails(provider: string, response: ErrorBody)
    | CauseDetails(cause: string)

  /** The outcome of the rule chain. */
  datatype Classified = Classified(status: int, message: string, details: Option<Details>)

  /** The JSON body sent. */
  datatype ErrorReply = ErrorReply(status: int, error: string, timestamp: int, path: string, details: Option<Details>)

  /** The phrase tests of rules 2 to 4, on the message. */
  predicate NotFoundPhrase(err: JsError) {
    Contains(err.message, "No locations found")
  }

  predicate MissingParametersPhrase(err: JsError) {
    Contains(err.message, "Missing required parameters")
  }

  predicate NoDataPhrase(err: JsError) {
    Contains(err.message, "No weather data available") || Contains(err.message, "No forecast data available")
  }

  /** The code tests of rules 5 and 6. */
  predicate TimeoutCode(err: JsError) {
    err.code == Some("ECONNABORTED")
  }

  predicate UnreachableCode(err: JsError) {
    err.code == Some("ENOTFOUND") || err.code == Some("ECONNREFUSED")
  }

  /** Which rule of the chain matches first (1 to 7, 7 being the default): rule k applies
      exactly when its test holds and the tests of rules 1 to k-1 do not. */
  function Rule(err: JsError): (n: nat)
    ensures 1 <= n <= 7
    ensures n == 1 <==> err.response.Some?
    ensures n == 2 <==> err.response.None? && NotFoundPhrase(err)
    ensures n == 3 <==> err.response.None? && !NotFoundPhrase(err) && MissingParametersPhrase(err)
    ensures n == 4 <==>
      err.response.None? && !NotFoundPhrase(err) && !MissingParametersPhrase(err) && NoDataPhrase(err)
    ensures n == 5 <==>
      && err.response.None? && !NotFoundPhrase(err) && !MissingParametersPhrase(err) && !NoDataPhrase(err)
      && TimeoutCode(err)
    ensures n == 6 <==>
      && err.response.None? && !NotFoundPhrase(err) && !MissingParametersPhrase(err) && !NoDataPhrase(err)
      && !TimeoutCode(err) && UnreachableCode(err)
    ensures n == 7 <==>
      && err.response.None? && !NotFoundPhrase(err) && !MissingParametersPhrase(err) && !NoDataPhrase(err)
      && !TimeoutCode(err) && !UnreachableCode(err)
  {
    if err.response.Some? then 1
    else if Contains(err.message, "No locations found") then 2
    else if Contains(err.message, "Missing required parameters") then 3
    else if Contains(err.message, "No weather data available") || Contains(err.message, "No forecast data available") then 4
    else if err.code == Some("ECONNABORTED") then 5
    else if err.code == Some("ENOTFOUND") || err.code == Some("ECONNREFUSED") then 6
    else 7
  }

  /** The rule chain. */
  function Classify(err: JsError): (c: Classified)
    ensures Rule(err) == 1 ==>
      var resp := err.response.value;
      && c.status == (if resp.status != 0 then resp.status else 500)
      && c.message == ExternalPrefix + err.message
      && c.details == Some(UpstreamDetails(OrDefault(resp.url, "unknown"), resp.data))
    ensures Rule(err) in {2, 3} ==> c.status == (if Rule(err) == 2 then 404 else 400) && c.message == err.message && c.details.None?
    ensures Rule(err) == 4 ==>
      c == Classified(503, "Weather data services unavailable", Some(CauseDetails(err.message)))
    ensures Rule(err) == 5 ==> c == Classified(504, "Request to weather provider timed out", None)
    ensures Rule(err) == 6 ==> c == Classified(503, "Weather provider service unavailable", None)
    ensures Rule(err) == 7 ==> c == Classified(500, "Server error", None)
  {
    match Rule(err)
    case 1 =>
      var resp := err.response.value;
      Classified(if resp.status != 0 then resp.status else 500, ExternalPrefix + err.message,
                 Some(UpstreamDetails(OrDefault(resp.url, "unknown"), resp.data)))
    case 2 => Classified(404, err.message, None)
    case 3 => Classified(400, err.message, None)
    case 4 => Classified(503, "Weather data services unavailable", Some(CauseDetails(err.message)))
    case 5 => Classified(504, "Request to weather provider timed out", None)
    case 6 => Classified(503, "Weather provider service unavailable", None)
    case _ => Classified(500, "Server error", None)
  }

  /** The status sent and the reply body. */
  function Respond(err: JsError, originalUrl: string, production: bool, now: int): (r: (int, ErrorReply))
    ensures r.0 == r.1.status == Classify(err).status
    ensures r.1.error == Classify(err).message
    ensures r.1.path == originalUrl && r.1.timestamp == now
    ensures r.1.details.Some? <==> !production && Classify(err).details.Some?
    ensures r.1.details.Some? ==> r.1.details == Classify(err).details
  {
    var c := Classify(err);
    (c.status, ErrorReply(c.status, c.message, now, originalUrl, if !production then c.details else None))
  }

  /** Every status is the upstream one or one of the handler's own. */
  lemma StatusClasses(err: JsError)
    ensures var s := Classify(err).status;
      (err.response.Some? && s == err.response.value.status && s != 0) || s in {400, 404, 500, 503, 504}
  {
  }

  /** An upstream response decides the reply whatever the message says: the response rule
      comes first. */
  lemma ResponseRuleFirst(err: JsError, message: string)
    requires err.response.Some?
    ensures Classify(err.(message := message)).status == Classify(err).status
    ensures Classify(err.(message := message)).details == Classify(err).details
  {
  }

  /** A message without an upstream response that mentions missing parameters, and not the
      404 phrase, is a 400 with the message as it is. */
  lemma MissingParametersRule(err: JsError)
    requires err.response.None?
    requires !Contains(err.message, "No locations found")
    requires Contains(err.message, "Missing required parameters")
    ensures Classify(err) == Classified(400, err.message, None)
  {
  }

  /** A message without an upstream response that mentions missing weather or forecast data,
      and neither of the earlier rules' phrases, answers 503 with the message as the cause. */
  lemma NoDataRule(err: JsError)
    requires err.response.None?
    requires !Contains(err.message, "No locations found") && !Contains(err.message, "Missing required parameters")
    requires Contains(err.message, "No weather data available") || Contains(err.message, "No forecast data available")
    ensures Classify(err) == Classified(503, "Weather data services unavailable", Some(CauseDetails(err.message)))
  {
  }

  /** A timed-out request (code ECONNABORTED) whose message has none of the phrases is a 504. */
  lemma TimeoutRule(err: JsError)
    requires err.response.None? && err.code == Some("ECONNABORTED")
    requires !NotFoundPhrase(err) && !MissingParametersPhrase(err) && !NoDataPhrase(err)
    ensures Classify(err) == Classified(504, "Request to weather provider timed out", None)
  {
  }

  /** An unknown host (ENOTFOUND) or a refused connection (ECONNREFUSED) whose message has none
      of the phrases is a 503. */
  lemma UnreachableRule(err: JsError)
    requires err.response.None? && (err.code == Some("ENOTFOUND") || err.code == Some("ECONNREFUSED"))
    requires !NotFoundPhrase(err) && !MissingParametersPhrase(err) && !NoDataPhrase(err)
    ensures Classify(err) == Classified(503, "Weather provider service unavailable", None)
  {
  }

  /** The reply is the generic 500 "Server error" exactly when no rule of the chain applies:
      none of the other rules can produce that message. */
  lemma ServerErrorIffNoRuleMatches(err: JsError)
    ensures Classify(err).message == "Server error" <==>
      && err.response.None? && !NotFoundPhrase(err) && !MissingParametersPhrase(err) && !NoDataPhrase(err)
      && !TimeoutCode(err) && !UnreachableCode(err)
    ensures Classify(err).message == "Server error" ==> Classify(err) == Classified(500, "Server error", None)
  {
    var r := Rule(err);
    if r == 1 {
      assert Classify(err).message[0] == ExternalPrefix[0];
    } else if (r == 2 || r == 3) && err.message == "Server error" {
      ServerErrorLacksPhrases(err.message);
    }
  }

  /** The default message has neither of the phrases rules 2 and 3 look for: it has no 'N'
      and no 'M'. */
  lemma ServerErrorLacksPhrases(m: string)
    requires m == "Server error"
    ensures !Contains(m, "No locations found") && !Contains(m, "Missing required parameters")
  {
    ServerErrorChars(m);
    MissingCharExcludes(m, "No locations found", 'N');
    MissingCharExcludes(m, "Missing required parameters", 'M');
  }

  /** The characters of the default message. */
  lemma ServerErrorChars(m: string)
    requires m == "Server error"
    ensures forall i :: 0 <= i < |m| ==> m[i] != 'N' && m[i] != 'M'
  {
  }

  /** The characters of the fan-in's current-weather failure: it has no 'c' (so not the 404
      phrase) and no 'M' (so not the 400 phrase). */
  lemma CurrentMessageChars(m: string)
    requires m == Aggregator.NoCurrentData
    ensures forall i :: 0 <= i < |m| ==> m[i] != 'c' && m[i] != 'M'
  {
  }

  /** The current-weather failure starts with the no-data phrase. */
  lemma CurrentMessagePrefix(m: string)
    requires m == Aggregator.NoCurrentData
    ensures "No weather data available" <= m
  {
  }

  /** The characters of the fan-in's forecast failure: no 'u' and no 'M'. */
  lemma ForecastMessageChars(m: string)
    requires m == Aggregator.NoForecastData
    ensures forall i :: 0 <= i < |m| ==> m[i] != 'u' && m[i] != 'M'
  {
  }

  /** The forecast failure starts with the forecast no-data phrase. */
  lemma ForecastMessagePrefix(m: string)
    requires m == Aggregator.NoForecastData
    ensures "No forecast data available" <= m
  {
  }

  /** The fan-in's failure when no adapter delivered current weather answers 503 with the
      original message as the cause. */
  lemma NoCurrentDataIsUnavailable(m: string)
    requires m == Aggregator.NoCurrentData
    ensures Classify(PlainError(m)) == Classified(503, "Weather data services unavailable", Some(CauseDetails(m)))
  {
    CurrentMessageChars(m);
    CurrentMessagePrefix(m);
    MissingCharExcludes(m, "No locations found", 'c');
    MissingCharExcludes(m, "Missing required parameters", 'M');
    ContainsPrefix(m, "No weather data available");
    NoDataRule(PlainError(m));
  }

  /** Likewise for forecasts. */
  lemma NoForecastDataIsUnavailable(m: string)
    requires m == Aggregator.NoForecastData
    ensures Classify(PlainError(m)) == Classified(503, "Weather data services unavailable", Some(CauseDetails(m)))
  {
    ForecastMessageChars(m);
    ForecastMessagePrefix(m);
    MissingCharExcludes(m, "No locations found", 'u');
    MissingCharExcludes(m, "Missing required parameters", 'M');
    ContainsPrefix(m, "No forecast data available");
    NoDataRule(PlainError(m));
  }

  /** A message is matched anywhere in it: a message with 'No locations found' inside, and no
      upstream response, is a 404. */
  lemma NotFoundAnywhere(prefix: string, suffix: string, code: Option<string>)
    ensures Classify(JsError(prefix + "No locations found" + suffix, code, None)).status == 404
  {
    var m := prefix + "No locations found" + suffix;
    assert m[|prefix|..][..|"No locations found"|] == "No locations found";
    ContainsAt(m, "No locations found", |prefix|);
  }

  /** `sub` occurring at offset k is found. */
  lemma {:induction false} ContainsAt(s: string, sub: string, k: nat)
    requires k + |sub| <= |s| && s[k..][..|sub|] == sub
    ensures Contains(s, sub)
    decreases k
  {
    if k == 0 {
      assert s[..|sub|] == sub;
    } else {
      assert s[1..][k - 1..] == s[k..];
      ContainsAt(s[1..], sub, k - 1);
    }
  }
}
