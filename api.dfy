/** The stateless endpoints of `rnv_api`: the request parameters and the
    response check of `get_departures`, the JSON pass-through of
    `get_news` and `get_ticker`, and the count bodies of `get_news_count`
    and `get_ticker_count`. */
module Api {
  import opened Wrappers
  import opened Http

  /** A decoded JSON value (floating-point numbers are not modelled). */
  datatype Json =
    | JNull
    | JBool(b: bool)
    | JInt(n: int)
    | JString(s: string)
    | JArray(items: seq<Json>)
    | JObject(fields: map<string, Json>)

  /** A decoded JSON object, as `json.loads` returns it for the departures
      endpoint. */
  type Object = map<string, Json>

  /** The colour the service sends when it has no departures. */
  const NoDataColor := 0x464d59

  /** The defaults of `get_departures`. */
  const DefaultUiSource := "LINE"

  /** `data.get(key, default)` */
  function Get(data: Object, key: string, default: Json): (v: Json)
    ensures key in data ==> v == data[key]
    ensures key !in data ==> v == default
  {
    if key in data then data[key] else default
  }

  /** Python's `v == n` for a decoded JSON value and an `int`: integers
      compare by value, `bool` is an `int` subclass, and `None`, strings,
      lists and dicts never equal an `int`. */
  function EqualsInt(v: Json, n: int): (b: bool)
    ensures v.JInt? ==> (b <==> v.n == n)
    ensures v.JBool? ==> (b <==> n == (if v.b then 1 else 0))
    ensures !v.JInt? && !v.JBool? ==> !b
  {
    match v
    case JInt(m) => m == n
    case JBool(b) => (if b then 1 else 0) == n
    case _ => false
  }

  /** Only the integer 0x464D59 itself is the no-data colour. */
  lemma NoDataColorOnlyInt(v: Json)
    ensures EqualsInt(v, NoDataColor) <==> v == JInt(NoDataColor)
  {
  }

  /** The query string of a departures request: `time=None` is sent as the
      literal `'null'`, a `None` filter is left for the transport to drop. */
  datatype DepartureParams = DepartureParams(
    hafasID: string, transportFilter: Option<string>, time: string, usSource: string)

  function DepartureRequest(hafasID: string, transportFilter: Option<string>, time: Option<string>,
                            uiSource: string := DefaultUiSource): (p: DepartureParams)
    ensures p.hafasID == hafasID && p.transportFilter == transportFilter && p.usSource == uiSource
    ensures time.Some? ==> p.time == time.value
    ensures time.None? ==> p.time == "null"
  {
    DepartureParams(hafasID, transportFilter,
                    match time { case Some(t) => t case None => "null" },
                    uiSource)
  }

  /** The response check of `get_departures`. */
  function DepartureResult(reply: Reply<Object>): (r: Result<Object, Error>)
    ensures r.Success? ==> CheckStatus(reply).Success? && r.value == reply.body
    ensures CheckStatus(reply).Failure? ==> r == Failure(CheckStatus(reply).error)
    ensures CheckStatus(reply).Success? && r.Failure? ==> r.error == NoDepartures
  {
    var data :- CheckStatus(reply);
    if !EqualsInt(Get(data, "color", JInt(NoDataColor)), NoDataColor) then Success(data)
    else Failure(NoDepartures)
  }

  /** `get_departures`, with the service as a function from the request it
      is sent to the reply it gives; `uiSource` is `ui_source`. */
  function GetDepartures(service: DepartureParams -> Reply<Object>, hafasID: string,
                         transportFilter: Option<string>, time: Option<string>,
                         uiSource: string := DefaultUiSource): (r: Result<Object, Error>)
    ensures var reply := service(DepartureParams(hafasID, transportFilter,
                                   if time.Some? then time.value else "null", uiSource));
            r.Success? ==> reply.Reply? && reply.status == StatusOk && r.value == reply.body
  {
    DepartureResult(service(DepartureRequest(hafasID, transportFilter, time, uiSource)))
  }

  /** What `get_departures` returns, in terms of the request it sends: the
      id, filter and source go out unchanged, `time` as given or as
      `'null'`, and the reply to that request is returned when it is a 200
      with a real colour. */
  lemma GetDeparturesOutcome(service: DepartureParams -> Reply<Object>, hafasID: string,
                             transportFilter: Option<string>, time: Option<string>, uiSource: string)
    ensures var sent := DepartureParams(hafasID, transportFilter,
                                        if time.Some? then time.value else "null", uiSource);
            var reply := service(sent);
            GetDepartures(service, hafasID, transportFilter, time, uiSource) ==
              if reply.NoConnection? then Failure(ConnectionFailed)
              else if reply.status != StatusOk then Failure(BadStatus(reply.status))
              else if "color" in reply.body && !EqualsInt(reply.body["color"], NoDataColor)
              then Success(reply.body)
              else Failure(NoDepartures)
  {
    DepartureSuccess(service(DepartureRequest(hafasID, transportFilter, time, uiSource)));
    DepartureFailures(service(DepartureRequest(hafasID, transportFilter, time, uiSource)));
  }

  /** Departures are returned exactly when the status is 200 and the
      payload carries a `color` other than the no-data colour, and then
      unchanged. */
  lemma DepartureSuccess(reply: Reply<Object>)
    ensures DepartureResult(reply).Success? <==>
      reply.Reply? && reply.status == StatusOk &&
      "color" in reply.body && !EqualsInt(reply.body["color"], NoDataColor)
    ensures DepartureResult(reply).Success? ==> DepartureResult(reply).value == reply.body
  {
  }

  /** "Not Found" is raised for an accepted reply whose `color` is missing
      or is the no-data colour; other failures are the status check's. */
  lemma DepartureFailures(reply: Reply<Object>)
    ensures DepartureResult(reply) == Failure(NoDepartures) <==>
      reply.Reply? && reply.status == StatusOk &&
      ("color" !in reply.body || EqualsInt(reply.body["color"], NoDataColor))
    ensures CheckStatus(reply).Failure? ==> DepartureResult(reply) == Failure(CheckStatus(reply).error)
  {
  }

  /** A payload without `color` counts as "Not Found" (the default of
      `data.get` is the no-data colour), while a `color` of a different
      JSON type, such as a string, counts as data. */
  lemma ColorEdgeCases(data: Object)
    ensures "color" !in data ==> DepartureResult(Reply(StatusOk, data)) == Failure(NoDepartures)
    ensures "color" in data && data["color"].JString? ==> DepartureResult(Reply(StatusOk, data)) == Success(data)
  {
  }

  /** The `time` parameter cannot tell "no time given" from the text
      `null`. */
  lemma TimeNullCollides(service: DepartureParams -> Reply<Object>, hafasID: string,
                          transportFilter: Option<string>, uiSource: string)
    ensures DepartureRequest(hafasID, transportFilter, None, uiSource) ==
            DepartureRequest(hafasID, transportFilter, Some("null"), uiSource)
    ensures GetDepartures(service, hafasID, transportFilter, None, uiSource) ==
            GetDepartures(service, hafasID, transportFilter, Some("null"), uiSource)
  {
  }

  /** `get_news` and `get_ticker` return the decoded body of a 200 reply. */
  function GetNews(reply: Reply<Json>): (r: Result<Json, Error>)
    ensures r.Success? <==> reply.Reply? && reply.status == StatusOk
    ensures r.Success? ==> r.value == reply.body
  {
    CheckStatus(reply)
  }

  function GetTicker(reply: Reply<Json>): (r: Result<Json, Error>)
    ensures r.Success? <==> reply.Reply? && reply.status == StatusOk
    ensures r.Success? ==> r.value == reply.body
  {
    CheckStatus(reply)
  }

  /** The digits of the count pattern `\d` (ASCII digits only). */
  predicate IsDigit(c: char) { '0' <= c <= '9' }

  /** One or more digits: what `(\d+)` captures. */
  predicate IsNumeral(s: string) {
    |s| > 0 && forall i :: 0 <= i < |s| ==> IsDigit(s[i])
  }

  const CountPrefix := "{number:\""
  const CountSuffix := "\"}"

  /** The body the service sends for a count `digits`. */
  function CountBody(digits: string): string {
    CountPrefix + digits + CountSuffix
  }

  /** `re.compile(r'\{number:"(\d+)"\}').fullmatch(body).group(1)`: the
      digit string itself, not a number; no match fails. */
  function ParseCount(body: string): (r: Result<string, Error>)
    ensures r.Success? ==> IsNumeral(r.value) && body == CountBody(r.value)
    ensures r.Failure? ==> r.error == NoCountMatch
  {
    var n := |body|;
    if n >= |CountPrefix| + 1 + |CountSuffix|
       && body[..|CountPrefix|] == CountPrefix
       && body[n - |CountSuffix|..] == CountSuffix
       && IsNumeral(body[|CountPrefix|..n - |CountSuffix|])
    then
      var digits := body[|CountPrefix|..n - |CountSuffix|];
      assert body == body[..|CountPrefix|] + digits + body[n - |CountSuffix|..];
      Success(digits)
    else
      Failure(NoCountMatch)
  }

  /** Any body of the pattern yields its digits back. */
  lemma ParseCountRoundTrip(digits: string)
    requires IsNumeral(digits)
    ensures ParseCount(CountBody(digits)) == Success(digits)
  {
    var body := CountBody(digits);
    var n := |body|;
    assert body[..|CountPrefix|] == CountPrefix;
    assert body[n - |CountSuffix|..] == CountSuffix;
    assert body[|CountPrefix|..n - |CountSuffix|] == digits;
  }

  /** Together: the parser accepts exactly the bodies of the pattern. */
  lemma ParseCountAccepts(body: string)
    ensures ParseCount(body).Success? <==> exists digits :: IsNumeral(digits) && body == CountBody(digits)
  {
    if exists digits :: IsNumeral(digits) && body == CountBody(digits) {
      var digits :| IsNumeral(digits) && body == CountBody(digits);
      ParseCountRoundTrip(digits);
    }
  }

  /** `get_news_count` and `get_ticker_count`: a 200 reply whose text is a
      count body. */
  function GetNewsCount(reply: Reply<string>): (r: Result<string, Error>)
    ensures r.Success? <==> reply.Reply? && reply.status == StatusOk && ParseCount(reply.body).Success?
    ensures r.Success? ==> reply.body == CountBody(r.value) && IsNumeral(r.value)
    ensures CheckStatus(reply).Failure? ==> r == Failure(CheckStatus(reply).error)
    ensures reply.Reply? && reply.status == StatusOk && ParseCount(reply.body).Failure? ==>
      r == Failure(NoCountMatch)
  {
    var text :- CheckStatus(reply);
    ParseCount(text)
  }

  function GetTickerCount(reply: Reply<string>): (r: Result<string, Error>)
    ensures r.Success? <==> reply.Reply? && reply.status == StatusOk && ParseCount(reply.body).Success?
    ensures r.Success? ==> reply.body == CountBody(r.value) && IsNumeral(r.value)
    ensures CheckStatus(reply).Failure? ==> r == Failure(CheckStatus(reply).error)
    ensures reply.Reply? && reply.status == StatusOk && ParseCount(reply.body).Failure? ==>
      r == Failure(NoCountMatch)
  {
    var text :- CheckStatus(reply);
    ParseCount(text)
  }

  /** The example count, a zero-padded one, and malformed bodies. */
  lemma CountExamples()
    ensures ParseCount("{number:\"42\"}") == Success("42")
    ensures ParseCount("{number:\"007\"}") == Success("007")
    ensures ParseCount("{number:\"\"}") == Failure(NoCountMatch)
    ensures ParseCount("{number:42}") == Failure(NoCountMatch)
    ensures ParseCount(" {number:\"42\"}") == Failure(NoCountMatch)
  {
    assert IsNumeral("42") && CountBody("42") == "{number:\"42\"}";
    ParseCountRoundTrip("42");
    assert IsNumeral("007") && CountBody("007") == "{number:\"007\"}";
    ParseCountRoundTrip("007");
    assert " {number:\"42\"}"[..9] != CountPrefix by { assert " {number:\"42\"}"[0] != CountPrefix[0]; }
  }
}
