/**
 * The analytics client: one POST of `{query, user_context}` to the backend's
 * internal analytics endpoint, the mapping of failures to the single
 * service error kind, and the normalisation of the response body to a list
 * of items. The HTTP exchange itself is an abstract outcome.
 */
module AnalyticsTool {
  import opened Options
  import opened Json
  import opened Planning

  // ---------------------------------------------------------------------
  // The request
  // ---------------------------------------------------------------------

  const QueryPath: string := "/api/internal/analytics/query"

  /** A POST request: the path under the configured base URL and the JSON body. */
  datatype Request = Post(path: string, body: Value)

  /** The body sent: exactly the structured query's dictionary and the caller's context. */
  function Payload(q: StructuredQuery, ctx: map<string, Value>): (p: Value)
    ensures p.JObject? && p.fields.Keys == {"query", "user_context"}
    ensures p.fields["query"] == QueryJson(q)
    ensures QueryFromJson(p.fields["query"]) == Some(q)
    ensures p.fields["user_context"] == JObject(ctx)
  {
    QueryRoundTrip(q);
    JObject(map["query" := QueryJson(q), "user_context" := JObject(ctx)])
  }

  function AnalyticsRequest(q: StructuredQuery, ctx: map<string, Value>): Request {
    Post(QueryPath, Payload(q, ctx))
  }

  // ---------------------------------------------------------------------
  // The abstract exchange and its failures
  // ---------------------------------------------------------------------

  /** The bytes of a response body, as far as `resp.json()` is concerned. */
  datatype Body = JsonBody(json: Value) | NotJson

  /** What the HTTP client can report: a transport-level error, or a response. */
  datatype HttpOutcome = TransportError | Response(status: nat, body: Body)

  /**
   * What fetching user events can raise: the service error (message only);
   * the decoding error `resp.json()` raises on a success response whose body
   * is not JSON, which is not caught and so is not a service error; and the
   * `TypeError` of taking `len` of returned events that have no length.
   */
  datatype Failure = AnalyticsServiceError(message: string) | BodyNotJson | EventsNotSized

  /** `raise_for_status` lets exactly the 2xx statuses through. */
  predicate IsSuccess(status: nat) {
    200 <= status < 300
  }

  const UnavailableMessage: string := "Analytics service unavailable"
  const StatusMessagePrefix: string := "Analytics service error (status "

  // ---------------------------------------------------------------------
  // Decimal rendering of a status code
  // ---------------------------------------------------------------------

  predicate IsDigit(c: char) {
    '0' <= c <= '9'
  }

  function DigitChar(d: nat): (c: char)
    requires d < 10
    ensures IsDigit(c)
    ensures DigitValue(c) == d
  {
    ('0' as int + d) as char
  }

  function DigitValue(c: char): nat
    requires IsDigit(c)
  {
    c as int - '0' as int
  }

  /** `str(n)` for a non-negative integer: decimal digits, no leading zero. */
  function Decimal(n: nat): (s: string)
    ensures |s| >= 1
    ensures forall i | 0 <= i < |s| :: IsDigit(s[i])
    ensures |s| > 1 ==> s[0] != '0'
    decreases n
  {
    if n < 10 then [DigitChar(n)] else Decimal(n / 10) + [DigitChar(n % 10)]
  }

  /** Reads a non-empty run of decimal digits; anything else is `None`. */
  function ParseDecimal(s: string): Option<nat>
    decreases |s|
  {
    if |s| == 0 || !IsDigit(s[|s| - 1]) then None
    else if |s| == 1 then Some(DigitValue(s[0]))
    else match ParseDecimal(s[..|s| - 1])
      case None => None
      case Some(v) => Some(v * 10 + DigitValue(s[|s| - 1]))
  }

  lemma {:induction false} DecimalRoundTrip(n: nat)
    ensures ParseDecimal(Decimal(n)) == Some(n)
    decreases n
  {
    if n >= 10 {
      var s := Decimal(n);
      assert s[..|s| - 1] == Decimal(n / 10);
      DecimalRoundTrip(n / 10);
    }
  }

  function StatusErrorMessage(status: nat): string {
    StatusMessagePrefix + Decimal(status) + ")"
  }

  /** The status code named in a service error message, if it names one. */
  function StatusOfMessage(msg: string): Option<nat> {
    if |msg| > |StatusMessagePrefix| && msg[..|StatusMessagePrefix|] == StatusMessagePrefix
       && msg[|msg| - 1] == ')'
    then ParseDecimal(msg[|StatusMessagePrefix|..|msg| - 1])
    else None
  }

  /** The unavailability message is too short to hold a status message, so it names no status. */
  lemma UnavailableNamesNoStatus()
    ensures StatusOfMessage(UnavailableMessage) == None
  {
    assert |UnavailableMessage| < |StatusMessagePrefix|;
  }

  /** The status error message names its status; the unavailability message names none. */
  lemma {:induction false} MessagesIdentifyCause(status: nat)
    ensures StatusOfMessage(StatusErrorMessage(status)) == Some(status)
    ensures StatusOfMessage(UnavailableMessage) == None
    ensures StatusErrorMessage(status) != UnavailableMessage
  {
    var msg := StatusErrorMessage(status);
    assert msg[..|StatusMessagePrefix|] == StatusMessagePrefix;
    assert msg[|StatusMessagePrefix|..|msg| - 1] == Decimal(status);
    DecimalRoundTrip(status);
  }

  // ---------------------------------------------------------------------
  // Response handling
  // ---------------------------------------------------------------------

  /**
   * The items in a success body: the `events` value of an object that has
   * one (whatever it holds), a bare list itself, and the empty list for any
   * other shape. Never fails.
   */
  function NormalizeBody(data: Value): (items: Value)
    ensures data.JObject? && "events" in data.fields ==> items == data.fields["events"]
    ensures data.JArray? ==> items == data
    ensures !(data.JObject? && "events" in data.fields) && !data.JArray? ==> items == EmptyList
  {
    match data
    case JObject(m) => if "events" in m then m["events"] else EmptyList
    case JArray(_) => data
    case _ => EmptyList
  }

  /**
   * The result of one exchange. Transport errors and non-2xx statuses are the
   * service error, told apart only by the message, and their body is never
   * read; a 2xx body is decoded and normalised.
   */
  function HandleOutcome(outcome: HttpOutcome): (r: Result<Value, Failure>)
    ensures outcome.TransportError? ==> r == Err(AnalyticsServiceError(UnavailableMessage))
    ensures outcome.Response? && !IsSuccess(outcome.status) ==>
              r == Err(AnalyticsServiceError(StatusErrorMessage(outcome.status)))
    ensures r != Err(EventsNotSized)
    ensures r.Err? && r.error.AnalyticsServiceError? <==>
              outcome.TransportError? || !IsSuccess(outcome.status)
    ensures r.Err? && r.error.AnalyticsServiceError? ==>
              StatusOfMessage(r.error.message)
              == (if outcome.TransportError? then None else Some(outcome.status))
    ensures r == Err(BodyNotJson) <==>
              outcome.Response? && IsSuccess(outcome.status) && outcome.body.NotJson?
    ensures r.Ok? <==> outcome.Response? && IsSuccess(outcome.status) && outcome.body.JsonBody?
    ensures r.Ok? ==> r.value == NormalizeBody(outcome.body.json)
  {
    match outcome
    case TransportError =>
      UnavailableNamesNoStatus();
      Err(AnalyticsServiceError(UnavailableMessage))
    case Response(status, body) =>
      if !IsSuccess(status) then
        MessagesIdentifyCause(status);
        Err(AnalyticsServiceError(StatusErrorMessage(status)))
      else match body
        case NotJson => Err(BodyNotJson)
        case JsonBody(data) => Ok(NormalizeBody(data))
  }

  /** `run_analytics_query`: send the one request, handle what comes back. */
  function RunAnalyticsQuery(q: StructuredQuery, ctx: map<string, Value>, transport: Request -> HttpOutcome)
    : (r: Result<Value, Failure>)
    ensures var outcome := transport(AnalyticsRequest(q, ctx));
            && (r.Err? && r.error.AnalyticsServiceError? <==> outcome.TransportError? || !IsSuccess(outcome.status))
            && (r == Err(BodyNotJson) <==> outcome.Response? && IsSuccess(outcome.status) && outcome.body.NotJson?)
            && (r.Ok? <==> outcome.Response? && IsSuccess(outcome.status) && outcome.body.JsonBody?)
            && (r.Ok? ==> r.value == NormalizeBody(outcome.body.json))
    ensures r != Err(EventsNotSized)
  {
    HandleOutcome(transport(AnalyticsRequest(q, ctx)))
  }

  // ---------------------------------------------------------------------
  // Properties
  // ---------------------------------------------------------------------

  /** An error status is reported the same whatever body came with it. */
  lemma ErrorIgnoresBody(status: nat, b: Body, b': Body)
    requires !IsSuccess(status)
    ensures HandleOutcome(Response(status, b)) == HandleOutcome(Response(status, b'))
    ensures HandleOutcome(Response(status, b)).Err?
  {
  }

  /** The two shapes the backend answers with both yield its list of events. */
  lemma BackendShapesYieldEvents(events: seq<Value>, status: nat)
    requires IsSuccess(status)
    ensures HandleOutcome(Response(status, JsonBody(JObject(map["events" := JArray(events)])))) == Ok(JArray(events))
    ensures HandleOutcome(Response(status, JsonBody(JArray(events)))) == Ok(JArray(events))
    ensures HandleOutcome(Response(status, JsonBody(JObject(map[])))) == Ok(EmptyList)
    ensures HandleOutcome(Response(status, JsonBody(JNull))) == Ok(EmptyList)
  {
  }

  /** An HTTP 500 gives one clean service error whose message names only the status. */
  lemma {:induction false} Status500Example(body: Body)
    ensures HandleOutcome(Response(500, body))
            == Err(AnalyticsServiceError("Analytics service error (status 500)"))
  {
    assert Decimal(500) == "500" by {
      assert Decimal(5) == "5";
      assert Decimal(50) == "50";
    }
    assert StatusErrorMessage(500) == "Analytics service error (status 500)";
  }
}
