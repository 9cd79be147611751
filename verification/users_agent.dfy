/**
 * The behaviour specialist's pure step: turning a `UserBehaviorIntent` and the
 * caller's context dictionary into a `StructuredQuery` on user events.
 * Every filter is added independently of the others, and nothing else is.
 */
module UsersAgent {
  import opened Options
  import opened Json
  import opened Planning
  import opened AnalyticsTool

  /** The only keys the builder ever writes. */
  const FilterKeys: set<string> := {"user_id", "type", "product_category", "meta", "time_window"}

  /** `if s:` on an `Optional[str]`: present and non-empty. */
  predicate Given(o: Option<string>) {
    o.Some? && o.value != ""
  }

  /**
   * `ctx.get("user_id") or ctx.get("id")`, kept only when it is not `None`.
   * A falsy `user_id` falls through to `id`, whose value is then used
   * whatever it is, unless it is missing or `null`.
   */
  function ResolveUserId(ctx: map<string, Value>): (r: Option<Value>)
    ensures r.Some? ==> r.value != JNull
    ensures "user_id" in ctx && Truthy(ctx["user_id"]) ==> r == Some(ctx["user_id"])
    ensures !("user_id" in ctx && Truthy(ctx["user_id"])) ==>
              (r.Some? <==> "id" in ctx && ctx["id"] != JNull)
              && (r.Some? ==> r.value == ctx["id"])
    ensures "user_id" !in ctx && "id" !in ctx ==> r == None
  {
    var first := Get(ctx, "user_id");
    var chosen := if Truthy(first) then first else Get(ctx, "id");
    if chosen == JNull then None else Some(chosen)
  }

  /**
   * The structured query for a behaviour intent. Each filter key has its own
   * presence rule and, when present, a fixed value; the target is always
   * user events.
   */
  function BuildStructuredQuery(intent: UserBehaviorIntent, ctx: map<string, Value>): (q: StructuredQuery)
    ensures q.entity == UserEvent
    ensures q.filters.Keys <= FilterKeys
    ensures "user_id" in q.filters <==> ResolveUserId(ctx).Some?
    ensures "user_id" in q.filters ==> q.filters["user_id"] == ResolveUserId(ctx).value
    ensures "type" in q.filters <==> intent.action != Unknown
    ensures "type" in q.filters ==> q.filters["type"] == JString(ActionName(intent.action))
    ensures "product_category" in q.filters <==> Given(intent.productCategory)
    ensures "product_category" in q.filters ==>
              q.filters["product_category"] == JString(intent.productCategory.value)
    ensures "meta" in q.filters <==> intent.attributes != map[]
    ensures "meta" in q.filters ==> q.filters["meta"] == AttributesJson(intent.attributes)
    ensures "time_window" in q.filters <==> Given(intent.timeWindow)
    ensures "time_window" in q.filters ==> q.filters["time_window"] == JString(intent.timeWindow.value)
  {
    var userId := ResolveUserId(ctx);
    var f0: map<string, Value> := map[];
    var f1 := if userId.Some? then f0["user_id" := userId.value] else f0;
    var f2 := if intent.action != Unknown then f1["type" := JString(ActionName(intent.action))] else f1;
    var f3 := if Given(intent.productCategory) then f2["product_category" := JString(intent.productCategory.value)] else f2;
    var f4 := if intent.attributes != map[] then f3["meta" := AttributesJson(intent.attributes)] else f3;
    var f5 := if Given(intent.timeWindow) then f4["time_window" := JString(intent.timeWindow.value)] else f4;
    StructuredQuery(UserEvent, f5)
  }

  /**
   * `fetch_events`: run the query through the analytics client, then take
   * `len` of what came back for the debug line, which raises unless the
   * events have a length. That happens exactly when a success body is an
   * object whose `events` value is `null`, a boolean or a number.
   */
  function FetchEvents(q: StructuredQuery, ctx: map<string, Value>, transport: Request -> HttpOutcome)
    : (r: Result<Value, Failure>)
    ensures var outcome := transport(AnalyticsRequest(q, ctx));
            && (r == Err(EventsNotSized) <==>
                  outcome.Response? && IsSuccess(outcome.status) && outcome.body.JsonBody?
                  && outcome.body.json.JObject? && "events" in outcome.body.json.fields
                  && !Sized(outcome.body.json.fields["events"]))
            && (r.Ok? ==> outcome.Response? && IsSuccess(outcome.status) && outcome.body.JsonBody?
                          && Sized(r.value) && r.value == NormalizeBody(outcome.body.json))
            && (r.Err? && r.error != EventsNotSized ==> r == RunAnalyticsQuery(q, ctx, transport))
  {
    match RunAnalyticsQuery(q, ctx, transport)
    case Err(e) => Err(e)
    case Ok(events) => if Sized(events) then Ok(events) else Err(EventsNotSized)
  }

  // ---------------------------------------------------------------------
  // Reading a query back
  // ---------------------------------------------------------------------

  /** An intent with empty category and window strings replaced by `None`: what the builder can see. */
  function Canonical(i: UserBehaviorIntent): UserBehaviorIntent {
    UserBehaviorIntent(
      i.action,
      if Given(i.productCategory) then i.productCategory else None,
      i.attributes,
      if Given(i.timeWindow) then i.timeWindow else None)
  }

  function OptionalStringFilter(f: map<string, Value>, k: string): Option<Option<string>> {
    if k !in f then Some(None)
    else if f[k].JString? && f[k].s != "" then Some(Some(f[k].s))
    else None
  }

  /**
   * How a backend reads a user-event filter map back into an intent: the
   * independent reference the builder is checked against. Fails on a map the
   * builder could not have produced.
   */
  function IntentOfFilters(f: map<string, Value>): Option<UserBehaviorIntent> {
    var action :=
      if "type" !in f then Some(Unknown)
      else if f["type"].JString? && f["type"].s != "unknown" then ActionFromName(f["type"].s)
      else None;
    var attributes :=
      if "meta" !in f then Some(map[])
      else match AttributesFromJson(f["meta"])
        case None => None
        case Some(a) => if a == map[] then None else Some(a);
    var category := OptionalStringFilter(f, "product_category");
    var window := OptionalStringFilter(f, "time_window");
    if action.Some? && attributes.Some? && category.Some? && window.Some? then
      Some(UserBehaviorIntent(action.value, category.value, attributes.value, window.value))
    else None
  }

  /** The user id a backend reads from a filter map. */
  function UserIdOfFilters(f: map<string, Value>): Option<Value> {
    if "user_id" in f then Some(f["user_id"]) else None
  }

  /**
   * Nothing the builder can see is lost: reading the filters back gives the
   * resolved user id and the canonical intent.
   */
  lemma {:induction false} BuildThenRead(intent: UserBehaviorIntent, ctx: map<string, Value>)
    ensures UserIdOfFilters(BuildStructuredQuery(intent, ctx).filters) == ResolveUserId(ctx)
    ensures IntentOfFilters(BuildStructuredQuery(intent, ctx).filters) == Some(Canonical(intent))
  {
    var f := BuildStructuredQuery(intent, ctx).filters;
    if intent.action != Unknown {
      assert ActionFromName(ActionName(intent.action)) == Some(intent.action);
    }
    if intent.attributes != map[] {
      AttributesRoundTrip(intent.attributes);
    }
  }

  /** The query depends on the intent only through what the builder can see. */
  lemma BuildSeesCanonical(intent: UserBehaviorIntent, ctx: map<string, Value>)
    ensures BuildStructuredQuery(Canonical(intent), ctx) == BuildStructuredQuery(intent, ctx)
  {
  }

  /** Two intents give the same query (in the same context) exactly when they agree on what the builder sees. */
  lemma BuildInjectiveUpToCanonical(i: UserBehaviorIntent, i': UserBehaviorIntent, ctx: map<string, Value>)
    ensures BuildStructuredQuery(i, ctx) == BuildStructuredQuery(i', ctx) <==> Canonical(i) == Canonical(i')
  {
    BuildThenRead(i, ctx);
    BuildThenRead(i', ctx);
    BuildSeesCanonical(i, ctx);
    BuildSeesCanonical(i', ctx);
  }

  /** An intent with no usable signal and a context with no user id gives an empty filter set. */
  lemma NoSignalNoFilters(intent: UserBehaviorIntent, ctx: map<string, Value>)
    requires intent.action == Unknown && intent.attributes == map[]
    requires !Given(intent.productCategory) && !Given(intent.timeWindow)
    requires ResolveUserId(ctx) == None
    ensures BuildStructuredQuery(intent, ctx) == StructuredQuery(UserEvent, map[])
  {
  }

  /** "Black jeans I searched for in the last 10 mins", for a user whose id is any truthy value (42 in the docstring). */
  lemma {:induction false} BlackJeansExample(uid: Value)
    requires Truthy(uid)
    ensures BuildStructuredQuery(
              UserBehaviorIntent(Search, Some("jeans"), map["color" := "black"], Some("10m")),
              map["user_id" := uid])
            == StructuredQuery(UserEvent, map[
                 "user_id" := uid,
                 "type" := JString("search"),
                 "product_category" := JString("jeans"),
                 "meta" := JObject(map["color" := JString("black")]),
                 "time_window" := JString("10m")])
  {
    var ctx := map["user_id" := uid];
    var intent := UserBehaviorIntent(Search, Some("jeans"), map["color" := "black"], Some("10m"));
    var q := BuildStructuredQuery(intent, ctx);
    assert "color" in intent.attributes;
    assert Given(intent.productCategory) && Given(intent.timeWindow);
    assert AttributesJson(intent.attributes) == JObject(map["color" := JString("black")]);
    assert q.filters.Keys == FilterKeys;
  }
}
