/**
 * The dispatcher: given the router's plan (an arbitrary `SearchPlan`, since the
 * language model behind it is outside the model), run the handler for the
 * plan's route when the matching slot is filled, and otherwise fall back to
 * generic search on the original query. The user-behaviour handler builds a
 * structured query and runs it through the analytics client over an abstract
 * transport; the orders and generic handlers are stubs.
 */
module SearchAgent {
  import opened Options
  import opened Json
  import opened Planning
  import opened UsersAgent
  import opened AnalyticsTool

  /** Which handler produced the items. */
  datatype Source = UserEvents | OrdersSource | GenericSource

  function SourceName(s: Source): string {
    match s
    case UserEvents => "user_events"
    case OrdersSource => "orders"
    case GenericSource => "generic_search"
  }

  /** Reading a `source` tag back: accepts exactly the three source names. */
  function SourceFromName(name: string): (r: Option<Source>)
    ensures forall x: Source :: r == Some(x) <==> SourceName(x) == name
  {
    if name == "user_events" then Some(UserEvents)
    else if name == "orders" then Some(OrdersSource)
    else if name == "generic_search" then Some(GenericSource)
    else None
  }

  /** The response dictionary: `source`, the full `plan`, `items`, `ai_rewritten_query`. */
  datatype Envelope = Envelope(source: Source, plan: Value, items: Value, aiRewrittenQuery: string)

  /** The envelope as the dictionary `run` returns: exactly four keys, and a source tag that names the handler. */
  function EnvelopeJson(e: Envelope): (v: Value)
    ensures v.JObject? && v.fields.Keys == {"source", "plan", "items", "ai_rewritten_query"}
    ensures v.fields["source"].JString? && SourceFromName(v.fields["source"].s) == Some(e.source)
    ensures v.fields["plan"] == e.plan && v.fields["items"] == e.items
    ensures v.fields["ai_rewritten_query"] == JString(e.aiRewrittenQuery)
  {
    JObject(map[
      "source" := JString(SourceName(e.source)),
      "plan" := e.plan,
      "items" := e.items,
      "ai_rewritten_query" := JString(e.aiRewrittenQuery)])
  }

  /** The orders specialist: not implemented yet, answers with no items whatever it is asked. */
  function HandleOrders(intent: OrdersIntent, ctx: map<string, Value>): (items: Value)
    ensures items == EmptyList
  {
    EmptyList
  }

  /** Generic product search: not implemented yet, answers with no items whatever it is asked. */
  function HandleGeneric(intent: GenericSearchIntent, ctx: map<string, Value>): (items: Value)
    ensures items == EmptyList
  {
    EmptyList
  }

  /**
   * The behaviour specialist: build the structured query, fetch the matching
   * events. What comes back is decided by the one response to the one request
   * sent, case by case.
   */
  function HandleUserBehavior(intent: UserBehaviorIntent, ctx: map<string, Value>, transport: Request -> HttpOutcome)
    : (r: Result<Value, Failure>)
    ensures var outcome := transport(AnalyticsRequest(BuildStructuredQuery(intent, ctx), ctx));
            && (outcome.TransportError? ==> r == Err(AnalyticsServiceError(UnavailableMessage)))
            && (outcome.Response? && !IsSuccess(outcome.status) ==>
                  r == Err(AnalyticsServiceError(StatusErrorMessage(outcome.status))))
            && (outcome.Response? && IsSuccess(outcome.status) && outcome.body.NotJson? ==> r == Err(BodyNotJson))
            && (outcome.Response? && IsSuccess(outcome.status) && outcome.body.JsonBody? ==>
                  r == (if Sized(NormalizeBody(outcome.body.json)) then Ok(NormalizeBody(outcome.body.json))
                        else Err(EventsNotSized)))
  {
    FetchEvents(BuildStructuredQuery(intent, ctx), ctx, transport)
  }

  /** The slot the plan's route names is filled: the only case a specialist runs. */
  predicate RouteSlotFilled(p: SearchPlan) {
    match p.route
    case UserBehavior => p.userBehavior.Some?
    case Orders => p.orders.Some?
    case GenericSearch => p.generic.Some?
  }

  /**
   * `SearchAgent.run` after routing. Only the behaviour branch calls out, so
   * only it can fail, and only with what the analytics client raises. Every
   * answer carries the full plan; a plan whose route slot is empty falls back
   * to generic search on the original query, whatever the other slots hold.
   */
  function Run(query: string, ctx: map<string, Value>, plan: SearchPlan, transport: Request -> HttpOutcome)
    : (r: Result<Envelope, Failure>)
    ensures r.Err? ==> plan.route == UserBehavior && plan.userBehavior.Some?
    ensures r.Ok? ==> PlanFromJson(r.value.plan) == Some(plan)
    ensures r.Ok? ==> r.value.source == (if RouteSlotFilled(plan) then
                                           match plan.route
                                           case UserBehavior => UserEvents
                                           case Orders => OrdersSource
                                           case GenericSearch => GenericSource
                                         else GenericSource)
    ensures r.Ok? && r.value.source == UserEvents ==> Sized(r.value.items)
    ensures r.Ok? && r.value.source == GenericSource ==> r.value.items == EmptyList
    ensures r.Ok? && r.value.source == OrdersSource ==> r.value.items == EmptyList
    ensures r.Ok? && r.value.aiRewrittenQuery != query ==>
              plan.route == GenericSearch && plan.generic.Some?
              && r.value.aiRewrittenQuery == plan.generic.value.normalizedQuery
    ensures !RouteSlotFilled(plan) ==> r == Ok(Envelope(GenericSource, PlanJson(plan), EmptyList, query))
  {
    PlanRoundTrip(plan);
    var planDict := PlanJson(plan);
    if plan.route == UserBehavior && plan.userBehavior.Some? then
      match HandleUserBehavior(plan.userBehavior.value, ctx, transport)
      case Err(e) => Err(e)
      case Ok(events) => Ok(Envelope(UserEvents, planDict, events, query))
    else if plan.route == Orders && plan.orders.Some? then
      Ok(Envelope(OrdersSource, planDict, HandleOrders(plan.orders.value, ctx), query))
    else if plan.route == GenericSearch && plan.generic.Some? then
      var g := plan.generic.value;
      Ok(Envelope(GenericSource, planDict, HandleGeneric(g, ctx), g.normalizedQuery))
    else
      var fallback := GenericSearchIntent(query);
      Ok(Envelope(GenericSource, planDict, HandleGeneric(fallback, ctx), fallback.normalizedQuery))
  }

  // ---------------------------------------------------------------------
  // Properties
  // ---------------------------------------------------------------------

  /**
   * The behaviour route with its intent: the events the analytics client
   * returns, its error, or the failure of `len` on events without a length.
   */
  lemma RunUserBehavior(query: string, ctx: map<string, Value>, plan: SearchPlan, transport: Request -> HttpOutcome)
    requires plan.route == UserBehavior && plan.userBehavior.Some?
    ensures var sent := AnalyticsRequest(BuildStructuredQuery(plan.userBehavior.value, ctx), ctx);
            Run(query, ctx, plan, transport)
            == match HandleOutcome(transport(sent))
               case Err(e) => Err(e)
               case Ok(events) =>
                 if Sized(events) then Ok(Envelope(UserEvents, PlanJson(plan), events, query))
                 else Err(EventsNotSized)
  {
  }

  /**
   * A success body `{"events": null}` (or a boolean or number there) makes the
   * request fail with the `len` error, which is not a service error.
   */
  lemma NullEventsRaise(query: string, ctx: map<string, Value>, plan: SearchPlan, transport: Request -> HttpOutcome,
                        events: Value)
    requires plan.route == UserBehavior && plan.userBehavior.Some?
    requires events.JNull? || events.JBool? || events.JNum?
    requires transport(AnalyticsRequest(BuildStructuredQuery(plan.userBehavior.value, ctx), ctx))
             == Response(200, JsonBody(JObject(map["events" := events])))
    ensures Run(query, ctx, plan, transport) == Err(EventsNotSized)
  {
  }

  /** The orders route with its intent: source `orders`, no items, the original query. */
  lemma RunOrders(query: string, ctx: map<string, Value>, plan: SearchPlan, transport: Request -> HttpOutcome)
    requires plan.route == Orders && plan.orders.Some?
    ensures Run(query, ctx, plan, transport) == Ok(Envelope(OrdersSource, PlanJson(plan), EmptyList, query))
  {
  }

  /** The generic route with its intent: no items, and the model's rewritten query. */
  lemma RunGeneric(query: string, ctx: map<string, Value>, plan: SearchPlan, transport: Request -> HttpOutcome)
    requires plan.route == GenericSearch && plan.generic.Some?
    ensures Run(query, ctx, plan, transport)
            == Ok(Envelope(GenericSource, PlanJson(plan), EmptyList, plan.generic.value.normalizedQuery))
  {
  }

  /**
   * Only the route's own slot is consulted: plans that agree on the route and
   * that slot get the same answer except for the plan they carry.
   */
  lemma OnlyRouteSlotConsulted(query: string, ctx: map<string, Value>, p: SearchPlan, p': SearchPlan,
                               transport: Request -> HttpOutcome)
    requires p.route == p'.route
    requires p.route == UserBehavior ==> p.userBehavior == p'.userBehavior
    requires p.route == Orders ==> p.orders == p'.orders
    requires p.route == GenericSearch ==> p.generic == p'.generic
    ensures Run(query, ctx, p, transport).Ok? == Run(query, ctx, p', transport).Ok?
    ensures Run(query, ctx, p, transport).Err? ==> Run(query, ctx, p, transport) == Run(query, ctx, p', transport)
    ensures Run(query, ctx, p, transport).Ok? ==>
              Run(query, ctx, p', transport).value == Run(query, ctx, p, transport).value.(plan := PlanJson(p'))
  {
  }

  /** Off the behaviour branch nothing is sent: the transport cannot affect the answer. */
  lemma TransportOnlyForUserBehavior(query: string, ctx: map<string, Value>, plan: SearchPlan,
                                     transport: Request -> HttpOutcome, transport': Request -> HttpOutcome)
    requires !(plan.route == UserBehavior && plan.userBehavior.Some?)
    ensures Run(query, ctx, plan, transport) == Run(query, ctx, plan, transport')
    ensures Run(query, ctx, plan, transport).Ok?
  {
  }

  /** The black-jeans query for user "42", with the backend answering `{events: []}`. */
  lemma {:induction false} BlackJeansEndToEnd(rationale: string, transport: Request -> HttpOutcome)
    requires transport(AnalyticsRequest(
               StructuredQuery(UserEvent, map[
                 "user_id" := JString("42"),
                 "type" := JString("search"),
                 "product_category" := JString("jeans"),
                 "meta" := JObject(map["color" := JString("black")]),
                 "time_window" := JString("10m")]),
               map["user_id" := JString("42")]))
             == Response(200, JsonBody(JObject(map["events" := EmptyList])))
    ensures var intent := UserBehaviorIntent(Search, Some("jeans"), map["color" := "black"], Some("10m"));
            var plan := SearchPlan(UserBehavior, None, Some(intent), None, rationale);
            var query := "show me all the black jeans I searched for in the last 10 mins";
            Run(query, map["user_id" := JString("42")], plan, transport)
            == Ok(Envelope(UserEvents, PlanJson(plan), EmptyList, query))
  {
    var intent := UserBehaviorIntent(Search, Some("jeans"), map["color" := "black"], Some("10m"));
    var plan := SearchPlan(UserBehavior, None, Some(intent), None, rationale);
    var query := "show me all the black jeans I searched for in the last 10 mins";
    var ctx := map["user_id" := JString("42")];
    BlackJeansExample(JString("42"));
    var events := NormalizeBody(JObject(map["events" := EmptyList]));
    assert events == EmptyList && Sized(events);
    RunUserBehavior(query, ctx, plan, transport);
  }
}
