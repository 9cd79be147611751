/**
 * The intent and plan records the router produces and the structured query
 * sent to the backend, with their literal domains and defaults.
 *
 * Each record has the dictionary form `.dict()` gives it (`...Json`) and the
 * validation that builds it back from such a dictionary (`...FromJson`),
 * which is where the literal domains, required fields and defaults of the
 * schema take effect.
 */
module Planning {
  import opened Options
  import opened Json

  // ---------------------------------------------------------------------
  // Literal domains
  // ---------------------------------------------------------------------

  /** The three handling routes. */
  datatype Route = GenericSearch | UserBehavior | Orders

  function RouteName(r: Route): string {
    match r
    case GenericSearch => "generic_search"
    case UserBehavior => "user_behavior"
    case Orders => "orders"
  }

  /** Validation of a `route` literal: accepts exactly the three route names. */
  function RouteFromName(s: string): (r: Option<Route>)
    ensures forall x: Route :: r == Some(x) <==> RouteName(x) == s
  {
    if s == "generic_search" then Some(GenericSearch)
    else if s == "user_behavior" then Some(UserBehavior)
    else if s == "orders" then Some(Orders)
    else None
  }

  /** The user actions a behaviour intent can name, mapped to a user event's type. */
  datatype Action = View | Search | AddToCart | Purchase | Unknown

  function ActionName(a: Action): string {
    match a
    case View => "view"
    case Search => "search"
    case AddToCart => "add_to_cart"
    case Purchase => "purchase"
    case Unknown => "unknown"
  }

  /** Validation of an `action` literal: accepts exactly the five action names. */
  function ActionFromName(s: string): (r: Option<Action>)
    ensures forall x: Action :: r == Some(x) <==> ActionName(x) == s
  {
    if s == "view" then Some(View)
    else if s == "search" then Some(Search)
    else if s == "add_to_cart" then Some(AddToCart)
    else if s == "purchase" then Some(Purchase)
    else if s == "unknown" then Some(Unknown)
    else None
  }

  /** What an orders intent asks for. */
  datatype Purpose = ViewHistory | ReorderUsual | AddUsualToCart | PurposeUnknown

  function PurposeName(p: Purpose): string {
    match p
    case ViewHistory => "view_history"
    case ReorderUsual => "reorder_usual"
    case AddUsualToCart => "add_usual_to_cart"
    case PurposeUnknown => "unknown"
  }

  /** Validation of a `purpose` literal: accepts exactly the four purpose names. */
  function PurposeFromName(s: string): (r: Option<Purpose>)
    ensures forall x: Purpose :: r == Some(x) <==> PurposeName(x) == s
  {
    if s == "view_history" then Some(ViewHistory)
    else if s == "reorder_usual" then Some(ReorderUsual)
    else if s == "add_usual_to_cart" then Some(AddUsualToCart)
    else if s == "unknown" then Some(PurposeUnknown)
    else None
  }

  /** The backend entities a structured query can target. */
  datatype Entity = UserEvent | Order | Product

  function EntityName(e: Entity): string {
    match e
    case UserEvent => "user_event"
    case Order => "order"
    case Product => "product"
  }

  /** Validation of an `entity` literal: accepts exactly the three entity names. */
  function EntityFromName(s: string): (r: Option<Entity>)
    ensures forall x: Entity :: r == Some(x) <==> EntityName(x) == s
  {
    if s == "user_event" then Some(UserEvent)
    else if s == "order" then Some(Order)
    else if s == "product" then Some(Product)
    else None
  }

  // ---------------------------------------------------------------------
  // Records
  // ---------------------------------------------------------------------

  /**
   * A behaviour lookup: which action, an optional category, free-form
   * attribute filters and an optional shorthand time window ("10m", "7d").
   * Its route tag is fixed, so it is not a field (see `Tag`).
   */
  datatype UserBehaviorIntent = UserBehaviorIntent(
    action: Action,
    productCategory: Option<string>,
    attributes: map<string, string>,
    timeWindow: Option<string>)
  {
    function Tag(): Route { UserBehavior }
  }

  /** An order or cart lookup. */
  datatype OrdersIntent = OrdersIntent(purpose: Purpose, productCategory: Option<string>)
  {
    function Tag(): Route { Orders }
  }

  /** A plain product search with the model's rewritten query. */
  datatype GenericSearchIntent = GenericSearchIntent(normalizedQuery: string)
  {
    function Tag(): Route { GenericSearch }
  }

  /**
   * The router's decision. The three intent slots are independent options:
   * nothing forces exactly one of them, or the one matching `route`, to be set.
   */
  datatype SearchPlan = SearchPlan(
    route: Route,
    generic: Option<GenericSearchIntent>,
    userBehavior: Option<UserBehaviorIntent>,
    orders: Option<OrdersIntent>,
    rationale: string)

  /** The backend-agnostic query: a target entity and an open filter map. */
  datatype StructuredQuery = StructuredQuery(entity: Entity, filters: map<string, Value>)

  /** Field defaults of the schema. */
  const DefaultUserBehaviorIntent := UserBehaviorIntent(Unknown, None, map[], None)
  const DefaultOrdersIntent := OrdersIntent(PurposeUnknown, None)
  const DefaultStructuredQuery := StructuredQuery(UserEvent, map[])

  // ---------------------------------------------------------------------
  // Dictionary form (`.dict()`)
  // ---------------------------------------------------------------------

  function OptionalStringJson(o: Option<string>): Value {
    match o
    case None => JNull
    case Some(s) => JString(s)
  }

  function AttributesJson(a: map<string, string>): Value {
    JObject(map k | k in a :: JString(a[k]))
  }

  function UserBehaviorJson(i: UserBehaviorIntent): (v: Value)
    ensures v.JObject? && v.fields.Keys == {"route", "action", "product_category", "attributes", "time_window"}
    ensures v.fields["route"] == JString("user_behavior")
  {
    JObject(map[
      "route" := JString(RouteName(i.Tag())),
      "action" := JString(ActionName(i.action)),
      "product_category" := OptionalStringJson(i.productCategory),
      "attributes" := AttributesJson(i.attributes),
      "time_window" := OptionalStringJson(i.timeWindow)])
  }

  function OrdersJson(i: OrdersIntent): (v: Value)
    ensures v.JObject? && v.fields.Keys == {"route", "purpose", "product_category"}
    ensures v.fields["route"] == JString("orders")
  {
    JObject(map[
      "route" := JString(RouteName(i.Tag())),
      "purpose" := JString(PurposeName(i.purpose)),
      "product_category" := OptionalStringJson(i.productCategory)])
  }

  function GenericJson(i: GenericSearchIntent): (v: Value)
    ensures v.JObject? && v.fields.Keys == {"route", "normalized_query"}
    ensures v.fields["route"] == JString("generic_search")
  {
    JObject(map[
      "route" := JString(RouteName(i.Tag())),
      "normalized_query" := JString(i.normalizedQuery)])
  }

  function PlanJson(p: SearchPlan): (v: Value)
    ensures v.JObject? && v.fields.Keys == {"route", "generic", "user_behavior", "orders", "rationale"}
    ensures v.fields["route"].JString? && RouteFromName(v.fields["route"].s) == Some(p.route)
    ensures v.fields["generic"] == JNull <==> p.generic.None?
    ensures v.fields["user_behavior"] == JNull <==> p.userBehavior.None?
    ensures v.fields["orders"] == JNull <==> p.orders.None?
    ensures p.generic.Some? ==> v.fields["generic"] == GenericJson(p.generic.value)
    ensures p.userBehavior.Some? ==> v.fields["user_behavior"] == UserBehaviorJson(p.userBehavior.value)
    ensures p.orders.Some? ==> v.fields["orders"] == OrdersJson(p.orders.value)
  {
    JObject(map[
      "route" := JString(RouteName(p.route)),
      "generic" := (match p.generic case None => JNull case Some(g) => GenericJson(g)),
      "user_behavior" := (match p.userBehavior case None => JNull case Some(u) => UserBehaviorJson(u)),
      "orders" := (match p.orders case None => JNull case Some(o) => OrdersJson(o)),
      "rationale" := JString(p.rationale)])
  }

  function QueryJson(q: StructuredQuery): (v: Value)
    ensures v.JObject? && v.fields.Keys == {"entity", "filters"}
    ensures v.fields["entity"].JString? && EntityFromName(v.fields["entity"].s) == Some(q.entity)
    ensures v.fields["filters"] == JObject(q.filters)
  {
    JObject(map["entity" := JString(EntityName(q.entity)), "filters" := JObject(q.filters)])
  }

  // ---------------------------------------------------------------------
  // Validation from a dictionary
  // ---------------------------------------------------------------------

  /**
   * An `Optional[str]` field: missing or `null` gives `None`, a string gives
   * that string, anything else fails validation (outer `None`).
   */
  function OptionalStringField(m: map<string, Value>, k: string): (r: Option<Option<string>>)
    ensures r == Some(None) <==> k !in m || m[k] == JNull
    ensures forall s :: r == Some(Some(s)) <==> k in m && m[k] == JString(s)
  {
    if k !in m then Some(None)
    else match m[k]
      case JNull => Some(None)
      case JString(s) => Some(Some(s))
      case _ => None
  }

  /** A `Dict[str, str]` value: an object whose every value is a string. */
  function AttributesFromJson(v: Value): (r: Option<map<string, string>>)
    ensures r.Some? <==> v.JObject? && forall k | k in v.fields :: v.fields[k].JString?
    ensures r.Some? ==> r.value.Keys == v.fields.Keys
    ensures r.Some? ==> forall k | k in r.value :: v.fields[k] == JString(r.value[k])
  {
    match v
    case JObject(m) =>
      if forall k | k in m :: m[k].JString? then Some(map k | k in m :: m[k].s) else None
    case _ => None
  }

  /** A dictionary accepted as attributes is exactly the dictionary form of what it was read as. */
  lemma {:induction false} AttributesFromJsonExact(v: Value)
    ensures AttributesFromJson(v).Some? ==> AttributesJson(AttributesFromJson(v).value) == v
  {
    if AttributesFromJson(v).Some? {
      var a := AttributesFromJson(v).value;
      assert AttributesJson(a).fields.Keys == v.fields.Keys;
      assert AttributesJson(a).fields == v.fields;
    }
  }

  /**
   * A fixed `route` tag: it may be omitted (the default applies), but if
   * given it must be exactly the intent's own route name.
   */
  predicate TagAccepted(m: map<string, Value>, tag: Route) {
    "route" !in m || m["route"] == JString(RouteName(tag))
  }

  function UserBehaviorFromJson(v: Value): (r: Option<UserBehaviorIntent>)
    ensures r.Some? <==>
      v.JObject? && TagAccepted(v.fields, UserBehavior)
      && ("action" in v.fields ==> v.fields["action"].JString? && ActionFromName(v.fields["action"].s).Some?)
      && ("attributes" in v.fields ==> AttributesFromJson(v.fields["attributes"]).Some?)
      && OptionalStringField(v.fields, "product_category").Some?
      && OptionalStringField(v.fields, "time_window").Some?
    ensures r.Some? && "action" !in v.fields ==> r.value.action == Unknown
    ensures r.Some? && "attributes" !in v.fields ==> r.value.attributes == map[]
    ensures r.Some? && "product_category" !in v.fields ==> r.value.productCategory == None
    ensures r.Some? && "time_window" !in v.fields ==> r.value.timeWindow == None
    ensures r.Some? && "action" in v.fields ==> v.fields["action"] == JString(ActionName(r.value.action))
    ensures r.Some? && "attributes" in v.fields ==> v.fields["attributes"] == AttributesJson(r.value.attributes)
    ensures r.Some? && "product_category" in v.fields ==>
              v.fields["product_category"] == OptionalStringJson(r.value.productCategory)
    ensures r.Some? && "time_window" in v.fields ==> v.fields["time_window"] == OptionalStringJson(r.value.timeWindow)
  {
    AttributesFromJsonExact(if v.JObject? then Get(v.fields, "attributes") else JNull);
    match v
    case JObject(m) =>
      if !TagAccepted(m, UserBehavior) then None
      else
        var action :=
          if "action" !in m then Some(Unknown)
          else if m["action"].JString? then ActionFromName(m["action"].s)
          else None;
        var attributes := if "attributes" !in m then Some(map[]) else AttributesFromJson(m["attributes"]);
        var category := OptionalStringField(m, "product_category");
        var window := OptionalStringField(m, "time_window");
        if action.Some? && attributes.Some? && category.Some? && window.Some? then
          Some(UserBehaviorIntent(action.value, category.value, attributes.value, window.value))
        else None
    case _ => None
  }

  function OrdersFromJson(v: Value): (r: Option<OrdersIntent>)
    ensures r.Some? <==>
      v.JObject? && TagAccepted(v.fields, Orders)
      && ("purpose" in v.fields ==> v.fields["purpose"].JString? && PurposeFromName(v.fields["purpose"].s).Some?)
      && OptionalStringField(v.fields, "product_category").Some?
    ensures r.Some? && "purpose" !in v.fields ==> r.value.purpose == PurposeUnknown
    ensures r.Some? && "product_category" !in v.fields ==> r.value.productCategory == None
    ensures r.Some? && "purpose" in v.fields ==> v.fields["purpose"] == JString(PurposeName(r.value.purpose))
    ensures r.Some? && "product_category" in v.fields ==>
              v.fields["product_category"] == OptionalStringJson(r.value.productCategory)
  {
    match v
    case JObject(m) =>
      if !TagAccepted(m, Orders) then None
      else
        var purpose :=
          if "purpose" !in m then Some(PurposeUnknown)
          else if m["purpose"].JString? then PurposeFromName(m["purpose"].s)
          else None;
        var category := OptionalStringField(m, "product_category");
        if purpose.Some? && category.Some? then Some(OrdersIntent(purpose.value, category.value))
        else None
    case _ => None
  }

  function GenericFromJson(v: Value): (r: Option<GenericSearchIntent>)
    ensures r.Some? <==>
      v.JObject? && TagAccepted(v.fields, GenericSearch)
      && "normalized_query" in v.fields && v.fields["normalized_query"].JString?
    ensures r.Some? ==> v.fields["normalized_query"] == JString(r.value.normalizedQuery)
  {
    match v
    case JObject(m) =>
      if TagAccepted(m, GenericSearch) && "normalized_query" in m && m["normalized_query"].JString? then
        Some(GenericSearchIntent(m["normalized_query"].s))
      else None
    case _ => None
  }

  /** An optional nested record: missing or `null` is `None`, otherwise it must validate. */
  function OptionalField<T(!new)>(m: map<string, Value>, k: string, decode: Value -> Option<T>): (r: Option<Option<T>>)
    ensures r == Some(None) <==> k !in m || m[k] == JNull
    ensures forall x: T :: r == Some(Some(x)) <==> k in m && m[k] != JNull && decode(m[k]) == Some(x)
  {
    if k !in m || m[k] == JNull then Some(None)
    else match decode(m[k])
      case None => None
      case Some(x) => Some(Some(x))
  }

  function PlanFromJson(v: Value): (r: Option<SearchPlan>)
    ensures r.Some? <==>
      v.JObject? && "route" in v.fields && v.fields["route"].JString? && RouteFromName(v.fields["route"].s).Some?
      && "rationale" in v.fields && v.fields["rationale"].JString?
      && OptionalField(v.fields, "generic", GenericFromJson).Some?
      && OptionalField(v.fields, "user_behavior", UserBehaviorFromJson).Some?
      && OptionalField(v.fields, "orders", OrdersFromJson).Some?
    ensures r.Some? ==> v.fields["route"] == JString(RouteName(r.value.route))
    ensures r.Some? && "generic" !in v.fields ==> r.value.generic == None
    ensures r.Some? && "user_behavior" !in v.fields ==> r.value.userBehavior == None
    ensures r.Some? && "orders" !in v.fields ==> r.value.orders == None
    ensures r.Some? ==> v.fields["rationale"] == JString(r.value.rationale)
    ensures r.Some? ==> OptionalField(v.fields, "generic", GenericFromJson) == Some(r.value.generic)
    ensures r.Some? ==> OptionalField(v.fields, "user_behavior", UserBehaviorFromJson) == Some(r.value.userBehavior)
    ensures r.Some? ==> OptionalField(v.fields, "orders", OrdersFromJson) == Some(r.value.orders)
  {
    match v
    case JObject(m) =>
      if "route" !in m || !m["route"].JString? || "rationale" !in m || !m["rationale"].JString? then None
      else
        var route := RouteFromName(m["route"].s);
        var generic := OptionalField(m, "generic", GenericFromJson);
        var userBehavior := OptionalField(m, "user_behavior", UserBehaviorFromJson);
        var orders := OptionalField(m, "orders", OrdersFromJson);
        if route.Some? && generic.Some? && userBehavior.Some? && orders.Some? then
          Some(SearchPlan(route.value, generic.value, userBehavior.value, orders.value, m["rationale"].s))
        else None
    case _ => None
  }

  function QueryFromJson(v: Value): (r: Option<StructuredQuery>)
    ensures r.Some? <==>
      v.JObject?
      && ("entity" in v.fields ==> v.fields["entity"].JString? && EntityFromName(v.fields["entity"].s).Some?)
      && ("filters" in v.fields ==> v.fields["filters"].JObject?)
    ensures r.Some? && "entity" !in v.fields ==> r.value.entity == UserEvent
    ensures r.Some? && "filters" !in v.fields ==> r.value.filters == map[]
    ensures r.Some? && "filters" in v.fields ==> v.fields["filters"] == JObject(r.value.filters)
    ensures r.Some? && "entity" in v.fields ==> v.fields["entity"] == JString(EntityName(r.value.entity))
  {
    match v
    case JObject(m) =>
      var entity :=
        if "entity" !in m then Some(UserEvent)
        else if m["entity"].JString? then EntityFromName(m["entity"].s)
        else None;
      var filters :=
        if "filters" !in m then Some(map[])
        else if m["filters"].JObject? then Some(m["filters"].fields)
        else None;
      if entity.Some? && filters.Some? then Some(StructuredQuery(entity.value, filters.value)) else None
    case _ => None
  }

  // ---------------------------------------------------------------------
  // Properties
  // ---------------------------------------------------------------------

  /** Validating an empty object gives each record's defaults. */
  lemma DefaultsFromEmptyObject()
    ensures UserBehaviorFromJson(JObject(map[])) == Some(DefaultUserBehaviorIntent)
    ensures OrdersFromJson(JObject(map[])) == Some(DefaultOrdersIntent)
    ensures QueryFromJson(JObject(map[])) == Some(DefaultStructuredQuery)
    ensures GenericFromJson(JObject(map[])) == None
  {
  }

  /** Defaults apply field by field: partial intents and queries validate. */
  lemma PartialObjectsValidate()
    ensures UserBehaviorFromJson(JObject(map["action" := JString("search")]))
            == Some(UserBehaviorIntent(Search, None, map[], None))
    ensures OrdersFromJson(JObject(map["purpose" := JString("reorder_usual")]))
            == Some(OrdersIntent(ReorderUsual, None))
    ensures QueryFromJson(JObject(map["entity" := JString("order")])) == Some(StructuredQuery(Order, map[]))
  {
  }

  /**
   * The router's usual answer validates: an orders plan that omits the other
   * slots, and carries a key the schema does not know, which is ignored.
   */
  lemma RouterPlanValidates(rationale: string, extra: Value)
    ensures PlanFromJson(JObject(map[
              "route" := JString("orders"),
              "orders" := JObject(map["purpose" := JString("reorder_usual")]),
              "rationale" := JString(rationale),
              "confidence" := extra]))
            == Some(SearchPlan(Orders, None, None, Some(OrdersIntent(ReorderUsual, None)), rationale))
  {
    var m := map[
      "route" := JString("orders"),
      "orders" := JObject(map["purpose" := JString("reorder_usual")]),
      "rationale" := JString(rationale),
      "confidence" := extra];
    assert RouteFromName("orders") == Some(Orders);
    assert OrdersFromJson(m["orders"]) == Some(OrdersIntent(ReorderUsual, None));
    assert OptionalField(m, "generic", GenericFromJson) == Some(None);
    assert OptionalField(m, "user_behavior", UserBehaviorFromJson) == Some(None);
  }

  /** Every intent's dictionary carries its own route tag, and no other tag validates. */
  lemma IntentTagsFixed(u: UserBehaviorIntent, o: OrdersIntent, g: GenericSearchIntent, v: Value)
    ensures UserBehaviorJson(u).fields["route"] == JString("user_behavior")
    ensures OrdersJson(o).fields["route"] == JString("orders")
    ensures GenericJson(g).fields["route"] == JString("generic_search")
    ensures v.JObject? && "route" in v.fields && v.fields["route"] != JString("user_behavior")
            ==> UserBehaviorFromJson(v) == None
    ensures v.JObject? && "route" in v.fields && v.fields["route"] != JString("orders")
            ==> OrdersFromJson(v) == None
    ensures v.JObject? && "route" in v.fields && v.fields["route"] != JString("generic_search")
            ==> GenericFromJson(v) == None
  {
  }

  lemma {:induction false} AttributesRoundTrip(a: map<string, string>)
    ensures AttributesFromJson(AttributesJson(a)) == Some(a)
  {
    var back := AttributesFromJson(AttributesJson(a));
    assert back.Some?;
    assert back.value.Keys == a.Keys;
    forall k | k in a ensures back.value[k] == a[k] {
      assert AttributesJson(a).fields[k] == JString(a[k]);
    }
    assert back.value == a;
  }

  lemma {:induction false} UserBehaviorRoundTrip(i: UserBehaviorIntent)
    ensures UserBehaviorFromJson(UserBehaviorJson(i)) == Some(i)
  {
    AttributesRoundTrip(i.attributes);
    var m := UserBehaviorJson(i).fields;
    assert m["action"] == JString(ActionName(i.action));
    assert ActionFromName(ActionName(i.action)) == Some(i.action);
  }

  lemma OrdersRoundTrip(i: OrdersIntent)
    ensures OrdersFromJson(OrdersJson(i)) == Some(i)
  {
  }

  lemma GenericSlotRoundTrip(p: SearchPlan)
    ensures OptionalField(PlanJson(p).fields, "generic", GenericFromJson) == Some(p.generic)
  {
    if p.generic.Some? {
      assert GenericFromJson(GenericJson(p.generic.value)) == Some(p.generic.value);
    }
  }

  lemma UserBehaviorSlotRoundTrip(p: SearchPlan)
    ensures OptionalField(PlanJson(p).fields, "user_behavior", UserBehaviorFromJson) == Some(p.userBehavior)
  {
    if p.userBehavior.Some? {
      UserBehaviorRoundTrip(p.userBehavior.value);
    }
  }

  lemma OrdersSlotRoundTrip(p: SearchPlan)
    ensures OptionalField(PlanJson(p).fields, "orders", OrdersFromJson) == Some(p.orders)
  {
    if p.orders.Some? {
      OrdersRoundTrip(p.orders.value);
    }
  }

  /** The plan's dictionary form loses nothing: validating it gives the plan back. */
  lemma {:induction false} PlanRoundTrip(p: SearchPlan)
    ensures PlanFromJson(PlanJson(p)) == Some(p)
  {
    var m := PlanJson(p).fields;
    assert m["route"] == JString(RouteName(p.route)) && m["rationale"] == JString(p.rationale);
    assert RouteFromName(RouteName(p.route)) == Some(p.route);
    GenericSlotRoundTrip(p);
    UserBehaviorSlotRoundTrip(p);
    OrdersSlotRoundTrip(p);
  }

  /** Two plans with the same dictionary form are the same plan. */
  lemma PlanJsonInjective(p: SearchPlan, p': SearchPlan)
    ensures PlanJson(p) == PlanJson(p') <==> p == p'
  {
    if PlanJson(p) == PlanJson(p') {
      PlanRoundTrip(p);
      PlanRoundTrip(p');
    }
  }

  /**
   * The one-slot convention is not enforced: a plan with no intent at all
   * validates.
   */
  lemma EmptyPlanValidates()
    ensures PlanFromJson(JObject(map["route" := JString("user_behavior"), "rationale" := JString("")]))
            == Some(SearchPlan(UserBehavior, None, None, None, ""))
  {
    var empty := map["route" := JString("user_behavior"), "rationale" := JString("")];
    assert RouteFromName("user_behavior") == Some(UserBehavior);
    assert OptionalField(empty, "generic", GenericFromJson) == Some(None);
    assert OptionalField(empty, "user_behavior", UserBehaviorFromJson) == Some(None);
    assert OptionalField(empty, "orders", OrdersFromJson) == Some(None);
  }

  /** Nor is the slot checked against the route: intents only in other slots validate. */
  lemma OffRoutePlanValidates(g: GenericSearchIntent, o: OrdersIntent)
    ensures PlanFromJson(JObject(map[
              "route" := JString("user_behavior"),
              "generic" := GenericJson(g),
              "orders" := OrdersJson(o),
              "rationale" := JString("")]))
            == Some(SearchPlan(UserBehavior, Some(g), None, Some(o), ""))
  {
    var two := map[
      "route" := JString("user_behavior"),
      "generic" := GenericJson(g),
      "orders" := OrdersJson(o),
      "rationale" := JString("")];
    assert RouteFromName("user_behavior") == Some(UserBehavior);
    OrdersRoundTrip(o);
    assert GenericFromJson(two["generic"]) == Some(g);
    assert OptionalField(two, "generic", GenericFromJson) == Some(Some(g));
    assert OptionalField(two, "user_behavior", UserBehaviorFromJson) == Some(None);
    assert OptionalField(two, "orders", OrdersFromJson) == Some(Some(o));
  }

  lemma QueryRoundTrip(q: StructuredQuery)
    ensures QueryFromJson(QueryJson(q)) == Some(q)
  {
  }
}
