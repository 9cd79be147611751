# Search-routing core, modelled in Dafny

This project models the deterministic layer of an agentic e-commerce search
service. That layer sits between the language-model router and the external
backend (the "Body"). It has four parts:

- **Intent and plan records** (`Planning`). These are the three intents
  (user behaviour, orders, generic search), the three-slot `SearchPlan` the
  router returns, and the `StructuredQuery` sent to the backend. The module
  gives their literal domains and defaults, their dictionary form (`.dict()`),
  and the schema validation that reads that form back.
- **Structured-query builder** (`UsersAgent`). It turns a behaviour intent and
  the caller's context dictionary into filters on `user_event`. Each filter key
  follows its own presence rule.
- **Analytics client** (`AnalyticsTool`). It sends one POST of
  `{query, user_context}`, maps transport errors and non-2xx statuses to the
  single service error, and normalises the response body to the `events`
  value, the bare list, or `[]`.
- **Dispatcher** (`SearchAgent`). It runs the handler for the plan's route when
  the matching slot is filled, and otherwise falls back to generic search on the
  original query. It always returns the `source`/`plan`/`items`/
  `ai_rewritten_query` envelope.

Shared modules:

- `Options` holds `Option` and `Result`. A `Result` stands for a call that may
  raise.
- `Json` holds the decoded JSON value type and Python's truthiness.

The router's output is an input parameter: `Run` accepts any `SearchPlan`. The
HTTP exchange is also a parameter: a function from the request sent to the
outcome reported, which is a transport error or a response with a status and a
body.

Behaviour of the code that is easy to miss, and how the model keeps it:

- `ai_rewritten_query` is the original query on the user-behaviour and orders
  routes. It is the model's `normalized_query` only on the generic route.
- A category or time window adds a filter only when it is a non-empty string.
  The code's test is truthiness, not presence.
- `run_analytics_query` returns `data["events"]` as it is, even when it is not
  a list. `fetch_events` then takes its `len` for a debug log line. That raises
  `TypeError` when the events are `null`, a boolean or a number, so such a
  success response fails the request with an error that is not a service
  error. The model keeps it as the separate failure `EventsNotSized`.
- A 2xx body that is not JSON makes `resp.json()` raise. That decoding error is
  not caught, so it is not a service error. The model keeps it as the separate
  failure `BodyNotJson`.
- The one-intent-per-plan convention is not enforced by the schema.
  `Planning.EmptyPlanValidates` and `Planning.OffRoutePlanValidates` show plans
  with no slot, or only off-route slots, validating.

## Model

| member | source | states |
|---|---|---|
| `Planning.RouteFromName` | core/planning.py:64 | a route literal is accepted exactly when it is one of the three route names, and maps back to that name |
| `Planning.ActionFromName` | core/planning.py:26 | an action literal is accepted exactly when it is one of view, search, add_to_cart, purchase, unknown |
| `Planning.PurposeFromName` | core/planning.py:44 | a purpose literal is accepted exactly when it is one of view_history, reorder_usual, add_usual_to_cart, unknown |
| `Planning.EntityFromName` | core/planning.py:90 | an entity literal is accepted exactly when it is one of user_event, order, product |
| `Planning.OptionalStringField` | core/planning.py:29 | an optional string field reads as absent when missing or null, and as the string when one is given |
| `Planning.AttributesFromJson` | core/planning.py:32 | the attributes dictionary is accepted exactly when every value is a string, and keeps every key and value |
| `Planning.UserBehaviorJson` | core/planning.py:8-35 | a behaviour intent's dictionary has exactly the route, action, category, attributes and window keys, with route tag `user_behavior` |
| `Planning.OrdersJson` | core/planning.py:38-45 | an orders intent's dictionary has exactly the route, purpose and category keys, with route tag `orders` |
| `Planning.GenericJson` | core/planning.py:48-54 | a generic intent's dictionary has exactly the route and `normalized_query` keys, with route tag `generic_search` |
| `Planning.PlanJson` | agents/search_agent.py:103 | a plan's dictionary has exactly its five fields; the route tag names the plan's route, and each intent slot is `null` exactly when it is empty and otherwise exactly that intent's own dictionary |
| `Planning.QueryJson` | tools/analytics_tool.py:32 | a structured query's dictionary has exactly `entity` and `filters`; the entity tag names its entity and the filters are passed as they are |
| `Planning.AttributesFromJsonExact` | core/planning.py:32 | an accepted attributes dictionary is exactly the dictionary form of the string map it reads as |
| `Planning.UserBehaviorFromJson` | core/planning.py:23-35 | an object validates exactly when its route tag, if given, is `user_behavior` and each given field is valid on its own (a known action name, string-valued attributes, a string or `null` category and window), whatever other keys it has; a given action, attributes, category or window is exactly the one validated (the attributes' dictionary form, the category's string, `null` for none), and a missing action is `unknown`, missing attributes are empty, and a missing category or window is absent |
| `Planning.OrdersFromJson` | core/planning.py:38-45 | an object validates exactly when its route tag, if given, is `orders`, a given purpose is a known name and a given category is a string or `null`, whatever other keys it has; a given purpose or category is exactly the one validated, a missing purpose is `unknown` and a missing category is absent |
| `Planning.GenericFromJson` | core/planning.py:53-54 | a generic intent validates exactly when its tag is acceptable and `normalized_query` is a string, which it then carries |
| `Planning.OptionalField` | core/planning.py:65-67 | an intent slot is empty exactly when missing or null, and otherwise holds what its own validation gives |
| `Planning.PlanFromJson` | core/planning.py:57-68 | an object validates exactly when it has a known route name and a string rationale and each slot is missing, `null` or a valid intent, whatever other keys it has; its route and rationale are the ones given, each slot is what that slot's own validation gives, and a missing slot is empty |
| `Planning.QueryFromJson` | core/planning.py:71-94 | an object validates exactly when a given entity is a known name and given filters are an object, whatever other keys it has; a structured query's entity is the one named, defaulting to `user_event`, and its filters default to the empty map; given filters are kept as they are |
| `Planning.PartialObjectsValidate` | core/planning.py:23-94 | `{action: search}`, `{purpose: reorder_usual}` and `{entity: order}` validate, with the defaults for every missing field |
| `Planning.RouterPlanValidates` | core/planning.py:57-68 | an orders plan with no other slots and an extra key validates to that orders plan, the extra key ignored |
| `Planning.DefaultsFromEmptyObject` | core/planning.py:23-54 | validating `{}` gives each intent's and the query's defaults, while a generic intent needs its query |
| `Planning.IntentTagsFixed` | core/planning.py:23-53 | each intent's dictionary carries its own route tag, and an intent dictionary with any other tag does not validate |
| `Planning.AttributesRoundTrip` | core/planning.py:32 | the attributes dictionary reads back to the same string map |
| `Planning.UserBehaviorRoundTrip` | core/planning.py:8-35 | a behaviour intent's dictionary validates back to the same intent |
| `Planning.OrdersRoundTrip` | core/planning.py:38-45 | an orders intent's dictionary validates back to the same intent |
| `Planning.PlanRoundTrip` | core/planning.py:57-68 | a plan's dictionary validates back to the same plan, slots included |
| `Planning.PlanJsonInjective` | agents/search_agent.py:103 | two plans have the same dictionary exactly when they are the same plan |
| `Planning.EmptyPlanValidates` | core/planning.py:57-68 | a plan with no intent at all still validates |
| `Planning.OffRoutePlanValidates` | core/planning.py:57-68 | a plan whose intents are only in slots other than its route's still validates |
| `Planning.QueryRoundTrip` | core/planning.py:71-94 | a structured query's dictionary validates back to the same query |
| `UsersAgent.ResolveUserId` | agents/users_agent.py:52-57 | a truthy `user_id` is the id; otherwise `id` is, unless it is missing or null; with neither key there is no id |
| `UsersAgent.BuildStructuredQuery` | agents/users_agent.py:52-76 | the query targets `user_event`; its keys are a subset of the five filter keys; each key is present exactly under its own rule and then holds the resolved id, the action name, the category, the attributes or the window |
| `UsersAgent.BuildThenRead` | agents/users_agent.py:54-71 | reading the filters back gives the resolved user id and the intent, with empty strings read as absent |
| `UsersAgent.BuildSeesCanonical` | agents/users_agent.py:63-71 | an empty category or window string has the same effect as none |
| `UsersAgent.BuildInjectiveUpToCanonical` | agents/users_agent.py:54-76 | two intents give the same query in the same context exactly when they agree once empty strings are read as absent |
| `UsersAgent.NoSignalNoFilters` | agents/users_agent.py:54-76 | an intent with no signal, in a context from which no user id resolves (keys missing, or `null`, or a falsy `user_id` with a null `id`), yields empty filters on `user_event` |
| `UsersAgent.BlackJeansExample` | agents/users_agent.py:38-49 | search, jeans, `{color: black}`, `10m` for a user with any truthy id (42 in the docstring) yields exactly those five filters with that id |
| `UsersAgent.FetchEvents` | agents/users_agent.py:81-94 | fetching fails with the `len` error exactly when a 2xx JSON body is an object whose `events` value has no length; otherwise it fails as the analytics client does, or yields the normalised events, which then have a length |
| `AnalyticsTool.Payload` | tools/analytics_tool.py:31-34 | the body has exactly the keys `query` and `user_context`; the query is exactly the structured query's dictionary, which validates back to it, and the context is passed as it is |
| `AnalyticsTool.DigitChar` | tools/analytics_tool.py:48 | a digit value renders as a decimal digit character that reads back as that value |
| `AnalyticsTool.Decimal` | tools/analytics_tool.py:48 | a status code renders as a non-empty run of decimal digits with no leading zero |
| `AnalyticsTool.DecimalRoundTrip` | tools/analytics_tool.py:48 | the rendered status code reads back to the same number |
| `AnalyticsTool.MessagesIdentifyCause` | tools/analytics_tool.py:40-49 | the status error message names its status code, and the unavailability message names none and differs from it |
| `AnalyticsTool.NormalizeBody` | tools/analytics_tool.py:51-61 | an object with `events` yields that value unchanged; a list yields itself; any other shape yields `[]` without failing |
| `AnalyticsTool.HandleOutcome` | tools/analytics_tool.py:36-61 | a service error happens exactly on a transport error or a non-2xx status; its message is the unavailability message or, for a status, exactly "Analytics service error (status N)", which names N; a non-JSON 2xx body is the only other failure; a JSON 2xx body yields its normalised items |
| `AnalyticsTool.RunAnalyticsQuery` | tools/analytics_tool.py:19-61 | for the one request sent: the service error exactly on a transport error or a non-2xx status, the decoding error exactly on a non-JSON 2xx body, and otherwise the normalised body; never the `len` error |
| `AnalyticsTool.ErrorIgnoresBody` | tools/analytics_tool.py:39-49 | an error status fails the same way whatever body came with it |
| `AnalyticsTool.BackendShapesYieldEvents` | tools/analytics_tool.py:51-61 | `{events: xs}` and a bare list `xs` both yield `xs`; `{}` and `null` yield `[]` |
| `AnalyticsTool.Status500Example` | tools/analytics_tool.py:43-49 | an HTTP 500 gives the service error "Analytics service error (status 500)", which contains nothing from the body |
| `SearchAgent.SourceFromName` | agents/search_agent.py:96 | a `source` tag is accepted exactly when it is one of user_events, orders, generic_search, and maps back to that name |
| `SearchAgent.EnvelopeJson` | agents/search_agent.py:94-100 | the response has exactly the keys source, plan, items and ai_rewritten_query; the source tag names the handler and the other three are carried |
| `SearchAgent.HandleUserBehavior` | agents/search_agent.py:152-165 | for the built query's one request: the unavailability error on a transport error, the status error on a non-2xx status, the decoding error on a non-JSON 2xx body, and otherwise the normalised events if they have a length, else the `len` error |
| `SearchAgent.HandleOrders` | agents/orders_agent.py:21-28 | the orders stub answers no items |
| `SearchAgent.HandleGeneric` | agents/search_agent.py:174-187 | the generic stub answers no items |
| `SearchAgent.Run` | agents/search_agent.py:102-142 | only a filled behaviour route can fail; behaviour items have a length; the envelope's plan validates back to the full plan; the source follows the route when its slot is filled and is generic otherwise; generic and orders items are `[]`; the rewritten query is the original unless a filled generic route supplies one; an empty route slot falls back to generic search on the original query |
| `SearchAgent.RunUserBehavior` | agents/search_agent.py:106-113 | a filled behaviour route sends the built query and returns the normalised events with source `user_events` and the original query, or the client's error, or the `len` error when the events have no length |
| `SearchAgent.NullEventsRaise` | agents/users_agent.py:89-93 | a 2xx answer `{events: null}` (or a boolean or number there) fails the behaviour route with the `len` error, not a service error |
| `SearchAgent.RunOrders` | agents/search_agent.py:115-122 | a filled orders route returns source `orders`, no items and the original query |
| `SearchAgent.RunGeneric` | agents/search_agent.py:124-131 | a filled generic route returns source `generic_search`, no items and the model's normalised query |
| `SearchAgent.OnlyRouteSlotConsulted` | agents/search_agent.py:106-142 | plans that agree on the route and its slot get the same answer, apart from the plan they carry |
| `SearchAgent.TransportOnlyForUserBehavior` | agents/search_agent.py:106-142 | off the filled behaviour route, the transport cannot affect the answer and the call never fails |
| `SearchAgent.BlackJeansEndToEnd` | agents/search_agent.py:106-113 | the black-jeans query for user 42 with the backend answering `{events: []}` gives source `user_events` and no items |

## Left out

- The router chain is not modelled: the prompt text, the language-model call and the parsing of its text output (agents/search_agent.py:43-88, 144-150). `Run` takes the resulting `SearchPlan` as an arbitrary input.
- Schema validation is modelled only for exact JSON types. Pydantic's lax coercions (a number accepted for a string field, and so on) are not modelled. Extra keys are ignored, as pydantic ignores them.
- The HTTP client is not modelled: base URL, timeout and configuration (tools/http_client.py, config.py). A timeout is one kind of transport error, and the transport function stands for all of them.
- Status codes are non-negative integers.
- JSON numbers are kept as `real`. The model does not separate `int` from `float`, and it leaves out NaN and infinities.
- Logging calls are not modelled, apart from the `len(events)` that `fetch_events` evaluates for its debug line, which can raise. The other log calls have no effect on results.
- `UsersAgent.run` is not modelled. It only raises "not implemented" and nothing calls it.
- The orders agent and the generic handler are stubs that return `[]`. They appear only as `SearchAgent.HandleOrders` and `SearchAgent.HandleGeneric`.
- The HTTP endpoint is not modelled, and neither are the 502 translation of the service error, the response models, the event consumers, the retrieval demo or the forwarding app (api/, __api/, app/, consumers/, rag_struct/, main.py).
- The endpoint's passing of a context object, or `None`, in place of a dictionary is not modelled. The model's context is always a dictionary.
- The ordering of dictionary keys is not modelled. JSON objects are maps.
