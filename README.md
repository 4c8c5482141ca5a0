# Smart Airport live-event pipeline and AI rules, in Dafny

This project models the parts of the AI-powered Smart Airport Management System that carry
logic rather than plumbing:

- **The client live-state store** (`apiStore.ts`). It keeps two newest-first event buffers
  capped at 50 entries (security alerts, flight updates), five `{isLoading, error}` fetch
  slices and the data each fetch delivers. Staff and staff allocation share one slice. A fetch
  is modelled as `Begin` followed by one `Complete…` call, so overlapping fetches are
  interleavings of those calls.
- **The client request utilities** (`api.ts`). These are the retry loop with its doubling
  delay schedule, the error-message selection, the Bearer-header request interceptor and the
  401 clean-up interceptor. Browser storage is a class holding a `map<string, string>`.
- **The client's derived state**: the chatbot message list (`useChatbot.ts`), the flight
  search, filter and on-time statistics (`FlightsView.tsx`), the dashboard's alert defaults,
  active-flight fallback, live feed and bootstrap fetch set (`AdminDashboard.tsx`), the
  maintenance cards (`MaintenanceView.tsx`) and the auth token store (`authStore.ts`).
- **The server's event producers.** The event hub holds one inbox per connected client, and
  emitting an event appends it to every inbox. The notification service sends `notification`
  and `systemAlert` events. The baggage service sends an URGENT notification when a
  prediction lists anomalies. The AI client forwards each call to the prediction service and
  relays a security analysis to the hub when it reports anomalies. HTTP responses are method
  inputs: a success value or a failure.
- **The prediction service's rules** (`main.py`). These cover gate suggestions, security and
  baggage outcomes, maintenance thresholds, staff allocation and the chatbot's keyword
  classification. Each random draw, clock reading and Python's string `hash` is a parameter.

Stateful code is modelled imperatively. `Store`, `Auth`, `Chat`, `LocalStorage`, `Hub`,
`NotificationsService`, `AIService` and `BaggageService` are classes whose methods change
their fields. Each method is proved equal to a pure step function on a snapshot of the state
(`State() == Settled(old(State()), …)`), and the properties are proved as lemmas about those
step functions. Pure view logic is modelled as functions and lemmas. The gate-suggestion loop
of `optimize_flights` is a method with a loop invariant.

Two behaviours of the server are stated as the code has them:

- `sendNotification(userId, …)` takes an addressee, but the code emits with no room or socket
  filter, so the notification is delivered to every connected client, not only to that user's
  channels (`Notifications.NotificationIsNotScoped`). `Gateway.DeliveredTo` is
  the scoped policy, kept as a reference definition.
- `backend/src/gateway/app.gateway.ts` is not part of this model. Its `sendSecurityAlert` is
  taken to emit one `securityAlert` event carrying the analysis to every client, the event
  the browser subscribes to (`Gateway.Hub.SendSecurityAlert`).

## Model

| member | source | states |
|---|---|---|
| Text.Lower | frontend/src/views/FlightsView.tsx:19-20 | lower-casing keeps the length and lower-cases each character |
| Text.LowerIdempotent | frontend/src/views/FlightsView.tsx:19-20 | lower-casing twice is the same as lower-casing once |
| Text.EmptyContained | frontend/src/views/FlightsView.tsx:19 | every text contains the empty search term |
| Text.BeforeFirst | frontend/src/views/MaintenanceView.tsx:33 | the text before the first separator is a prefix free of the separator, followed by the separator if it is shorter than the input |
| Text.BeforeFirstOfJoin | frontend/src/views/MaintenanceView.tsx:33 | splitting `head + sep + tail` at its first separator gives back `head` |
| Text.Digits | ai-service/main.py:43 | decimal rendering is made of digits only, one digit below 10 and two below 100 |
| Text.DigitsRoundTrip | ai-service/main.py:43 | reading back a rendered number gives the number |
| BrowserStorage.LocalStorage.constructor | frontend/src/store/authStore.ts:12 | storage starts with the given items |
| BrowserStorage.LocalStorage.GetItem | frontend/src/store/authStore.ts:12 | a key's value is present exactly when the key is stored |
| BrowserStorage.LocalStorage.SetItem | frontend/src/store/authStore.ts:14 | writing a key changes only that key |
| BrowserStorage.LocalStorage.RemoveItem | frontend/src/services/api.ts:36-37 | removing a key drops only that key |
| Api.GetErrorMessage | frontend/src/services/api.ts:76-84 | an HTTP error gives the first non-empty of body message, body error and error message; a plain error gives its message; anything else gives the unknown-error text |
| Api.Pow2 | frontend/src/services/api.ts:66 | the backoff multiplier is at least 1 |
| Api.FirstSuccess | frontend/src/services/api.ts:60-62 | the first successful attempt among the first n: every earlier attempt failed, or none among the n succeeded |
| Api.FirstSuccessStable | frontend/src/services/api.ts:60-62 | once an attempt succeeds after failures, allowing more attempts does not change which attempt is the first success |
| Api.WithRetry | frontend/src/services/api.ts:53-73 | at most `maxRetries` calls; returns the first success and makes no further calls; waits `baseDelay * 2^k` after each failed attempt except the last; throws the last error after all attempts fail; no call and a null error when `maxRetries <= 0` |
| Api.WithBearer | frontend/src/services/api.ts:21-24 | `Authorization` becomes `Bearer <access_token>` exactly when a non-empty token is stored; otherwise the headers are unchanged; other headers are never touched |
| Api.AfterFailedResponse | frontend/src/services/api.ts:34-41 | a 401 removes exactly `access_token` and `user`; any other status leaves storage unchanged |
| Api.RequestConfig.constructor | frontend/src/services/api.ts:20 | a request configuration starts with the given headers |
| Api.AttachToken | frontend/src/services/api.ts:19-26 | the interceptor returns the same configuration with its headers rewritten by `WithBearer` |
| Api.RejectResponse | frontend/src/services/api.ts:33-42 | the error is rejected unchanged and storage is cleaned by `AfterFailedResponse` |
| ApiStore.Prepend | frontend/src/store/apiStore.ts:156 | the new entry is first, older entries shift by one, and the length is capped at 50 |
| ApiStore.EvictsOldest | frontend/src/store/apiStore.ts:156 | on a full buffer the oldest entry is dropped |
| ApiStore.Reverse | frontend/src/store/apiStore.ts:156 | reversal maps index i to index n-1-i |
| ApiStore.ReplayKeepsNewest | frontend/src/store/apiStore.ts:154-158 | after any event history the buffer holds the newest 50 events, newest first |
| ApiStore.Initial | frontend/src/store/apiStore.ts:70-152 | every slice is idle with no error, both buffers and all lists are empty, and every single result is null |
| ApiStore.AfterSecurityAlert | frontend/src/store/apiStore.ts:154-158 | the alert is at index 0, followed by at most 49 older alerts; nothing else in the store changes |
| ApiStore.AfterFlightUpdate | frontend/src/store/apiStore.ts:160-164 | the update is at index 0, followed by at most 49 older updates; nothing else in the store changes |
| ApiStore.Cleared | frontend/src/store/apiStore.ts:166-168 | both buffers become empty together; every slice and all data are unchanged |
| ApiStore.Started | frontend/src/store/apiStore.ts:74-141 | the fetch's slice becomes loading with no error; data, other slices and buffers are unchanged |
| ApiStore.Settled | frontend/src/store/apiStore.ts:77-146 | success replaces that fetch's data and idles its slice; failure keeps the data and records the error message; nothing else changes |
| ApiStore.StateExtensionality | frontend/src/store/apiStore.ts:68-168 | the slices, the data and the two buffers make up the whole store |
| ApiStore.LastArrivalWins | frontend/src/store/apiStore.ts:77-146 | of two completions of the same fetch, the later success decides the data and leaves the slice idle |
| ApiStore.FailureKeepsStaleData | frontend/src/store/apiStore.ts:79-146 | a failure after a success keeps the earlier data and shows the failure's error |
| ApiStore.SettleCommutes | frontend/src/store/apiStore.ts:77-146 | completions of fetches on different slices can arrive in either order with the same result |
| ApiStore.SharedStaffSlice | frontend/src/store/apiStore.ts:100-120 | a failed allocation fetch overwrites the shared staff slice's status while keeping the staff list the other fetch loaded |
| ApiStore.SettleAllElsewhere | frontend/src/store/apiStore.ts:77-146 | completions that touch other slices and fetches leave a slice and a fetch's data unchanged |
| ApiStore.SettleAllIndependent | frontend/src/store/apiStore.ts:77-146 | with completions on distinct slices, each slice ends exactly as its own completion left it |
| ApiStore.Store.constructor | frontend/src/store/apiStore.ts:68-152 | a new store is in the initial state |
| ApiStore.Store.AddSecurityAlert | frontend/src/store/apiStore.ts:154-158 | the store moves to `AfterSecurityAlert` of its previous state |
| ApiStore.Store.AddFlightUpdate | frontend/src/store/apiStore.ts:160-164 | the store moves to `AfterFlightUpdate` of its previous state |
| ApiStore.Store.ClearAlerts | frontend/src/store/apiStore.ts:166-168 | the store moves to `Cleared` of its previous state |
| ApiStore.Store.Begin | frontend/src/store/apiStore.ts:74-141 | the store moves to `Started` for that fetch |
| ApiStore.Store.CompleteFetchFlights | frontend/src/store/apiStore.ts:76-80 | the store moves to `Settled` with the flights outcome |
| ApiStore.Store.CompleteFetchMaintenanceAssets | frontend/src/store/apiStore.ts:90-94 | the store moves to `Settled` with the maintenance outcome |
| ApiStore.Store.CompleteFetchStaff | frontend/src/store/apiStore.ts:105-109 | the store moves to `Settled` with the staff outcome |
| ApiStore.Store.CompleteFetchStaffAllocation | frontend/src/store/apiStore.ts:115-119 | the store moves to `Settled` with the allocation outcome, on the staff slice |
| ApiStore.Store.CompleteFetchDynamicPricing | frontend/src/store/apiStore.ts:129-133 | the store moves to `Settled` with the pricing outcome |
| ApiStore.Store.CompleteFetchEnvironmentStats | frontend/src/store/apiStore.ts:143-147 | the store moves to `Settled` with the environment outcome |
| AuthStore.StoredAfterSetUser | frontend/src/store/authStore.ts:13-16 | `token` is written with the new token and every other key is kept |
| AuthStore.StoredAfterLogout | frontend/src/store/authStore.ts:17-20 | `token` is removed and every other key is kept |
| AuthStore.LogoutKeepsBearer | frontend/src/store/authStore.ts:17-20 | after logout, a stored `access_token` still yields the same Bearer header |
| AuthStore.LogoutKeepsBearerExample | frontend/src/store/authStore.ts:17-20 | a concrete signed-in storage whose requests still carry `Bearer t1` after logout |
| AuthStore.StoredAfterFullLogout | frontend/src/store/authStore.ts:17-20 | the corrected logout removes `token`, `access_token` and `user` and keeps the rest |
| AuthStore.FullLogoutRevokesBearer | frontend/src/services/api.ts:21-24 | after the corrected logout no request carries a Bearer header |
| AuthStore.Auth.constructor | frontend/src/store/authStore.ts:11-12 | the user is null and the token is whatever is stored under `token` |
| AuthStore.Auth.SetUser | frontend/src/store/authStore.ts:13-16 | user and token are set and storage moves to `StoredAfterSetUser` |
| AuthStore.Auth.Logout | frontend/src/store/authStore.ts:17-20 | user and token become null and storage moves to `StoredAfterLogout` |
| AuthStore.Auth.LogoutEverywhere | frontend/src/store/authStore.ts:17-20 | the corrected logout: user and token become null and storage moves to `StoredAfterFullLogout` |
| Chatbot.InitialChat | frontend/src/hooks/useChatbot.ts:14-21 | exactly the greeting, not loading, no error |
| Chatbot.Submitted | frontend/src/hooks/useChatbot.ts:28-34 | a blank query changes nothing; otherwise the user message is appended, loading starts and the error is cleared |
| Chatbot.BotMessage | frontend/src/hooks/useChatbot.ts:39-58 | a reply becomes a bot message with its text, sentiment and timestamp; a failure becomes the trouble prefix followed by the error message, with no sentiment or timestamp |
| Chatbot.Answered | frontend/src/hooks/useChatbot.ts:36-61 | one bot message is appended and loading ends; a failure records its message as the error |
| Chatbot.ClearedChat | frontend/src/hooks/useChatbot.ts:66-74 | back to the greeting alone with no error; the loading flag is untouched |
| Chatbot.SendAddsExchange | frontend/src/hooks/useChatbot.ts:26-64 | a non-blank send grows the list by exactly the user message and one bot message and ends not loading |
| Chatbot.StepKeepsAlternating | frontend/src/hooks/useChatbot.ts:26-74 | sends and clears keep the list as a greeting followed by user/bot pairs |
| Chatbot.RunKeepsAlternating | frontend/src/hooks/useChatbot.ts:26-74 | any sequence of sends and clears keeps that shape |
| Chatbot.Chat.constructor | frontend/src/hooks/useChatbot.ts:14-21 | a new chat is in the initial state |
| Chatbot.Chat.Submit | frontend/src/hooks/useChatbot.ts:28-34 | the query is accepted exactly when it is not blank, and the state moves to `Submitted` |
| Chatbot.Chat.Settle | frontend/src/hooks/useChatbot.ts:36-61 | the state moves to `Answered` with the reply |
| Chatbot.Chat.SendMessage | frontend/src/hooks/useChatbot.ts:26-64 | the state moves to `Sent`: submission followed by the answer |
| Chatbot.Chat.ClearMessages | frontend/src/hooks/useChatbot.ts:66-74 | the state moves to `ClearedChat` |
| FlightsView.FilteredFlights | frontend/src/views/FlightsView.tsx:17-24 | a flight is kept exactly when its number or destination contains the term, ignoring case, and its status passes the filter |
| FlightsView.FilteredIsSubsequence | frontend/src/views/FlightsView.tsx:18 | the result is an order-preserving subsequence of the flights |
| FlightsView.FilterOfConcat | frontend/src/views/FlightsView.tsx:18 | filtering a concatenation is the concatenation of the filtered parts |
| FlightsView.EmptySearchKeepsAll | frontend/src/views/FlightsView.tsx:19-21 | an empty term with the `All` filter keeps every flight |
| FlightsView.SearchIgnoresCase | frontend/src/views/FlightsView.tsx:19-20 | terms with the same lower-case form give the same result |
| FlightsView.LowerCaseTermSameResult | frontend/src/views/FlightsView.tsx:19-20 | lower-casing the term first changes nothing |
| FlightsView.CountStatus | frontend/src/views/FlightsView.tsx:28 | a status count never exceeds the number of flights |
| FlightsView.OnTimeCount | frontend/src/views/FlightsView.tsx:29 | the on-time count never exceeds the number of flights |
| FlightsView.OnTimeIsScheduledPlusDeparted | frontend/src/views/FlightsView.tsx:29 | on time means Scheduled plus Departed |
| FlightsView.DelayedPlusOnTimeAtMostTotal | frontend/src/views/FlightsView.tsx:28-29 | delayed and on-time flights together never exceed the total |
| FlightsView.RoundPercent | frontend/src/views/FlightsView.tsx:31 | the percentage lies in 0..100 and is the nearest integer to 100·part/total, halves rounding up |
| FlightsView.Stats | frontend/src/views/FlightsView.tsx:26-35 | total is the flight count, delayed is the Delayed count, and on-time is 100 for no flights or else the rounded on-time percentage |
| AdminDashboard.ToDisplay | frontend/src/views/AdminDashboard.tsx:68-73 | an empty type, location or message is replaced by its default, a non-empty one passes through, and the time is the formatted timestamp |
| AdminDashboard.AllAlerts | frontend/src/views/AdminDashboard.tsx:67-75 | one display alert per stored alert, same length and order |
| AdminDashboard.SecurityStatValue | frontend/src/views/AdminDashboard.tsx:240 | the security card shows 10 plus the number of alerts |
| AdminDashboard.ActiveFlights | frontend/src/views/AdminDashboard.tsx:95-97 | the on-time count, or 128 when that count is 0 |
| AdminDashboard.NoneOnTimeShows128 | frontend/src/views/AdminDashboard.tsx:95-97 | any board with no Scheduled or Departed flight shows 128 active flights |
| AdminDashboard.LiveFeed | frontend/src/views/AdminDashboard.tsx:265-292 | the feed lists every alert, then the first three flight updates at most |
| AdminDashboard.NewestUpdateShownFirst | frontend/src/views/AdminDashboard.tsx:292 | the update just added is the first update the feed shows |
| AdminDashboard.BootstrapCoversEverySliceOnce | frontend/src/views/AdminDashboard.tsx:55-61 | bootstrap issues five fetches, one per slice, and not the allocation fetch |
| AdminDashboard.StartAllMarksLoading | frontend/src/views/AdminDashboard.tsx:55-61 | starting a set of fetches marks exactly their slices loading and changes no data |
| AdminDashboard.PartialBootstrap | frontend/src/views/AdminDashboard.tsx:53-64 | whatever order the five bootstrap completions arrive in, each slice ends as its own completion left it |
| MaintenanceView.NextDate | frontend/src/views/MaintenanceView.tsx:33 | the text before the first `T`, or `N/A` when the field is absent or that text is empty |
| MaintenanceView.NextDateOfTimestamp | frontend/src/views/MaintenanceView.tsx:33 | an ISO timestamp shows its date part |
| MaintenanceView.ToCard | frontend/src/views/MaintenanceView.tsx:28-34 | a card copies id, type, status and wear and shows the next date |
| MaintenanceView.DisplayAssets | frontend/src/views/MaintenanceView.tsx:21-41 | the cards map the assets one to one in order; with no assets, the fixed four-entry fallback |
| MaintenanceView.WearBand | frontend/src/views/MaintenanceView.tsx:111-113 | red above 80, orange above 50 up to 80, green at 50 or below |
| MaintenanceView.WearBandMonotone | frontend/src/views/MaintenanceView.tsx:129-131 | more wear never gives a milder band |
| MaintenanceView.StatusTone | frontend/src/views/MaintenanceView.tsx:117-118 | Critical is danger and Warning is caution; everything else is success |
| MaintenanceView.SkeletonXorCards | frontend/src/views/MaintenanceView.tsx:74-83 | exactly one of the skeleton and the cards is shown |
| Gateway.Delivered | backend/src/notifications/notifications.service.ts:14 | every inbox gains the event at its end, and no inbox is added or lost |
| Gateway.DeliveredAllInOrder | backend/src/notifications/notifications.service.ts:14-20 | after a series of emits, every client holds all emitted events in emission order after what it had |
| Gateway.DeliveredTo | backend/src/notifications/notifications.service.ts:10 | the scoped reference policy: only clients associated with the user gain the event |
| Gateway.Hub.constructor | backend/src/gateway/gateway.module.ts:7 | a hub starts with one empty inbox per connected client |
| Gateway.Hub.Emit | backend/src/notifications/notifications.service.ts:14 | the inboxes move to `Delivered` with the named event |
| Gateway.Hub.SendSecurityAlert | backend/src/ai/ai.service.ts:47 | the inboxes move to `Delivered` with a `securityAlert` event carrying the analysis |
| Notifications.NotificationEvent | backend/src/notifications/notifications.service.ts:14-20 | a `notification` event carrying user, type, message, data and timestamp |
| Notifications.SystemAlert | backend/src/notifications/notifications.service.ts:30-35 | a `systemAlert` event carrying type, message, data and timestamp |
| Notifications.NotificationLog | backend/src/notifications/notifications.service.ts:11-25 | one info line, plus a warning exactly for type `URGENT` |
| Notifications.NotificationIsNotScoped | backend/src/notifications/notifications.service.ts:14 | a client not associated with the addressee still receives the notification, so delivery differs from the scoped policy |
| Notifications.NotificationsService.constructor | backend/src/notifications/notifications.service.ts:8 | the service is bound to the hub with an empty log |
| Notifications.NotificationsService.SendNotification | backend/src/notifications/notifications.service.ts:10-26 | exactly one `notification` event to every client, the same for every type; the log grows by `NotificationLog` |
| Notifications.NotificationsService.BroadcastAlert | backend/src/notifications/notifications.service.ts:28-36 | exactly one `systemAlert` event to every client and one info line |
| AiService.BaseUrl | backend/src/ai/ai.service.ts:17-19 | the configured URL if non-empty, else `http://localhost:8000` |
| AiService.Path | backend/src/ai/ai.service.ts:25-128 | each endpoint's path starts with `/` |
| AiService.RouteRoundTrip | backend/src/ai/ai.service.ts:25-128 | every endpoint's path looks up to that endpoint again |
| AiService.PathsDistinct | backend/src/ai/ai.service.ts:25-128 | no two operations post to the same URL |
| AiService.SecurityRelay | backend/src/ai/ai.service.ts:42-48 | one `securityAlert` event exactly when the call succeeded with an analysis listing anomalies, else none |
| AiService.AIService.constructor | backend/src/ai/ai.service.ts:12-20 | the base URL is `BaseUrl` of the configured value |
| AiService.AIService.Forward | backend/src/ai/ai.service.ts:22-34 | posts to the base URL plus the endpoint's path, returns the body unchanged and rethrows the same failure |
| AiService.AIService.AnalyzeSecurity | backend/src/ai/ai.service.ts:36-55 | returns the outcome unchanged; the hub gains exactly `SecurityRelay` of it, so nothing is sent on failure |
| Baggage.AnomalyNotice | backend/src/baggage/baggage.service.ts:21-28 | a notice exactly when anomalies exist: URGENT, to the caller, carrying the prediction, naming the tag and the first anomaly's message |
| Baggage.TrackingEvents | backend/src/baggage/baggage.service.ts:18-28 | exactly one event, the anomaly notice, when the call succeeded with anomalies; none otherwise, in particular when the call failed |
| Baggage.MisroutedBagNotice | backend/src/baggage/baggage.service.ts:21-27 | with the prediction service's rule, a notice is sent exactly for a delay draw above 8, and it reports the misrouted bag |
| Baggage.BaggageService.constructor | backend/src/baggage/baggage.service.ts:9-12 | the service is bound to the AI client and the notification service |
| Baggage.BaggageService.TrackBaggage | backend/src/baggage/baggage.service.ts:14-31 | the prediction is returned unchanged, or the failure rethrown; the hub gains exactly `TrackingEvents`; the notification log grows by the URGENT notification's lines exactly when a notice is sent and is unchanged otherwise |
| AiRules.GateNumber | ai-service/main.py:38 | the gate number lies in 1..20 |
| AiRules.GatePrefix | ai-service/main.py:37 | the prefix is `A` exactly for an even hash, else `B` |
| AiRules.SuggestedGateShape | ai-service/main.py:37-43 | a gate is `A` or `B` followed by a number in 1..20, `A` exactly for an even hash |
| AiRules.SuggestionIdentifiesFlight | ai-service/main.py:41-42 | the suggestion names the flight by its id when non-empty, else by its number, and echoes the number |
| AiRules.OptimizeFlights | ai-service/main.py:25-52 | no data exactly for missing or empty flights; otherwise one suggestion per flight, in order |
| AiRules.AnalyzeSecurity | ai-service/main.py:54-81 | a draw above 0.8 gives exactly the one unattended-baggage finding and risk `medium`; otherwise none and `low` |
| AiRules.RelayedRiskLevelUnknownToClient | ai-service/main.py:73 | an analysis is relayed to the browsers exactly when its risk level is outside the client's `low/elevated/critical` |
| AiRules.PredictBaggage | ai-service/main.py:83-110 | tag defaults to `UNK`; the estimate is 15 plus the delay, in 15..25; one misrouting anomaly exactly when the delay exceeds 8; status `Flagged` exactly then, else `InTransit` |
| AiRules.PredictMaintenance | ai-service/main.py:112-137 | Critical above 80, Warning above 50, else Healthy; the later date exactly below 50; vision findings exactly above 60 |
| AiRules.StatusMatchesWearBand | ai-service/main.py:124-128 | the three statuses line up with the dashboard's three wear bands |
| AiRules.HealthyGetsUrgentDateOnlyAtFifty | ai-service/main.py:124-135 | a Healthy asset gets the earlier date exactly when its score is 50; every non-Healthy asset gets it |
| AiRules.TruncDiv | ai-service/main.py:148-150 | truncating division: the quotient rounded toward zero |
| AiRules.AllocateStaff | ai-service/main.py:139-160 | security, check-in and maintenance staff are the truncated quotients by 200, 150 and 400, floored at 5, 4 and 2; passengers default to 1200; a sentiment alert exactly for a draw above 0.7 |
| AiRules.DefaultAllocation | ai-service/main.py:145-150 | without a forecast, 6 security, 8 check-in and 3 maintenance staff |
| AiRules.AllocationAboveMinimum | ai-service/main.py:148-150 | the minimums bind exactly below 1200, 750 and 1200 passengers |
| AiRules.AllocationMonotone | ai-service/main.py:148-150 | more passengers never means fewer staff of any kind |
| AiRules.Classify | ai-service/main.py:198-208 | flight first, then restaurant or food, then gate, on the lower-cased query |
| AiRules.ChatbotResponse | ai-service/main.py:193-215 | the topic's fixed answer, or the echo of the query as typed; user id echoed; fixed intent and language |
| AiRules.ChatbotIgnoresCase | ai-service/main.py:198 | queries that differ only in case get the same topic, and the same answer unless it is the echo |
| AiRules.FlightKeywordWins | ai-service/main.py:201-202 | any query containing `flight` gets the flight answer, whatever else it mentions |

## Left out

- Socket transport: connection, reconnection policy (`frontend/src/hooks/useWebSocket.ts:16-21`)
  and subscriptions are library configuration. Emitting is modelled only as appending to
  client inboxes, and the store's `Add…` methods are the client's entry points.
- `backend/src/gateway/app.gateway.ts` is not part of this model. `Gateway.Hub.SendSecurityAlert`
  assumes it emits `securityAlert` to every client, and which clients belong to which user is
  a fixed input.
- Promise scheduling: overlapping fetches are interleavings of `Begin` and `Complete…` calls,
  and concurrent `set` calls are not modelled.
- Timers: `Api.WithRetry` returns the delay schedule it would wait for and does not wait. The
  dashboard's demo alert timer and the chatbot view's simulated echo are not modelled.
- The browser redirect to `/login` after a 401 is not modelled; only the storage clean-up is.
- Clocks: every `new Date()`, `time.time()` and `Date.now()` is a parameter, and
  `toLocaleTimeString` is a formatting function passed in. The chatbot session's user id is
  not modelled.
- Text: lower-casing covers ASCII letters only (no Unicode case folding), and `trim()` uses a
  fixed whitespace set.
- `AiRules.PredictMaintenance`: does not round `wearLevel` to 2 decimals or `riskScore` to 1
  decimal; both are exact reals.
- `AiRules.OptimizeFlights`: the random confidence of each suggestion is not modelled, and the
  timestamp is an integer.
- `AiRules.AllocateStaff`: the passenger count is an integer; floating-point division of very
  large counts is not modelled.
- `FlightsView.RoundPercent`: `Math.round` on a float is modelled as exact rational rounding.
- The random draws of `main.py`, `time.sleep` and Python's per-process `hash` are parameters.
  `dynamic_pricing` and `environmental_stats` return constants and are modelled only through
  their paths.
- Logging in the AI client and the baggage service is not modelled; the notification
  service's log lines are.
- The backend receives untyped JSON bodies. The model gives each payload one record type,
  so snake_case versus camelCase field names and missing fields other than those handled
  are not modelled.
- HTTP wrappers, controllers, modules, Mongoose services, bcrypt/JWT, and all markup and
  static views are plumbing with no logic of their own.

## Findings

| source | as written | input that shows it | evidently intended | confidence | as-written member | corrected member |
|---|---|---|---|---|---|---|
| frontend/src/store/authStore.ts:17-20 | logout removes only the `token` key. Sign-in stores `access_token` and `user` (`frontend/src/services/auth.service.ts:12-14`), and the request interceptor reads `access_token`. The logout buttons (`frontend/src/views/AdminDashboard.tsx:160`, `frontend/src/views/SettingsView.tsx:12`) call only this logout, never the service logout that removes both keys (`frontend/src/services/auth.service.ts:39-42`) | storage `{access_token: "t1", user: "u", token: "t1"}`, then logout: the next request still carries `Authorization: Bearer t1` | logout also removes `access_token` and `user`, so no later request is authenticated | not executed | AuthStore.LogoutKeepsBearerExample | AuthStore.StoredAfterFullLogout |
