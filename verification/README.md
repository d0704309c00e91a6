# Food delivery live updates and the SkyGlass weather service, in Dafny

This project models, as pure functions over immutable data, the decision logic of two small web applications that live in one repository.

**The food-delivery back end** (Django with Channels):

- Two WebSocket routes exist: `ws/orders/<order_id>/` and `ws/tracking/<partner_id>/`.
  - The order consumer joins the channel-layer group `order_<id>`.
  - The rider-tracking consumer joins the group `location_<id>`.
- A rider's position frame is re-published to its whole tracking group.
- Every save of an order sends a status event to that order's group.
- The channel layer is a registry from group name to the set of subscribed channels. Each consumer handler is one atomic transition of a world made of that registry and the live connections; the transition returns the `group_send` calls it made.
- Order creation prices the basket against the menu and snapshots each item's price.
- The write permission of categories and menu items is a fixed-precedence owner check. The restaurant views use only `IsAuthenticatedOrReadOnly` (restaurants/views.py:9).

**The weather service** (Flask `app.py`):

- It picks a theme for an OpenWeather condition code.
- It decides day or night.
- It makes its two upstream requests in order, and maps each failure to an HTTP status.
- It collapses the 3-hourly forecast into at most five local-day summaries, with chart series.

**The weather page's script** (`static/js/app.js`) covers:

- the icon-class table;
- the preferences kept in local storage;
- the unit and theme switches;
- the query string;
- the search-box check;
- how an answer is shown.

Modules follow the program's structure:

- `Wrappers`, `JsonValues` and `Decimal` are shared vocabulary.
- `ChannelLayer` is the group registry.
- `Routing` covers `food_delivery/routing.py`.
- `OrderModels` covers `orders/models.py`.
- `Consumers` covers both consumer classes.
- `Signals` covers `orders/signals.py`.
- `Realtime` is the world and its transitions.
- `OrderPricing` covers `orders/serializers.py`.
- `Permissions` covers `core/permissions.py`.
- `Forecast` covers `build_daily_forecast_and_chart`.
- `WeatherApi` covers the rest of `app.py`.
- `Frontend` covers `static/js/app.js`.

Representation choices:

- **Money** is in integer cents.
- **Timestamps** are integer seconds since the epoch.
- **Local day:** a sample's local calendar day is `(dt + offset) div 86400`, where `div` is floor division. This agrees with Python's `datetime` for negative offsets too.
- **Temperatures and humidity** are reals.
- **Order status** is a string, because the model field's choices are not enforced when an order is saved.
- **Status label:** `get_status_display` falls back to the raw code for a value outside the choices.

Facts about the code that the model keeps:

- Group names are `order_<id>` and `location_<id>`.
- Pruning an emptied group belongs to the channel layer; it cannot be observed through a group's membership set, which is all the model exposes.
- A group send reports no delivery count.
- An order consumer has no handler for inbound frames, so it publishes nothing.
- A tracking consumer whose client sends a frame that is not a JSON object raises in `receive`. Its task ends without `disconnect` running, so its channel stays a member of its tracking group and nothing reads it. The world records such consumers as crashed.

## Model

| member | source | states |
|---|---|---|
| ChannelLayer.GroupAdd | orders/consumers.py:10-13 | joining adds exactly the channel to that group's members and changes no other group |
| ChannelLayer.GroupDiscard | orders/consumers.py:19-22 | leaving removes exactly the channel from that group (a no-op for a non-member) and changes no other group |
| Routing.Resolve | food_delivery/routing.py:5-8 | a path that routes is the path of its route, and the identifier it binds matches `[0-9a-f-]+` |
| Routing.ResolvePathOf | food_delivery/routing.py:6-7 | every route with an admissible identifier is reached through its own path (round trip path → route) |
| Routing.PathsOfDistinctKindsDiffer | food_delivery/routing.py:6-7 | an order path is never a tracking path |
| Routing.PathOfInjective | food_delivery/routing.py:6-7 | two routes with the same path are the same route |
| Routing.InvalidIdRejected | food_delivery/routing.py:6-7 | an identifier with a character outside `[0-9a-f-]` (or empty) routes nowhere under either prefix |
| Routing.TrailingSlashRequired | food_delivery/routing.py:6-7 | without the final slash, even an admissible identifier routes nowhere |
| OrderModels.ParseCode | orders/models.py:9-17 | a stored code maps to the choice whose code it is, and to none exactly when no choice has that code |
| OrderModels.ChoicesAreTheSevenStatuses | orders/models.py:9-17 | the choices list has seven entries, lists every status, and repeats none |
| OrderModels.CodeReadsBack | orders/models.py:9-17 | every choice's code reads back as that choice, so codes are distinct |
| OrderModels.LabelsDistinct | orders/models.py:9-17 | distinct choices have distinct display labels |
| OrderModels.StatusDisplay | orders/models.py:9-23 | the display of a known code is its choice's label; an unknown code is displayed as itself |
| OrderModels.NewOrder | orders/models.py:19-30 | a new order is PLACED, has no lifecycle timestamp, and carries the given fields |
| OrderModels.OrderText | orders/models.py:32-33 | the text is `Order #`, the id, ` - `, and the status code, at fixed positions |
| OrderModels.OrderTextDeterminesIdAndStatus | orders/models.py:32-33 | the text `Order #<id> - <status>` determines id and status, for ids of equal length |
| OrderModels.OrderItemText | orders/models.py:41-42 | the text ends with `x ` followed by the item's name |
| OrderModels.OrderItemTextReadsBack | orders/models.py:41-42 | the text `<qty>x <name>` reads back as the quantity and the name |
| Decimal.ValueOfShow | orders/models.py:42 | the decimal numeral of a quantity reads back as that quantity |
| Consumers.GroupFor | orders/consumers.py:7 | a consumer's group is its kind's prefix (`order_` or `location_`, delivery/consumers.py:7) followed by the identifier the route bound |
| Consumers.GroupForInjective | orders/consumers.py:6-7 | two consumers share a group only if they have the same kind and identifier (order and tracking groups never collide) |
| Consumers.LocationReceive | delivery/consumers.py:22-41 | a decoded object yields the message `{type: location_update, latitude, longitude}` with the sent values, and a missing key becomes null; a non-object raises |
| Consumers.LocationUpdate | delivery/consumers.py:43-51 | the frame has exactly keys type/latitude/longitude with the event's values; a missing key raises |
| Consumers.OrderStatusUpdate | orders/consumers.py:25-34 | the frame is `{type: order_status, status, message}` with the event's values; a missing key raises |
| Consumers.Handle | orders/consumers.py:24-25 | an event is handled by the method its type names; a consumer without that method, or an event without a type, raises |
| Consumers.PublishedPositionRoundTrips | delivery/consumers.py:27-51 | a position a rider publishes comes back to a tracking consumer as the same latitude and longitude |
| Signals.StatusMessage | orders/signals.py:20 | the message is the fixed prefix followed by the status's display label, or by the raw code when it is no choice's |
| Signals.OrderStatusNotification | orders/signals.py:7-26 | a save sends to `order_<id>` the event `{type: order_status_update, status, message}`, where the message is the prefix plus the status display |
| Signals.CreatedFlagIgnored | orders/signals.py:8-21 | creating and updating saves send the same event |
| Signals.NotificationHandledByOrderConsumer | orders/signals.py:17-21 | the event is accepted by the order consumer's handler, and the message of a known status is the prefix plus its label |
| Realtime.Connect | orders/consumers.py:5-15 | an unroutable path changes nothing; otherwise the consumer is recorded and joins exactly its route's group |
| Realtime.Disconnect | orders/consumers.py:17-22 | a consumer leaves the group it joined and nothing else; an unknown channel changes nothing |
| Realtime.Receive | delivery/consumers.py:22-41 | a tracking consumer publishes one message to its own group; non-object data makes its consumer crash, publishing nothing and leaving the group registry as it was; an order consumer publishes nothing and changes nothing |
| Realtime.OrderSaved | orders/signals.py:7-26 | a save sends exactly one event and changes no membership |
| Realtime.Deliver | orders/consumers.py:24-34 | a group send reaches only members of that group, and never a crashed consumer |
| Realtime.ConnectPreservesConsistency | orders/consumers.py:5-15 | connecting keeps the registry equal to the groups joined by live and crashed consumers |
| Realtime.DisconnectPreservesConsistency | orders/consumers.py:17-22 | disconnecting keeps the registry equal to the groups joined by live and crashed consumers |
| Realtime.ReceivePreservesConsistency | delivery/consumers.py:22-41 | receiving a frame, including one that crashes the consumer, keeps the registry equal to the groups joined by live and crashed consumers |
| Realtime.MembersAreJoinedConnections | delivery/consumers.py:5-20 | a group's members are exactly the consumers, live or crashed, that joined it, and a send reaches exactly the live ones |
| Realtime.PositionReachesWholeRoom | delivery/consumers.py:22-51 | a rider's position reaches every live member of that tracking room, the sender included, as the same frame |
| Realtime.CrashedConsumerStaysSubscribed | delivery/consumers.py:22-28 | after a frame that is not an object, the tracking channel stays in its group yet receives no later send, and a later disconnect changes nothing |
| Realtime.SaveReachesOrderWatchers | orders/signals.py:15-26 | an order save reaches exactly the order consumers of that order's id, each with the status frame |
| Realtime.ConnectThenDisconnectRestores | delivery/consumers.py:5-20 | connecting then disconnecting a channel restores every group and the connection set |
| Realtime.SubscribedOrderPageSeesSaves | food_delivery/routing.py:6 | a page connected through `ws/orders/<id>/` receives the event of every later save of that order |
| Forecast.GroupKeys | app.py:184-207 | the grouped days are exactly the local days of the samples |
| Forecast.GroupTemperatures | app.py:197-214 | a day's min ≤ max, both bound every temperature sampled that day, and each is one of them |
| Forecast.GroupHumidity | app.py:197-217 | a day's humidity sum and count are the sum and number of humidities sampled that day |
| Forecast.GroupIcon | app.py:204-222 | a day's icon and description come from its sample nearest midday, the earliest among ties |
| Forecast.SortDistinct | app.py:225 | the sorted dates are strictly increasing and hold exactly the grouped days |
| Forecast.KeptMembers | app.py:233-236 | the dates kept are exactly the grouped days other than today |
| Forecast.KeptIncreasing | app.py:225-236 | the dates kept stay in ascending order |
| Forecast.BuildWithToday | app.py:176-269 | for a given "today", the loops yield the functional reference's summaries, at most five, and one chart point per summary: its date, its maximum temperature (0 when none) and its average humidity (0 when none) |
| Forecast.Summarize | app.py:237-258 | a day's average humidity is present exactly when some humidity was sampled, and is the sum divided by the count |
| Forecast.ForecastSummariesShape | app.py:224-261 | at most five summaries, in ascending date order, each the summary of a grouped day other than today; a day left out means five earlier days were shown |
| Forecast.ShownDates | app.py:224-236 | the dates shown are ascending grouped days other than today, at most five, and any such day not shown comes after five shown ones |
| Forecast.Summarise | app.py:228-269 | the loop yields the summaries of the first five kept dates, with one chart point per summary: max temperature (0 when none) and average humidity (0 when none) |
| Forecast.BuildDailyForecastAndChart | app.py:176-269 | the forecast as written, skipping the UTC date of the first sample |
| Forecast.BuildDailyForecastAndChartLocal | app.py:176-269 | the forecast skipping the first sample's local date; for chronological samples, every summary is of a later local day |
| Forecast.FirstSampleDayIsEarliest | app.py:184-187 | for chronological samples, no grouped day precedes the first sample's local day |
| ForecastFinding.UtcTodaySkipsLocalTomorrow | app.py:225-236 | for an evening five hours behind UTC, the code as written skips local tomorrow and keeps today; the corrected code does the reverse |
| WeatherApi.InferTheme | app.py:272-287 | the theme is a clear sky exactly for code 800, the day variant exactly by day, and the default exactly outside 200-899 |
| WeatherApi.InferThemeFollowsGroups | app.py:272-287 | the range tests pick the theme of the code's condition group (2xx, 3xx-5xx, 6xx, 7xx, 800, 80x) |
| WeatherApi.OnlyClearSkyDependsOnDaylight | app.py:281-282 | the theme depends on day or night exactly for code 800 |
| WeatherApi.IsDaytime | app.py:128-136 | day is sunrise ≤ now ≤ sunset; shifting by the offset never changes it |
| WeatherApi.LocationOf | app.py:106-109 | a non-empty city takes precedence over coordinates |
| WeatherApi.FetchWeatherAndForecast | app.py:93-173 | one or two requests with the same parameters; the forecast is requested only after a successful current request; 404 on current is city-not-found; success requires both requests to succeed and the body to be complete |
| WeatherApi.ApiWeather | app.py:36-88 | a missing key is 500 before anything else; then a missing location is 400; 200 is exactly a weather body, and it carries the fetched payload; 404 carries the city-not-found text, 502 the network-error text, and a 500 with a key the unexpected-error text; the status is one of 200/400/404/500/502 |
| WeatherApi.StatusMapping | app.py:62-86 | with key and location: 404 iff current answered 404; 502 iff another request failure; 500 iff the body lacked a key; 200 iff all succeeded |
| WeatherApi.SuccessfulThemeFollowsCondition | app.py:125-173 | a success's day flag is the sunrise/sunset test; its theme is the condition group's theme, a missing code counting as clear sky; its offset is the body's (0 when missing); its forecast is the summaries skipping the first sample's UTC date |
| Frontend.MapIconToClass | static/js/app.js:371-401 | every icon class is a `wi-` class |
| Frontend.IconClassByTable | static/js/app.js:376-400 | day-and-night codes give `wi-<day or night-alt>-<suffix>`, codes 03/04 a fixed class, all else (01, unknown, missing) clear sky |
| Frontend.OnlyCloudIconsIgnoreDaylight | static/js/app.js:377-399 | the class is the same by day and night exactly for codes 03 and 04 |
| Frontend.OnlyFirstTwoCharactersMatter | static/js/app.js:376 | two codes with the same first two characters get the same class |
| Frontend.UnknownIconIsClearSky | static/js/app.js:372-399 | a missing code, code 01 and any unknown code give the same clear-sky class |
| Frontend.UnitLabel | static/js/app.js:108 | the label is °C exactly for metric |
| Frontend.RestorePreferences | static/js/app.js:432-451 | absent, malformed or null storage changes nothing; imperial only for the exact string, otherwise the unit is kept; light only for the exact string, otherwise dark, with the switch checked for dark |
| Frontend.RestoreKeepsUnitShown | static/js/app.js:438-442 | restoring keeps the unit label and switch in step with the unit |
| Frontend.SavePreferences | static/js/app.js:420-430 | the stored object has exactly the unit and the theme; the theme is the attribute's value, or "dark" when it is unset or empty |
| Frontend.RestoreAfterSave | static/js/app.js:420-451 | saving then restoring into a fresh page brings back the unit and the theme |
| Frontend.SaveRestoreSettles | static/js/app.js:420-451 | from a light, dark or unset theme, a save after a restore stores exactly what was stored |
| Frontend.ToggleUnit | static/js/app.js:106-113 | the unit and the switch follow the click, the label follows the unit, the theme is untouched, and a save happens exactly when data is shown |
| Frontend.ToggleTheme | static/js/app.js:115-120 | checked is dark, unchecked light, the unit, its switch and label are untouched, and the choice is always saved |
| Frontend.TogglesKeepUnitShown | static/js/app.js:106-120 | the switches keep the label in step with the unit |
| Frontend.ThemeChoiceSurvivesReload | static/js/app.js:115-120 | a theme chosen with the switch is restored after a reload |
| Frontend.QueryParams | static/js/app.js:142-147 | the city is sent iff truthy; latitude and longitude are sent together iff neither is null; nothing else is sent |
| Frontend.ServerReadsQuery | static/js/app.js:142-149 | the server reads back the city and coordinates the page sent |
| Frontend.TrimEmptyIffBlank | static/js/app.js:60-61 | trimming leaves nothing exactly when the input is all white space |
| Frontend.TrimIsInfix | static/js/app.js:60 | the trimmed text is a contiguous part of the input |
| Frontend.SearchClick | static/js/app.js:59-64 | an all-white-space input shows the error and fetches nothing; otherwise the trimmed city is searched |
| Frontend.PageRequestsHaveLocation | static/js/app.js:59-92 | every request the page sends, from search or geolocation, passes the server's location check |
| Frontend.ShowAnswer | static/js/app.js:149-158 | an answer is shown as an error exactly when it is not ok, with the body's non-empty `error` or else the fallback text; an ok answer renders its payload |
| Frontend.PageShowsServerVerdict | static/js/app.js:149-155 | an answer is shown as an error exactly when it is not a success, with the server's message, and a success renders the server's payload |
| Frontend.ThemeClass | static/js/app.js:403-418 | the body class is `theme-` followed by the answer's theme key, or `theme-default` when the key is missing or empty |
| Frontend.ServerThemesAreRemovable | static/js/app.js:403-418 | every theme the server sends, and a missing one, maps to a class `applyTheme` removes |
| OrderPricing.Writable | orders/serializers.py:13-25 | the data passed on holds only declared writable fields, never a read-only one, and every writable field the request supplies, with its value |
| OrderPricing.ClientCannotSetServerFields | orders/serializers.py:23-25 | a `total_amount`, `status`, `customer` or any other non-writable key a client adds changes nothing in the data passed on |
| OrderPricing.Kept | orders/serializers.py:36-51 | the entries kept are no more than those given, each one resolving and taken from the input |
| OrderPricing.LineFor | orders/serializers.py:55-62 | an order item carries its order, the entry's menu item, the menu's current price, and the entry's quantity, 1 when missing |
| OrderPricing.Create | orders/serializers.py:27-64 | the intended creation (the code's float-plus-`Decimal` addition is under Left out): the order is PLACED with the computed total, whatever total was supplied; one item per resolvable entry, in order, at the menu's price; the total equals the sum of the items written |
| OrderPricing.WriteLines | orders/serializers.py:55-62 | the items written are one per kept entry, in order, and their value sums to the kept entries' total |
| OrderPricing.TotalOfKept | orders/serializers.py:36-51 | unresolvable entries contribute nothing to the total |
| OrderPricing.TotalAppend | orders/serializers.py:36-43 | the total of two baskets together is the sum of their totals |
| OrderPricing.KeptAppend | orders/serializers.py:36-51 | the kept entries of two baskets together are those of each, in order |
| OrderPricing.NothingResolvesNothingCharged | orders/serializers.py:27-62 | an empty basket, or one of unknown items only, costs 0 and writes no items |
| OrderPricing.UnknownItemSkipped | orders/serializers.py:40-51 | adding an unknown item changes neither the total nor the items |
| Permissions.HasObjectPermission | core/permissions.py:7-22 | safe methods are always allowed; an anonymous user can never write |
| Permissions.WriteOnlyByResponsibleOwner | core/permissions.py:7-22 | a write is allowed exactly to the owner found through the object's owner, else its restaurant, else its category's restaurant; none of them means denied |
| Permissions.AtMostOneWriter | core/permissions.py:14-22 | at most one user, and never an anonymous one, may write an object |
| Permissions.MenuObjectsAnswerToRestaurantOwner | core/permissions.py:13-20 | categories and menu items, the objects menu/views.py guards with this check, are each writable only by their restaurant's owner; a restaurant object would be too, were the check applied to it |
| Permissions.OwnOwnerTakesPrecedence | core/permissions.py:15-16 | an object's own owner decides, whatever restaurant or category it also points to |

## Left out

- **Concurrency.** Channels' event loop, `await` ordering, `accept()` and the socket sends themselves are not modelled. Each handler is one atomic transition; a `send` is the JSON frame it would write.
- **Malformed frames.** `json.loads` failures on a malformed inbound frame are not modelled. The frame arrives already decoded; a decoded non-object raises, as `.get` would, and its consumer is recorded as crashed. What Channels logs or does to the socket after a handler raises is not modelled. Binary frames are not modelled either: the base consumer passes them as `bytes_data`, which the tracking consumer's `receive(self, text_data)` does not accept, so they raise `TypeError` and end the same way as a crash.
- **Channel-layer internals.** Group expiry, capacity, group-name validation and cross-process fan-out are not modelled. The in-memory layer deletes an emptied group and Redis drops an empty sorted set; that pruning is internal to the layer and cannot be observed through `Members`, so the registry does not model it.
- **Routing details.** Channels' `URLRouter` removes the root path and then strips all leading slashes before matching, so `Resolve` works on the path without them. The base consumer's `websocket_*` handlers and the handler-name rewriting of dots are not modelled, because every message type here has no dot.
- **OrderPricing.Writable:** field validation and value conversion (a restaurant key becoming an instance, a quantity list being checked) are not modelled; values pass through as sent. The base model's fields come from `core/models.py`, which is not part of this model; they are treated as not writable.
- **Persistence.** The ORM, the viewsets and CRUD endpoints, model validation (including `PositiveIntegerField`'s non-negative check), the primary-key type and `core/models.py` are not part of this model. Order ids are plain strings.
- **Type clash in the serializer.** The serializer starts the total at the float `0.0` and adds `Decimal` prices to it (orders/serializers.py:43). In the code that addition raises `TypeError` for the first entry that resolves, and only `MenuItem.DoesNotExist` is caught, so an order is written only when no entry resolves. Money is integer cents here, so `OrderPricing.Create` models the intended total and items, not that failure.
- **Serializer inputs.** Non-integer quantities and malformed item ids that make the menu lookup raise are not modelled. A present-but-null quantity is not modelled either.
- **Relations.** A related object is always present when its attribute exists; the permission check reads it without raising.
- **Upstream requests.** The HTTP requests are inputs: a status code, or a connection failure.
- **Unmodelled fetch failures.** A body that is not JSON is not modelled. With requests 2.27 or later, which the model assumes, its `JSONDecodeError` is a `RequestException` and is answered 502; with older versions it is a bare `ValueError`, which app.py:74 answers with 404. Out-of-range timestamps that make `datetime` raise are not modelled either.
- **Current-weather payload.** Only the fields the decisions read are modelled. The city name, country, description, `.title()` and ISO datetimes are left out, because they are copied, not decided.
- **Formatting and rounding.** `round(x, 1)`, the chart label `strftime("%a %d")`, ISO date strings, and the page's `Math.round` unit conversions are left out because they only format values. Dates are day numbers.
- **Forecast samples.** A sample lacking `dt` is not modelled; it would raise a key error.
- **Page internals.** DOM rendering, Chart.js, timers, the loading overlay, geolocation itself and local-storage write failures are left out. `fetch` network errors are left out too; they show a fixed message.
- **Query-string numbers.** The page sends numbers as text, and the model assumes the server's float parse reads back the same number.
- **Other code.** The recommendation engine, accounts, payments, notifications, Celery and `debug_openweather.py` are not part of this model.
- **Status transitions.** No transition order is imposed between order statuses; the code places none.
- **Forecast.BuildDailyForecastAndChart:** only its agreement with the functional reference and the chart shape are stated. Its "today" rule is the defect described under Findings.
- **WeatherApi.FetchWeatherAndForecast:** the success payload's forecast is the code as written, skipping the UTC date of the first sample; the corrected `BuildDailyForecastAndChartLocal` stands beside it, as the Findings table says. The chart series of the payload are not modelled here.
- **Permissions.HasObjectPermission:** user identity is compared by id. A logged-in user with no matching owner is denied, as in the code.

## Findings

| source | as written | input that shows it | evidently intended | confidence | as-written member | corrected member |
|---|---|---|---|---|---|---|
| app.py:225-236 | "today" is the UTC calendar date of the first forecast sample, but days are grouped by local date (app.py:186-187) | offset -18000, samples at dt 1700013600 (local day 19675, UTC day 19676) and 1700035200 (local day 19676): the summary of local tomorrow is dropped and local today is kept | skip the first sample's local date | medium, not executed | Forecast.BuildDailyForecastAndChart (lemma ForecastFinding.UtcTodaySkipsLocalTomorrow) | Forecast.BuildDailyForecastAndChartLocal |
