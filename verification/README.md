# Smart helmet monitoring: a Dafny model

This project models the two pieces of logic in the smart helmet system.

The server (`server.js`) takes sensor readings from ESP32 helmets over
`POST /api/sensor-data` and location and liveness messages from the workers'
phones over socket.io. It keeps three maps:

- `workersData`: the live record per worker;
- `workersInfo`: the registry of worker identities;
- `phoneConnections`: the phone links.

It derives alerts and an overall status from each reading, and pushes every
change to the `dashboard` room. Every 30 seconds a sweep marks phones that
have stopped sending heartbeats as disconnected.

The dashboard (`public/app.js`) polls `GET /api/workers` and merges the list
into its own copy, keyed by `workerId`. It raises notifications for workers
whose alerts changed or who have just fallen. Each card is coloured by
emergency, warning or active tier and by per-sensor thresholds, and the page
shows summary counters and a search filter.

Every server handler is a pure function from a `State` and its input to a
`Step`: the new state, the reply to the caller, and the events emitted in
order. Node runs one handler at a time, so each handler is one atomic step.
A number is the exact value of the literal it was written as, and one
beyond the largest double counts as infinite. Times are `int` milliseconds, and the handlers
read them from an `Env` that also supplies the platform's date-string
parser.

Modules:

- `Options`, `Js`, `JsMaps`: the JavaScript semantics the code relies on.
  - `Js` covers values, truthiness, `||`, `String()`, `parseFloat`,
    `Number()`, `new Date`, `toLowerCase` and `includes`.
  - `JsMaps` is an insertion-ordered `Map`.
- `Records`: the stored entities, and the `Coherent` relation between a
  record's status and its alerts.
- `Normalizer`: alias lookup and value coercion of a helmet payload.
- `AlertEngine`: the threshold rules.
- `Server`: the HTTP and socket handlers.
- `Liveness`: the heartbeat sweep.
- `Runtime`: all inputs as one state machine, and the invariants kept across
  any sequence of inputs.
- `Scenarios`: whole-request examples.
- `Dashboard`: the client-side classification, counters, search filter, poll
  merge and notification routing.
- `Mirror`: how the dashboard's view agrees with the server's state.

Some inputs make the code throw, and the model follows what the runtime then
does:

- `new Date(raw).toISOString()` throws on an invalid date (`server.js:124`).
  Express catches the throw of a route handler, so a helmet post with an
  unparseable timestamp is answered with a 500 before its identifier is
  checked, and nothing is stored.
- In a socket listener, destructuring a `worker-register` or
  `worker-location` message that is `null` or missing (`server.js:305`,
  `server.js:339`) throws. So does `new Date(timestamp).toISOString()` when
  the location's `timestamp` is missing or invalid (`server.js:360`).
  socket.io calls listeners outside any `try`, and the server installs no
  `uncaughtException` handler. Node therefore ends the process, and every
  record, registry entry and phone link held in memory is lost. `Runtime`
  models the process as `Running(state)` or `Ended`, and `Ended` is final.

## Model

| member | source | states |
|---|---|---|
| Normalizer.PickFirst | server.js:36-41 | The result is the value under the first alias the body has as an own key, even a falsy one; it is undefined when no alias is present. |
| Normalizer.FallFlag | server.js:122 | A fall is detected exactly when the raw value is one of `true`, `"true"`, `1` or `"1"` under strict equality. Per type: a boolean counts exactly when true, a number exactly when it is 1, and a string exactly when it is "true" or "1". Null, arrays and objects never count, and a detected fall is always truthy. |
| Normalizer.MpuStatus | server.js:123 | A falsy raw status becomes "unknown"; any other value is stringified. A non-empty string is kept as it is, `true` becomes "true", `false` becomes "unknown", and an object becomes "[object Object]". |
| Normalizer.ToNumberOfNumerals | server.js:30-33 | A number a double can hold passes through unchanged, and one beyond that range becomes 0. A string holding an integer numeral of magnitude at most 2^53 is read as that integer. |
| Normalizer.ToNumberOfIntNumeral | server.js:30-33 | The numeral written for an integer of magnitude at most 2^53 coerces back to that integer, and one beyond the double range coerces to 0. |
| Normalizer.ToNumberFallsBackToZero | server.js:30-33 | Missing, null, false and text without a leading number all coerce to 0, never NaN. |
| Normalizer.ToNumberOfInfinity | server.js:30-33 | "Infinity" parses to an infinite value, which the finiteness check replaces by 0. |
| Normalizer.ScanOfSensorText | server.js:31 | `parseFloat` reads "41.5C" as 41.5 and stops at the unit. |
| Normalizer.ParseFloatOfSensorText | server.js:31 | `parseFloat` skips the leading blank of " 41.5C" and reads 41.5. |
| Normalizer.ToNumberOfSensorText | server.js:30-33 | Leading white space is skipped and trailing text is ignored: " 41.5C" coerces to 41.5. |
| Normalizer.RadixLiteralOfHexSample | server.js:30 | "0x29" is a hexadecimal integer literal with value 41. |
| Normalizer.ScanOfHexSample | server.js:30 | The decimal scan of "0x29" takes only the leading 0. |
| Normalizer.StringToNumberOfHexSample | server.js:30 | `Number` reads the hexadecimal literal "0x29" as 41. |
| Normalizer.ParseFloatOfHexSample | server.js:30 | `parseFloat` reads "0x29" as 0 and stops at the `x`. |
| Normalizer.ToNumberOfHexLiteral | server.js:30-33 | An array `["0x29"]` goes through `Number` and coerces to 41, while the string "0x29" goes through `parseFloat` and coerces to 0. |
| AlertEngine.RuleAlertsCover | server.js:168-192 | A rule's alert is listed exactly when that rule's threshold is crossed. |
| AlertEngine.RuleAlertsCritical | server.js:176-192 | A critical alert is listed exactly when the gas level exceeds 300 or a fall is detected. |
| AlertEngine.Derive | server.js:162-192 | Alerts are rebuilt from empty, one per firing rule, in the order temperature, gas, fall. A rule fires exactly when its threshold is crossed (temperature > 40, gas > 300, fall). Temperature alerts are high and the others critical. The status is an emergency exactly when gas > 300 or a fall is detected, which is exactly when a critical alert is listed. |
| AlertEngine.HotWorkerStaysActive | server.js:162-175 | 41 degrees alone gives one high temperature alert and leaves the worker active. |
| AlertEngine.DangerousGasIsEmergency | server.js:176-183 | 350 ppm of gas gives one critical gas alert and an emergency. |
| AlertEngine.FallIsEmergency | server.js:185-192 | A fall alone gives one critical fall alert and an emergency. |
| JsMaps.Set | server.js:194 | `Map.set` overwrites the value and keeps a present key's position; a new key is appended. |
| JsMaps.Values | server.js:220-223 | The values are listed in key insertion order, one per key. |
| Server.HelmetRecord | server.js:131-165 | The merged record follows the field rules. Climate readings are stored only when > 0 and axes only when non-zero. Identity comes from the registry, null when missing or falsy. Location fields keep their previous values, a falsy one becoming null. The helmet is connected; `phoneConnected` is the phone-link membership. Alerts and status come from the rules, and the record is coherent. |
| Server.AlertsOrNull | server.js:215 | The reply's alerts are null exactly when the list is empty. |
| Server.PostSensorData | server.js:101-218 | An invalid timestamp gives a 500 and a missing id a 400; neither changes anything or emits. The post is accepted exactly when both checks pass. Then only the record under `String(id)` is replaced by the merged record, which is broadcast once and whose alerts are returned. |
| Server.ListWorkers | server.js:220-223 | The listing holds every record in first-seen order and changes nothing. |
| Server.GetWorker | server.js:226-235 | The reply is the record stored under the path string, or 404 when there is none; nothing changes. |
| Server.ListRegistrations | server.js:265-268 | The reply lists every registration, in first-registered order, each exactly as stored. Nothing changes and nothing is emitted. |
| Server.PostRegister | server.js:238-262 | A falsy `workerId` or `name` gives a 400 that changes nothing. Otherwise only the registry entry for the raw `workerId` is overwritten, with contact fields defaulting to null, and no record is touched. |
| Server.Connect | server.js:274-302 | A dashboard is sent the full listing. A phone is linked under its id and announced. No record or registry entry changes. |
| Server.RegisterRecord | server.js:321-332 | The registering phone's record takes the identity as sent and is marked connected. Everything else, alerts and status included, is kept. |
| Server.WorkerRegister | server.js:304-336 | A message that cannot be destructured throws and ends the process. Otherwise the registry and the record are written under `data.workerId`, not the connection's id, and the record is broadcast. |
| Server.LocationRecord | server.js:345-362 | Position is taken from the message and `gpsSource` defaults to "phone-gps". Identity prefers the registry over the previous record. The phone is connected. Readings, alerts, status and helmet fields are unchanged. |
| Server.WorkerLocation | server.js:339-379 | A message that cannot be destructured, or whose timestamp is missing or invalid, throws and ends the process. Otherwise only the phone's record changes, and the events are `location-update`, then `sensor-update`, then the ack, in that order. |
| Server.WorkerHeartbeat | server.js:382-392 | The phone link is re-added. Only an existing record is marked connected, with the heartbeat time. No record is created, no key moves, and nothing is emitted. |
| Server.DropPhone | server.js:395-406 | The link is removed and an existing record is marked disconnected and re-broadcast. No record is created, and `phone-disconnected` is always announced. |
| Server.WorkerDisconnect | server.js:394-407 | The phone's link is gone afterwards, no key is added or removed, and the last event is `phone-disconnected`. The step is exactly the one the transport's `disconnect` takes for the same phone. |
| Server.TransportDisconnect | server.js:412-428 | Closing a non-phone socket changes nothing; closing a phone socket drops the phone. |
| Liveness.ExpiryEvents | server.js:438-450 | A sweep emits only `sensor-update` and `phone-disconnected` events. |
| Liveness.ExpiryAnnouncesStale | server.js:438-450 | `phone-disconnected` is announced for a key exactly when that key is visited and its record is stale. |
| Liveness.ExpiryUpdatesAreStale | server.js:444-447 | Every `sensor-update` of a sweep carries a stale record with its phone marked disconnected. |
| Liveness.ExpiryBroadcastsStale | server.js:444-447 | Every stale key the sweep visits has its record broadcast, marked disconnected. |
| Liveness.ExpiryQuietWhenFresh | server.js:438-450 | A sweep that finds nothing stale emits nothing. |
| Liveness.ExpiryEventsPaired | server.js:445-448 | Every `sensor-update` is immediately followed by the `phone-disconnected` of the worker whose record it carries. |
| Liveness.ExpiryOfOneKey | server.js:438-450 | A key contributes its disconnected record's update and its announcement when stale, and nothing otherwise. |
| Liveness.ExpiryFollowsOrder | server.js:438 | The sweep's events follow the insertion order of the keys: those of earlier keys come before those of later ones. |
| Liveness.Sweep | server.js:435-452 | Exactly the stale records are flipped to disconnected. Stale means connected, with a heartbeat, and silent for strictly more than 60 s. No other field, key or link changes, and afterwards nothing is stale. Every flipped record is broadcast as now stored, `phone-disconnected` goes out for exactly the flipped keys, and a sweep that finds nothing stale is silent. |
| Liveness.SweepIdempotent | server.js:435-452 | A second sweep at the same instant changes nothing and announces nothing. |
| Liveness.HeartbeatThenSilence | server.js:382-392 | After a heartbeat, the phone is still connected 60 s later and is dropped and announced 61 s later. |
| Liveness.LocationOnlyPhoneNeverExpires | server.js:439 | A phone that only sends locations has no heartbeat on record, so no sweep ever drops it. |
| Liveness.HelmetPostAfterSweepRelinks | server.js:160 | The sweep keeps the phone link, so the next accepted helmet post reports the phone connected again. |
| Runtime.BootIsConsistent | server.js:64-78 | A server started from a registry keyed by `workerId` satisfies the store invariant. |
| Runtime.BaseIsStored | server.js:131 | The record a merge starts from, previous or empty, is coherent and never has the helmet marked disconnected. |
| Runtime.HelmetPostKeepsConsistency | server.js:101-218 | A helmet post keeps the store invariant. |
| Runtime.RegistrationKeepsConsistency | server.js:238-262 | An HTTP registration keeps the store invariant. |
| Runtime.PhoneRegisterKeepsConsistency | server.js:304-336 | A socket registration keeps the store invariant. |
| Runtime.LocationKeepsConsistency | server.js:339-379 | A location message keeps the store invariant. |
| Runtime.HeartbeatKeepsConsistency | server.js:382-392 | A heartbeat keeps the store invariant. |
| Runtime.DropPhoneKeepsConsistency | server.js:394-428 | Both disconnect paths keep the store invariant. |
| Runtime.SweepKeepsConsistency | server.js:435-452 | The sweep keeps the store invariant. |
| Runtime.ApplyPreservesConsistency | server.js:101-452 | Every input keeps each record under its own `workerId`, coherent, with the helmet never marked disconnected, and each registry entry under its own id. |
| Runtime.NextPreservesConsistency | server.js:101-452 | A running process stays consistent after any one input, or ends. |
| Runtime.EndedIsFinal | server.js:305 | Once the process has ended, no sequence of inputs revives it. |
| Runtime.RunPreservesConsistency | server.js:101-452 | As long as the process runs, the store invariant holds after any sequence of inputs. |
| Runtime.RaisesExactlyOnMalformedMessages | server.js:304-360 | A step raises exactly on a phone's `worker-register` or `worker-location` message that cannot be destructured, and on a location whose timestamp is missing or invalid. |
| Runtime.EndsExactlyOnMalformedMessages | server.js:304-360 | A running server ends exactly on those messages. |
| Runtime.LocationWithoutTimestampEndsProcess | server.js:339-360 | A location `{latitude: 1, longitude: 2}` with no timestamp ends the process. |
| Runtime.BroadcastsMatchStore | server.js:197 | Every `sensor-update` carries exactly the record the step leaves stored for that worker. |
| Runtime.OnlyTargetChanges | server.js:101-428 | Outside the sweep, an input ends the process exactly when it is a malformed socket message. Otherwise it neither changes nor creates any record except its own target's. |
| Runtime.StepIsolates | server.js:101-428 | Outside the sweep, a step either raises or leaves every record but its target's as it was. |
| Runtime.ReadsArePure | server.js:220-268 | The GET endpoints change nothing and emit nothing. |
| Runtime.JoinSnapshotIsListing | server.js:283-290 | A joining dashboard is sent exactly what `GET /api/workers` lists at that moment. |
| Scenarios.MissingIdentifierCreatesNothing | server.js:126-128 | A payload with no id alias is refused with a 400, or a 500 when its timestamp is also invalid, and creates nothing. |
| Scenarios.RepeatedPostSameVerdict | server.js:162-192 | Posting the same payload twice gives the same alerts, status and reply. |
| Scenarios.RegisteredNameReachesRecord | server.js:136-139 | A registered name shows on the record of the next helmet post for that id. |
| Scenarios.AliBodyLookups | server.js:103 | `{"workerId": "001"}` names worker "001" and has no timestamp. |
| Scenarios.AliScenario | server.js:131-139 | After registering "001" as "Ali", a post for "001" stores the name "Ali". |
| Scenarios.AcceptedPostOutcome | server.js:194-217 | A post with a valid id and no timestamp is answered with the rules' alerts, and the record takes the rules' status and fall flag. |
| Scenarios.HotBodyLookups | server.js:103-112 | The second id alias and the second temperature alias are found, and no timestamp alias is. |
| Scenarios.HotBodyDefaults | server.js:106-110 | The payload has no gas alias and no fall alias, so both read as undefined. |
| Scenarios.HotScenario | server.js:168-175 | A 41-degree payload is answered with one high temperature alert, and the worker stays active. |
| Scenarios.GasBodyLookups | server.js:103-112 | The fourth gas alias is found, and no timestamp alias is. |
| Scenarios.GasBodyDefaults | server.js:104-110 | The payload has no temperature alias and no fall alias, so both read as undefined. |
| Scenarios.GasScenario | server.js:176-183 | A 350 ppm payload is answered with one critical gas alert, and the worker is in an emergency. |
| Scenarios.FallBodyLookups | server.js:103-112 | The last id alias and the last fall alias are found, and no timestamp alias is. |
| Scenarios.FallBodyDefaults | server.js:104-106 | The payload has no temperature alias and no gas alias, so both read as undefined. |
| Scenarios.FallScenario | server.js:185-192 | A numeric fall flag of 1 raises a critical fall alert and an emergency. |
| Scenarios.NumericIdIsText | server.js:115 | A numeric id 7 is stored under the text "7", the key `GET /api/worker/7` reads. |
| Dashboard.ClassifySensor | public/app.js:581-586 | A sensor is danger exactly above the danger threshold and warning exactly between the two thresholds. A missing value is plain. |
| Dashboard.CardClass | public/app.js:563-567 | The card is emergency exactly when the status is emergency or a fall is detected, warning exactly when it is not but alerts are listed, and plain otherwise. |
| Dashboard.StatusClass | public/app.js:569-573 | The badge class follows the same three tiers. |
| Dashboard.StatusText | public/app.js:575-579 | The badge text follows the same three tiers. |
| Dashboard.PresentationFollowsTier | public/app.js:563-579 | Card colour, badge class and badge text always agree on the tier. |
| Dashboard.CountWhere | public/app.js:382-383 | A filtered count never exceeds the list length. |
| Dashboard.CountSplits | public/app.js:382 | Complementary filters partition the list. |
| Dashboard.CountGrows | public/app.js:383 | A weaker filter counts at least as many. |
| Dashboard.UpdateStats | public/app.js:380-384 | The total is the number of workers. Active plus status-emergency workers make the total, and emergencies are at least the status-emergency workers. The alerts counter is the sum of the alert-list lengths. |
| Dashboard.ShownCards | public/app.js:126-137 | A card is shown exactly when it is visible: an empty term, or a lower-cased id containing the term. |
| Dashboard.EmptySearchShowsAll | public/app.js:130 | Clearing the search shows every card, in order. |
| Dashboard.TypingOwnIdShowsCard | public/app.js:119-130 | Typing a worker's id, in any letter case, keeps that worker's card shown. |
| Dashboard.RouteAlert | public/app.js:622-629 | An alert gets its toast first. A browser notification follows exactly when the alert is critical and permission is granted. |
| Dashboard.HandleAlerts | public/app.js:621-631 | Only toasts and browser notifications are raised, all for this worker, and nothing is raised exactly when there are no alerts. A browser notification appears only when permission is granted. |
| Dashboard.EveryAlertIsToasted | public/app.js:621-624 | Every alert gets a toast: an error toast when critical, a warning toast otherwise. |
| Dashboard.NotificationsAreCritical | public/app.js:626-628 | A browser notification carries a given message exactly when permission is granted and a critical alert carries that message. |
| Dashboard.WarningsStayInPage | public/app.js:621-631 | Warning-only alerts raise only warning toasts, and no browser notification. |
| Dashboard.WorkerNotices | public/app.js:304-315 | Alert toasts fire exactly when the alerts are non-empty and the worker was unseen or its alerts differ from before; each alert is then toasted. A browser notification fires only on such news, with permission granted. The fall toast and modal fire exactly on a rising fall edge. Every signal concerns this worker, and the alert signals come before the fall pair. |
| Dashboard.NotificationsAreNews | public/app.js:304-315 | A polled worker raises a browser notification for a message exactly when its alerts are news, permission is granted and a critical alert carries that message. |
| Dashboard.MergeRecords | public/app.js:296-301 | After a merge, the keys are the old keys plus the polled ids, and old keys keep their order. |
| Dashboard.MergeKeepsUnpolled | public/app.js:293-301 | A worker absent from the poll keeps its copy. |
| Dashboard.MergeLastWins | public/app.js:301 | A polled record that no later record of the poll replaces is the worker's copy afterwards. |
| Dashboard.LastOf | public/app.js:296-301 | Every polled worker has a last record in the poll. |
| Dashboard.MergeStoresPolled | public/app.js:296-301 | With one record per worker, each polled record becomes that worker's copy. |
| Dashboard.Poll | public/app.js:282-329 | A failed poll only turns the indicator off. A successful one merges, turns it on, and raises one notice group per polled record, judged against the map as it was before the poll. Each group is exactly the notices of `WorkerNotices` for that record. |
| Dashboard.RepeatedPollIsQuiet | public/app.js:304-315 | Polling the same list twice raises nothing the second time. |
| Mirror.ListingIsDistinct | server.js:220-223 | A consistent server's listing holds one record per worker. |
| Mirror.PollMirrorsServer | public/app.js:282-301 | After polling a consistent server, the client holds every server record exactly and is marked connected. |
| Mirror.DangerColourMatchesAlerts | public/app.js:430-431 | A card's temperature is red exactly when the server raised a temperature alert, and its gas level exactly when it raised a gas alert. |
| Mirror.TierOfStoredRecord | public/app.js:563-579 | On a stored record, the card is emergency exactly when the server's status is emergency. It is warning exactly when alerts are listed with an active status, and active exactly when no alerts are listed. |
| Mirror.HotReadingIsWarningCard | public/app.js:430 | A hot reading, without dangerous gas or a fall, shows a warning card with the temperature in red. |
| Mirror.CountersPartitionListing | public/app.js:380-383 | Over a consistent server's listing, the active and emergency counters add up to the total. |

## Left out

- Express and socket.io wiring, CORS, rooms, static routes and the local-address helper: transport. Events are listed with their audience instead of being sent.
- Reading and writing the registry file: file I/O. The registry is a parameter of `Boot`, and `saveWorkersData` has no observable effect in the model.
- A body that is not a JSON object or array: the JSON parser refuses it with a 400 before any handler runs, and the model gives that 400 directly.
- `setInterval` scheduling: the sweep and the poll are explicit steps that take the time or the response as parameters.
- Date-string parsing and ISO formatting: times are integer milliseconds, and the string parser is a parameter.
- Object identity: the code mutates a stored record in place and re-emits it, and the model copies values instead. The `JSON.stringify` comparison of alert lists is modelled as structural equality.
- The Arabic alert, response and badge texts, other than the three badge strings: an alert's message keeps only what the text depends on.
- `Number`-to-string conversion in exponent form and of overflowed numbers: `String(1e21)` is "1e+21", `String(1e-7)` is "1e-7", and a JSON literal beyond the double range prints as "Infinity". The model writes every number in positional notation, so an id or status given as such a number is stringified differently.
- Lower-casing of characters outside ASCII: only the forms the model's properties use are defined exactly.
- `String()` of an object with an own `toString` key that is not a function, such as `{"id": {"toString": 1}}`, throws a TypeError (at `server.js:115` and `server.js:123`, in `Number(value)` of `toNumber` at `server.js:30` reached from `server.js:116-121`, in `new Date(value)` at `server.js:124`, and in the template literals of the socket logs). The model stringifies every object as "[object Object]" and reads it as a number or date through that text. So for a helmet post such as `{"id": "w", "temp": {"toString": 1}}` it stores a temperature of 0 and answers 200, where Express would answer 500.
- Object and array values used as keys: a JavaScript `Map` compares them by identity. So an HTTP or socket registration whose `workerId` is an object or array always adds a fresh entry (`server.js:254`, `server.js:316`, `server.js:333`), and a lookup with such an id never finds one. `JsMaps` compares keys structurally, so two such registrations with equal contents share an entry in the model. A helmet post is unaffected, since it stringifies its id first. The dashboard's own map has the same trait (`public/app.js:298`, `public/app.js:301`): a polled record whose `workerId` is an object or array is unseen on every poll, so its notifications fire again and the client map grows each time. `Dashboard.RepeatedPollIsQuiet` and `Dashboard.MergeStoresPolled` therefore hold in JavaScript only for ids that are not objects or arrays.
- Array index and string index properties in `hasOwnProperty`: a helmet body is looked up by alias names only.
- Query parameters given more than once: they arrive as arrays, and the model takes them as strings.
- Normalizer.ToNumber: a literal is not rounded to the nearest double. `300.00000000000001` is the double 300 in JavaScript but stays above 300 in the model, so a value within rounding distance of a threshold can be classified differently. Overflow to an infinity, and the resulting 0, is modelled.
- Normalizer.ToNumberOfIntNumeral: promises the integer back only up to magnitude 2^53, where a double holds every integer. Beyond that, JavaScript rounds the numeral, and the model keeps it exact.
- Server.WorkerRegister and Server.WorkerLocation: what happens after the process ends is not modelled. A supervisor may restart it, from the registry file and with no live records, or nothing may.
- Dashboard.Poll and Mirror.PollMirrorsServer: the emergency modal and the card rendering run inside the poll's `try` (`public/app.js:313`, `public/app.js:319`). `toFixed` on a coordinate or accuracy that is not a number throws there (`public/app.js:645`, `public/app.js:526-528`). The catch then marks the client disconnected, with the merge complete or, when the modal threw, stopped partway. The model renders nothing, so its successful poll always merges every record and ends connected.
- The DOM: rendering, `animateNumber`, toasts, the modal, the clock, `toFixed` and `toLocaleString` formatting. The search filter is modelled on the records behind the cards.
- HTML escaping of `data-worker-id` values: the card id is the stringified `workerId`.
- `api/static.js`: file system access, and a path check built on a library call. `api/index.js` is a one-line re-export, and `test-api.js` is a command-line HTTP client.
