# Sensor telemetry: MQTT bridge and SQL query builders

This project is a Dafny model of two pieces of a small sensor-telemetry system.

**The MQTT-to-HTTP bridge.** There are two near-identical listener scripts, `Server/main.py` and `server/main.py`.
- `on_connect` subscribes to `{BASE_TOPIC}/readings` when the broker accepts the connection.
- `on_message` decodes each reading, checks it for a non-null `temperature`, and applies a 5-second cooldown kept in the process-wide `last_sent_time`.
- It then forwards the reading as one HTTP POST whose body is `{"value", "unit": "C", "timestamp"}`.

The model has these parts:
- `Pipeline.Step` is the per-message decision as a pure function.
- `TelemetryBridge.Bridge` is a class whose `lastSentTime` field is updated in place by `OnMessage`. A ghost log of POSTs records every forward.
- The class invariant says that successive forwards are at least 5 seconds apart, and that `lastSentTime` is the latest forward's time.
- The scripts differ, as far as the model is concerned, only in the POST timeout. `Script` and `PostTimeout` record the timeout argument passed to the POST; no modelled behaviour depends on it (see "Left out").

**The REST handlers' SQL (`app/main.py`).** Each handler checks the sensor type against the three-name whitelist. It then builds a statement and its list of bind parameters clause by clause.
- The model returns the statement and parameters the handler would pass to SQLite, or the early answer it gives instead.
- It proves that every generated statement has one `?` per parameter, with each parameter next to its clause.
- It proves that clause order is fixed and that only whitelisted names are interpolated as tables.

Supporting modules:
- `Json` is the decoded JSON value, with `dict.get` semantics. When a key is duplicated, the last one wins, as with `json.loads`.
- `Clock` is the `%Y-%m-%d %H:%M:%S` rendering. Nothing in the system reads a timestamp back; `Clock.Parse` is a reading-back function defined only to pin down the rendering, through two round-trip lemmas.

## Model

| member | source | states |
|---|---|---|
| Json.Get | Server/main.py:54 | `dict.get`: None iff no member has the key; otherwise the value of the last member with that key |
| Clock.Format | Server/main.py:67 | `strftime("%Y-%m-%d %H:%M:%S")` of a reading is always 19 characters |
| Clock.FormatSlices | Server/main.py:67 | in a rendered timestamp the year occupies characters 0-3 and month, day, hour, minute and second the two-character slots after each separator |
| Clock.ParseFormat | Server/main.py:67 | a rendered timestamp parses back to the reading it was rendered from |
| Clock.FormatParse | server/main.py:63 | every well-shaped timestamp is the rendering of the reading it parses to, so rendering is a bijection onto that shape |
| Pipeline.Topic | Server/main.py:39 | the subscribed topic is `BASE_TOPIC` followed by exactly `/readings` |
| Pipeline.Temperature | Server/main.py:49-58 | undecodable bytes are Malformed; a non-object JSON value is NotAnObject; an object succeeds exactly when `dict.get("temperature")` (the last duplicate) is present and not null, with that value unchanged, and is MissingTemperature exactly when it is absent or null |
| Pipeline.Classify | Server/main.py:81-87 | status 200 is stored, any other status is a rejection carrying that same code, and a raised exception is unreachable |
| Pipeline.WindowOpen | Server/main.py:61 | the window is open exactly when the skip test `current_time - last_sent_time < 5` is false |
| Pipeline.Body | Server/main.py:68-72 | the POST body is an object on which `dict.get` gives the temperature under `value`, "C" under `unit` and the timestamp under `timestamp` |
| Pipeline.Step | Server/main.py:46-87 | `last_sent_time` becomes `now` exactly when the message is forwarded, and is unchanged otherwise |
| Pipeline.ForwardedIff | Server/main.py:56-65 | forwarded iff the temperature check passes and `now - last_sent_time >= 5` |
| Pipeline.FirstForward | Server/main.py:60-65 | from the initial 0, a valid message is forwarded iff it arrives at 5 s or later |
| Pipeline.UndecodableDropped | Server/main.py:49-53 | bad UTF-8 or bad JSON is dropped as Malformed, with `last_sent_time` unchanged |
| Pipeline.NonObjectDropped | server/main.py:47-48 | a JSON value that is not an object is dropped, with `last_sent_time` unchanged |
| Pipeline.MissingTemperatureDropped | server/main.py:47-53 | an object on which `dict.get("temperature")` gives nothing or null (including a null last duplicate) is dropped, with `last_sent_time` unchanged |
| Pipeline.TemperaturePassedThrough | Server/main.py:56-72 | any object whose `dict.get("temperature")` is non-null, including 0 and false, is forwarded with that value unchanged in the body when the window is open |
| Pipeline.OrdinaryReadingForwarded | Server/main.py:54-72 | `{"temperature": 21.0, "id": 1}` with the window open is forwarded with value 21.0 |
| Pipeline.RateLimitedKeepsState | Server/main.py:60-63 | a valid message inside the window is skipped, with `last_sent_time` unchanged |
| Pipeline.WindowConsumedBeforePost | server/main.py:60-72 | the new `last_sent_time` and the forward decision do not depend on the POST's result, so a failure or an exception leaves the window consumed |
| Pipeline.BodyReadsBack | Server/main.py:67-72 | the body gives back the temperature under `value`, "C" under `unit`, and under `timestamp` a text that parses back to the local time |
| Pipeline.BodyKeys | server/main.py:63 | the body has exactly the keys value, unit, timestamp, in that order |
| Pipeline.CooldownScenario | Server/main.py:33-65 | readings at 10, 13 and 16 s are forwarded, skipped and forwarded; a reading at 0 s from the initial state is skipped |
| TelemetryBridge.PostTimeout | Server/main.py:76 | the POST carries a 5-second timeout in Server/main.py and none in server/main.py |
| TelemetryBridge.SpacedApart | Server/main.py:60-65 | any two forwards k positions apart are at least 5k seconds apart |
| TelemetryBridge.SpacedBounds | Server/main.py:33-65 | the i-th forward happened at 5(i+1) s or later, and `last_sent_time` bounds every forward |
| TelemetryBridge.SpacedAppend | Server/main.py:61-65 | a forward at least 5 s after `last_sent_time` keeps the log spaced and becomes the latest |
| TelemetryBridge.Bridge.constructor | Server/main.py:33 | `last_sent_time` starts at 0, with nothing subscribed and nothing sent |
| TelemetryBridge.Bridge.OnConnect | Server/main.py:35-41 | subscribes to exactly `BASE_TOPIC/readings` iff rc is 0; otherwise the subscriptions are unchanged (server/main.py:35-41 is identical) |
| TelemetryBridge.Bridge.OnMessage | Server/main.py:46-87 | the outcome and new `last_sent_time` are those of Step; exactly one POST, with the script's timeout, is logged iff the message is forwarded; the spacing invariant is kept (server/main.py:43-72 differs only in the timeout) |
| SensorApi.TableHasNone | app/main.py:15 | no whitelisted table name contains a placeholder |
| SensorApi.PlaceholdersJoin | app/main.py:43 | joining single-placeholder clauses with a placeholder-free separator gives one placeholder per clause |
| SensorApi.DatesPaired | app/main.py:36-41 | one condition and one parameter per non-empty date bound; start first, each condition next to the text it compares |
| SensorApi.WherePlaceholders | app/main.py:36-43 | the WHERE clause has one placeholder per date parameter, and is empty exactly when there is no date parameter |
| SensorApi.OrderPlaceholders | app/main.py:45-46 | the ORDER BY clause binds nothing |
| SensorApi.ListingPlaceholders | app/main.py:32-50 | the listing query has exactly as many placeholders as parameters |
| SensorApi.GetSensorData | app/main.py:28-46 | 404 iff the type is not whitelisted; otherwise `SELECT * FROM t`, then WHERE (if any bound), then ORDER BY iff order-by is `value` or `timestamp`, with the date parameters in order |
| SensorApi.StoredTimestamp | app/main.py:61 | the supplied timestamp if non-empty; otherwise a rendering of the local time that parses back to it |
| SensorApi.InsertColumnsPlaceholders | app/main.py:64 | the INSERT's value tuple has three placeholders |
| SensorApi.InsertSensorData | app/main.py:56-65 | 404 iff not whitelisted; otherwise one INSERT into the table with parameters value, unit, timestamp, and three placeholders for three parameters |
| SensorApi.SetItemsPaired | app/main.py:92-103 | one assignment and one parameter per non-None field, each assignment next to its value, in the order value, unit, timestamp (unit second when value is given, first otherwise) |
| SensorApi.UpdatePlaceholders | app/main.py:92-110 | the UPDATE has one placeholder per supplied field plus one for the id |
| SensorApi.UpdateSensorData | app/main.py:85-110 | 404 iff not whitelisted; "No updates provided" iff whitelisted and every field is None; otherwise the UPDATE with the SET assignments joined by ", " and the id bound last |
| SensorApi.GetSensorDataById | app/main.py:71-78 | 404 iff not whitelisted; otherwise a SELECT by id with the id as its one parameter |
| SensorApi.DeleteSensorData | app/main.py:115-122 | 404 iff not whitelisted; otherwise a DELETE by id with the id as its one parameter |
| SensorApi.GetSensorCount | app/main.py:127-134 | 404 iff not whitelisted; otherwise `SELECT COUNT(*)` on the table, with no parameter and no placeholder |

## Left out

- MQTT client construction, `connect` and `loop_forever` are network I/O. `on_connect` is modelled only as the rc-to-subscribe decision; its `client` is the `subscriptions` field. Only server/main.py starts the receive loop (server/main.py:95); Server/main.py's main block ends at line 107 without calling `loop_forever`, so run as a script it connects and exits. The model covers Server/main.py's callbacks as written.
- `requests.post` is an external call. Its result (200, another status, or a raised exception) is an input of `OnMessage`. What the server does with the body is not modelled.
- A POST that never returns is not modelled. This can only happen in server/main.py, whose `requests.post` has no timeout: a server that accepts the connection and never answers blocks `on_message`, and with it the receive loop, after `last_sent_time` has already advanced. Every modelled call ends with a status or an exception; `PostTimeout` only records the timeout argument.
- The POST body's JSON serialisation is not modelled: the body is a `Json.Value`, and float formatting on the wire is left out.
- `time.time()` is passed in as a `real`, so floating-point rounding of the clock is not modelled.
- `datetime.now()` and `time.localtime()` are passed in as a broken-down `DateTime` whose fields fit their printed widths. Calendar validity is not checked, and years below 1000 are printed zero-padded to four digits.
- Everything printed or logged is left out.
- SQLite execution is left out: `fetchall`, `fetchone`, `lastrowid`, `commit`, and the by-id handler's "Data not found" answer on an empty result.
- FastAPI routing and pydantic validation are left out. pydantic requires `value` and `unit`, so through the route an update never reaches "No updates provided". The model takes every field as optional, which covers the handler as written. Because `/api/{sensor_type}/count` is declared after `/api/{sensor_type}/{id}`, a request for it matches the by-id route and is rejected with 422 when `"count"` fails the `id: int` validation, so no handler body runs; `SensorApi.GetSensorCount` models the handler as written.
- app/database.py, the device firmware and the browser dashboard are not part of this model. They are connection and file I/O, hardware reads, and UI code.
- The clock is a plain number of seconds. From a fresh start a reading at t = 0 is skipped, because `last_sent_time` starts at 0 and the gate needs a 5-second gap (`Pipeline.CooldownScenario`). `time.time()` counts seconds since 1970, so with a real clock every reading is at 5 s or later, and by `Pipeline.FirstForward` the first valid reading after start-up is always forwarded.
- No type check is applied to `temperature`; any non-null value is forwarded unchanged.
