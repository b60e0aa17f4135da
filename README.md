# RFID reader to MQTT bridge: command handling, session flag and tag records

This project models the command-handling core of `python-mercuryapi-mqtt/app.py`, a bridge between a
ThingMagic Mercury RFID reader and an MQTT broker. The bridge accepts start and stop commands on two
topics, drives the reader, and republishes each tag read as a record on an output topic.

The model has six modules:

- `Values`: decoded JSON documents (`Json`) and the result of `json.loads` on a payload (`Payload`: `Malformed` or `Decoded(doc)`).
- `Device`: the reader as an opaque device (`Reader`). It records every call made on it in `trace`, in order. It raises on the calls in its fixed set `rejects`.
- `Commands`: the decoding steps of a start payload (`Decode`) and the `dict.get` defaults that turn it into reader settings (`ParamsOf`).
- `Handler`: the message callback and the exception handler as pure functions of the session flag before the event (`Handle`, `OnReaderException`). It also holds the session reached by any sequence of events from process start (`Run`), and the lemmas about all of these.
- `App`: the global state as a class. `Bridge` has the `readActive` flag and the reader handle. Its methods `OnMessage` and `ExceptionHandler` update them in place. A ghost `history` of handled events ties the object to `Handler.Run`.
- `Tags`: the tag callback's output record (`TagRecord`, `ReadingCallback`). It also has the record as the code builds it (`TagRecordAsWritten`); see Findings.

The model follows the code where it differs from the intended design:

- The session state is a single boolean. The code never assigns `True` to it, so it is false in every reachable state. As a result, the branch that stops a running read before reconfiguring is unreachable (`RunFlagFalse`, `RunTrace`, `BridgeFlagFalse`).
- A stop command only clears the flag. It makes no reader call.
- A start never starts reading. After `set_read_plan` the code evaluates the undefined global `exception_callback`. That raises `NameError`, which the handler's `except` catches. So every start message ends in a reported error, and the exception handler is never registered with the reader (`StartAlwaysReportsError`). The model keeps this as written, because it decides what every start command does. For comparison, `Handler.StartIntended` registers the defined `exception_handler` after the read plan instead; `IntendedStartRegistersHandler` and `IntendedStartCompletes` relate the two.
- If `stop_reading` itself raises, the flag stays set, because the assignment after it is never reached.
- Payload values are passed to the reader unchecked. A `power` that is a string reaches `set_read_plan` as a string. The settings are therefore `Json` values, not typed fields.

## Model

| member | source | states |
|---|---|---|
| Device.Reader.constructor | python-mercuryapi-mqtt/app.py:23 | a fresh reader handle has seen no calls; the driver's rejected calls are fixed |
| Device.Reader.StopReading | python-mercuryapi-mqtt/app.py:72 | `stop_reading` is appended to the trace; it succeeds exactly when the driver does not reject it |
| Device.Reader.SetRegion | python-mercuryapi-mqtt/app.py:75 | `set_region(region)` is appended to the trace with its argument; it succeeds exactly when not rejected |
| Device.Reader.SetReadPlan | python-mercuryapi-mqtt/app.py:76 | `set_read_plan(...)` is appended to the trace with all five arguments; it succeeds exactly when not rejected |
| Commands.Decode | python-mercuryapi-mqtt/app.py:62-64 | decoding succeeds exactly for a payload that parses to an object, and yields its fields; a parse failure and a non-object give the two distinct errors |
| Commands.ParamsOf | python-mercuryapi-mqtt/app.py:64-68 | each of power, region, antennas, filter and tid is the payload's value when the key is present, otherwise 25, "EU3", [1], null, false |
| Commands.EmptyPayloadGivesDefaults | python-mercuryapi-mqtt/app.py:64-68 | an empty object gives exactly the default settings |
| Commands.ParamsRoundTrip | python-mercuryapi-mqtt/app.py:64-68 | an object stating all five settings reads back as exactly those settings |
| Commands.OtherKeysIgnored | python-mercuryapi-mqtt/app.py:64-68 | keys other than the five settings do not change the settings |
| Handler.CutAtRejection | python-mercuryapi-mqtt/app.py:62-82 | calls attempted in order under one `try`: the issued calls are a prefix of the planned ones, every issued call but the last completed, and the prefix is cut short only at a rejected call |
| Handler.Start | python-mercuryapi-mqtt/app.py:71-82 | the start branch after decoding: its calls are a non-empty prefix of the planned ones; the flag stays set exactly when it was set and the stop was rejected; it always ends in a caught error |
| Handler.Handle | python-mercuryapi-mqtt/app.py:54-87 | handling a message never sets the flag; only a start command touches the reader or reports an error |
| Handler.OnReaderException | python-mercuryapi-mqtt/app.py:28-30 | the exception handler clears the flag and makes no reader call |
| Handler.StartFollowsPlan | python-mercuryapi-mqtt/app.py:71-77 | a decoded start issues [stop if active] then set_region then set_read_plan, in that order, up to and including the first call the driver rejects |
| Handler.StartCallOrder | python-mercuryapi-mqtt/app.py:75-76 | set_region precedes set_read_plan; both carry the decoded settings; the protocol is always "GEN2"; each is issued when no earlier call was rejected |
| Handler.StopBeforeReconfigure | python-mercuryapi-mqtt/app.py:71-75 | stop_reading is issued exactly when the flag was set, and then as the first call; the flag stays set only if that stop was rejected |
| Handler.MalformedPayload | python-mercuryapi-mqtt/app.py:62-82 | an unparsable or non-object start payload makes no reader call, keeps the flag, and reports its error |
| Handler.DriverRejection | python-mercuryapi-mqtt/app.py:71-82 | after a rejected call no further call is made; every earlier call completed; the rejection is reported as that last call's error, and never otherwise |
| Handler.StartAlwaysReportsError | python-mercuryapi-mqtt/app.py:75-82 | every start message ends in a caught error and never registers the exception handler |
| Handler.StopAndOtherTopics | python-mercuryapi-mqtt/app.py:61-87 | a stop clears the flag with no reader call and whatever its payload; any other non-start topic changes nothing |
| Handler.ExceptionHandlerIdempotent | python-mercuryapi-mqtt/app.py:28-30 | the exception handler clears the flag from any state; applying it twice equals applying it once |
| Handler.StartScenario | python-mercuryapi-mqtt/app.py:61-82 | `{"power":20,"region":"EU3","antennas":[1,2]}` with no read running yields set_region("EU3"), set_read_plan([1,2], "GEN2", 20, null, false), then the NameError |
| Handler.Step | python-mercuryapi-mqtt/app.py:28-87 | one message or reader exception applied to the session: the trace only grows, by at most three calls, and the flag is never set |
| Handler.Run | python-mercuryapi-mqtt/app.py:17-87 | the session after a sequence of events from the initial state (flag false, no calls); it holds at most three reader calls per event |
| Handler.StartIntended | python-mercuryapi-mqtt/app.py:71-77 | the start with the defined `exception_handler` registered after the read plan: its calls are a prefix of the plan plus the registration, and it reports no error exactly when all of them were issued and the registration was accepted |
| Handler.IntendedStartRegistersHandler | python-mercuryapi-mqtt/app.py:71-82 | the written and the intended start agree until the written one raises on the undefined name; there the intended one issues the registration and reports no error unless the driver rejects it |
| Handler.IntendedStartCompletes | python-mercuryapi-mqtt/app.py:75-77 | on a driver that rejects nothing, the intended start ends with the handler registration and no error, while the written one reports the undefined name |
| Handler.RunFlagFalse | python-mercuryapi-mqtt/app.py:17-87 | from the initial state, after any sequence of messages and reader exceptions, the flag is false |
| Handler.RunTrace | python-mercuryapi-mqtt/app.py:71-77 | after any sequence of events, the reader has only received region and GEN2 read-plan settings, each plan directly after a region; never a stop, never a handler registration |
| App.Bridge.constructor | python-mercuryapi-mqtt/app.py:17-23 | at process start the flag is false and the reader has seen no calls |
| App.Bridge.OnMessage | python-mercuryapi-mqtt/app.py:54-87 | the new flag, the calls appended to the reader's trace and the reported error are those of `Handler.Handle` on the old flag; the bridge stays consistent with its history |
| App.Bridge.ExceptionHandler | python-mercuryapi-mqtt/app.py:28-32 | the flag is false afterwards; the reader is untouched |
| App.BridgeFlagFalse | python-mercuryapi-mqtt/app.py:17-87 | a bridge's flag is false whatever it has handled |
| App.BridgeTrace | python-mercuryapi-mqtt/app.py:71-77 | a bridge has never stopped its reader nor registered an exception handler on it |
| Tags.Truncate | python-mercuryapi-mqtt/app.py:37 | `int()` of the capture time rounds toward zero: within one second of it, on the side of zero |
| Tags.TagRecord | python-mercuryapi-mqtt/app.py:36-43 | the record has exactly the keys timestamp, epc, antenna, read_count and rssi; the timestamp is the truncated capture time; the other four are copied from the observation |
| Tags.ReadingCallback | python-mercuryapi-mqtt/app.py:34-45 | the callback with the intended record (see Findings; as written it raises before publishing): the message goes to the output topic and its body is exactly `TagRecord` of the observation and capture time |
| Tags.TagRecordAsWritten | python-mercuryapi-mqtt/app.py:36-43 | building the record as written always fails on the unbound local `tag` |
| Tags.TagRecordDiscrepancy | python-mercuryapi-mqtt/app.py:36-43 | for the observation epc E200001B, antenna 1, read count 3, rssi -42 at time 1700000000, the code as written yields no record; the intended mapping yields the documented one |
| Tags.TimestampWholeSeconds | python-mercuryapi-mqtt/app.py:37 | every capture time at or after the epoch is published as its whole seconds (its floor), e.g. 1700000000.75 as 1700000000 |

## Findings

| source | as written | input that shows it | evidently intended | confidence | as-written member | corrected member |
|---|---|---|---|---|---|---|
| python-mercuryapi-mqtt/app.py:39-41 | the record reads `antenna`, `read_count` and `rssi` from `tag`, the local the dictionary is being assigned to, so the callback raises `UnboundLocalError` and publishes nothing | any observation, e.g. epc E200001B, antenna 1, read count 3, rssi -42 at time 1700000000 | read them from the observation `tagData` | high; not executed | Tags.TagRecordAsWritten (with Tags.TagRecordDiscrepancy) | Tags.TagRecord (published by Tags.ReadingCallback) |

## Left out

- MQTT client lifecycle (`main`, `connect`, `loop_forever`, `on_connect` and its subscriptions): network I/O through the paho library. The topic names are constants with their default values. The model assumes the start and stop topics differ.
- Reader construction failure and process exit: hardware access and `sys.exit`. `Bridge.constructor` takes a reader that opened successfully.
- Environment configuration of broker, port, topics, device and baud rate.
- JSON and UTF-8 encoding and decoding: library calls. A payload is `Malformed` or a decoded document. A failure of the UTF-8 decode before the `try` is not modelled. JSON numbers with a fraction are not modelled. The output record is a map, not a JSON string.
- The clock: the capture time is a parameter, as a real number rather than a float.
- Printing, and `client.publish` on the output topic: `ReadingCallback` returns the message to publish. The exception object passed to `exception_handler` is only printed, so the model drops it.
- Concurrency between the bus event loop and the reader's read and exception threads. The code has no locking. Every event is applied whole, one at a time.
- Device.Reader: whether the driver raises on a call depends only on the call and its arguments (a fixed set `rejects`). A real driver may also fail depending on its own state or on time.
- The reader's `enable_exception_handler` and `start_reading` operations: the code never reaches the first and never calls the second, so the reader model has no methods for them.
