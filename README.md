# RGB candlestick: hub, controller and web selection, in Dafny

This project models the logic of the RGB candlestick system:

- a hub that keeps a registry of LED "candlestick" controllers connected over websockets;
- the controller programs that take commands, from the hub or from an older local queue, and drive a seven-LED strip over a serial line;
- the web app's rule for which candlestick is selected after each poll.

Each source file of the core is one Dafny module, in one file:

| module | file | models |
|---|---|---|
| `Wrappers` | wrappers.dfy | `Option` and `Result` |
| `Json` | json.dfy | decoded JSON values, Python's `int()` on them, a Python int stored in a shared 32-bit C `int` |
| `Models` | models.dfy | the hub's message schema (backend/models.py) |
| `Registry` | connection_manager.dfy | the hub's `ConnectionManager`, as a class with two `map` fields and an outbox |
| `HubApp` | hub_app.dfy | the hub's websocket endpoint and REST handlers (backend/app.py) |
| `DeviceClient` | backend_client.dfy | the controller's `BackendClient` connection state machine |
| `AgentMain` | main_websocket.dfy | `html_color_to_rgb`, `handle_backend_command`, `restart_candle` and the start-up status |
| `LegacyLoop` | legacy_main.dfy | the older controller's queue loop with its one-minute reset (controller/src/main.py) |
| `Leds` | leds.dfy | the palette, strips, the 21-value payload, the serial frame, rotation, and the no-repeat colour pick |
| `LedStrip` | serial_controller.dfy | the newer `SerialController` class |
| `Patterns` | patterns.dfy | the newer `diff_set_array`, `cop`, `rb`, and the geometry of `bounce`, `wave` and `fall` |
| `Candlestick` | candlestick_main.dfy | the pattern table, `run_random` and `run_program` |
| `LegacySupport` | rgb_support.dfy | the older strip module, its lists kept in a store so that sharing between rows and palette colours is visible |
| `LegacyPatterns` | rgb_patterns.dfy | the older patterns over that store |
| `CandlestickContext` | candlestick_context.dfy | the web app's poll and auto-select rule |

Model conventions:

- Time is an integer `now`, in microseconds.
- A websocket is an opaque handle.
- Whether accepting, sending or closing succeeds is a boolean parameter.
- Random draws are parameters.
- An exception the source does not catch becomes an `ok`/`crashed` result or an error value.
- What reaches the serial line is a `Port` value: frames written, or payloads logged when no port opened.
- A pattern's output is the series of strips it hands to the controller. `LedStrip.PushAll` of that series is what reached the port.

## Model

| member | source | states |
|---|---|---|
| Models.ExactlyThreeTags | backend/models.py:11-15 | a `type` value parses as a message tag iff it is "status", "heartbeat" or "command", and each tag parses back to itself |
| Models.ParseCandlestickCommand | backend/models.py:18-23 | a command that validates has its speed absent or within 1..100 |
| Models.CommandValidIff | backend/models.py:20-23 | when the four fields have the right JSON types, a command validates iff its speed is absent or in 1..100, and the parsed command carries exactly those fields |
| Models.EmptyCommandValid | backend/models.py:20-23 | an empty object is a valid command with every field absent |
| Models.DefaultTags | backend/models.py:77-98 | without a `type` key, status, heartbeat and command messages take their own tag |
| Models.OnlyOperatorCommandBoundsSpeed | backend/models.py:18-98 | any integer speed is accepted in a status or command message, but only 1..100 in an operator command |
| Json.Wrap32 | controller/src/main_websocket.py:93 | a Python int stored in the shared C `int` keeps its value modulo 2^32, as a signed 32-bit number |
| Json.Wrap32InRange | controller/src/main_websocket.py:93 | a value already in the signed 32-bit range is stored unchanged |
| Registry.ConnectKeepsCoherent | backend/connection_manager.py:33-47 | connecting keeps the invariant "an id has a live session iff its stored state says connected" |
| Registry.ReconnectKeepsSettings | backend/connection_manager.py:37-40 | reconnecting a known id marks it connected and seen now, keeps program, speed, direction, colour and random, and adds no id |
| Registry.FirstConnectFresh | backend/connection_manager.py:41-47 | a first connect creates a connected state with every setting unset, and adds exactly that id |
| Registry.DisconnectKeepsCoherent | backend/connection_manager.py:51-58 | disconnecting any set of ids keeps the invariant and never removes a stored state |
| Registry.DisconnectAllLeavesNoneConnected | backend/connection_manager.py:62-71 | after disconnecting every live id, no stored state says connected |
| Registry.DisconnectUnknownNoChange | backend/connection_manager.py:51-58 | disconnecting an id with no state leaves the states unchanged |
| Registry.MergeIdempotent | backend/connection_manager.py:94-109 | applying the same update twice equals applying it once, and an update never changes id, connected or random |
| Registry.EmptyMergeIsHeartbeat | backend/connection_manager.py:100-109 | an update with every argument None only refreshes last_seen |
| Registry.SweptExactly | backend/connection_manager.py:155-165 | a sweep keeps exactly the states that are not stale (stale: disconnected and unseen for more than the timeout), unchanged, never drops a live id, and keeps the invariant |
| Registry.SweptIdempotent | backend/connection_manager.py:155-165 | a second sweep at the same time removes nothing more |
| Registry.StaleAfterFiveMinutes | backend/connection_manager.py:145-161 | with the default timeout, a state disconnected at t survives a sweep at `now` iff now - t is at most 300 seconds |
| Registry.CommandPayloadFields | backend/connection_manager.py:124-127 | the command message holds `type` = "command" plus exactly the fields of the command that are not None, with their values |
| Registry.CommandPayloadRoundTrip | backend/connection_manager.py:124-127 | the command message parses back as a `CommandMessage` with the command's fields |
| Registry.ConnectionManager.constructor | backend/connection_manager.py:21-27 | the registry starts with no sessions, no states and nothing sent |
| Registry.ConnectionManager.Connect | backend/connection_manager.py:29-47 | if the accept fails, nothing changes; otherwise the id maps to the new session (replacing any old one) and its state is the connect update |
| Registry.ConnectionManager.Disconnect | backend/connection_manager.py:51-58 | the session is removed, a known state is marked disconnected and seen now, and the invariant is kept |
| Registry.ConnectionManager.DisconnectAll | backend/connection_manager.py:62-71 | every live id is closed once, whatever closing it does; no session is left, each of those states is marked disconnected, and nothing else changes |
| Registry.ConnectionManager.IsConnected | backend/connection_manager.py:73-75 | the answer (a live session for the id) agrees with the stored state: true iff the id has a state that says connected |
| Registry.ConnectionManager.GetState | backend/connection_manager.py:77-79 | the stored state for the id, or none when the id is unknown |
| Registry.ConnectionManager.UpdateState | backend/connection_manager.py:85-109 | an unknown id changes nothing; a known id's state gets the merge of the non-None arguments and last_seen = now |
| Registry.ConnectionManager.UpdateHeartbeat | backend/connection_manager.py:111-114 | only last_seen of a known id changes |
| Registry.ConnectionManager.SendCommand | backend/connection_manager.py:116-143 | not connected: an error, and nothing changes; send fails: an error, and nothing changes; send succeeds: the command message goes to that id's session and is merged into its state |
| Registry.ConnectionManager.CollectStale | backend/connection_manager.py:155-161 | the collected ids are exactly the stored ids whose state is stale, each once |
| Registry.ConnectionManager.DeleteStates | backend/connection_manager.py:163-165 | exactly the given ids are deleted from the states |
| Registry.ConnectionManager.CleanupSweep | backend/connection_manager.py:154-165 | one sweep leaves the states equal to `Swept` of the old states and touches no session |
| HubApp.DispatchCases | backend/app.py:145-181 | only a status or heartbeat frame reaches the registry; a status frame is applied iff it validates; a frame that is not a JSON object ends the session; a missing or falsy type is skipped |
| HubApp.DisconnectIffEnded | backend/app.py:140-188 | a session's call log ends in a disconnect iff some receive ends the session; no earlier call is a connect or a disconnect; every call names the session's id |
| HubApp.QuietFramesNoCalls | backend/app.py:145-181 | frames that are skipped, rejected or of an unknown type make no registry call |
| HubApp.FrameLoop | backend/app.py:140-188 | the loop's calls are exactly `FrameCalls` of the receives |
| HubApp.AsWrittenNeverConnects | backend/app.py:137 | as written, every session raises at its first call, `connect_controller`, which the registry does not have; the disconnect and status-update calls do not resolve either |
| HubApp.ApplyCallsCoherent | backend/app.py:137-188 | applying a session's calls keeps the registry invariant and forgets no state |
| HubApp.EndedSessionDisconnected | backend/app.py:183-188 | when a call log ends with the id's disconnect, the id has no session and its state says disconnected |
| HubApp.SessionEndsDisconnected | backend/app.py:131-188 | after a session that ended, the controller is registered but disconnected |
| HubApp.ServeSession | backend/app.py:131-188 | with the registry's real methods, a session leaves the registry equal to its call log applied to the old registry, keeps the invariant and sends nothing |
| HubApp.PostCommand | backend/app.py:110-128 | 422 iff the body is not a valid command; 404 iff valid and the id has no session; 200 iff the send succeeds; 500 iff it fails; only a 200 sends and merges the command |
| HubApp.GetCandlestick | backend/app.py:99-107 | 404 iff the id has no stored state, otherwise that state |
| HubApp.GetCandlestickOwnState | backend/app.py:99-107 | the state returned carries the asked id, and it says connected iff the id has a live session |
| HubApp.HealthCountsStoredStates | backend/app.py:79-86 | the "connected_candlesticks" count is at least the number of live sessions, and equal to it iff every stored state is connected |
| DeviceClient.StatusRoundTrip | controller/src/backend_client.py:78-88 | a status message always has all six keys, and the hub parses it back to the same fields and applies it |
| DeviceClient.HeartbeatRefreshes | controller/src/backend_client.py:99-102 | the heartbeat message makes the hub refresh last_seen |
| DeviceClient.Routed | controller/src/backend_client.py:114-131 | at most one delivered object per frame, and every delivered object has `type` = "command" |
| DeviceClient.RoutedFromFrames | controller/src/backend_client.py:114-131 | each delivered object is the whole decoded object of a received frame |
| DeviceClient.HubCommandsDelivered | controller/src/backend_client.py:114-124 | the hub's command messages reach the callback one by one, unchanged and in order |
| DeviceClient.NonCommandsDropped | controller/src/backend_client.py:119-131 | frames that are not commands (other types, undecodable, not an object) reach no callback |
| DeviceClient.Retries | controller/src/backend_client.py:154-161 | n failed connects give n attempts, each followed by a wait of `reconnect_delay` |
| DeviceClient.BackendClient.constructor | controller/src/backend_client.py:19-40 | no socket, not connected, not running, nothing sent or delivered |
| DeviceClient.BackendClient.Connect | controller/src/backend_client.py:42-55 | `connected` and the result both equal success; on success the socket is the new one |
| DeviceClient.BackendClient.Disconnect | controller/src/backend_client.py:57-63 | running and connected both become false, and an open socket is closed |
| DeviceClient.BackendClient.SendStatus | controller/src/backend_client.py:65-92 | sends nothing while disconnected; otherwise sends the status message, or clears `connected` when the send fails |
| DeviceClient.BackendClient.SendHeartbeat | controller/src/backend_client.py:94-106 | the same rules for `{"type": "heartbeat"}` |
| DeviceClient.BackendClient.ReceiveMessages | controller/src/backend_client.py:108-138 | delivers `Routed` of the frames; only an exceptional end of the stream clears `connected` |
| DeviceClient.BackendClient.Run | controller/src/backend_client.py:147-183 | the final client and the events equal `RunFrom` of the rounds, so `LossReconnects` and `NormalEndKeepsSocket` apply to them; with every connect failing, the events are exactly `Retries`; each heartbeat task is cancelled right after it starts; every wait is `reconnect_delay`; without a stop the client stays running; once stopped, an open socket is closed |
| DeviceClient.BackendClient.RunRounds | controller/src/backend_client.py:154-179 | the loop's final client and events equal `RunFrom` of the client it started from |
| DeviceClient.BackendClient.RunRound | controller/src/backend_client.py:155-179 | a failed connect records an attempt and a wait and changes nothing else; a held or new session starts its trace with the heartbeat task or the connection attempt, delivers the routed frames, sends the leading successful heartbeats, and stays connected exactly when every heartbeat went through, the stream ended normally and no stop came |
| DeviceClient.BackendClient.HeartbeatLoop | controller/src/backend_client.py:140-145 | while connected, heartbeats are sent until the first failed send, which clears `connected`; while disconnected nothing is sent |
| DeviceClient.LeadingSuccesses | controller/src/backend_client.py:140-145 | the count of heartbeats sent is the length of the leading run of successful sends |
| DeviceClient.Heartbeats | controller/src/backend_client.py:99-102 | n heartbeat frames, each `{"type": "heartbeat"}` |
| DeviceClient.LoopSplit | controller/src/backend_client.py:154-179 | running the rounds is running the first i of them and then the rest from the client they left |
| DeviceClient.LossReconnects | controller/src/backend_client.py:133-138 | a session lost by a failed heartbeat or an exceptional end of the stream, without a stop, is followed by a connection attempt as the next round's first event |
| DeviceClient.NormalEndKeepsSocket | controller/src/backend_client.py:154-157 | a stream that ends normally with every heartbeat through leaves `connected` set, so the next round starts the heartbeat task without reconnecting |
| DeviceClient.NextRoundStarts | controller/src/backend_client.py:154-167 | after a round holding a session without a stop, the client still runs, is connected exactly when the session survived, and the next round's first event follows from that |
| DeviceClient.ThroughRound | controller/src/backend_client.py:154-179 | the first i + 1 rounds are the first i followed by round i |
| DeviceClient.FirstEvent | controller/src/backend_client.py:155-164 | a running client's next round begins with a connection attempt when disconnected, with the heartbeat task otherwise |
| DeviceClient.RoundShape | controller/src/backend_client.py:154-179 | every round pairs each heartbeat start with its cancel and waits only `reconnect_delay` |
| DeviceClient.RunTraceShape | controller/src/backend_client.py:154-179 | so does every run of rounds |
| DeviceClient.RunKeepsRunning | controller/src/backend_client.py:154-179 | a run without a stop ends running |
| DeviceClient.RunRetries | controller/src/backend_client.py:155-161 | when every connect fails, the run leaves the client as it was and its events are `Retries` |
| DeviceClient.RunStep | controller/src/backend_client.py:154-179 | one more round of a run moves the rest of the run forward by that round |
| AgentMain.ParseHexPair | controller/src/main_websocket.py:58-60 | `int(pair, 16)` of two hex digits is 16 times the first digit plus the second, a byte value |
| AgentMain.PartsParse | controller/src/main_websocket.py:58-60 | parts that each parse as base-16 integers give their values, in order and one per part |
| AgentMain.SixHexDigitsGiveBytes | controller/src/main_websocket.py:53-62 | six hex digits give the three byte values of their pairs, each in 0..255, with or without a leading `#` |
| AgentMain.TailIgnored | controller/src/main_websocket.py:58-60 | characters after the sixth are ignored |
| AgentMain.HashOptional | controller/src/main_websocket.py:55-56 | `#RRGGBB` and `RRGGBB` give the same result |
| AgentMain.RgbToHtml | controller/src/main_websocket.py:53-62 | the `#rrggbb` code of a colour is seven characters starting with `#`; `RgbRoundTrip` makes it the inverse of the parser |
| AgentMain.RgbRoundTrip | controller/src/main_websocket.py:53-62 | parsing the `#rrggbb` code of any three bytes gives those bytes back |
| AgentMain.SignedPairAccepted | controller/src/main_websocket.py:58-60 | a sign inside a pair is accepted by `int(…, 16)`, so "-fabcd" parses, with a negative red |
| AgentMain.ApplyCommandByKeys | controller/src/main_websocket.py:65-109 | the keys are applied in the order direction, program, speed, colour; the worker left is the one started by the last restarting key; the result is ok iff the speed converts and the colour, if any, parses |
| AgentMain.SpeedDoesNotRestart | controller/src/main_websocket.py:92-94 | a speed-only command keeps the running worker |
| AgentMain.StopInstallsBlank | controller/src/main_websocket.py:83-88 | program "stop" with no colour leaves the blank worker running |
| AgentMain.BadColorKeepsWorker | controller/src/main_websocket.py:96-109 | an unparsable colour is still stored, and the worker is the one the other keys left |
| AgentMain.BadSpeedSkipsColor | controller/src/main_websocket.py:92-109 | a speed `int()` rejects ends the handler: speed and colour are unchanged, and the state is what the direction and program keys made |
| AgentMain.Agent.constructor | controller/src/main_websocket.py:20-26 | program "random", speed 10, no direction, no colour, no worker |
| AgentMain.Agent.RestartCandle | controller/src/main_websocket.py:38-50 | the one worker becomes `run_program` with the current program and direction |
| AgentMain.Agent.HandleBackendCommand | controller/src/main_websocket.py:65-109 | the globals after the handler are `ApplyCommand` of the globals before it |
| AgentMain.Agent.StartUp | controller/src/main_websocket.py:120-141 | the default program is started and the agent's program, speed, direction and colour stay as they were; the initial status is sent iff the connect and the send succeed; the client is connected iff both succeeded, and its `running` flag and deliveries are untouched |
| AgentMain.StartUpStatusApplied | controller/src/main_websocket.py:133-141 | the hub reads the initial status as program "random", speed 10 |
| LegacyLoop.Initial | controller/src/main.py:36-53 | the loop starts valid, with one worker started and no override |
| LegacyLoop.ApplyColor | controller/src/main.py:93-106 | the colour step keeps the loop state valid and the override flag, and never un-starts a worker; what it copies and starts is stated by `ColorCopied`, `ColorSignalsOrStarts` and `BadColorCrashes` |
| LegacyLoop.Message | controller/src/main.py:58-106 | handling an object message sets the override and keeps the state valid; its key handling is stated by `DirectionOnlyOnExactValues`, `ProgramRestarts`, `SpeedDoesNotRestart` and `BadSpeedCrashes` |
| LegacyLoop.Run | controller/src/main.py:55-116 | running the loop over any inputs keeps the loop state valid; `MainLoop` is proved equal to it and `OneResetPerIdlePeriod` states its idle behaviour |
| LegacyLoop.Step | controller/src/main.py:55-116 | any request body, object or not, sets the override; a timeout never crashes and clears it |
| LegacyLoop.NonObjectBody | controller/src/main.py:60-62 | a body that is not an object only sets the override, and ends the loop exactly when it is null, a boolean or a number, a string containing a handled key, or a list holding one |
| LegacyLoop.KeyTestsRaiseAny | controller/src/main.py:62-93 | the chain of key tests raises exactly when one test does not come out false |
| LegacyLoop.ShortStringBodyPasses | controller/src/main.py:60-93 | a string body shorter than five characters passes every key test and only sets the override |
| LegacyLoop.SpeedyStringBodyCrashes | controller/src/main.py:89-91 | the string body "speedy" contains `speed`, so indexing it raises and the loop ends |
| LegacyLoop.DirectionOnlyOnExactValues | controller/src/main.py:62-72 | only "left", "right", "up" and "down" change the direction, and any `direction` key restarts the worker |
| LegacyLoop.ProgramRestarts | controller/src/main.py:74-87 | a program key sets the program; when the speed converts and no colour follows, "stop" leaves the blank worker and any other program a worker with the current direction |
| LegacyLoop.SpeedDoesNotRestart | controller/src/main.py:89-91 | a speed-only message stores int(speed) in the shared int without a restart |
| LegacyLoop.BadSpeedCrashes | controller/src/main.py:89-91 | a speed `int()` rejects ends the program after the direction and program keys were applied |
| LegacyLoop.Channel | controller/src/main.py:94-96 | a channel stored in the shared array is a signed 32-bit value |
| LegacyLoop.ColorCopied | controller/src/main.py:93-96 | r, g and b are copied into the shared colour array |
| LegacyLoop.ColorSignalsOrStarts | controller/src/main.py:97-106 | under program "rgb_color" the event is only signalled (and raises if none was ever created); otherwise a colour worker is started with a fresh event |
| LegacyLoop.BadColorCrashes | controller/src/main.py:94-96 | a colour without integer r, g and b ends the program |
| LegacyLoop.TimeoutResets | controller/src/main.py:108-116 | a timeout after a message resets program, speed and direction and restarts the default worker, keeping the colour |
| LegacyLoop.TimeoutIdempotent | controller/src/main.py:108-116 | a second timeout changes nothing |
| LegacyLoop.OneResetPerIdlePeriod | controller/src/main.py:108-116 | any run of timeouts acts as one timeout |
| LegacyLoop.MainLoop | controller/src/main.py:55-116 | the loop's final state and crash flag are `Run` of the initial state over the receives |
| LegacyLoop.OnMessage | controller/src/main.py:58-106 | one message handled in place equals `Message`, and the colour array holds the state's colour |
| LegacyLoop.OnSettings | controller/src/main.py:60-91 | direction, program and speed handling equal their functions; a speed crash leaves what the first two did |
| LegacyLoop.OnColor | controller/src/main.py:93-106 | the colour step in place equals `ApplyColor` |
| LegacyLoop.StoreColor | controller/src/main.py:94-96 | the array after the three stores equals `StoreChannels` of the array before, and a failed store stops the later ones |
| Leds.Dark | controller/src/candlestick/serial_controller.py:9 | the blank strip holds only byte values, so committing it never raises |
| Leds.PayloadAt | controller/src/candlestick/serial_controller.py:21-44 | payload value 3k+j is channel j of the k-th row in the order |
| Leds.PayloadBytes | controller/src/candlestick/serial_controller.py:56-58 | a payload of byte channels is all bytes, so `bytearray` accepts it |
| Leds.FrameRoundTrip | controller/src/candlestick/serial_controller.py:56-58 | a frame is the payload between 255 and 254, two values longer, and `Unframe` (a reading of the line stated for this model, not a function of the controller) gives the payload back |
| Leds.RotateLeft | controller/src/candlestick/patterns.py:133-144 | rotating left by n moves element k+n to position k, wrapping the first n to the end |
| Leds.RotationsAreRotateLeft | controller/src/candlestick/patterns.py:133-144 | k single rotations (append the head, drop it) are the rotation left by k |
| Leds.RotationsPermute | controller/src/candlestick/patterns.py:133-144 | rotating keeps the same rows (same multiset) |
| Leds.RotationsCompose | controller/src/candlestick/patterns.py:133-144 | a+b rotations are a rotations then b more |
| Leds.RotationsFullTurns | controller/src/candlestick/patterns.py:133-144 | whole turns give the strip back |
| Leds.FirstFresh | controller/src/candlestick/patterns.py:25-31 | the pick is the first draw that differs from the previous index, every earlier draw equals it, and there is none iff every draw repeats it |
| Leds.FirstFreshAt | controller/src/candlestick/patterns.py:27-30 | the pick is the draw at the first position that differs from the previous index |
| Leds.ColorPicker.constructor | controller/src/candlestick/patterns.py:22 | no previous index |
| Leds.ColorPicker.GetRandomColor | controller/src/candlestick/patterns.py:25-31 | returns the palette colour of the first fresh draw and remembers its index |
| Leds.NoRepeatInARow | controller/src/candlestick/patterns.py:25-31 | two picks in a row never give the same palette index |
| LedStrip.Forward | controller/src/candlestick/serial_controller.py:21-26 | the "right" order is rows 0..6 |
| LedStrip.Backward | controller/src/candlestick/serial_controller.py:27-32 | the "left" order is rows 6..0 |
| LedStrip.CommitDirections | controller/src/candlestick/serial_controller.py:18-44 | a commit succeeds iff the direction is falsy or one of the four; it then sends 21 values, value 3k+j being channel j of the k-th row of the order |
| LedStrip.CommitRightAndLeft | controller/src/candlestick/serial_controller.py:21-32 | None, "" and "right" send rows 0..6 in order; "left" sends them reversed, channels kept in order |
| LedStrip.VerticalOrdersShowRowsZeroToThree | controller/src/candlestick/serial_controller.py:33-44 | "up" and "down" send only rows 0..3, symmetrically |
| LedStrip.PushAllAppend | controller/src/candlestick/serial_controller.py:64-66 | pushing a+b is pushing a, then b if nothing raised |
| LedStrip.PushAllDelivers | controller/src/candlestick/serial_controller.py:46-58 | byte strips in a known direction reach the port as their payloads, framed when the port is open and logged otherwise |
| LedStrip.PushAllSucceeds | controller/src/candlestick/serial_controller.py:46-58 | such strips never make a commit raise |
| LedStrip.SerialWriteRaisesOnResponse | controller/src/candlestick/serial_controller.py:51-62 | as written, any waiting response makes `serial_write` raise, before the write when it waits before |
| LedStrip.SerialController.constructor | controller/src/candlestick/serial_controller.py:5-16 | seven black rows, and the port is open iff opening it succeeded |
| LedStrip.SerialController.CommitArr | controller/src/candlestick/serial_controller.py:18-49 | the strip is unchanged; the port gets exactly the commit of the strip, or nothing when the commit raises |
| LedStrip.SerialController.SetFullArray | controller/src/candlestick/serial_controller.py:64-66 | the strip becomes the given rows, then is committed |
| LedStrip.SerialController.SetLed | controller/src/candlestick/serial_controller.py:68-72 | only row x (a Python index) changes, committed only when `send`; an index outside the strip changes nothing |
| LedStrip.SerialController.SetAll | controller/src/candlestick/serial_controller.py:74-80 | rows 0..6 become the colour, and the strip is committed "right" |
| Patterns.ChannelStep | controller/src/candlestick/patterns.py:67-77 | a channel stays between its start and its target, snaps to the target within 2, and lands on it at step 1 |
| Patterns.PassAt | controller/src/candlestick/patterns.py:64-77 | each row of a pass is that row's channel steps |
| Patterns.LastPassIsGoal | controller/src/candlestick/patterns.py:64-77 | the pass with step 1 gives the goal |
| Patterns.PassStaysWithin | controller/src/candlestick/patterns.py:69-77 | a pass never overshoots: channels stay between start and goal |
| Patterns.PassFrames | controller/src/candlestick/patterns.py:64-79 | one strip per pass, each a strip |
| Patterns.PassFramesEndOnGoal | controller/src/candlestick/patterns.py:56-82 | the last pushed strip is the goal |
| Patterns.PassFramesWithin | controller/src/candlestick/patterns.py:64-79 | every pushed strip lies between the start and the goal |
| Patterns.PassFramesBytes | controller/src/candlestick/patterns.py:64-79 | from byte strips, every pushed strip has byte values |
| Patterns.PassInPlace | controller/src/candlestick/patterns.py:65-77 | the in-place nested loop computes `Pass` |
| Patterns.DiffSetArray | controller/src/candlestick/patterns.py:45-82 | the port gets the 50 pass strips, and when nothing raised the result and the strip are the goal; the inputs are values, so they are not mutated |
| Patterns.CopFrames | controller/src/candlestick/patterns.py:122-146 | `cop` pushes 6 strips per round |
| Patterns.CopFramesLastRound | controller/src/candlestick/patterns.py:122-146 | round r shows the two arrangements rotated left by 2(r-1) |
| Patterns.CopPeriod | controller/src/candlestick/patterns.py:133-144 | after seven rounds the arrangements repeat |
| Patterns.FlashRound | controller/src/candlestick/patterns.py:123-131 | one round pushes led1, led2 three times, "right" |
| Patterns.Cop | controller/src/candlestick/patterns.py:105-146 | the port gets exactly `CopFrames` for the rounds asked (none when negative) |
| Patterns.CopDelivers | controller/src/candlestick/patterns.py:122-146 | `cop`'s strips never make a commit raise |
| Patterns.Rb | controller/src/candlestick/patterns.py:259-289 | the palette is pushed, then each round interpolates to the strip rotated left by one; the strip ends as the last round's goal |
| Patterns.RainbowRound | controller/src/candlestick/patterns.py:280-283 | one round pushes the 50 strips toward the rotation, and ends on it |
| Patterns.RainbowRounds | controller/src/candlestick/patterns.py:278-289 | the rounds' loop equals `RainbowPush` |
| Patterns.RainbowDelivers | controller/src/candlestick/patterns.py:278-283 | the rainbow never makes a commit raise, in a known direction |
| Patterns.RainbowEndsRotated | controller/src/candlestick/patterns.py:278-283 | after n rounds the strip is the start rotated left by n |
| Patterns.RainbowReturnsToPalette | controller/src/candlestick/patterns.py:259-280 | the default 21 rounds end on the palette again |
| Patterns.BounceLit | controller/src/candlestick/patterns.py:166-176 | `bounce` lights rows 0..n-1 going out and n..0 coming back |
| Patterns.WaveLit | controller/src/candlestick/patterns.py:213-214 | `wave` lights rows 0..n-1 |
| Patterns.DefaultShapes | controller/src/candlestick/patterns.py:148-231 | sideways, `bounce` and `fall` light 6 LEDs for 3 rounds and `wave` 7 for 4; up or down, 3 for 5 and 4 for 6; a truthy `rounds` wins |
| Patterns.GeometryMatchesOrders | controller/src/candlestick/patterns.py:148-217 | every row `bounce` and `wave` light is sent in their direction, and every row sent is lit |
| Patterns.FallLightsUnsentRow | controller/src/candlestick/patterns.py:219-254 | up or down, `fall` lights row 4, which is never sent |
| Candlestick.TableShape | controller/src/candlestick/main.py:11-20 | six distinct keys, and `rb2` runs the same function as `rb` |
| Candlestick.ReportedRunsTheDrawnPattern | controller/src/candlestick/main.py:24-31 | the reported name is one of fall, wave, bounce, cop, rb, never `rb2`, and names the function that runs |
| Candlestick.RandomInvocation | controller/src/candlestick/main.py:24-41 | the direction run is one of the four, and the pattern run is the one the reported name names |
| Candlestick.SharedSlot.constructor | controller/src/candlestick/main.py:22 | a slot holds its initial text |
| Candlestick.RunRandom | controller/src/candlestick/main.py:22-41 | the call is `RandomInvocation`; only given slots are written, with the direction and the reported name |
| Candlestick.RunProgram | controller/src/candlestick/main.py:43-60 | "random" makes one `RandomInvocation` per repetition from its own draws; a known fixed program runs every repetition with the one direction picked before the loop, and leaves the slots holding the program and that direction; an unknown name raises at its first repetition |
| LegacySupport.LegacyOrdersAreSwapped | controller/serial_controller/rgb_support.py:31-74 | the older `commit` sends "up" as the newer sends "down" and the reverse; the other directions agree |
| LegacySupport.PyIndex | controller/serial_controller/rgb_support.py:104-108 | a Python index is valid iff -n <= x < n, and names the same row modulo n |
| LegacySupport.FadeChannel | controller/serial_controller/rgb_support.py:151-156 | within `speed` the channel stays; otherwise it moves `speed` closer without passing the target |
| LegacySupport.FadeRow | controller/serial_controller/rgb_support.py:149-158 | each of the three channels fades on its own |
| LegacySupport.CommitInOrder | controller/serial_controller/rgb_support.py:35-44 | `commit()` with no direction sends rows 0..6 in order |
| LegacySupport.RgbSupport.constructor | controller/serial_controller/rgb_support.py:6-29 | seven black rows, each its own list; the palette and black as listed; nothing written; no previous pick |
| LegacySupport.RgbSupport.Commit | controller/serial_controller/rgb_support.py:31-96 | the strip is unchanged, and the frame of its commit is written, or nothing when the commit raises |
| LegacySupport.RgbSupport.SetFullArray | controller/serial_controller/rgb_support.py:98-101 | the strip becomes the given lists themselves, then is committed |
| LegacySupport.RgbSupport.DeepCopy | controller/serial_controller/rgb_patterns.py:164-165 | `copy.deepcopy` gives fresh lists with the same values, shared among themselves as the originals were |
| LegacySupport.RgbSupport.GetRandomColor | controller/serial_controller/rgb_support.py:124-131 | the pick is the first fresh draw, it is remembered, and the palette list itself is returned |
| LegacySupport.RgbSupport.SetLed | controller/serial_controller/rgb_support.py:104-110 | as written: the channels are written into the list row x names, so every row and palette colour sharing that list changes; a colour shorter than 3 raises part-way |
| LegacySupport.RgbSupport.SetLedFixed | controller/serial_controller/rgb_support.py:104-110 | corrected: only row x changes, to the colour's first three channels, and the palette never changes |
| LegacySupport.RgbSupport.SetAll | controller/serial_controller/rgb_support.py:112-122 | a falsy colour is replaced by a fresh palette pick; every row shows the colour, and so does each palette list a row names; then one commit |
| LegacySupport.RgbSupport.SetAllTo | controller/serial_controller/rgb_support.py:118-122 | the same for a given colour |
| LegacySupport.RgbSupport.FadeLed | controller/serial_controller/rgb_support.py:149-162 | the row's list fades by `speed`; the result is true iff no channel was farther than `speed`; a bad index raises |
| LegacySupport.RgbSupport.SlowFadeAll | controller/serial_controller/rgb_support.py:164-176 | when nothing raised, every channel ends within 1 of the target, and the last frame written shows the final strip |
| LegacySupport.RgbSupport.FadeAllTo | controller/serial_controller/rgb_support.py:170-176 | the fading loop ends, with every channel within 1 of the target, and commits after each pass |
| LegacyPatterns.StoreFramesEndOnGoal | controller/serial_controller/rgb_patterns.py:168-185 | over unshared rows, the 50th pass shows the goal |
| LegacyPatterns.DiffSetArray | controller/serial_controller/rgb_patterns.py:163-186 | the port gets the 50 passes over a deep copy; the old lists are untouched; the result is a fresh copy shared like `now`, showing the last pass (the goal, by `StoreFramesEndOnGoal`, when `now`'s rows are unshared) |
| LegacyPatterns.DiffPasses | controller/serial_controller/rgb_patterns.py:168-185 | the 50 passes push one frame each and leave the lists as `StoreAfter` |
| LegacyPatterns.LegacyRb | controller/serial_controller/rgb_patterns.py:206-225 | the palette lists are pushed, then each round interpolates to the rotation; the palette keeps its colours; with no round the strip is left on the palette lists themselves |
| LegacyPatterns.RbRounds | controller/serial_controller/rgb_patterns.py:213-224 | the rounds' loop equals `RainbowPush` |
| LegacyPatterns.RbRound | controller/serial_controller/rgb_patterns.py:214-220 | one round pushes 50 strips toward the rotation and leaves fresh unshared lists showing it |
| LegacyPatterns.CopListsShowArrangements | controller/serial_controller/rgb_patterns.py:12-21 | the two arrangements, built from palette lists, show the red/blue patterns |
| LegacyPatterns.LegacyFlashRound | controller/serial_controller/rgb_patterns.py:24-31 | three flash pairs, "right", and the store unchanged |
| LegacyPatterns.LegacyCopRound | controller/serial_controller/rgb_patterns.py:24-45 | one round flashes, then rotates both arrangements left by two through deep copies |
| LegacyPatterns.CopIteration | controller/serial_controller/rgb_patterns.py:23-47 | one iteration of the round loop advances the pending frames by one round |
| LegacyPatterns.LegacyCop | controller/serial_controller/rgb_patterns.py:5-49 | for a positive shared speed, always 4 rounds: the port gets `CopFrames` of the two arrangements; the palette keeps its colours; the strip ends on the last arrangement, in fresh lists shared by colour |
| LegacyPatterns.CopLeavesRowsShared | controller/serial_controller/rgb_patterns.py:5-49 | after `cop`, rows 0, 2, 3 and 4 are one list, so a `set_led(0, c)` colours all four |
| LegacyPatterns.LegacyGeometryMatchesOrders | controller/serial_controller/rgb_patterns.py:51-120 | every row the older `bounce` and `wave` light is sent, and every row sent is lit |
| LegacyPatterns.LegacyFallLightsUnsentRow | controller/serial_controller/rgb_patterns.py:122-160 | up or down, the older `fall` too lights the unsent row 4 |
| CandlestickContext.Initial | backend/webapp/rgb_app/src/CandlestickContext.tsx:25-29 | no list, empty selection, loading, no error |
| CandlestickContext.Find | backend/webapp/rgb_app/src/CandlestickContext.tsx:67 | `find` returns the first match, and none iff nothing matches |
| CandlestickContext.Select | backend/webapp/rgb_app/src/CandlestickContext.tsx:54-57 | choosing an id selects and publishes it, listed or not |
| CandlestickContext.FindByIdIffListed | backend/webapp/rgb_app/src/CandlestickContext.tsx:38-40 | `find` by id succeeds iff `some` by id holds |
| CandlestickContext.ListedSelectionKept | backend/webapp/rgb_app/src/CandlestickContext.tsx:37-44 | a non-empty listed selection is kept, and nothing is published |
| CandlestickContext.EmptyListKeepsSelection | backend/webapp/rgb_app/src/CandlestickContext.tsx:39 | an empty list keeps the selection |
| CandlestickContext.ReselectsFirstConnected | backend/webapp/rgb_app/src/CandlestickContext.tsx:39-43 | an empty or unlisted selection moves to the first connected candlestick, when its id is not empty |
| CandlestickContext.ReselectsFirstListed | backend/webapp/rgb_app/src/CandlestickContext.tsx:39-43 | with none connected, it moves to the first listed |
| CandlestickContext.PollSelectsListed | backend/webapp/rgb_app/src/CandlestickContext.tsx:31-51 | after a poll of a non-empty list the selection is listed, and `selectedCandlestick` is that candlestick |
| CandlestickContext.PollAgainSettled | backend/webapp/rgb_app/src/CandlestickContext.tsx:37-44 | polling the same list again keeps the selection; it republishes only an empty id, which is falsy |
| CandlestickContext.FailedPollKeepsList | backend/webapp/rgb_app/src/CandlestickContext.tsx:45-50 | a failed fetch keeps list and selection, sets the error and stops loading |
| CandlestickContext.SuccessfulPollReplacesList | backend/webapp/rgb_app/src/CandlestickContext.tsx:33-49 | a successful fetch replaces the list, clears the error, stops loading, and publishes at most the new selection |

## Left out

- Transport, concurrency and timing: websockets, the asyncio lock, task creation and cancellation, every `sleep`, and the 60-second wait of the cleanup loop. Outcomes and times are parameters. `speed_sleep` and every delay computation are floating point and are not modelled.
- Processes: a worker process is a value recording what it was started with, and `terminate`/`join` only replace it. The pyserial port is a `Port` value. Reading responses from the device is not modelled, beyond the as-written `serial_write`.
- Logging, `print`, argument parsing, `signal_handler`, `setup_logging`, `main()` and the module-level entry points.
- Floating point: `diff_set_array` is modelled with exact rationals truncated toward zero (`TruncDiv`). It differs from the source only where a float rounds before `int()`.
- `get_all_states` is not modelled as a member: it returns the states map itself; the model reads the `states` field instead (`HubApp.HealthCount`).
- DeviceClient.BackendClient.Run: the heartbeat sends of a round are a parameter, their outcomes in order, and they are all taken to happen before the receive loop ends. A status send from another task during a round is not interleaved with them.
- Registry.ConnectionManager.DisconnectAll: the order in which dict keys are visited is a free choice (`:|`), and closing errors are not distinguished, since they are swallowed.
- Registry.ConnectionManager.DeleteStates: an id with no state is skipped, where `del` (connection_manager.py:165) would raise KeyError. The sweep passes only distinct stored ids, so this does not arise from `CleanupSweep`.
- Registry.ConnectionManager.CleanupSweep: one iteration only; the endless loop and its exception guard are not modelled.
- Models.ParseCandlestickCommand: Pydantic's lax coercions (a numeric string or a float as the speed, and so on) are not modelled; fields are checked strictly by JSON type.
- HubApp.PostCommand: FastAPI's body validation is modelled by `ParseCandlestickCommand`, and error bodies and the success message are not modelled.
- Patterns.Rb: the random direction is a parameter (`pick`).
- LegacyPatterns.LegacyRb: the random direction is a parameter (`pick`).
- `bounce`, `wave`, `fall`: only their geometry (direction, LED count, rounds, rows lit) is modelled, not their loops. As written, those loops also raise UnboundLocalError when a colour is passed, and `counter is not rounds` compares identity.
- `is` comparisons on strings and small ints in rgb_support.py and rgb_patterns.py are read as equality, which is what CPython does for these interned values.
- `blank`, `debug`, `bounce_random`, `random_studs` and `slow_fade_led`: these are not modelled. `slow_fade_led` uses an undefined `slow`, and `blank` and `random_studs` call `set_all` without a controller.
- `set_color_from_api` and `set_color`: not modelled beyond `LedStrip.SerialController.SetAll`, which they call.
- `speed.value` on an int speed: `diff_set_array` reads `speed.value` unconditionally (patterns.py:62), so `rb` raises AttributeError when `run_random` passes its default int (candlestick/main.py:78). The older `speed_sleep` does the same for every legacy pattern (rgb_support.py:179-180). The newer `speed_sleep` handles an int (patterns.py:35-36). This is not modelled, because delays are left out.
- Candlestick.RunProgram: the endless loop is modelled for a given number of repetitions, and the patterns it calls are returned as `Invocation` values.
- Leds.ColorPicker.GetRandomColor: the draws are a finite parameter. When every draw repeats the previous index the model returns no colour, where the source would draw again.
- LegacySupport.RgbSupport.GetRandomColor: requires that the draws contain a fresh index, for the same reason.
- LegacySupport.RgbSupport.SlowFadeAll: a colour of one or two channels is excluded by its requires; the source would raise IndexError inside `fade_led`.
- Patterns.DiffSetArray: strips other than seven rows of three channels are not modelled.
- LegacyPatterns.LegacyCop: the speed is taken to be a shared `Value` holding a positive int. The first `speed_sleep` comes right after the first strip, so otherwise the port gets one strip, not `CopFrames` of four rounds. A plain int raises AttributeError at `speed.value` (rgb_support.py:179), a 0 raises ZeroDivisionError (:180), and a negative value makes `sleep` raise ValueError (:181). Every caller in the repository passes a plain int: `functions['cop']()` with the default `speed=10` (rgb_serial.py:28), and `run_random` with `speed=10` (rgb_serial.py:23).
- Patterns.DiffSetArray: the speed is taken to be positive. A speed of 0 raises ZeroDivisionError at `delay = 0.2 / speed.value` (patterns.py:62), before any strip is pushed. A negative speed makes the `sleep` after the first strip (patterns.py:80) raise ValueError. The hub only forwards speeds in 1..100.
- Patterns.Cop: the speed is taken to be positive. A speed of 0 raises ZeroDivisionError in `speed_sleep` (patterns.py:36, :41) after the first strip, and a negative speed makes its `sleep` raise ValueError, so `cop` pushes one strip and stops.
- Patterns.Rb: the speed is taken to be positive. Inside its first `diff_set_array`, a speed of 0 ends the pattern before any strip is pushed (patterns.py:62), and a negative speed ends it after the first strip (patterns.py:80).
- Patterns.Cop: strips other than seven rows of three channels are not modelled.
- Patterns.Rb: strips other than seven rows of three channels are not modelled.
- LedStrip.SerialController.SetAll: strips other than seven rows of three channels are not modelled.
- `cop`: the newer `cop` ignores `direction`, `delay`, `color` and `speed` apart from delays, and the older one also overrides `rounds`; the model takes only what it uses.
- LegacySupport: every list holds three channels (`Channels`). Python list identity is modelled by positions in a store, which stands in for object identity.
- AgentMain.Agent.HandleBackendCommand: a colour worker is recorded with the parsed colour; the controller object it is given is not modelled.
- CandlestickContext: the three-second polling interval, `setLoading`, the console, and the React closure are not modelled. The interval calls the first render's `fetchCandlesticks`, which always sees the initial empty selection; the model gives each poll the current selection.
- Json: floating-point numbers and Unicode digits in `int()` are not modelled.

## Findings

| source | as written | input that shows it | evidently intended | confidence | as-written member | corrected member |
|---|---|---|---|---|---|---|
| backend/app.py:137 | the endpoint calls `manager.connect_controller`, and later `disconnect_controller` and `update_state(random=…)`, none of which the registry has | any controller opening `/ws/{id}` | `connect`, `disconnect` and `update_state` without `random` | high, not executed | HubApp.AsWrittenNeverConnects | HubApp.ServeSession |
| controller/src/candlestick/serial_controller.py:55 | `serial_write` calls `sleep` while a response waits, but the module never imports it | any byte from the device waiting before or after a write | drain the responses and write the frame | high, not executed | LedStrip.SerialWriteRaisesOnResponse | LedStrip.SerialController.CommitArr |
| controller/serial_controller/rgb_support.py:104-110 | `set_led` writes the channels into the list row x holds, which after `set_full_array` can be a palette colour or a list other rows share | `rb(rounds=0)` then `set_led(0, green)` turns the palette's `red` green; after `cop()`, `set_led(0, c)` colours rows 0, 2, 3 and 4 | only row x changes | medium, not executed | LegacySupport.RgbSupport.SetLed | LegacySupport.RgbSupport.SetLedFixed |
