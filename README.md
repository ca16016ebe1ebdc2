# Office environment monitor: subscriber state machine and floor publisher

This project models the core of a small MQTT environment monitor, in Dafny.

- **The subscriber window** (`SmartOfficeApp`). It has four status labels: temperature, humidity, light and window. A message callback switches on the topic and overwrites one label. A connect handler creates a client, subscribes to four fixed topics and starts two publisher threads. A disconnect handler stops the publishers, drops the client and restores the initial label texts. A close handler stops the publishers and exits.
- **The floor publisher** (`FloorPublisher`). It connects with a fixed client identity and a last-will message. It then loops forever: each cycle publishes a light status (`ON`/`OFF`) and then a window status (`OPEN`/`CLOSED`). An exception ends the loop. The exception is reported once to `floor/error` when the client exists, and the publisher returns.

Files:

- `options.dfy`: the `Option` type.
- `floor_publisher.dfy`, module `FloorPublisher`:
  - `Main` is a function that gives the whole run as a trace of client events.
  - `FloorPublisherMain` is the imperative loop, proved to produce that trace.
  - Lemmas state the topic order, payload domains, the exit path and the single error report.
- `monitor.dfy`, module `Monitor`:
  - `Route` is the topic switch. `Deliver` and `DeliverAll` apply deliveries. `LastPayload` is an independent reference for last-write-wins.
  - `SmartOfficeApp` is a class whose fields are the application's mutable state. Its methods are the handlers.
- `end_to_end.dfy`, module `EndToEnd`: feeds the publisher's trace to the monitor's callback.

Abstractions:

- Every call into the MQTT library is an input saying whether it succeeded: client construction, connect, subscribe, publish, disconnect and close.
- The random draws are an explicit sequence of cycles. Each cycle holds two booleans and the step that throws, if any.
- The publisher loop never ends on its own. A finite sequence of cycles therefore describes the run as observed up to some point. `Looping` means the loop is still running at that point.
- A message handed to the UI thread is applied at once.
- Threads are recorded only by identity: which were started and which were interrupted.
- `MqttClient.generateClientId()` is replaced by the client's creation number.
- The broker is a perfect transport. Every successful publish is delivered to the monitor exactly once, in publish order, as a message with the same topic and text. A publish that threw is never delivered.
- The outcome of the publisher's error report is a free input. It is not tied to whether the client ever connected. The model therefore allows the report to succeed on a client whose connect threw, which the MQTT library would refuse.
- Once the window has exited, no handler runs again. Every handler requires that the window has not exited.

## Model

| member | source | states |
|---|---|---|
| `Monitor.Route` | src/main/java/environment_monitor/SmartOfficeApp.java:102-118 | a topic selects a label exactly when it is one of the four subscribed topics, and then it selects the label whose topic it is |
| `Monitor.RouteInvertsTopicOf` | src/main/java/environment_monitor/SmartOfficeApp.java:102-114 | each label's own topic is routed back to that label |
| `Monitor.Labels.Set` | src/main/java/environment_monitor/SmartOfficeApp.java:104-113 | setting a label gives it the new text and leaves the other three labels unchanged |
| `Monitor.Deliver` | src/main/java/environment_monitor/SmartOfficeApp.java:102-117 | after a delivery, each label shows its prefix followed by the payload if the message's topic is that label's topic; otherwise it keeps its old text. An unknown topic therefore changes nothing |
| `Monitor.LastWriteWins` | src/main/java/environment_monitor/SmartOfficeApp.java:102-114 | after any sequence of deliveries, a label shows its prefix followed by the payload of the last delivery to its topic, or its earlier text if its topic got no delivery |
| `Monitor.UnknownTopicsIgnored` | src/main/java/environment_monitor/SmartOfficeApp.java:115-117 | deliveries that are all to topics outside the four leave every label unchanged |
| `Monitor.Subscribed` | src/main/java/environment_monitor/SmartOfficeApp.java:131-134 | the subscriptions a connect leaves are a prefix of the four topics in order, and are all four exactly when connect fully succeeds |
| `Monitor.Interrupts` | src/main/java/environment_monitor/SmartOfficeApp.java:179-184 | the interrupted threads are exactly the threads held in the two thread fields: the last pair started, floor first. There are therefore at most two |
| `Monitor.SmartOfficeApp.constructor` | src/main/java/environment_monitor/SmartOfficeApp.java:39-42 | the window starts with the initial label texts, no client, no publisher thread and both flags cleared |
| `Monitor.SmartOfficeApp.MessageArrived` | src/main/java/environment_monitor/SmartOfficeApp.java:99-120 | the callback updates the labels as `Deliver` does; nothing else changes and the label invariant is kept |
| `Monitor.SmartOfficeApp.Feed` | src/main/java/environment_monitor/SmartOfficeApp.java:99-118 | running the callback once per message, in order, leaves the labels exactly as `DeliverAll` does, so `LastWriteWins` and the end-to-end lemmas describe the window itself |
| `Monitor.SmartOfficeApp.ConnectToBroker` | src/main/java/environment_monitor/SmartOfficeApp.java:76-168 | while connected, the result is the "already connected" notice and no state changes. Otherwise each outcome is stated. A failed construction changes nothing. Any other attempt creates exactly one new client, which is connected unless connect threw and holds the subscriptions made so far. Only a full success starts two new threads and gives the success notice; the model sets both flags at that point, standing for the first statement each new thread runs. The labels never change |
| `Monitor.SmartOfficeApp.DisconnectFromBroker` | src/main/java/environment_monitor/SmartOfficeApp.java:171-217 | while not connected, the result is the "not connected" notice and no state changes. Otherwise both flags are cleared and the threads held in the two thread fields are interrupted: the last pair started, not any earlier pair. If disconnect throws, the client and labels stay. If close throws, the client stays but is no longer connected. On success the client is dropped and all four labels return to exactly their initial texts, even the labels that never got a message |
| `Monitor.SmartOfficeApp.CloseRequest` | src/main/java/environment_monitor/SmartOfficeApp.java:57-72 | closing clears both flags, interrupts the threads held in the two thread fields (the last pair started) and exits. The client and the labels are left as they are |
| `Monitor.SmartOfficeApp.ConnectionLost` | src/main/java/environment_monitor/SmartOfficeApp.java:93-95 | a dropped connection leaves the application not connected and changes nothing else, so a later connect is allowed again |
| `FloorPublisher.LightStatus` | src/main/java/publishers/FloorPublisher.java:30 | the light payload is "ON" or "OFF", and it is "ON" exactly when the draw is true |
| `FloorPublisher.WindowStatus` | src/main/java/publishers/FloorPublisher.java:31 | the window payload is "OPEN" or "CLOSED", and it is "OPEN" exactly when the draw is true |
| `FloorPublisher.FaultMessage` | src/main/java/publishers/FloorPublisher.java:45-48 | a cycle yields an exception message exactly when one of its steps threw |
| `FloorPublisher.Main` | src/main/java/publishers/FloorPublisher.java:12-60 | if the client cannot be constructed, nothing is published and main returns. Otherwise the run begins by creating client "FloorPublisher" for the broker, then connecting with the will on "floor/disconnect" (payload "Floor sensor disconnected", QoS 0, not retained) already set |
| `FloorPublisher.PublishMessage` | src/main/java/publishers/FloorPublisher.java:65-72 | publishing adds exactly one event, which carries the given topic and the payload unchanged; earlier events are kept |
| `FloorPublisher.FloorPublisherMain` | src/main/java/publishers/FloorPublisher.java:12-60 | the imperative set-up, loop and exception handler produce exactly the trace and exit that `Main` specifies |
| `FloorPublisher.LoopStopsAtFault` | src/main/java/publishers/FloorPublisher.java:28-45 | once a cycle has thrown, later cycles add nothing to the loop's outcome |
| `FloorPublisher.LoopFailsAtFault` | src/main/java/publishers/FloorPublisher.java:28-44 | the loop ends exactly when some cycle throws; until then each cycle adds two publishes |
| `FloorPublisher.LoopAlternates` | src/main/java/publishers/FloorPublisher.java:30-41 | the loop's publishes alternate between light and window, starting with light. Each light payload is ON/OFF and each window payload is OPEN/CLOSED |
| `FloorPublisher.LoopCompleteCycles` | src/main/java/publishers/FloorPublisher.java:28-44 | without a fault, cycle k publishes exactly its light draw at position 2k and its window draw at position 2k+1, both successfully |
| `FloorPublisher.FirstFaultEndsLoop` | src/main/java/publishers/FloorPublisher.java:28-45 | given the first cycle that throws, the loop consists of the complete cycles before it plus that cycle's attempted publishes, and it ends with that cycle's exception message |
| `FloorPublisher.NoNormalExit` | src/main/java/publishers/FloorPublisher.java:28-58 | main is still looping exactly when the set-up succeeded and no cycle threw. An exception is the only way out, and no flag is consulted |
| `FloorPublisher.TracePayloads` | src/main/java/publishers/FloorPublisher.java:30-51 | every publish in a run goes either to the light topic with ON/OFF, or to the window topic with OPEN/CLOSED, or to the error topic as the last event |
| `FloorPublisher.SingleErrorReport` | src/main/java/publishers/FloorPublisher.java:45-57 | when main returns with a client, its last event is the one report to "floor/error" and carries the exception's message. No earlier event goes to that topic. Whether the report itself fails does not change how main ends |
| `EndToEnd.DeliveredArePublishes` | src/main/java/environment_monitor/SmartOfficeApp.java:99-101 | every successful publish in a trace is delivered, every delivered message was published successfully with that topic and payload |
| `EndToEnd.PublisherTopicsMonitored` | src/main/java/publishers/FloorPublisher.java:34-47 | the publisher's light and window topics are two of the four topics the monitor subscribes to; its error topic is not one of them |
| `EndToEnd.NoPublishNoDelivery` | src/main/java/environment_monitor/SmartOfficeApp.java:99-117 | a trace with no publish to a topic delivers no payload for that topic |
| `EndToEnd.FloorRunLeavesRoomLabels` | src/main/java/environment_monitor/SmartOfficeApp.java:102-117 | whatever the floor publisher's run does, feeding its trace to the callback leaves the temperature and humidity labels unchanged, because the error report goes to a topic the switch ignores |
| `EndToEnd.FaultFreeTraceEnd` | src/main/java/publishers/FloorPublisher.java:34-41 | a fault-free run ends with the last cycle's light publish followed by its window publish |
| `EndToEnd.LastTwoDeliveries` | src/main/java/environment_monitor/SmartOfficeApp.java:109-113 | after a light publish and then a window publish, the last deliveries to those two topics are exactly their payloads |
| `EndToEnd.FloorRunShowsLastCycle` | src/main/java/publishers/FloorPublisher.java:28-44 | after a fault-free run of at least one cycle, the light and window labels show the last cycle's draws and the other two labels are unchanged |
| `EndToEnd.TwoCycleScenario` | src/main/java/publishers/FloorPublisher.java:30-41 | the cycles [ON, OPEN] then [OFF, CLOSED] leave the labels "Light Status:\tOFF" and "Window Status: CLOSED" |

## Intended behaviour the code does not implement

The model follows the code, apart from the flag writes named under `Monitor.SmartOfficeApp.ConnectToBroker` in "Left out".

- Publishers were meant to poll a keep-running flag every cycle. `FloorPublisher.java:28` loops on `while (true)` and declares no such flag. `SmartOfficeApp.java:59,138,175` still write `FloorPublisher.keepRunning`. The model therefore keeps the two flags as application state only. Nothing in the model says the loop reads them.
- A stop was meant to take effect within one publishing interval, and at most one publisher was meant to run per identity. The code implements neither, so neither is asserted. After a dropped connection, `ConnectToBroker` starts two new threads. The earlier threads are never interrupted.
- A disconnect was meant to reset every label to an "unset" state. The code restores the texts built at `SmartOfficeApp.java:39-42`. For humidity and light these differ from the prefixes a delivery writes: "Humidity: " against "Humidity:\t ", and "Light Status: " against "Light Status:\t". The model keeps both sets of texts as written.
- Closing the window was meant to disconnect the client and clean up. The close handler at `SmartOfficeApp.java:57-72` only clears the flags, interrupts the threads and exits. It does not disconnect the client or reset the labels.

## Left out

- JavaFX layout, buttons, CSS and the alert dialogs: presentation. Each dialog is modelled only as a `Notice` tag.
- Paho MQTT internals, broker connectivity and delivery guarantees: a foreign library. Each call is a success or failure input, and the library's client is a `Client` record.
- Thread scheduling, the timing of `interrupt()`, `Thread.sleep(1000)`, `Platform.runLater` and `System.exit(0)`: concurrency and process control. Thread start and interrupt are recorded by identity, a delivery is applied at once, and exit is an `exited` flag. Interleavings are not modelled. One example is a delivery queued before a disconnect and applied after the labels were reset.
- `java.util.Random`: replaced by the explicit draws in each `Cycle`.
- `RoomSensorPublisher` is not part of this model. Its keep-running flag and its thread appear only as application state.
- The initial value of the two keep-running flags is not visible in this code. The model assumes `false`, the default of a static boolean field.
- Console output (`println`, `printStackTrace`).
- `Monitor.SmartOfficeApp.ConnectToBroker`: the keep-running flags are not set by the handler. Each new thread sets its own flag as its first statement (`SmartOfficeApp.java:138,145`), whenever it is scheduled after `start()` (`SmartOfficeApp.java:141,148`). The model applies those two writes when the handler starts the threads. A disconnect or close that runs before a new thread's first statement clears the flags, and the late thread then sets its flag back to true. That outcome is not modelled: after `DisconnectFromBroker` and `CloseRequest` the model always has both flags false.
- `FloorPublisher.Main`: exception messages are assumed non-null. A null message would make `publishMessage` throw `NullPointerException` from `payload.getBytes()`, and that exception would escape main. This case is not modelled.
- `FloorPublisher.PublishMessage`: the payload is kept as text. The model assumes that encoding with `getBytes()` and decoding with `MqttMessage.toString()` return the same string.
- Unchecked exceptions other than `MqttException` and `InterruptedException` (for example a malformed broker URI) are not modelled.
