# Event Grid viewer webhook — a Dafny model

The viewer is an ASP.NET web app. Azure Event Grid pushes events to its webhook endpoint
(`api/updates`), and the app relays each event to every browser connected to its SignalR
hub as a `gridupdate` message. This project models the decision logic of that endpoint and
proves its properties:

- **Pre-flight (`Options`).** This is the abuse-protection handshake of the CloudEvents
  HTTP 1.1 Web Hooks specification, sections 4.1 and 4.2. It always answers 200 with
  `WebHook-Allowed-Rate: *`. It echoes the first `WebHook-Request-Origin` value as
  `WebHook-Allowed-Origin`.
- **Dispatch (`Post`).** The first value of the `aeg-event-type` header picks the branch.
  `SubscriptionValidation` leads to the validation handshake. `Notification` leads to a
  relay. Anything else, or no header at all, gets 400 and nothing is sent.
- **Envelope classifier (`IsCloudEvent`).** It is true exactly when the JSON value is an
  object with a key named `specversion`. That key is the required context attribute of
  CloudEvents 1.0. A non-object makes the property lookup throw. The classifier catches
  that and answers false, the `default` element included.
- **Handshake responder (`HandleValidation`).** It sends one message for the validation
  event, then returns the validation code unchanged.
- **Relays (`HandleGridEvents`, `HandleCloudEvent`).** They send one message per event,
  in batch order. Each message carries (id, type, subject, time, serialized event).

Layout:

- `wrappers.dfy`: `Option`.
- `json.dfy`: JSON element kinds and `TryGetProperty`.
- `events.dfy`: the two envelopes and the broadcast record. It also holds the reference
  definitions `GridBroadcasts` and `CloudBroadcasts`: what a relay sends for a batch.
- `hub.dfy`: the hub as a class whose `log` grows by one entry per send.
- `service.dfy`: `EventGridEventHandler` and its methods, which are proved against the
  reference definitions.
- `controller.dfy`: `UpdatesController`. It has header routing, `Options` and `Post`.
- `scenarios.dfy`: each scenario states one whole request on a fresh hub and controller,
  as a client of `Post`'s contract.

The repository has two copies of the handshake, the relays and the classifier. One copy is
private to the controller (`viewer/Controllers/UpdatesController.cs:93-164`). The other is
the unit-tested service (`viewer/Service/EventGridEventHandler.cs:34-105`). The two copies
differ only in their modifiers and in one qualifier. The controller's are `private` (its
`IsCloudEvent` is `private static`), and the service's are `public`. The controller writes
`this._hubContext` where the service writes `_hubContext`. Otherwise the code is the same. The model
has one copy. The model's controller holds an `EventGridEventHandler` over its own hub and
calls it where the source calls its private copies. The table below cites each copy where
that copy's lines are the ones the member is checked against.

The envelope is classified once, on the root of the request body, not event by event
(`viewer/Controllers/UpdatesController.cs:68-69`). A JSON array root makes the lookup throw,
so it is never taken for a CloudEvent, even when its elements are CloudEvents. Such a body
always reaches `EventGridEvent.ParseMany` (`viewer/Controllers/UpdatesController.cs:77`),
and the answer depends on that parse. If the body parses as a batch of Event Grid events,
they are relayed and the answer is 200 (`GridBatchRequest`). If the parse throws, the
exception escapes the action and nothing is sent (`UnparsedBatchRequest`). Whether the SDK
accepts a given body is outside this model. The model follows the code
(`BatchIsNeverCloudEvent`).

## Model

| member | source | states |
|---|---|---|
| `JsonValues.TryGetProperty` | viewer/Service/EventGridEventHandler.cs:97 | The lookup fails with an invalid-operation outcome exactly when the element is not an object, `default` included. On an object it finds the key exactly when the key is present, and returns that key's value. |
| `Service.IsCloudEvent` | viewer/Service/EventGridEventHandler.cs:91-105 | True if and only if the value is an object with the key `specversion`. It is total: missing key, non-objects and the undefined element all give false, never an error. |
| `Service.BatchIsNeverCloudEvent` | viewer/Controllers/UpdatesController.cs:68-69 | An array root is never classified as a CloudEvent, whatever its elements. |
| `Service.EventGridEventHandler.constructor` | viewer/Service/EventGridEventHandler.cs:22-25 | The handler sends to the hub it is given and uses the given serializers. |
| `Service.EventGridEventHandler.HandleValidation` | viewer/Service/EventGridEventHandler.cs:34-48 | The hub log grows by exactly one message, built from the event's id, type, subject, time and serialization, whatever the validation data is. Then, if the data is not null, the response's code equals the data's code character for character. A null payload gives no response (the NullReferenceException at line 46), after the message was sent. |
| `Service.EventGridEventHandler.HandleGridEvents` | viewer/Service/EventGridEventHandler.cs:54-66 | The new log is the old log followed by `GridBroadcasts(events)`. Nothing already sent changes. |
| `Service.EventGridEventHandler.HandleCloudEvent` | viewer/Service/EventGridEventHandler.cs:72-84 | The new log is the old log followed by `CloudBroadcasts(events)`. Nothing already sent changes. |
| `Events.GridBroadcast` | viewer/Controllers/UpdatesController.cs:117-123 | The argument tuple of one send for an Event Grid event: `gridupdate`, then Id, EventType, Subject, EventTime and the serialized event. It is a definition; `GridBroadcasts` and `HandleValidation` state their contracts through it. |
| `Events.CloudBroadcast` | viewer/Controllers/UpdatesController.cs:135-141 | The argument tuple of one send for a CloudEvent: `gridupdate`, then Id, Type, the optional Subject and Time, and the serialized event. It is a definition; `CloudBroadcasts` states its contract through it. |
| `Hubs.Hub.constructor` | viewer/Service/EventGridEventHandler.cs:15 | The hub context the handler is given starts with nothing sent. |
| `Hubs.Hub.SendAll` | viewer/Service/EventGridEventHandler.cs:36-42 | `Clients.All.SendAsync(name, args...)`: the log grows by exactly that one message, appended after everything sent before. |
| `Events.GridBroadcasts` | viewer/Controllers/UpdatesController.cs:113-125 | One message per Event Grid event, the same count as the batch. Message i is `gridupdate` with event i's Id, EventType, Subject, EventTime and serialization. |
| `Events.CloudBroadcasts` | viewer/Controllers/UpdatesController.cs:131-143 | One message per CloudEvent, the same count as the batch. Message i is `gridupdate` with event i's Id, Type, Subject, Time and serialization. |
| `Events.GridBroadcastsConcat` | viewer/Controllers/UpdatesController.cs:115-124 | Relaying `a + b` sends what relaying `a` sends, then what relaying `b` sends. Order is kept; nothing is merged or dropped. |
| `Events.CloudBroadcastsConcat` | viewer/Controllers/UpdatesController.cs:133-142 | Relaying `a + b` sends what relaying `a` sends, then what relaying `b` sends. |
| `Events.GridBroadcastsFromBatch` | viewer/Controllers/UpdatesController.cs:117-123 | Every message an Event Grid relay sends is named `gridupdate` and is the projection of an event of the batch. |
| `Events.CloudBroadcastsFromBatch` | viewer/Controllers/UpdatesController.cs:135-141 | Every message a CloudEvent relay sends is named `gridupdate` and is the projection of an event of the batch. |
| `Controllers.FirstOrDefault` | viewer/Controllers/UpdatesController.cs:21 | `StringValues.FirstOrDefault()`: none exactly when the header has no value, otherwise its first value. |
| `Controllers.EventTypeSubscriptionValidation` | viewer/Controllers/UpdatesController.cs:20-22 | True exactly when the first `aeg-event-type` value is `SubscriptionValidation`. A missing header gives false. `RouteOf` builds on this. |
| `Controllers.EventTypeNotification` | viewer/Controllers/UpdatesController.cs:24-26 | True exactly when the first `aeg-event-type` value is `Notification`. A missing header gives false. `RouteOf` builds on this. |
| `Controllers.RouteOf` | viewer/Controllers/UpdatesController.cs:20-26 | A total three-way split on the first header value. `SubscriptionValidation` gives validation. `Notification` gives notification. Any other value, or no value, gives rejection. The three cases exclude each other. |
| `Controllers.Options` | viewer/Controllers/UpdatesController.cs:36-49 | Always 200. Exactly two headers are added: `WebHook-Allowed-Rate = *` and `WebHook-Allowed-Origin` = the first request origin, or empty when there is none. |
| `Controllers.UpdatesController.constructor` | viewer/Controllers/UpdatesController.cs:31-34 | The controller sends to the hub it is given. |
| `Controllers.UpdatesController.Post` | viewer/Controllers/UpdatesController.cs:51-84 | Validation: if the event parses and its data reads without throwing, exactly one message is sent. The answer is then 200 with the code echoed, or a fault when the data is null. If either parse throws, the answer is a fault and nothing is sent. Notification: a root with `specversion` relays the batch as CloudEvents; any other root relays it as Event Grid events. Either way the answer is 200 with no body and one message per event, in order. Any other header: 400 with the log unchanged. A failed parse escapes as a fault and nothing is sent. Only validation answers a code, and only notification relays. |
| `Scenarios.HandshakeRequest` | viewer/Controllers/UpdatesController.cs:58-64 | A validation request answers the code it was given, after exactly one `gridupdate` message carrying the event's fields. |
| `Scenarios.NullValidationDataRequest` | viewer/Controllers/UpdatesController.cs:61-64 | A validation request whose data reads as null sends exactly the validation event's message, then ends in a fault. |
| `Scenarios.GridBatchRequest` | viewer/Controllers/UpdatesController.cs:77-80 | A notification with an array root, whose body parses as a batch of Event Grid events, answers 200 with no body. It sends n messages, message i carrying Event Grid event i's fields. |
| `Scenarios.CloudEventRequest` | viewer/Controllers/UpdatesController.cs:69-75 | A notification whose root object has `specversion`, and whose body parses as a batch of CloudEvents, answers 200 with no body. It sends n messages, message i carrying CloudEvent i's fields. |
| `Scenarios.UnparsedBatchRequest` | viewer/Controllers/UpdatesController.cs:77-78 | A notification with an array root whose body does not parse as a batch of Event Grid events ends in the escaping parse exception, and sends nothing. |
| `Scenarios.RejectedRequest` | viewer/Controllers/UpdatesController.cs:83 | Any other header value, or none, answers 400 and sends nothing, whatever the body. |

## Left out

- async/await and SignalR delivery. The hub is an append-only log of sent messages. Delivery to clients, connections and concurrency between requests are not modelled.
- If a send throws, `foreach` with `await` stops the rest of the batch; this is not modelled. Sends and serialization always succeed here, so a batch never fails half-way.
- Azure SDK and System.Text.Json parsing (`EventGridEvent.Parse`/`ParseMany`, `ToObjectFromJson`, `CloudEvent.ParseMany`, `JsonDocument.Parse`, `BinaryData`). Their results are inputs (`ParsedBody`). A parse that throws is `None`, and `Post` reports it as `Faulted`, since the action catches nothing.
- `JsonSerializer.Serialize` with indented output is not defined here. The model passes it in as one total function per envelope kind.
- `DateTimeOffset` values are opaque. Nothing computes with them.
- Header lookup by name, which is case-insensitive in ASP.NET, belongs to the transport. `Post` takes the values of `aeg-event-type`, and `Options` takes the values of `WebHook-Request-Origin`.
- Reading the request body (`StreamReader`, `ReadToEndAsync`) and the `Console.WriteLine` in the classifier's catch block are not modelled.
- The values of `WebHook-Request-Callback` and `WebHook-Request-Rate` are read and never used, so they are not modelled.
- Options: returns the headers it adds as a map. It does not model the mutation of `HttpContext.Response.Headers` or `Add`'s exception on a duplicate key, since a response starts with neither header.
- A null `ValidationCode` inside non-null validation data is not modelled. The code is a string, echoed unchanged.
- Service.EventGridEventHandler.HandleGridEvents: a null batch or a null element in it is not modelled. In the source, the events before a null element are sent and then `.Id` throws. The controller only passes what `ParseMany` returns, which holds no nulls; any other caller of the public method could pass one.
- Service.EventGridEventHandler.HandleCloudEvent: a null batch or a null element in it is not modelled, for the same reason.
- Service.EventGridEventHandler.HandleValidation: a null event argument is not modelled. A null validation payload is modelled: the message is sent, then the result is none.
- Test/EmbeddedResource.cs is not part of this model (it loads test files from the assembly). viewer/Service/IEventGridEventHandler.cs only declares the handler's four signatures, and the handler class has them.
