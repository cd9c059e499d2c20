/** Whole requests through a fresh hub and controller, as a client of the
    contracts of Post sees them. */
module Scenarios {
  import opened Wrappers
  import opened JsonValues
  import opened Events
  import opened Hubs
  import opened Service
  import opened Controllers

  /** A subscription validation request: 200 with the code echoed, after
      exactly one message carrying the validation event's metadata. */
  method HandshakeRequest(e: GridEvent, code: string,
                          serializeGrid: GridEvent -> string, serializeCloud: CloudEvt -> string)
    returns (res: ActionResult, sent: seq<Broadcast>)
    ensures res.Ok? && res.response.validationResponse == code
    ensures |sent| == 1 && sent[0].name == GridUpdate
    ensures sent[0].id == e.id && sent[0].eventType == e.eventType
    ensures sent[0].subject == Some(e.subject) && sent[0].time == Some(e.eventTime)
    ensures sent[0].serialized == serializeGrid(e)
  {
    var hub := new Hub();
    var controller := new UpdatesController(hub, serializeGrid, serializeCloud);
    res := controller.Post([SubscriptionValidationMarker], ParsedBody(Some(e), Value(ValidationData(code)), None, None, None));
    sent := hub.log;
  }

  /** A validation request whose data is the JSON literal null: the message
      for the validation event goes out, then reading the code throws. */
  method NullValidationDataRequest(e: GridEvent,
                                   serializeGrid: GridEvent -> string, serializeCloud: CloudEvt -> string)
    returns (res: ActionResult, sent: seq<Broadcast>)
    ensures res == Faulted
    ensures sent == [GridBroadcast(e, serializeGrid)]
  {
    var hub := new Hub();
    var controller := new UpdatesController(hub, serializeGrid, serializeCloud);
    res := controller.Post([SubscriptionValidationMarker], ParsedBody(Some(e), NullValue, None, None, None));
    sent := hub.log;
  }

  /** A notification whose body is a JSON array that parses as a batch of
      Event Grid events: the root is not a CloudEvent, so the batch goes out
      as Event Grid events, one message each, in order. */
  method GridBatchRequest(root: seq<Json>, events: seq<GridEvent>,
                          serializeGrid: GridEvent -> string, serializeCloud: CloudEvt -> string)
    returns (res: ActionResult, sent: seq<Broadcast>)
    ensures res == OkEmpty
    ensures |sent| == |events|
    ensures forall i :: 0 <= i < |events| ==>
      && sent[i].name == GridUpdate
      && sent[i].id == events[i].id
      && sent[i].eventType == events[i].eventType
      && sent[i].subject == Some(events[i].subject)
      && sent[i].time == Some(events[i].eventTime)
      && sent[i].serialized == serializeGrid(events[i])
  {
    var hub := new Hub();
    var controller := new UpdatesController(hub, serializeGrid, serializeCloud);
    BatchIsNeverCloudEvent(root);
    res := controller.Post([NotificationMarker], ParsedBody(None, Throws, Some(Arr(root)), None, Some(events)));
    sent := hub.log;
  }

  /** A notification whose root object carries `specversion` and whose body
      parses as a batch of CloudEvents: the batch goes out as CloudEvents, one
      message each, in order. */
  method CloudEventRequest(root: map<string, Json>, events: seq<CloudEvt>,
                           serializeGrid: GridEvent -> string, serializeCloud: CloudEvt -> string)
    returns (res: ActionResult, sent: seq<Broadcast>)
    requires CloudEventProperty in root
    ensures res == OkEmpty
    ensures |sent| == |events|
    ensures forall i :: 0 <= i < |events| ==>
      && sent[i].name == GridUpdate
      && sent[i].id == events[i].id
      && sent[i].eventType == events[i].eventType
      && sent[i].subject == events[i].subject
      && sent[i].time == events[i].time
      && sent[i].serialized == serializeCloud(events[i])
  {
    var hub := new Hub();
    var controller := new UpdatesController(hub, serializeGrid, serializeCloud);
    res := controller.Post([NotificationMarker], ParsedBody(None, Throws, Some(Obj(root)), Some(events), None));
    sent := hub.log;
  }

  /** A notification whose root is an array but whose body does not parse as
      a batch of Event Grid events: the parse exception escapes the action and
      nothing is sent. */
  method UnparsedBatchRequest(root: seq<Json>,
                              serializeGrid: GridEvent -> string, serializeCloud: CloudEvt -> string)
    returns (res: ActionResult, sent: seq<Broadcast>)
    ensures res == Faulted && sent == []
  {
    var hub := new Hub();
    var controller := new UpdatesController(hub, serializeGrid, serializeCloud);
    BatchIsNeverCloudEvent(root);
    res := controller.Post([NotificationMarker], ParsedBody(None, Throws, Some(Arr(root)), None, None));
    sent := hub.log;
  }

  /** Any other header value, or none: 400 and nothing sent, whatever the body. */
  method RejectedRequest(eventType: seq<string>, body: ParsedBody,
                         serializeGrid: GridEvent -> string, serializeCloud: CloudEvt -> string)
    returns (res: ActionResult, sent: seq<Broadcast>)
    requires |eventType| == 0 || eventType[0] !in {"SubscriptionValidation", "Notification"}
    ensures res == BadRequest && sent == []
  {
    var hub := new Hub();
    var controller := new UpdatesController(hub, serializeGrid, serializeCloud);
    res := controller.Post(eventType, body);
    sent := hub.log;
  }
}
