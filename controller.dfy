/** The webhook endpoint: the OPTIONS pre-flight of the CloudEvents HTTP 1.1
    Web Hooks specification and the POST dispatch on the `aeg-event-type` header. */
module Controllers {
  import opened Wrappers
  import opened JsonValues
  import opened Events
  import opened Hubs
  import opened Service

  /** StringValues.FirstOrDefault(): the first value of a header, or null. */
  function FirstOrDefault(values: seq<string>): (r: Option<string>)
    ensures r.None? <==> |values| == 0
    ensures r.Some? ==> r.value == values[0]
  {
    if |values| == 0 then None else Some(values[0])
  }

  const SubscriptionValidationMarker: string := "SubscriptionValidation"
  const NotificationMarker: string := "Notification"

  /** The request says it is a subscription validation. */
  predicate EventTypeSubscriptionValidation(eventType: seq<string>)
    ensures EventTypeSubscriptionValidation(eventType) <==>
      |eventType| > 0 && eventType[0] == "SubscriptionValidation"
  {
    FirstOrDefault(eventType) == Some(SubscriptionValidationMarker)
  }

  /** The request says it carries events. */
  predicate EventTypeNotification(eventType: seq<string>)
    ensures EventTypeNotification(eventType) <==>
      |eventType| > 0 && eventType[0] == "Notification"
  {
    FirstOrDefault(eventType) == Some(NotificationMarker)
  }

  /** The three ways a POST can go. */
  datatype Route = Validation | Notification | Rejected

  /** The branch a POST takes, given the values of its `aeg-event-type`
      header: validation is tested first, notification only when it fails. */
  function RouteOf(eventType: seq<string>): (r: Route)
    ensures r == Validation <==> |eventType| > 0 && eventType[0] == "SubscriptionValidation"
    ensures r == Notification <==> |eventType| > 0 && eventType[0] == "Notification"
    ensures r == Rejected <==>
      |eventType| == 0 || (eventType[0] != "SubscriptionValidation" && eventType[0] != "Notification")
  {
    if EventTypeSubscriptionValidation(eventType) then Validation
    else if EventTypeNotification(eventType) then Notification
    else Rejected
  }

  /** What an action answers: 200 with a validation response, 200 with no
      body, 400, or an exception that escapes the action (a parse failure). */
  datatype ActionResult = Ok(response: ValidationResponse) | OkEmpty | BadRequest | Faulted

  const AllowedRateHeader: string := "WebHook-Allowed-Rate"
  const AllowedOriginHeader: string := "WebHook-Allowed-Origin"

  /** The pre-flight answer: a status and the response headers it adds. */
  datatype PreflightResponse = PreflightResponse(result: ActionResult, headers: map<string, seq<string>>)

  /** The abuse-protection handshake (CloudEvents HTTP 1.1 Web Hooks, sections
      4.1 and 4.2): allow any rate, and allow the origin the caller named in
      its first `WebHook-Request-Origin` value (a header with no value is
      echoed as an empty one). The request body plays no part. */
  function Options(requestOrigin: seq<string>): (r: PreflightResponse)
    ensures r.result == OkEmpty
    ensures r.headers.Keys == {AllowedRateHeader, AllowedOriginHeader}
    ensures r.headers[AllowedRateHeader] == ["*"]
    ensures |requestOrigin| > 0 ==> r.headers[AllowedOriginHeader] == [requestOrigin[0]]
    ensures |requestOrigin| == 0 ==> r.headers[AllowedOriginHeader] == []
  {
    var origin := match FirstOrDefault(requestOrigin)
      case Some(o) => [o]
      case None => [];
    PreflightResponse(OkEmpty, map[AllowedRateHeader := ["*"], AllowedOriginHeader := origin])
  }

  /** What `ToObjectFromJson` makes of the validation event's data: it throws,
      it yields null (the data is the JSON literal null), or it yields a value. */
  datatype DataReading = Throws | NullValue | Value(value: ValidationData)

  /** The request body as the Azure SDK and System.Text.Json would read it,
      one reading per parse the action can make; None where that parse throws. */
  datatype ParsedBody = ParsedBody(
    asEvent: Option<GridEvent>,                  // EventGridEvent.Parse
    asValidationData: DataReading,               // Data.ToObjectFromJson<SubscriptionValidationEventData>
    asDocument: Option<Json>,                    // JsonDocument.Parse(...).RootElement
    asCloudEvents: Option<seq<CloudEvt>>,        // CloudEvent.ParseMany
    asGridEvents: Option<seq<GridEvent>>)        // EventGridEvent.ParseMany

  class UpdatesController {
    /** The handler over the controller's hub; the controller's own copies of
        the handshake, the relays and the classifier are the handler's. */
    const handler: EventGridEventHandler

    constructor (hub: Hub, serializeGrid: GridEvent -> string, serializeCloud: CloudEvt -> string)
      ensures handler.hub == hub
      ensures handler.serializeGrid == serializeGrid && handler.serializeCloud == serializeCloud
    {
      handler := new EventGridEventHandler(hub, serializeGrid, serializeCloud);
    }

    /** The POST action. `eventType` holds the values of the `aeg-event-type` header. */
    method Post(eventType: seq<string>, body: ParsedBody) returns (res: ActionResult)
      modifies handler.hub
      // Validation handshake: one message for the validation event, then the code
      // echoed; a null payload faults only after that message.
      ensures RouteOf(eventType) == Validation ==>
        if body.asEvent.Some? && !body.asValidationData.Throws? then
          && handler.hub.log == old(handler.hub.log) + [GridBroadcast(body.asEvent.value, handler.serializeGrid)]
          && res == (if body.asValidationData.Value?
                     then Ok(ValidationResponse(body.asValidationData.value.validationCode))
                     else Faulted)
        else
          res == Faulted && handler.hub.log == old(handler.hub.log)
      // Notification: the document root picks the relay.
      ensures RouteOf(eventType) == Notification && body.asDocument.Some? &&
              IsCloudEvent(body.asDocument.value) ==>
        if body.asCloudEvents.Some? then
          && res == OkEmpty
          && handler.hub.log == old(handler.hub.log) + CloudBroadcasts(body.asCloudEvents.value, handler.serializeCloud)
        else
          res == Faulted && handler.hub.log == old(handler.hub.log)
      ensures RouteOf(eventType) == Notification && body.asDocument.Some? &&
              !IsCloudEvent(body.asDocument.value) ==>
        if body.asGridEvents.Some? then
          && res == OkEmpty
          && handler.hub.log == old(handler.hub.log) + GridBroadcasts(body.asGridEvents.value, handler.serializeGrid)
        else
          res == Faulted && handler.hub.log == old(handler.hub.log)
      ensures RouteOf(eventType) == Notification && body.asDocument.None? ==>
        res == Faulted && handler.hub.log == old(handler.hub.log)
      // Anything else: 400 and nothing sent.
      ensures RouteOf(eventType) == Rejected ==> res == BadRequest && handler.hub.log == old(handler.hub.log)
      // The branches exclude each other: only validation answers a code, only notification relays.
      ensures res.Ok? ==> RouteOf(eventType) == Validation
      ensures res.OkEmpty? ==> RouteOf(eventType) == Notification
    {
      if EventTypeSubscriptionValidation(eventType) {
        if body.asEvent.None? || body.asValidationData.Throws? {
          return Faulted;
        }
        var data := if body.asValidationData.Value? then Some(body.asValidationData.value) else None;
        var response := handler.HandleValidation(body.asEvent.value, data);
        if response.None? {
          return Faulted;
        }
        return Ok(response.value);
      } else if EventTypeNotification(eventType) {
        if body.asDocument.None? {
          return Faulted;
        }
        if IsCloudEvent(body.asDocument.value) {
          if body.asCloudEvents.None? {
            return Faulted;
          }
          handler.HandleCloudEvent(body.asCloudEvents.value);
          return OkEmpty;
        }
        if body.asGridEvents.None? {
          return Faulted;
        }
        handler.HandleGridEvents(body.asGridEvents.value);
        return OkEmpty;
      }
      return BadRequest;
    }
  }
}
