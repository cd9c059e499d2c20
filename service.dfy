/** The event handler service: the validation handshake, the two relays and
    the envelope classifier. */
module Service {
  import opened Wrappers
  import opened JsonValues
  import opened Events
  import opened Hubs

  /** The REQUIRED context attribute of a CloudEvents 1.0 envelope. */
  const CloudEventProperty: string := "specversion"

  /** Whether a JSON element is a CloudEvent envelope. The lookup throws on
      anything that is not an object; the handler catches that and answers false. */
  function IsCloudEvent(j: Json): (r: bool)
    ensures r <==> j.Obj? && CloudEventProperty in j.fields
  {
    match TryGetProperty(j, CloudEventProperty)
    case Found(_) => true
    case NotFound => false
    case InvalidOperation => false
  }

  /** An array root (a batch) is never classified as a CloudEvent, whatever its elements. */
  lemma BatchIsNeverCloudEvent(elems: seq<Json>)
    ensures !IsCloudEvent(Arr(elems))
  {
  }

  class EventGridEventHandler {
    /** The hub every message goes to. */
    const hub: Hub
    /** JsonSerializer.Serialize with indented output, for each envelope kind. */
    const serializeGrid: GridEvent -> string
    const serializeCloud: CloudEvt -> string

    constructor (hub: Hub, serializeGrid: GridEvent -> string, serializeCloud: CloudEvt -> string)
      ensures this.hub == hub && this.serializeGrid == serializeGrid && this.serializeCloud == serializeCloud
    {
      this.hub := hub;
      this.serializeGrid := serializeGrid;
      this.serializeCloud := serializeCloud;
    }

    /** Proves endpoint ownership: shows the validation event to the clients,
        then echoes its validation code unchanged. The validation data is a
        reference that may be null (None); the message goes out first, and only
        then is the code read, so a null payload ends in a NullReferenceException
        (result None) after the message. */
    method HandleValidation(e: GridEvent, validationEventData: Option<ValidationData>)
      returns (r: Option<ValidationResponse>)
      modifies hub
      ensures hub.log == old(hub.log) + [GridBroadcast(e, serializeGrid)]
      ensures r.Some? <==> validationEventData.Some?
      ensures r.Some? ==> r.value.validationResponse == validationEventData.value.validationCode
    {
      hub.SendAll(GridUpdate, e.id, e.eventType, Some(e.subject), Some(e.eventTime), serializeGrid(e));
      match validationEventData
      case None =>
        r := None;
      case Some(data) =>
        r := Some(ValidationResponse(data.validationCode));
    }

    /** Sends one "gridupdate" message per Event Grid event, in batch order. */
    method HandleGridEvents(events: seq<GridEvent>)
      modifies hub
      ensures hub.log == old(hub.log) + GridBroadcasts(events, serializeGrid)
    {
      for i := 0 to |events|
        invariant hub.log == old(hub.log) + GridBroadcasts(events[..i], serializeGrid)
      {
        var e := events[i];
        hub.SendAll(GridUpdate, e.id, e.eventType, Some(e.subject), Some(e.eventTime), serializeGrid(e));
        assert events[..i + 1] == events[..i] + [e];
        GridBroadcastsConcat(events[..i], [e], serializeGrid);
      }
      assert events[..|events|] == events;
    }

    /** Sends one "gridupdate" message per CloudEvent, in batch order. */
    method HandleCloudEvent(events: seq<CloudEvt>)
      modifies hub
      ensures hub.log == old(hub.log) + CloudBroadcasts(events, serializeCloud)
    {
      for i := 0 to |events|
        invariant hub.log == old(hub.log) + CloudBroadcasts(events[..i], serializeCloud)
      {
        var e := events[i];
        hub.SendAll(GridUpdate, e.id, e.eventType, e.subject, e.time, serializeCloud(e));
        assert events[..i + 1] == events[..i] + [e];
        CloudBroadcastsConcat(events[..i], [e], serializeCloud);
      }
      assert events[..|events|] == events;
    }
  }
}
