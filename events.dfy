/** The two event envelopes the viewer receives, the record it broadcasts to
    observers, and the reference definition of what relaying a batch sends. */
module Events {
  import opened Wrappers
  import opened JsonValues

  /** A DateTimeOffset. The core copies times into messages and never inspects or computes with them. */
  datatype Timestamp = Timestamp(utcTicks: int, offsetMinutes: int)

  /** An event in the Event Grid schema (Azure.Messaging.EventGrid.EventGridEvent). */
  datatype GridEvent = GridEvent(
    id: string,
    eventType: string,
    subject: string,
    eventTime: Timestamp,
    data: Json)

  /** An event in the CloudEvents 1.0 schema (Azure.Messaging.CloudEvent);
      its subject and time attributes are optional. */
  datatype CloudEvt = CloudEvt(
    id: string,
    eventType: string,
    subject: Option<string>,
    time: Option<Timestamp>,
    data: Json)

  /** The payload of a subscription validation event. */
  datatype ValidationData = ValidationData(validationCode: string)

  /** The body answered to a subscription validation request. */
  datatype ValidationResponse = ValidationResponse(validationResponse: string)

  /** One hub message to all connected clients: the message name and its
      argument list (id, type, subject, time, serialized event). */
  datatype Broadcast = Broadcast(
    name: string,
    id: string,
    eventType: string,
    subject: Option<string>,
    time: Option<Timestamp>,
    serialized: string)

  /** The only message name the viewer sends. */
  const GridUpdate: string := "gridupdate"

  /** The message sent for one Event Grid event, given the JSON serializer. */
  function GridBroadcast(e: GridEvent, serialize: GridEvent -> string): Broadcast
  {
    Broadcast(GridUpdate, e.id, e.eventType, Some(e.subject), Some(e.eventTime), serialize(e))
  }

  /** The message sent for one CloudEvent, given the JSON serializer. */
  function CloudBroadcast(e: CloudEvt, serialize: CloudEvt -> string): Broadcast
  {
    Broadcast(GridUpdate, e.id, e.eventType, e.subject, e.time, serialize(e))
  }

  /** What relaying a batch of Event Grid events sends: one message per event,
      in batch order. */
  function GridBroadcasts(events: seq<GridEvent>, serialize: GridEvent -> string): (r: seq<Broadcast>)
    ensures |r| == |events|
    ensures forall i :: 0 <= i < |events| ==> r[i] == GridBroadcast(events[i], serialize)
  {
    if events == [] then [] else [GridBroadcast(events[0], serialize)] + GridBroadcasts(events[1..], serialize)
  }

  /** What relaying a batch of CloudEvents sends: one message per event, in batch order. */
  function CloudBroadcasts(events: seq<CloudEvt>, serialize: CloudEvt -> string): (r: seq<Broadcast>)
    ensures |r| == |events|
    ensures forall i :: 0 <= i < |events| ==> r[i] == CloudBroadcast(events[i], serialize)
  {
    if events == [] then [] else [CloudBroadcast(events[0], serialize)] + CloudBroadcasts(events[1..], serialize)
  }

  /** Relaying a batch is relaying its two halves one after the other. */
  lemma GridBroadcastsConcat(a: seq<GridEvent>, b: seq<GridEvent>, serialize: GridEvent -> string)
    ensures GridBroadcasts(a + b, serialize) == GridBroadcasts(a, serialize) + GridBroadcasts(b, serialize)
  {
  }

  /** Relaying a batch is relaying its two halves one after the other. */
  lemma CloudBroadcastsConcat(a: seq<CloudEvt>, b: seq<CloudEvt>, serialize: CloudEvt -> string)
    ensures CloudBroadcasts(a + b, serialize) == CloudBroadcasts(a, serialize) + CloudBroadcasts(b, serialize)
  {
  }

  /** Every message a relay sends is named "gridupdate" and comes from an event of the batch. */
  lemma GridBroadcastsFromBatch(events: seq<GridEvent>, serialize: GridEvent -> string, m: Broadcast)
    requires m in GridBroadcasts(events, serialize)
    ensures m.name == GridUpdate
    ensures exists e :: e in events && m == GridBroadcast(e, serialize)
  {
  }

  /** Every message a relay sends is named "gridupdate" and comes from an event of the batch. */
  lemma CloudBroadcastsFromBatch(events: seq<CloudEvt>, serialize: CloudEvt -> string, m: Broadcast)
    requires m in CloudBroadcasts(events, serialize)
    ensures m.name == GridUpdate
    ensures exists e :: e in events && m == CloudBroadcast(e, serialize)
  {
  }
}
