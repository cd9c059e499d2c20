/** The SignalR hub context, reduced to what the core sees of it: a log of
    every message sent to all clients, in the order it was sent. */
module Hubs {
  import opened Wrappers
  import opened Events

  class Hub {
    /** Every message sent so far, oldest first. */
    var log: seq<Broadcast>

    constructor ()
      ensures log == []
    {
      log := [];
    }

    /** Clients.All.SendAsync(name, id, type, subject, time, serialized). */
    method SendAll(name: string, id: string, eventType: string, subject: Option<string>,
                   time: Option<Timestamp>, serialized: string)
      modifies this
      ensures log == old(log) + [Broadcast(name, id, eventType, subject, time, serialized)]
    {
      log := log + [Broadcast(name, id, eventType, subject, time, serialized)];
    }
  }
}
