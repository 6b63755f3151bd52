/** The bounded queue between the private order stream's worker thread and the fill service. */
module PrivateStream {

  /** A size that is not positive leaves the queue unbounded. */
  predicate Full(length: nat, queueSize: int) {
    0 < queueSize <= length
  }

  class OKXPrivateOrderStream {
    const queueSize: int
    var events: seq<int>
    var eventsReceived: nat
    var droppedEvents: nat

    constructor (queueSize: int)
      ensures this.queueSize == queueSize
      ensures events == [] && eventsReceived == 0 && droppedEvents == 0
    {
      this.queueSize := queueSize;
      events, eventsReceived, droppedEvents := [], 0, 0;
    }

    /** Count the event, then queue it or count the drop. */
    method Enqueue(event: int)
      modifies this
      ensures eventsReceived == old(eventsReceived) + 1
      ensures if Full(|old(events)|, queueSize)
              then events == old(events) && droppedEvents == old(droppedEvents) + 1
              else events == old(events) + [event] && droppedEvents == old(droppedEvents)
    {
      eventsReceived := eventsReceived + 1;
      if Full(|events|, queueSize) {
        droppedEvents := droppedEvents + 1;
      } else {
        events := events + [event];
      }
    }

    /** Take at most `limit` events from the front; a negative limit takes none. */
    method Drain(limit: int) returns (drained: seq<int>)
      modifies this`events
      ensures drained + events == old(events)
      ensures |drained| <= (if limit < 0 then 0 else limit)
      ensures events == [] || |drained| == (if limit < 0 then 0 else limit)
    {
      drained := [];
      var budget := if limit < 0 then 0 else limit;
      for i := 0 to budget
        invariant drained + events == old(events)
        invariant |drained| == i
      {
        if events == [] {
          break;
        }
        drained, events := drained + [events[0]], events[1..];
      }
    }
  }
}
