/**
 * The in-process event bus (src/events/eventBus.ts): handlers registered per
 * event type in registration order, and an append-only history. Handlers are
 * identifiers of type H; running them is up to the owner of the bus (the
 * saga's Publish), which first records the event here.
 */
module Events {
  import opened Types

  /** The handlers registered for `t`, in registration order; none when the type was never subscribed. */
  function Subscribers<H>(handlers: map<EventType, seq<H>>, t: EventType): seq<H> {
    if t in handlers then handlers[t] else []
  }

  /** `history.filter(e => e.requestId === requestId)` */
  function FilterByRequest(history: seq<BookingEvent>, requestId: string): (r: seq<BookingEvent>)
    ensures |r| <= |history|
    ensures forall e :: e in r <==> e in history && e.requestId == requestId
  {
    if history == [] then []
    else
      var rest := FilterByRequest(history[..|history| - 1], requestId);
      var last := history[|history| - 1];
      assert history == history[..|history| - 1] + [last];
      if last.requestId == requestId then rest + [last] else rest
  }

  /** Filtering distributes over appending: the per-request history keeps publish order. */
  lemma {:induction false} FilterByRequestAppend(a: seq<BookingEvent>, b: seq<BookingEvent>, requestId: string)
    ensures FilterByRequest(a + b, requestId) == FilterByRequest(a, requestId) + FilterByRequest(b, requestId)
  {
    if b == [] {
      assert a + b == a;
    } else {
      assert (a + b)[..|a + b| - 1] == a + b[..|b| - 1];
      FilterByRequestAppend(a, b[..|b| - 1], requestId);
    }
  }

  /** Events of other requests leave a request's history as it was. */
  lemma FilterByRequestIgnoresOthers(history: seq<BookingEvent>, e: BookingEvent, requestId: string)
    requires e.requestId != requestId
    ensures FilterByRequest(history + [e], requestId) == FilterByRequest(history, requestId)
  {
    FilterByRequestAppend(history, [e], requestId);
  }

  class EventBus<H> {
    var handlers: map<EventType, seq<H>>
    var history: seq<BookingEvent>

    constructor ()
      ensures handlers == map[] && history == []
    {
      handlers := map[];
      history := [];
    }

    /** subscribe: append `h` to the handlers of `t`; other types and the history are unchanged. */
    method Subscribe(t: EventType, h: H)
      modifies this
      ensures handlers == old(handlers)[t := Subscribers(old(handlers), t) + [h]]
      ensures history == old(history)
    {
      if t !in handlers {
        handlers := handlers[t := []];
      }
      handlers := handlers[t := handlers[t] + [h]];
    }

    /**
     * The first half of publish: the event joins the history before any
     * handler runs, and the handlers to run are returned in registration
     * order (none when the type has no subscriber).
     */
    method Record(e: BookingEvent) returns (toRun: seq<H>)
      modifies this
      ensures history == old(history) + [e]
      ensures handlers == old(handlers)
      ensures toRun == Subscribers(handlers, e.eventType)
    {
      history := history + [e];
      toRun := Subscribers(handlers, e.eventType);
    }

    /** getEventHistory */
    function EventHistory(requestId: string): seq<BookingEvent>
      reads this
    {
      FilterByRequest(history, requestId)
    }

    /** clearHistory: the history is emptied, the subscriptions stay. */
    method ClearHistory()
      modifies this
      ensures history == [] && handlers == old(handlers)
    {
      history := [];
    }
  }
}
