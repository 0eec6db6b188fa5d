/**
 * The entry point of a booking (src/workflow/orchestrator.ts): the initial
 * record, saved before the first event, and the BOOKING_INITIATED event
 * that starts the saga. The correlation id, generated per call in the
 * source, is a parameter.
 */
module Orchestrator {
  import opened Wrappers
  import opened Types
  import Bookings
  import opened SagaSpec
  import Handlers

  /** The record saved for a new request: `pending`, nothing selected or priced yet, the fault point copied. */
  function InitialState(r: BookingRequest): (s: BookingState)
    ensures s.requestId == r.requestId && s.user == r.user && s.status == Pending
    ensures s.selectedServices == [] && s.basePrice == 0.0 && s.finalPrice == 0.0
    ensures !s.r1DiscountApplied && !s.r2DiscountApplied && s.compensationActions == []
    ensures s.simulateFailureAt == r.simulateFailureAt
    ensures s.referenceId == None && s.error == None
  {
    BookingState(r.requestId, r.user, [], 0.0, false, false, 0.0, Pending, r.simulateFailureAt, None, None, [])
  }

  /** The first event: the request's own id, the correlation id of the call, the user, the raw service ids, the fault point. */
  function InitiatedEvent(r: BookingRequest, correlationId: string): (e: BookingEvent)
    ensures e.eventType == BookingInitiated && e.requestId == r.requestId && e.correlationId == correlationId
    ensures e.payload == InitiatedPayload(r.user, r.selectedServices, r.simulateFailureAt)
  {
    BookingEvent(BookingInitiated, r.requestId, correlationId, InitiatedPayload(r.user, r.selectedServices, r.simulateFailureAt))
  }

  /** A new booking has no side effect to undo unless a slot or a confirmation already exists under its id. */
  lemma InitialStateHasNoSideEffects(w: World, r: BookingRequest)
    requires r.requestId !in w.slots && r.requestId !in w.confirmations
    ensures !HasSideEffects(w.(bookings := Bookings.Save(w.bookings, InitialState(r))), r.requestId)
  {
  }

  /**
   * initiateBooking: save the initial record, then publish BOOKING_INITIATED,
   * which runs the whole saga before returning; the value returned is the
   * initial `pending` record, not the record the saga leaves.
   */
  method InitiateBooking(saga: Handlers.Saga, r: BookingRequest, correlationId: string, env: Env)
    returns (outcome: Outcome, snapshot: BookingState)
    requires saga.Valid()
    modifies saga.bus, saga.bookings, saga.slots, saga.confirmations, saga.quota
    ensures saga.Valid() && saga.bus.handlers == old(saga.bus.handlers)
    ensures snapshot == InitialState(r)
    ensures (outcome, saga.State())
            == Dispatch(saga.bus.handlers, old(saga.State()).(bookings := Bookings.Save(old(saga.bookings.states), InitialState(r))),
                        InitiatedEvent(r, correlationId), env)
  {
    var initialState := InitialState(r);
    saga.bookings.SaveBookingState(initialState);
    outcome := saga.Publish(InitiatedEvent(r, correlationId), env);
    snapshot := initialState;
  }

  /** getBookingStatus: the stored record of the request, if any. */
  function GetBookingStatus(saga: Handlers.Saga, requestId: string): (r: Option<BookingState>)
    reads saga.bookings
    ensures r.Some? <==> requestId in saga.bookings.states
    ensures r.Some? ==> r.value == saga.bookings.states[requestId]
  {
    saga.bookings.GetBookingState(requestId)
  }
}
