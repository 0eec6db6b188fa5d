/**
 * The saga handlers of src/events/handlers.ts as imperative code over the
 * shared stores, and the handler loop of eventBus.publish. Each method is
 * proved to leave the stores and the bus history exactly as the matching
 * function of SagaSpec says, so the lemmas proved about those functions
 * hold of these methods.
 */
module Handlers {
  import opened Wrappers
  import opened Types
  import Quota
  import Slots
  import Confirmations
  import Bookings
  import Pricing
  import Events
  import opened SagaSpec

  /** The top-level `subscribe` calls of handlers.ts, in file order, made on the empty bus at start-up. */
  method RegisterHandlers(bus: Events.EventBus<HandlerId>)
    requires bus.handlers == map[]
    modifies bus
    ensures bus.history == old(bus.history)
    ensures bus.handlers == StandardWiring()
  {
    var none: seq<HandlerId> := [];
    bus.Subscribe(BookingInitiated, OnInitiated);
    assert none + [OnInitiated] == [OnInitiated];
    bus.Subscribe(UserValidated, OnValidated);
    assert none + [OnValidated] == [OnValidated];
    bus.Subscribe(SlotReserved, OnSlotReserved);
    assert none + [OnSlotReserved] == [OnSlotReserved];
    bus.Subscribe(PriceCalculated, OnPriceCalculated);
    assert none + [OnPriceCalculated] == [OnPriceCalculated];
    bus.Subscribe(CompensationRequired, OnCompensationRequired);
    assert none + [OnCompensationRequired] == [OnCompensationRequired];
    bus.Subscribe(BookingFailed, OnFailed);
    assert none + [OnFailed] == [OnFailed];
  }

  /** The bus and the four stores one process shares between its sagas. */
  class Saga {
    const bus: Events.EventBus<HandlerId>
    const bookings: Bookings.BookingStore
    const slots: Slots.SlotStore
    const confirmations: Confirmations.ConfirmationStore
    const quota: Quota.QuotaStore

    ghost predicate Valid()
      reads bus, bookings, quota
    {
      Wired(bus.handlers) && bookings.Valid() && quota.Valid()
    }

    /** The abstract value of the shared state. */
    function State(): World
      reads bus, bookings, slots, confirmations, quota
    {
      World(bookings.states, slots.reservations, confirmations.records, quota.records, quota.limit, bus.history)
    }

    /** Fresh stores and a bus with the saga's handlers subscribed. */
    constructor (limit: nat)
      ensures Valid()
      ensures fresh(bus) && fresh(bookings) && fresh(slots) && fresh(confirmations) && fresh(quota)
      ensures bus.handlers == StandardWiring()
      ensures State() == World(map[], map[], map[], map[], limit, [])
    {
      var b := new Events.EventBus<HandlerId>();
      RegisterHandlers(b);
      bus := b;
      bookings := new Bookings.BookingStore();
      slots := new Slots.SlotStore();
      confirmations := new Confirmations.ConfirmationStore();
      quota := new Quota.QuotaStore(limit);
    }

    /** eventBus.publish, with the handler loop: record, then run each subscriber to completion. */
    method Publish(e: BookingEvent, env: Env) returns (outcome: Outcome)
      requires Valid()
      modifies bus, bookings, slots, confirmations, quota
      ensures Valid() && bus.handlers == old(bus.handlers)
      ensures (outcome, State()) == Dispatch(bus.handlers, old(State()), e, env)
      decreases Rank(e.eventType), 2
    {
      ghost var start := State();
      var toRun := bus.Record(e);
      outcome := Pass;
      var i := 0;
      while i < |toRun|
        invariant 0 <= i <= |toRun|
        invariant Valid() && bus.handlers == old(bus.handlers)
        invariant toRun == Events.Subscribers(bus.handlers, e.eventType)
        invariant outcome == Pass
        invariant Dispatch(bus.handlers, start, e, env) == RunHandlers(bus.handlers, State(), e, toRun[i..], env)
        decreases |toRun| - i
      {
        assert toRun[i..][0] == toRun[i] && toRun[i..][1..] == toRun[i + 1..];
        outcome := Run(toRun[i], e, env);
        if outcome.Threw? {
          return;
        }
        i := i + 1;
      }
    }

    /** Invoke one subscribed handler: its writes, then its last act. */
    method Run(h: HandlerId, e: BookingEvent, env: Env) returns (outcome: Outcome)
      requires Valid() && HandledType(h) == e.eventType
      modifies bus, bookings, slots, confirmations, quota
      ensures Valid() && bus.handlers == old(bus.handlers)
      ensures (outcome, State()) == Handle(bus.handlers, old(State()), e, h, env)
      decreases Rank(e.eventType), 1
    {
      var tail := Act(h, e, env);
      outcome := Continue(e, tail, env);
    }

    /** A handler's last act: return its outcome, or publish, with the `catch` publishing in turn when that publish throws. */
    method Continue(e: BookingEvent, tail: Tail, env: Env) returns (outcome: Outcome)
      requires Valid()
      modifies bus, bookings, slots, confirmations, quota
      ensures Valid() && bus.handlers == old(bus.handlers)
      ensures (outcome, State()) == Conclude(bus.handlers, old(State()), e, tail, env)
      decreases Rank(e.eventType), 0
    {
      if !Below(tail, Rank(e.eventType)) {
        // the rank test of Conclude; no handler of the saga fails it
        return Pass;
      }
      match tail {
        case Return(o) => outcome := o;
        case PublishNext(next, onThrow) =>
          outcome := Publish(next, env);
          if outcome.Threw? && onThrow.Some? {
            outcome := Publish(onThrow.value, env);
          }
      }
    }

    /** The body of handler `h` up to its last act. */
    method Act(h: HandlerId, e: BookingEvent, env: Env) returns (tail: Tail)
      requires Valid() && HandledType(h) == e.eventType
      modifies bookings, slots, confirmations, quota
      ensures Valid()
      ensures (tail, State()) == Effect(h, old(State()), e, env)
    {
      match h {
        case OnInitiated => tail := HandleInitiated(e);
        case OnValidated => tail := HandleValidated(e);
        case OnSlotReserved => tail := HandleSlotReserved(e, env);
        case OnPriceCalculated => tail := HandlePriceCalculated(e, env);
        case OnCompensationRequired => tail := HandleCompensationRequired(e, env);
        case OnFailed => tail := HandleFailed(e);
      }
    }

    /** The BOOKING_INITIATED handler. */
    method HandleInitiated(e: BookingEvent) returns (tail: Tail)
      requires Valid()
      modifies bookings
      ensures Valid()
      ensures (tail, State()) == InitiatedEffect(old(State()), e)
    {
      if !e.payload.InitiatedPayload? {
        return Return(Threw(UndefinedUser));
      }
      var user, ids, fault := e.payload.user, e.payload.serviceIds, e.payload.simulateFailureAt;
      var verdict := CheckRequest(user, ids);
      match verdict {
        case Rejected(error) =>
          tail := PublishNext(FailureEvent(e, BookingFailed, error), None);
        case Accepted(services) =>
          var _ := bookings.UpdateBookingStatus(e.requestId, Validating,
            Bookings.NoUpdates.(user := Some(user), selectedServices := Some(services), simulateFailureAt := Some(fault)));
          tail := PublishNext(Follow(e, UserValidated, ValidatedPayload(user, services)), None);
      }
    }

    /** The checks at the top of the BOOKING_INITIATED handler, in their order, each returning at the first failure. */
    static method CheckRequest(user: User, ids: seq<string>) returns (verdict: Validation)
      ensures verdict == Validate(user, ids)
    {
      if !UserComplete(user) {
        return Rejected(MissingFields);
      }
      var services := Resolve(ids);
      if services == [] {
        return Rejected(NoValidServices);
      }
      var invalid := Unavailable(services, user.gender.value);
      if invalid != [] {
        return Rejected("Services not available for " + GenderName(user.gender.value) + ": " + JoinNames(invalid));
      }
      verdict := Accepted(services);
    }

    /** The USER_VALIDATED handler. */
    method HandleValidated(e: BookingEvent) returns (tail: Tail)
      requires Valid()
      modifies bookings, slots
      ensures Valid()
      ensures (tail, State()) == ValidatedEffect(old(State()), e)
    {
      var state := bookings.GetBookingState(e.requestId);
      if state.None? {
        return Return(Pass);
      }
      var reservation := ReserveForBooking(e.requestId);
      var next := if state.value.simulateFailureAt == Some(ReserveSlot)
                  then FailureEvent(e, CompensationRequired, FaultMessage(ReserveSlot))
                  else Follow(e, SlotReserved, ReservationPayload(reservation));
      tail := PublishNext(next, None);
    }

    /** The writes of the USER_VALIDATED handler. */
    method ReserveForBooking(requestId: string) returns (reservation: SlotReservation)
      requires Valid()
      modifies bookings, slots
      ensures Valid()
      ensures (reservation, State()) == ReserveStep(old(State()), requestId)
    {
      var _ := bookings.UpdateBookingStatus(requestId, ReservingSlot, Bookings.NoUpdates);
      reservation := slots.ReserveSlot(requestId);
    }

    /** The SLOT_RESERVED handler; its publish sits in a `try` whose `catch` asks for compensation. */
    method HandleSlotReserved(e: BookingEvent, env: Env) returns (tail: Tail)
      requires Valid()
      modifies bookings, quota
      ensures Valid()
      ensures (tail, State()) == SlotReservedEffect(old(State()), e, env)
    {
      var state := bookings.GetBookingState(e.requestId);
      if state.None? {
        return PublishNext(FailureEvent(e, BookingFailed, InvalidState), None);
      }
      var pricing := PriceBooking(e.requestId, state.value, env);
      var next := ActOnPrice(e, state.value, pricing);
      tail := PublishNext(next, Some(FailureEvent(e, CompensationRequired, PriceFailed)));
    }

    /** The writes of the SLOT_RESERVED handler before it acts on the price. */
    method PriceBooking(requestId: string, state: BookingState, env: Env) returns (pricing: PricingResult)
      requires Valid()
      modifies bookings, quota
      ensures Valid()
      ensures (pricing, State()) == PricingStep(old(State()), requestId, state, env)
    {
      var _ := bookings.UpdateBookingStatus(requestId, CalculatingPrice, Bookings.NoUpdates);
      pricing := Pricing.CalculatePrice(state.user, state.selectedServices, env.isBirthday, env.holiday, quota, env.today);
    }

    /** The writes of the SLOT_RESERVED handler once the price is known, and the event it publishes next. */
    method ActOnPrice(e: BookingEvent, state: BookingState, pricing: PricingResult) returns (next: BookingEvent)
      requires Valid()
      modifies bookings
      ensures Valid()
      ensures (next, State()) == ContinueStep(old(State()), e, state, pricing)
    {
      if pricing.r1QuotaExhausted {
        return Follow(e, CompensationRequired, FailurePayload(Some(QuotaReached), Some(pricing), None));
      }
      var _ := bookings.UpdateBookingStatus(e.requestId, Processing,
        Bookings.NoUpdates.(basePrice := Some(pricing.basePrice), r1DiscountApplied := Some(pricing.r1DiscountApplied),
                            r2DiscountApplied := Some(pricing.r2DiscountApplied), finalPrice := Some(pricing.finalPrice)));
      if state.simulateFailureAt == Some(AfterPrice) {
        next := Follow(e, CompensationRequired, FailurePayload(Some(FaultMessage(AfterPrice)), Some(pricing), None));
      } else {
        next := Follow(e, PriceCalculated, PricingPayload(pricing));
      }
    }

    /** The PRICE_CALCULATED handler. */
    method HandlePriceCalculated(e: BookingEvent, env: Env) returns (tail: Tail)
      requires Valid()
      modifies bookings, confirmations
      ensures Valid()
      ensures (tail, State()) == PriceCalculatedEffect(old(State()), e, env)
    {
      var state := bookings.GetBookingState(e.requestId);
      if state.None? {
        return Return(Pass);
      }
      var referenceId := ConfirmBooking(e.requestId, env);
      var next := FinishBooking(e, state.value, referenceId);
      tail := PublishNext(next, None);
    }

    /** The rest of the PRICE_CALCULATED handler's writes, and the event it publishes next. */
    method FinishBooking(e: BookingEvent, state: BookingState, referenceId: string) returns (next: BookingEvent)
      requires Valid()
      modifies bookings
      ensures Valid()
      ensures (next, State()) == CompletionStep(old(State()), e, state, referenceId)
    {
      if state.simulateFailureAt == Some(CompleteBooking) {
        return Follow(e, CompensationRequired, FailurePayload(Some(FaultMessage(CompleteBooking)), None, Some(referenceId)));
      }
      var _ := bookings.UpdateBookingStatus(e.requestId, Completed, Bookings.NoUpdates.(referenceId := Some(Some(referenceId))));
      next := Follow(e, BookingCompleted, CompletedPayload(referenceId, state.finalPrice));
    }

    /** The writes of the PRICE_CALCULATED handler before the `complete_booking` fault is looked at. */
    method ConfirmBooking(requestId: string, env: Env) returns (referenceId: string)
      requires Valid()
      modifies bookings, confirmations
      ensures Valid()
      ensures (referenceId, State()) == ConfirmStep(old(State()), requestId, env)
    {
      referenceId := ReferenceId(requestId, env.clock);
      confirmations.CreateConfirmation(requestId, referenceId);
      var _ := bookings.UpdateBookingStatus(requestId, Processing, Bookings.NoUpdates.(referenceId := Some(Some(referenceId))));
    }

    /** The COMPENSATION_REQUIRED handler: three guarded undo steps, then `failed`. */
    method HandleCompensationRequired(e: BookingEvent, env: Env) returns (tail: Tail)
      requires Valid()
      modifies bookings, slots, confirmations, quota
      ensures Valid()
      ensures (tail, State()) == CompensationEffect(old(State()), e, env)
    {
      var state := bookings.GetBookingState(e.requestId);
      if state.None? {
        return Return(Pass);
      }
      var compensationActions := CompensateBooking(e, state.value, env);
      tail := PublishNext(Follow(e, CompensationCompleted, CompensationLogPayload(compensationActions)), None);
    }

    /** The writes of the COMPENSATION_REQUIRED handler, before COMPENSATION_COMPLETED is published. */
    method CompensateBooking(e: BookingEvent, state: BookingState, env: Env) returns (compensationActions: seq<CompensationAction>)
      requires Valid()
      modifies bookings, slots, confirmations, quota
      ensures Valid()
      ensures (compensationActions, State()) == CompensationStep(old(State()), e, state, env)
    {
      var _ := bookings.UpdateBookingStatus(e.requestId, Compensating, Bookings.NoUpdates);
      compensationActions := UndoEffects(e.requestId, state.r1DiscountApplied, env);
      var _ := bookings.UpdateBookingStatus(e.requestId, Failed,
        Bookings.NoUpdates.(error := Some(Some(OrElse(ErrorOf(e.payload), DefaultError))),
                            compensationActions := Some(compensationActions), referenceId := Some(None)));
    }

    /** The three guarded undo steps of the COMPENSATION_REQUIRED handler, each logged whatever befell the previous ones. */
    method UndoEffects(requestId: string, r1Applied: bool, env: Env) returns (compensationActions: seq<CompensationAction>)
      requires Valid()
      modifies slots, confirmations, quota
      ensures Valid()
      ensures (compensationActions, State()) == Undo(old(State()), requestId, r1Applied, env)
    {
      var l1 := UndoConfirmationStep(requestId, env);
      var l2 := UndoSlotStep(requestId, env);
      var l3 := UndoQuotaStep(r1Applied, env);
      compensationActions := l1 + l2 + l3;
    }

    /** The step that deletes the booking confirmation. */
    method UndoConfirmationStep(requestId: string, env: Env) returns (log: seq<CompensationAction>)
      requires Valid()
      modifies confirmations
      ensures Valid()
      ensures (log, State()) == UndoConfirmation(old(State()), requestId, env)
    {
      log := [];
      if confirmations.HasConfirmation(requestId) {
        if DeleteBookingConfirmation in env.undoFaults {
          log := [CompensationAction(DeleteBookingConfirmation, ActionFailed, Some(env.undoFaults[DeleteBookingConfirmation]))];
        } else {
          var _ := confirmations.DeleteConfirmation(requestId);
          log := [CompensationAction(DeleteBookingConfirmation, ActionCompleted, None)];
        }
      }
    }

    /** The step that releases the reserved slot. */
    method UndoSlotStep(requestId: string, env: Env) returns (log: seq<CompensationAction>)
      requires Valid()
      modifies slots
      ensures Valid()
      ensures (log, State()) == UndoSlot(old(State()), requestId, env)
    {
      log := [];
      if slots.IsSlotReserved(requestId) {
        if ReleaseReservedSlot in env.undoFaults {
          log := [CompensationAction(ReleaseReservedSlot, ActionFailed, Some(env.undoFaults[ReleaseReservedSlot]))];
        } else {
          var _ := slots.ReleaseSlot(requestId);
          log := [CompensationAction(ReleaseReservedSlot, ActionCompleted, None)];
        }
      }
    }

    /** The step that returns the R1 discount to today's quota. */
    method UndoQuotaStep(r1Applied: bool, env: Env) returns (log: seq<CompensationAction>)
      requires Valid()
      modifies quota
      ensures Valid()
      ensures (log, State()) == UndoQuota(old(State()), r1Applied, env)
    {
      log := [];
      if r1Applied {
        if RevokeR1DiscountQuota in env.undoFaults {
          log := [CompensationAction(RevokeR1DiscountQuota, ActionFailed, Some(env.undoFaults[RevokeR1DiscountQuota]))];
        } else {
          Pricing.CompensateR1Discount(quota, env.today);
          log := [CompensationAction(RevokeR1DiscountQuota, ActionCompleted, None)];
        }
      }
    }

    /** The BOOKING_FAILED handler. */
    method HandleFailed(e: BookingEvent) returns (tail: Tail)
      requires Valid()
      modifies bookings
      ensures Valid()
      ensures (tail, State()) == FailedEffect(old(State()), e)
    {
      var state := bookings.GetBookingState(e.requestId);
      if state.Some? && (state.value.r1DiscountApplied || slots.IsSlotReserved(e.requestId)
                         || confirmations.HasConfirmation(e.requestId) || Truthy(state.value.referenceId)) {
        return PublishNext(Follow(e, CompensationRequired, FailurePayload(ErrorOf(e.payload), None, None)), None);
      }
      var _ := bookings.UpdateBookingStatus(e.requestId, Failed,
        Bookings.NoUpdates.(error := Some(Some(OrElse(ErrorOf(e.payload), DefaultError)))));
      tail := Return(Pass);
    }
  }
}
