/**
 * The saga of src/events/handlers.ts stage by stage, with the handlers
 * subscribed as handlers.ts subscribes them: what each handler does to the
 * tables and which event it publishes next, for each of its branches. The
 * scenarios of the source (a rejected request, each injected fault, an
 * exhausted quota, a completed booking) follow from these one after another.
 */
module SagaStages {
  import opened Wrappers
  import opened Types
  import Slots
  import Confirmations
  import Bookings
  import Pricing
  import opened SagaSpec
  import opened SagaProofs

  // ---------------------------------------------------------------- table updates

  /** A status-only update of a known booking changes its status and nothing else. */
  lemma StatusOnly(w: World, id: string, status: BookingStatus)
    requires Bookings.KeyedByRequest(w.bookings) && id in w.bookings
    ensures SetStatus(w, id, status, Bookings.NoUpdates) == w.(bookings := w.bookings[id := w.bookings[id].(status := status)])
  {
  }

  /** The update of successful validation: status `validating`, the user, exactly the resolved services, the fault point. */
  lemma ValidatingRecord(w: World, id: string, p: Payload)
    requires Bookings.KeyedByRequest(w.bookings) && id in w.bookings
    requires p.InitiatedPayload?
    ensures SetStatus(w, id, Validating,
                      Bookings.NoUpdates.(user := Some(p.user), selectedServices := Some(Resolve(p.serviceIds)),
                                          simulateFailureAt := Some(p.simulateFailureAt)))
            == w.(bookings := w.bookings[id := w.bookings[id].(status := Validating, user := p.user,
                                                               selectedServices := Resolve(p.serviceIds),
                                                               simulateFailureAt := p.simulateFailureAt)])
  {
  }

  // ---------------------------------------------------------------- BOOKING_INITIATED

  /** Failed validation publishes BOOKING_FAILED with the message of the first check that failed. */
  lemma InitiatedRejects(w: World, e: BookingEvent, env: Env)
    requires e.eventType == BookingInitiated && e.payload.InitiatedPayload?
    requires Validate(e.payload.user, e.payload.serviceIds).Rejected?
    ensures Dispatch(StandardWiring(), w, e, env)
              == Dispatch(StandardWiring(), w.(history := w.history + [e]),
                          FailureEvent(e, BookingFailed, Validate(e.payload.user, e.payload.serviceIds).error), env)
  {
    var w1 := w.(history := w.history + [e]);
    var next := FailureEvent(e, BookingFailed, Validate(e.payload.user, e.payload.serviceIds).error);
    InitiatedPublishes(w, e, env, next, w1);
  }

  /**
   * A rejected request without side effects ends `failed` with the
   * validation message: only the booking table and the history change, the
   * slot, confirmation and quota tables are untouched.
   */
  lemma RejectedEndsFailed(w: World, e: BookingEvent, env: Env)
    requires e.eventType == BookingInitiated && e.payload.InitiatedPayload?
    requires Validate(e.payload.user, e.payload.serviceIds).Rejected?
    requires !HasSideEffects(w, e.requestId)
    ensures var error := Validate(e.payload.user, e.payload.serviceIds).error;
            Dispatch(StandardWiring(), w, e, env)
              == (Pass, w.(bookings := Bookings.UpdateStatus(w.bookings, e.requestId, Failed,
                                                             Bookings.NoUpdates.(error := Some(Some(error)))).1,
                           history := w.history + [e, FailureEvent(e, BookingFailed, error)]))
  {
    var error := Validate(e.payload.user, e.payload.serviceIds).error;
    var f := FailureEvent(e, BookingFailed, error);
    InitiatedRejects(w, e, env);
    FailedRedirectsIff(w.(history := w.history + [e]), f, env);
    AppendTwo(w.history, e, f);
  }

  /** Successful validation records the user, the resolved services and the fault point, then publishes USER_VALIDATED. */
  lemma InitiatedAccepts(w: World, e: BookingEvent, env: Env)
    requires e.eventType == BookingInitiated && e.payload.InitiatedPayload?
    requires Validate(e.payload.user, e.payload.serviceIds).Accepted?
    requires Bookings.KeyedByRequest(w.bookings) && e.requestId in w.bookings
    ensures var p := e.payload;
            var services := Resolve(p.serviceIds);
            var validated := w.bookings[e.requestId].(status := Validating, user := p.user, selectedServices := services,
                                                      simulateFailureAt := p.simulateFailureAt);
            Dispatch(StandardWiring(), w, e, env)
              == Dispatch(StandardWiring(), w.(bookings := w.bookings[e.requestId := validated], history := w.history + [e]),
                          Follow(e, UserValidated, ValidatedPayload(p.user, services)), env)
  {
    var w1 := w.(history := w.history + [e]);
    var p := e.payload;
    var services := Resolve(p.serviceIds);
    var u := Bookings.NoUpdates.(user := Some(p.user), selectedServices := Some(services),
                                 simulateFailureAt := Some(p.simulateFailureAt));
    var next := Follow(e, UserValidated, ValidatedPayload(p.user, services));
    InitiatedPublishes(w, e, env, next, SetStatus(w1, e.requestId, Validating, u));
    ValidatingRecord(w1, e.requestId, p);
  }

  // ---------------------------------------------------------------- USER_VALIDATED

  /** USER_VALIDATED for a request with no booking only records the event. */
  lemma ValidatedUnknownBooking(w: World, e: BookingEvent, env: Env)
    requires e.eventType == UserValidated && e.requestId !in w.bookings
    ensures Dispatch(StandardWiring(), w, e, env) == (Pass, w.(history := w.history + [e]))
  {
    DispatchValidated(w, e, env);
  }

  /**
   * The slot is reserved before the `reserve_slot` fault is looked at: with
   * the fault COMPENSATION_REQUIRED follows, without it SLOT_RESERVED with
   * the reservation.
   */
  lemma ValidatedReserves(w: World, e: BookingEvent, env: Env)
    requires e.eventType == UserValidated
    requires Bookings.KeyedByRequest(w.bookings) && e.requestId in w.bookings
    ensures var state := w.bookings[e.requestId];
            var (reservation, slots) := Slots.Reserve(w.slots, e.requestId);
            var next := if state.simulateFailureAt == Some(ReserveSlot)
                        then FailureEvent(e, CompensationRequired, FaultMessage(ReserveSlot))
                        else Follow(e, SlotReserved, ReservationPayload(reservation));
            Dispatch(StandardWiring(), w, e, env)
              == Dispatch(StandardWiring(), w.(bookings := w.bookings[e.requestId := state.(status := ReservingSlot)],
                                               slots := slots, history := w.history + [e]), next, env)
  {
    var w1 := w.(history := w.history + [e]);
    var step := ReserveStep(w1, e.requestId);
    var next := if w.bookings[e.requestId].simulateFailureAt == Some(ReserveSlot)
                then FailureEvent(e, CompensationRequired, FaultMessage(ReserveSlot))
                else Follow(e, SlotReserved, ReservationPayload(step.0));
    ValidatedPublishes(w, e, env, next, step.1);
    StatusOnly(w1, e.requestId, ReservingSlot);
  }

  // ---------------------------------------------------------------- SLOT_RESERVED

  /** SLOT_RESERVED for a request with no booking publishes BOOKING_FAILED ("Invalid state for price calculation"). */
  lemma SlotReservedUnknownBooking(w: World, e: BookingEvent, env: Env)
    requires e.eventType == SlotReserved && e.requestId !in w.bookings
    ensures Dispatch(StandardWiring(), w, e, env)
              == Dispatch(StandardWiring(), w.(history := w.history + [e]), FailureEvent(e, BookingFailed, InvalidState), env)
  {
    var w1 := w.(history := w.history + [e]);
    var next := FailureEvent(e, BookingFailed, InvalidState);
    SlotReservedPublishes(w, e, env, next, w1);
  }

  /** The tables once the SLOT_RESERVED handler has priced the booking: status `calculating_price`, the quota after R1. */
  function Priced(w: World, e: BookingEvent, env: Env): World
    requires e.requestId in w.bookings
  {
    var state := w.bookings[e.requestId];
    var quota := Pricing.Price(state.user, state.selectedServices, env.isBirthday, env.holiday,
                               w.quota, w.quotaLimit, env.today).1;
    w.(bookings := w.bookings[e.requestId := state.(status := CalculatingPrice)], quota := quota,
       history := w.history + [e])
  }

  /** The price the SLOT_RESERVED handler computes for the known booking of `e`. */
  function PriceOf(w: World, e: BookingEvent, env: Env): PricingResult
    requires e.requestId in w.bookings
  {
    var state := w.bookings[e.requestId];
    Pricing.Price(state.user, state.selectedServices, env.isBirthday, env.holiday, w.quota, w.quotaLimit, env.today).0
  }

  /** The SLOT_RESERVED handler: price, then act on the price; an exception inside turns into COMPENSATION_REQUIRED. */
  lemma SlotReservedPrices(w: World, e: BookingEvent, env: Env)
    requires e.eventType == SlotReserved
    requires Bookings.KeyedByRequest(w.bookings) && e.requestId in w.bookings
    ensures var next := ContinueStep(Priced(w, e, env), e, w.bookings[e.requestId], PriceOf(w, e, env));
            var tried := Dispatch(StandardWiring(), next.1, next.0, env);
            Dispatch(StandardWiring(), w, e, env)
              == if tried.0.Threw? then Dispatch(StandardWiring(), tried.1, FailureEvent(e, CompensationRequired, PriceFailed), env)
                 else tried
  {
    var w1 := w.(history := w.history + [e]);
    var state := w.bookings[e.requestId];
    var next := ContinueStep(Priced(w, e, env), e, state, PriceOf(w, e, env));
    var recovery := FailureEvent(e, CompensationRequired, PriceFailed);
    PricingStepKnown(w, e, env);
    SlotReservedTries(w, e, env, next.0, recovery, next.1);
  }

  /** The first writes of the SLOT_RESERVED handler, on the tables with the event recorded. */
  lemma PricingStepKnown(w: World, e: BookingEvent, env: Env)
    requires Bookings.KeyedByRequest(w.bookings) && e.requestId in w.bookings
    ensures PricingStep(w.(history := w.history + [e]), e.requestId, w.bookings[e.requestId], env)
              == (PriceOf(w, e, env), Priced(w, e, env))
  {
    StatusOnly(w.(history := w.history + [e]), e.requestId, CalculatingPrice);
  }

  /**
   * An exhausted quota publishes COMPENSATION_REQUIRED with "Daily discount
   * quota reached. Please try again tomorrow." before any price is written:
   * the booking keeps its prices and R1 flag, and compensation runs on it.
   */
  lemma QuotaExhaustedCompensates(w: World, e: BookingEvent, env: Env)
    requires e.eventType == SlotReserved
    requires Bookings.KeyedByRequest(w.bookings) && e.requestId in w.bookings
    requires PriceOf(w, e, env).r1QuotaExhausted
    ensures Dispatch(StandardWiring(), w, e, env)
              == (Pass, CompensationOutcome(Priced(w, e, env),
                                            Follow(e, CompensationRequired,
                                                   FailurePayload(Some(QuotaReached), Some(PriceOf(w, e, env)), None)), env))
  {
    SlotReservedPrices(w, e, env);
    CompensationEndsFailed(Priced(w, e, env),
                           Follow(e, CompensationRequired, FailurePayload(Some(QuotaReached), Some(PriceOf(w, e, env)), None)), env);
  }

  /** The tables once the prices are written: status `processing`, the four price fields from the pricing result. */
  function PriceWritten(w: World, e: BookingEvent, env: Env): World
    requires e.requestId in w.bookings
  {
    var p := PriceOf(w, e, env);
    var w1 := Priced(w, e, env);
    w1.(bookings := w1.bookings[e.requestId := w1.bookings[e.requestId].(
          status := Processing, basePrice := p.basePrice, r1DiscountApplied := p.r1DiscountApplied,
          r2DiscountApplied := p.r2DiscountApplied, finalPrice := p.finalPrice)])
  }

  /** The price update of the SLOT_RESERVED handler writes exactly the four price fields. */
  lemma PriceRecord(w: World, e: BookingEvent, env: Env)
    requires Bookings.KeyedByRequest(w.bookings) && e.requestId in w.bookings
    ensures var p := PriceOf(w, e, env);
            SetStatus(Priced(w, e, env), e.requestId, Processing,
                      Bookings.NoUpdates.(basePrice := Some(p.basePrice), r1DiscountApplied := Some(p.r1DiscountApplied),
                                          r2DiscountApplied := Some(p.r2DiscountApplied), finalPrice := Some(p.finalPrice)))
              == PriceWritten(w, e, env)
    ensures Bookings.KeyedByRequest(Priced(w, e, env).bookings) && Bookings.KeyedByRequest(PriceWritten(w, e, env).bookings)
  {
  }

  /** An `after_price` fault publishes COMPENSATION_REQUIRED once the prices, and the R1 grant, are recorded. */
  lemma AfterPriceFaultCompensates(w: World, e: BookingEvent, env: Env)
    requires e.eventType == SlotReserved
    requires Bookings.KeyedByRequest(w.bookings) && e.requestId in w.bookings
    requires !PriceOf(w, e, env).r1QuotaExhausted
    requires w.bookings[e.requestId].simulateFailureAt == Some(AfterPrice)
    ensures Dispatch(StandardWiring(), w, e, env)
              == (Pass, CompensationOutcome(PriceWritten(w, e, env),
                                            Follow(e, CompensationRequired,
                                                   FailurePayload(Some(FaultMessage(AfterPrice)), Some(PriceOf(w, e, env)), None)),
                                            env))
  {
    SlotReservedPrices(w, e, env);
    PriceRecord(w, e, env);
    CompensationEndsFailed(PriceWritten(w, e, env),
                           Follow(e, CompensationRequired,
                                  FailurePayload(Some(FaultMessage(AfterPrice)), Some(PriceOf(w, e, env)), None)), env);
  }

  /** Without exhaustion or an `after_price` fault, PRICE_CALCULATED follows once the prices are recorded. */
  lemma PricedContinues(w: World, e: BookingEvent, env: Env)
    requires e.eventType == SlotReserved
    requires Bookings.KeyedByRequest(w.bookings) && e.requestId in w.bookings
    requires !PriceOf(w, e, env).r1QuotaExhausted
    requires w.bookings[e.requestId].simulateFailureAt != Some(AfterPrice)
    ensures Dispatch(StandardWiring(), w, e, env)
              == Dispatch(StandardWiring(), PriceWritten(w, e, env), Follow(e, PriceCalculated, PricingPayload(PriceOf(w, e, env))), env)
  {
    var next := Follow(e, PriceCalculated, PricingPayload(PriceOf(w, e, env)));
    SlotReservedPrices(w, e, env);
    PriceRecord(w, e, env);
    if PriceWritten(w, e, env).bookings[e.requestId].simulateFailureAt == Some(CompleteBooking) {
      CompleteBookingFaultCompensates(PriceWritten(w, e, env), next, env);
    } else {
      ConfirmedCompletes(PriceWritten(w, e, env), next, env);
    }
  }

  // ---------------------------------------------------------------- PRICE_CALCULATED

  /** PRICE_CALCULATED for a request with no booking only records the event. */
  lemma PriceCalculatedUnknownBooking(w: World, e: BookingEvent, env: Env)
    requires e.eventType == PriceCalculated && e.requestId !in w.bookings
    ensures Dispatch(StandardWiring(), w, e, env) == (Pass, w.(history := w.history + [e]))
  {
    DispatchPriceCalculated(w, e, env);
  }

  /** The tables once the confirmation exists and the booking holds its reference id, status `processing`. */
  function Confirmed(w: World, e: BookingEvent, env: Env): World
    requires e.requestId in w.bookings
  {
    var ref := ReferenceId(e.requestId, env.clock);
    w.(confirmations := Confirmations.Create(w.confirmations, e.requestId, ref),
       bookings := w.bookings[e.requestId := w.bookings[e.requestId].(status := Processing, referenceId := Some(ref))],
       history := w.history + [e])
  }

  /** The two status updates of the PRICE_CALCULATED handler, each carrying the reference id. */
  lemma ConfirmedRecord(w: World, e: BookingEvent, env: Env)
    requires Bookings.KeyedByRequest(w.bookings) && e.requestId in w.bookings
    ensures var ref := ReferenceId(e.requestId, env.clock);
            var w1 := w.(history := w.history + [e]);
            var w2 := w1.(confirmations := Confirmations.Create(w1.confirmations, e.requestId, ref));
            var u := Bookings.NoUpdates.(referenceId := Some(Some(ref)));
            SetStatus(w2, e.requestId, Processing, u) == Confirmed(w, e, env)
            && SetStatus(Confirmed(w, e, env), e.requestId, Completed, u)
                 == Confirmed(w, e, env).(bookings := w.bookings[e.requestId := w.bookings[e.requestId].(
                                            status := Completed, referenceId := Some(ref))])
    ensures Bookings.KeyedByRequest(Confirmed(w, e, env).bookings)
  {
  }

  /**
   * Without a `complete_booking` fault the booking ends `completed` with its
   * reference id, the confirmation created and BOOKING_COMPLETED recorded
   * last; the slot table and the quota are left as they were.
   */
  lemma ConfirmedCompletes(w: World, e: BookingEvent, env: Env)
    requires e.eventType == PriceCalculated
    requires Bookings.KeyedByRequest(w.bookings) && e.requestId in w.bookings
    requires w.bookings[e.requestId].simulateFailureAt != Some(CompleteBooking)
    ensures var state := w.bookings[e.requestId];
            var ref := ReferenceId(e.requestId, env.clock);
            Dispatch(StandardWiring(), w, e, env)
              == (Pass, w.(confirmations := Confirmations.Create(w.confirmations, e.requestId, ref),
                           bookings := w.bookings[e.requestId := state.(status := Completed, referenceId := Some(ref))],
                           history := w.history + [e, Follow(e, BookingCompleted, CompletedPayload(ref, state.finalPrice))]))
  {
    var state := w.bookings[e.requestId];
    var ref := ReferenceId(e.requestId, env.clock);
    var done := Follow(e, BookingCompleted, CompletedPayload(ref, state.finalPrice));
    var w1 := w.(history := w.history + [e]);
    var after := Confirmed(w, e, env).(bookings := w.bookings[e.requestId := state.(status := Completed, referenceId := Some(ref))]);
    ConfirmedRecord(w, e, env);
    assert ConfirmStep(w1, e.requestId, env) == (ref, Confirmed(w, e, env));
    PriceCalculatedPublishes(w, e, env, done, after);
    DispatchTerminal(after, done, env);
    AppendTwo(w.history, e, done);
  }

  /**
   * A `complete_booking` fault fires only after the confirmation is created
   * and the reference id stored; COMPENSATION_REQUIRED then carries that
   * reference id, and compensation runs on those tables.
   */
  lemma CompleteBookingFaultCompensates(w: World, e: BookingEvent, env: Env)
    requires e.eventType == PriceCalculated
    requires Bookings.KeyedByRequest(w.bookings) && e.requestId in w.bookings
    requires w.bookings[e.requestId].simulateFailureAt == Some(CompleteBooking)
    ensures var ref := ReferenceId(e.requestId, env.clock);
            Dispatch(StandardWiring(), w, e, env)
              == (Pass, CompensationOutcome(Confirmed(w, e, env),
                                            Follow(e, CompensationRequired,
                                                   FailurePayload(Some(FaultMessage(CompleteBooking)), None, Some(ref))), env))
  {
    var ref := ReferenceId(e.requestId, env.clock);
    var w1 := w.(history := w.history + [e]);
    var next := Follow(e, CompensationRequired, FailurePayload(Some(FaultMessage(CompleteBooking)), None, Some(ref)));
    ConfirmedRecord(w, e, env);
    assert ConfirmStep(w1, e.requestId, env) == (ref, Confirmed(w, e, env));
    PriceCalculatedPublishes(w, e, env, next, Confirmed(w, e, env));
    CompensationEndsFailed(Confirmed(w, e, env), next, env);
  }
}
