/**
 * A whole booking saga of src/events/handlers.ts at once: the tables it
 * leaves, written as straight-line code stage by stage, the proof that
 * publishing BOOKING_INITIATED after initiateBooking's save leaves exactly
 * those tables, and what every run then guarantees: the booking ends
 * `completed` or `failed`, `completed` exactly when validation passes, no
 * fault is injected and the R1 quota is not exhausted, and a failed
 * booking leaves neither slot, confirmation nor quota unit behind; and
 * every event of the saga carries the request id and the correlation id it
 * was started with.
 */
module SagaRun {
  import opened Wrappers
  import opened Types
  import Quota
  import Slots
  import Confirmations
  import Bookings
  import Pricing
  import opened SagaSpec
  import opened SagaProofs
  import opened SagaStages
  import Orchestrator

  // ---------------------------------------------------------------- the saga from each stage on

  /** What is left of the saga once PRICE_CALCULATED is published for a known booking. */
  function FromPriceCalculated(w: World, e: BookingEvent, env: Env): World
    requires e.requestId in w.bookings
  {
    var state := w.bookings[e.requestId];
    var ref := ReferenceId(e.requestId, env.clock);
    if state.simulateFailureAt == Some(CompleteBooking) then
      CompensationOutcome(Confirmed(w, e, env),
                          Follow(e, CompensationRequired, FailurePayload(Some(FaultMessage(CompleteBooking)), None, Some(ref))), env)
    else
      w.(confirmations := Confirmations.Create(w.confirmations, e.requestId, ref),
         bookings := w.bookings[e.requestId := state.(status := Completed, referenceId := Some(ref))],
         history := w.history + [e, Follow(e, BookingCompleted, CompletedPayload(ref, state.finalPrice))])
  }

  /** What is left of the saga once SLOT_RESERVED is published for a known booking. */
  function FromSlotReserved(w: World, e: BookingEvent, env: Env): World
    requires e.requestId in w.bookings
  {
    var p := PriceOf(w, e, env);
    if p.r1QuotaExhausted then
      CompensationOutcome(Priced(w, e, env),
                          Follow(e, CompensationRequired, FailurePayload(Some(QuotaReached), Some(p), None)), env)
    else if w.bookings[e.requestId].simulateFailureAt == Some(AfterPrice) then
      CompensationOutcome(PriceWritten(w, e, env),
                          Follow(e, CompensationRequired, FailurePayload(Some(FaultMessage(AfterPrice)), Some(p), None)), env)
    else
      FromPriceCalculated(PriceWritten(w, e, env), Follow(e, PriceCalculated, PricingPayload(p)), env)
  }

  /** The tables once USER_VALIDATED has reserved the slot: status `reserving_slot`. */
  function Reserved(w: World, e: BookingEvent): World
    requires e.requestId in w.bookings
  {
    w.(bookings := w.bookings[e.requestId := w.bookings[e.requestId].(status := ReservingSlot)],
       slots := Slots.Reserve(w.slots, e.requestId).1, history := w.history + [e])
  }

  lemma ReservedKeyed(w: World, e: BookingEvent)
    requires Bookings.KeyedByRequest(w.bookings) && e.requestId in w.bookings
    ensures Bookings.KeyedByRequest(Reserved(w, e).bookings) && e.requestId in Reserved(w, e).bookings
  {
  }

  /** What is left of the saga once USER_VALIDATED is published for a known booking. */
  function FromValidated(w: World, e: BookingEvent, env: Env): World
    requires e.requestId in w.bookings
  {
    var w2 := Reserved(w, e);
    if w.bookings[e.requestId].simulateFailureAt == Some(ReserveSlot) then
      CompensationOutcome(w2, FailureEvent(e, CompensationRequired, FaultMessage(ReserveSlot)), env)
    else
      FromSlotReserved(w2, Follow(e, SlotReserved, ReservationPayload(Slots.Reserve(w.slots, e.requestId).0)), env)
  }

  /** The tables once validation has passed: status `validating`, the user, the resolved services, the fault point. */
  function Validated(w: World, e: BookingEvent): World
    requires e.requestId in w.bookings && e.payload.InitiatedPayload?
  {
    var p := e.payload;
    w.(bookings := w.bookings[e.requestId := w.bookings[e.requestId].(
          status := Validating, user := p.user, selectedServices := Resolve(p.serviceIds),
          simulateFailureAt := p.simulateFailureAt)],
       history := w.history + [e])
  }

  /** The whole saga started by BOOKING_INITIATED for a known booking. */
  function FromInitiated(w: World, e: BookingEvent, env: Env): World
    requires e.requestId in w.bookings && e.payload.InitiatedPayload?
  {
    var p := e.payload;
    match Validate(p.user, p.serviceIds)
    case Rejected(error) =>
      w.(bookings := Bookings.UpdateStatus(w.bookings, e.requestId, Failed, Bookings.NoUpdates.(error := Some(Some(error)))).1,
         history := w.history + [e, FailureEvent(e, BookingFailed, error)])
    case Accepted(services) =>
      FromValidated(Validated(w, e), Follow(e, UserValidated, ValidatedPayload(p.user, services)), env)
  }

  // ---------------------------------------------------------------- dispatch computes them

  lemma DispatchFromPriceCalculated(w: World, e: BookingEvent, env: Env)
    requires e.eventType == PriceCalculated
    requires Bookings.KeyedByRequest(w.bookings) && e.requestId in w.bookings
    ensures Dispatch(StandardWiring(), w, e, env) == (Pass, FromPriceCalculated(w, e, env))
  {
    if w.bookings[e.requestId].simulateFailureAt == Some(CompleteBooking) {
      CompleteBookingFaultCompensates(w, e, env);
    } else {
      ConfirmedCompletes(w, e, env);
    }
  }

  lemma DispatchFromSlotReserved(w: World, e: BookingEvent, env: Env)
    requires e.eventType == SlotReserved
    requires Bookings.KeyedByRequest(w.bookings) && e.requestId in w.bookings
    ensures Dispatch(StandardWiring(), w, e, env) == (Pass, FromSlotReserved(w, e, env))
  {
    if PriceOf(w, e, env).r1QuotaExhausted {
      QuotaExhaustedCompensates(w, e, env);
    } else if w.bookings[e.requestId].simulateFailureAt == Some(AfterPrice) {
      AfterPriceFaultCompensates(w, e, env);
    } else {
      PricedContinues(w, e, env);
      PriceRecord(w, e, env);
      DispatchFromPriceCalculated(PriceWritten(w, e, env), Follow(e, PriceCalculated, PricingPayload(PriceOf(w, e, env))), env);
    }
  }

  lemma DispatchFromValidated(w: World, e: BookingEvent, env: Env)
    requires e.eventType == UserValidated
    requires Bookings.KeyedByRequest(w.bookings) && e.requestId in w.bookings
    ensures Dispatch(StandardWiring(), w, e, env) == (Pass, FromValidated(w, e, env))
  {
    ValidatedReserves(w, e, env);
    ReservedKeyed(w, e);
    if w.bookings[e.requestId].simulateFailureAt == Some(ReserveSlot) {
      CompensationEndsFailed(Reserved(w, e), FailureEvent(e, CompensationRequired, FaultMessage(ReserveSlot)), env);
    } else {
      DispatchFromSlotReserved(Reserved(w, e),
                               Follow(e, SlotReserved, ReservationPayload(Slots.Reserve(w.slots, e.requestId).0)), env);
    }
  }

  /** Publishing BOOKING_INITIATED for a known booking without side effects runs the saga to its end, as FromInitiated says. */
  lemma DispatchFromInitiated(w: World, e: BookingEvent, env: Env)
    requires e.eventType == BookingInitiated && e.payload.InitiatedPayload?
    requires Bookings.KeyedByRequest(w.bookings) && e.requestId in w.bookings
    requires !HasSideEffects(w, e.requestId)
    ensures Dispatch(StandardWiring(), w, e, env) == (Pass, FromInitiated(w, e, env))
  {
    if Validate(e.payload.user, e.payload.serviceIds).Rejected? {
      RejectedEndsFailed(w, e, env);
    } else {
      DispatchAccepted(w, e, env);
    }
  }

  lemma DispatchAccepted(w: World, e: BookingEvent, env: Env)
    requires e.eventType == BookingInitiated && e.payload.InitiatedPayload?
    requires Validate(e.payload.user, e.payload.serviceIds).Accepted?
    requires Bookings.KeyedByRequest(w.bookings) && e.requestId in w.bookings
    ensures Dispatch(StandardWiring(), w, e, env) == (Pass, FromInitiated(w, e, env))
  {
    InitiatedAccepts(w, e, env);
    ValidatedKeyed(w, e);
    DispatchFromValidated(Validated(w, e),
                          Follow(e, UserValidated, ValidatedPayload(e.payload.user, Resolve(e.payload.serviceIds))), env);
  }

  lemma ValidatedKeyed(w: World, e: BookingEvent)
    requires Bookings.KeyedByRequest(w.bookings) && e.requestId in w.bookings && e.payload.InitiatedPayload?
    ensures Bookings.KeyedByRequest(Validated(w, e).bookings) && e.requestId in Validated(w, e).bookings
  {
  }

  // ---------------------------------------------------------------- how every saga ends

  /**
   * The tables a saga for `id` may leave, given the day's R1 count `base`
   * before it started: a failed booking keeps neither a slot nor a
   * confirmation nor a reference id, and the day's count is back at `base`;
   * a completed one keeps its slot and its confirmation, whose reference id
   * it records, and the day's count is `base` plus the R1 unit it took, if any.
   */
  ghost predicate Settled(after: World, id: string, base: nat, date: string) {
    id in after.bookings
    && (after.bookings[id].status == Failed ==>
          id !in after.slots && id !in after.confirmations && after.bookings[id].referenceId == None
          && Quota.Granted(after.quota, date) == base)
    && (after.bookings[id].status == Completed ==>
          id in after.slots && id in after.confirmations
          && after.bookings[id].referenceId == Some(after.confirmations[id].referenceId)
          && Quota.Granted(after.quota, date) == base + (if after.bookings[id].r1DiscountApplied then 1 else 0))
  }

  /** Compensation with no failing store call settles the booking as `failed`, giving back the R1 unit it holds. */
  lemma CompensationSettles(w: World, e: BookingEvent, env: Env, base: nat)
    requires Bookings.KeyedByRequest(w.bookings) && e.requestId in w.bookings
    requires env.undoFaults == map[]
    requires Quota.Granted(w.quota, env.today) == base + (if w.bookings[e.requestId].r1DiscountApplied then 1 else 0)
    ensures CompensationOutcome(w, e, env).bookings[e.requestId].status == Failed
    ensures Settled(CompensationOutcome(w, e, env), e.requestId, base, env.today)
  {
    UndoWorldShape(w, e.requestId, w.bookings[e.requestId].r1DiscountApplied, env);
  }

  lemma {:induction false} SettlesFromPriceCalculated(w: World, e: BookingEvent, env: Env, base: nat)
    requires Bookings.KeyedByRequest(w.bookings) && e.requestId in w.bookings && e.requestId in w.slots
    requires env.undoFaults == map[]
    requires Quota.Granted(w.quota, env.today) == base + (if w.bookings[e.requestId].r1DiscountApplied then 1 else 0)
    ensures var after := FromPriceCalculated(w, e, env);
            Settled(after, e.requestId, base, env.today)
            && after.bookings[e.requestId].status
               == if w.bookings[e.requestId].simulateFailureAt == Some(CompleteBooking) then Failed else Completed
  {
    if w.bookings[e.requestId].simulateFailureAt == Some(CompleteBooking) {
      ConfirmedRecord(w, e, env);
      var ref := ReferenceId(e.requestId, env.clock);
      CompensationSettles(Confirmed(w, e, env),
                          Follow(e, CompensationRequired, FailurePayload(Some(FaultMessage(CompleteBooking)), None, Some(ref))),
                          env, base);
    }
  }

  lemma {:induction false} SettlesFromSlotReserved(w: World, e: BookingEvent, env: Env, base: nat)
    requires Bookings.KeyedByRequest(w.bookings) && e.requestId in w.bookings && e.requestId in w.slots
    requires env.undoFaults == map[]
    requires !w.bookings[e.requestId].r1DiscountApplied && Quota.Granted(w.quota, env.today) == base
    ensures var after := FromSlotReserved(w, e, env);
            var fault := w.bookings[e.requestId].simulateFailureAt;
            Settled(after, e.requestId, base, env.today)
            && after.bookings[e.requestId].status
               == if PriceOf(w, e, env).r1QuotaExhausted || fault == Some(AfterPrice) || fault == Some(CompleteBooking)
                  then Failed else Completed
  {
    var p := PriceOf(w, e, env);
    PriceRecord(w, e, env);
    if p.r1QuotaExhausted {
      CompensationSettles(Priced(w, e, env),
                          Follow(e, CompensationRequired, FailurePayload(Some(QuotaReached), Some(p), None)), env, base);
    } else if w.bookings[e.requestId].simulateFailureAt == Some(AfterPrice) {
      CompensationSettles(PriceWritten(w, e, env),
                          Follow(e, CompensationRequired, FailurePayload(Some(FaultMessage(AfterPrice)), Some(p), None)),
                          env, base);
    } else {
      SettlesFromPriceCalculated(PriceWritten(w, e, env), Follow(e, PriceCalculated, PricingPayload(p)), env, base);
    }
  }

  /** What the later stages read of the reserved tables: the booking's flags and fault, the slot, the quota. */
  lemma ReservedFacts(w: World, e: BookingEvent, next: BookingEvent, env: Env)
    requires Bookings.KeyedByRequest(w.bookings) && e.requestId in w.bookings
    requires next.requestId == e.requestId
    ensures var v := Reserved(w, e);
            var state := w.bookings[e.requestId];
            Bookings.KeyedByRequest(v.bookings) && e.requestId in v.bookings && e.requestId in v.slots
            && v.bookings[e.requestId].r1DiscountApplied == state.r1DiscountApplied
            && v.bookings[e.requestId].simulateFailureAt == state.simulateFailureAt
            && v.quota == w.quota
            && PriceOf(v, next, env)
               == Pricing.Price(state.user, state.selectedServices, env.isBirthday, env.holiday, w.quota, w.quotaLimit, env.today).0
  {
  }

  /** What the later stages read of the validated tables. */
  lemma ValidatedFacts(w: World, e: BookingEvent)
    requires Bookings.KeyedByRequest(w.bookings) && e.requestId in w.bookings && e.payload.InitiatedPayload?
    ensures var v := Validated(w, e);
            var state := v.bookings[e.requestId];
            Bookings.KeyedByRequest(v.bookings) && e.requestId in v.bookings
            && state.r1DiscountApplied == w.bookings[e.requestId].r1DiscountApplied
            && state.simulateFailureAt == e.payload.simulateFailureAt
            && state.user == e.payload.user && state.selectedServices == Resolve(e.payload.serviceIds)
            && v.quota == w.quota && v.quotaLimit == w.quotaLimit
  {
  }

  lemma {:induction false} SettlesFromValidated(w: World, e: BookingEvent, env: Env, base: nat)
    requires Bookings.KeyedByRequest(w.bookings) && e.requestId in w.bookings
    requires env.undoFaults == map[]
    requires !w.bookings[e.requestId].r1DiscountApplied && Quota.Granted(w.quota, env.today) == base
    ensures var after := FromValidated(w, e, env);
            var state := w.bookings[e.requestId];
            var exhausted := Pricing.Price(state.user, state.selectedServices, env.isBirthday, env.holiday,
                                           w.quota, w.quotaLimit, env.today).0.r1QuotaExhausted;
            Settled(after, e.requestId, base, env.today)
            && after.bookings[e.requestId].status
               == if state.simulateFailureAt.Some? || exhausted then Failed else Completed
  {
    var next := Follow(e, SlotReserved, ReservationPayload(Slots.Reserve(w.slots, e.requestId).0));
    ReservedFacts(w, e, next, env);
    if w.bookings[e.requestId].simulateFailureAt == Some(ReserveSlot) {
      CompensationSettles(Reserved(w, e), FailureEvent(e, CompensationRequired, FaultMessage(ReserveSlot)), env, base);
    } else {
      var fault := w.bookings[e.requestId].simulateFailureAt;
      assert fault.Some? <==> fault == Some(AfterPrice) || fault == Some(CompleteBooking) by {
        if fault.Some? {
          match fault.value
          case AfterPrice =>
          case ReserveSlot =>
          case CompleteBooking =>
        }
      }
      assert FromValidated(w, e, env) == FromSlotReserved(Reserved(w, e), next, env);
      SettlesFromSlotReserved(Reserved(w, e), next, env, base);
    }
  }

  lemma {:induction false} SettlesFromInitiated(w: World, e: BookingEvent, env: Env, base: nat)
    requires Bookings.KeyedByRequest(w.bookings) && e.requestId in w.bookings && e.payload.InitiatedPayload?
    requires e.requestId !in w.slots && e.requestId !in w.confirmations
    requires !w.bookings[e.requestId].r1DiscountApplied && w.bookings[e.requestId].referenceId == None
    requires env.undoFaults == map[]
    requires Quota.Granted(w.quota, env.today) == base
    ensures var after := FromInitiated(w, e, env);
            var p := e.payload;
            var exhausted := Pricing.Price(p.user, Resolve(p.serviceIds), env.isBirthday, env.holiday,
                                           w.quota, w.quotaLimit, env.today).0.r1QuotaExhausted;
            Settled(after, e.requestId, base, env.today)
            && after.bookings[e.requestId].status
               == if Validate(p.user, p.serviceIds).Accepted? && p.simulateFailureAt.None? && !exhausted
                  then Completed else Failed
  {
    if Validate(e.payload.user, e.payload.serviceIds).Accepted? {
      ValidatedFacts(w, e);
      SettlesFromValidated(Validated(w, e),
                           Follow(e, UserValidated, ValidatedPayload(e.payload.user, Resolve(e.payload.serviceIds))), env, base);
    }
  }

  /**
   * initiateBooking followed by the whole saga, for a request that holds no
   * slot and no confirmation yet, when no compensating store call throws:
   * publishing never throws, the booking ends `completed` exactly when
   * validation passes, no fault is injected and today's R1 quota is not
   * exhausted, and `failed` otherwise; a failed booking leaves no slot, no
   * confirmation, no reference id and today's R1 count as it was, and a
   * completed one keeps its slot and its confirmation, and today's R1 count
   * has grown by one exactly when its R1 discount was applied.
   */
  lemma InitiateBookingSettles(w: World, r: BookingRequest, correlationId: string, env: Env)
    requires Bookings.KeyedByRequest(w.bookings)
    requires r.requestId !in w.slots && r.requestId !in w.confirmations
    requires env.undoFaults == map[]
    ensures var (o, after) := Dispatch(StandardWiring(), w.(bookings := Bookings.Save(w.bookings, Orchestrator.InitialState(r))),
                                       Orchestrator.InitiatedEvent(r, correlationId), env);
            var exhausted := Pricing.Price(r.user, Resolve(r.selectedServices), env.isBirthday, env.holiday,
                                           w.quota, w.quotaLimit, env.today).0.r1QuotaExhausted;
            o == Pass
            && Settled(after, r.requestId, Quota.Granted(w.quota, env.today), env.today)
            && after.bookings[r.requestId].status
               == if Validate(r.user, r.selectedServices).Accepted? && r.simulateFailureAt.None? && !exhausted
                  then Completed else Failed
  {
    var w0 := w.(bookings := Bookings.Save(w.bookings, Orchestrator.InitialState(r)));
    var e := Orchestrator.InitiatedEvent(r, correlationId);
    Orchestrator.InitialStateHasNoSideEffects(w, r);
    DispatchFromInitiated(w0, e, env);
    SettlesFromInitiated(w0, e, env, Quota.Granted(w.quota, env.today));
  }

  // ---------------------------------------------------------------- one correlation id per saga

  /**
   * `after` is `before` followed only by events of the saga of `e`: each
   * carries `e`'s request id and correlation id.
   */
  ghost predicate SameSagaSince(before: seq<BookingEvent>, after: seq<BookingEvent>, e: BookingEvent) {
    |before| <= |after| && after[..|before|] == before
    && forall i :: |before| <= i < |after| ==> after[i].requestId == e.requestId && after[i].correlationId == e.correlationId
  }

  /** Two stretches of the same saga make one. */
  lemma SameSagaTrans(a: seq<BookingEvent>, b: seq<BookingEvent>, c: seq<BookingEvent>, e: BookingEvent, f: BookingEvent)
    requires SameSagaSince(a, b, e) && SameSagaSince(b, c, f)
    requires f.requestId == e.requestId && f.correlationId == e.correlationId
    ensures SameSagaSince(a, c, e)
  {
    assert c[..|a|] == c[..|b|][..|a|];
  }

  /** Appending events of the saga of `e` keeps to it. */
  lemma AppendSameSaga(h: seq<BookingEvent>, tail: seq<BookingEvent>, e: BookingEvent)
    requires forall j :: 0 <= j < |tail| ==> tail[j].requestId == e.requestId && tail[j].correlationId == e.correlationId
    ensures SameSagaSince(h, h + tail, e)
  {
    assert (h + tail)[..|h|] == h;
    forall i | |h| <= i < |h + tail|
      ensures (h + tail)[i].requestId == e.requestId && (h + tail)[i].correlationId == e.correlationId
    {
      assert (h + tail)[i] == tail[i - |h|];
    }
  }

  lemma CompensationSameSaga(w: World, e: BookingEvent, env: Env)
    requires e.requestId in w.bookings
    ensures SameSagaSince(w.history, CompensationOutcome(w, e, env).history, e)
  {
    var (log, undone) := Undo(w, e.requestId, w.bookings[e.requestId].r1DiscountApplied, env);
    AppendSameSaga(w.history, [e, Follow(e, CompensationCompleted, CompensationLogPayload(log))], e);
  }

  lemma {:induction false} FromPriceCalculatedSameSaga(w: World, e: BookingEvent, env: Env)
    requires e.requestId in w.bookings
    ensures SameSagaSince(w.history, FromPriceCalculated(w, e, env).history, e)
  {
    var state := w.bookings[e.requestId];
    var ref := ReferenceId(e.requestId, env.clock);
    if state.simulateFailureAt == Some(CompleteBooking) {
      var w1 := Confirmed(w, e, env);
      var f := Follow(e, CompensationRequired, FailurePayload(Some(FaultMessage(CompleteBooking)), None, Some(ref)));
      AppendSameSaga(w.history, [e], e);
      CompensationSameSaga(w1, f, env);
      SameSagaTrans(w.history, w1.history, CompensationOutcome(w1, f, env).history, e, f);
    } else {
      AppendSameSaga(w.history, [e, Follow(e, BookingCompleted, CompletedPayload(ref, state.finalPrice))], e);
    }
  }

  lemma {:induction false} FromSlotReservedSameSaga(w: World, e: BookingEvent, env: Env)
    requires e.requestId in w.bookings
    ensures SameSagaSince(w.history, FromSlotReserved(w, e, env).history, e)
  {
    var p := PriceOf(w, e, env);
    var w1 := if p.r1QuotaExhausted then Priced(w, e, env) else PriceWritten(w, e, env);
    assert w1.history == w.history + [e];
    AppendSameSaga(w.history, [e], e);
    if p.r1QuotaExhausted {
      var f := Follow(e, CompensationRequired, FailurePayload(Some(QuotaReached), Some(p), None));
      CompensationSameSaga(w1, f, env);
      SameSagaTrans(w.history, w1.history, FromSlotReserved(w, e, env).history, e, f);
    } else if w.bookings[e.requestId].simulateFailureAt == Some(AfterPrice) {
      var f := Follow(e, CompensationRequired, FailurePayload(Some(FaultMessage(AfterPrice)), Some(p), None));
      CompensationSameSaga(w1, f, env);
      SameSagaTrans(w.history, w1.history, FromSlotReserved(w, e, env).history, e, f);
    } else {
      var f := Follow(e, PriceCalculated, PricingPayload(p));
      FromPriceCalculatedSameSaga(w1, f, env);
      SameSagaTrans(w.history, w1.history, FromSlotReserved(w, e, env).history, e, f);
    }
  }

  lemma {:induction false} FromValidatedSameSaga(w: World, e: BookingEvent, env: Env)
    requires e.requestId in w.bookings
    ensures SameSagaSince(w.history, FromValidated(w, e, env).history, e)
  {
    var w1 := Reserved(w, e);
    AppendSameSaga(w.history, [e], e);
    if w.bookings[e.requestId].simulateFailureAt == Some(ReserveSlot) {
      var f := FailureEvent(e, CompensationRequired, FaultMessage(ReserveSlot));
      CompensationSameSaga(w1, f, env);
      SameSagaTrans(w.history, w1.history, FromValidated(w, e, env).history, e, f);
    } else {
      var f := Follow(e, SlotReserved, ReservationPayload(Slots.Reserve(w.slots, e.requestId).0));
      FromSlotReservedSameSaga(w1, f, env);
      SameSagaTrans(w.history, w1.history, FromValidated(w, e, env).history, e, f);
    }
  }

  lemma {:induction false} FromInitiatedSameSaga(w: World, e: BookingEvent, env: Env)
    requires e.requestId in w.bookings && e.payload.InitiatedPayload?
    ensures SameSagaSince(w.history, FromInitiated(w, e, env).history, e)
  {
    var p := e.payload;
    match Validate(p.user, p.serviceIds)
    case Rejected(error) =>
      AppendSameSaga(w.history, [e, FailureEvent(e, BookingFailed, error)], e);
    case Accepted(services) =>
      var w1 := Validated(w, e);
      var f := Follow(e, UserValidated, ValidatedPayload(p.user, services));
      AppendSameSaga(w.history, [e], e);
      FromValidatedSameSaga(w1, f, env);
      SameSagaTrans(w.history, w1.history, FromInitiated(w, e, env).history, e, f);
  }

  /** The saga's history opens with BOOKING_INITIATED itself. */
  lemma FromInitiatedStartsWith(w: World, e: BookingEvent, env: Env)
    requires e.requestId in w.bookings && e.payload.InitiatedPayload?
    ensures var after := FromInitiated(w, e, env);
            |w.history| < |after.history| && after.history[|w.history|] == e
  {
    var p := e.payload;
    if Validate(p.user, p.serviceIds).Accepted? {
      var w1 := Validated(w, e);
      var f := Follow(e, UserValidated, ValidatedPayload(p.user, Resolve(p.serviceIds)));
      FromValidatedSameSaga(w1, f, env);
      var after := FromInitiated(w, e, env);
      assert after.history[..|w1.history|] == w1.history;
      assert after.history[|w.history|] == after.history[..|w1.history|][|w.history|];
    }
  }

  /**
   * Every event initiateBooking's saga publishes, from BOOKING_INITIATED to
   * its last event, carries the request id and the correlation id it was
   * started with, and the history before it is kept.
   */
  lemma InitiateBookingCorrelated(w: World, r: BookingRequest, correlationId: string, env: Env)
    requires Bookings.KeyedByRequest(w.bookings)
    requires r.requestId !in w.slots && r.requestId !in w.confirmations
    ensures var after := Dispatch(StandardWiring(), w.(bookings := Bookings.Save(w.bookings, Orchestrator.InitialState(r))),
                                  Orchestrator.InitiatedEvent(r, correlationId), env).1;
            |w.history| < |after.history| && after.history[..|w.history|] == w.history
            && after.history[|w.history|] == Orchestrator.InitiatedEvent(r, correlationId)
            && forall i :: |w.history| <= i < |after.history| ==>
                 after.history[i].requestId == r.requestId && after.history[i].correlationId == correlationId
  {
    var w0 := w.(bookings := Bookings.Save(w.bookings, Orchestrator.InitialState(r)));
    var e := Orchestrator.InitiatedEvent(r, correlationId);
    Orchestrator.InitialStateHasNoSideEffects(w, r);
    DispatchFromInitiated(w0, e, env);
    FromInitiatedSameSaga(w0, e, env);
    FromInitiatedStartsWith(w0, e, env);
  }
}
