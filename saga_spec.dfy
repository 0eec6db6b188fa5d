/**
 * The booking saga of src/events/handlers.ts as functions over the whole
 * in-memory world: the booking, slot, confirmation and quota tables and the
 * bus history. `Dispatch` is eventBus.publish with the saga's handlers
 * subscribed: record the event, then run the subscribers of its type in
 * order, each to completion (nested publishes included) before the next,
 * stopping at the first that throws. Handler `On…` functions are the six
 * subscribed handlers. The imperative Saga class in module Handlers is
 * proved to change its objects exactly as these functions say.
 */
module SagaSpec {
  import opened Wrappers
  import opened Types
  import Catalog
  import Quota
  import Slots
  import Confirmations
  import Bookings
  import Pricing
  import Events

  /** How a handler or a publish ended: normally, or with an exception that propagates. */
  datatype Outcome = Pass | Threw(message: string)

  /** The six handlers handlers.ts subscribes. */
  datatype HandlerId = OnInitiated | OnValidated | OnSlotReserved | OnPriceCalculated | OnCompensationRequired | OnFailed

  /** The event type each handler is written for. */
  function HandledType(h: HandlerId): EventType {
    match h
    case OnInitiated => BookingInitiated
    case OnValidated => UserValidated
    case OnSlotReserved => SlotReserved
    case OnPriceCalculated => PriceCalculated
    case OnCompensationRequired => CompensationRequired
    case OnFailed => BookingFailed
  }

  /** Each handler publishes only events of a strictly lower rank than the one it handles. */
  function Rank(t: EventType): nat {
    match t
    case BookingInitiated => 7
    case UserValidated => 6
    case SlotReserved => 5
    case PriceCalculated => 4
    case BookingFailed => 3
    case CompensationRequired => 2
    case _ => 1
  }

  /** Every handler on the bus is subscribed only under the type it is written for. */
  ghost predicate Wired(wiring: map<EventType, seq<HandlerId>>) {
    forall t, h :: t in wiring && h in wiring[t] ==> HandledType(h) == t
  }

  /** The subscriptions handlers.ts makes: one handler per handled type, none for the rest. */
  function StandardWiring(): (r: map<EventType, seq<HandlerId>>)
    ensures Wired(r)
  {
    map[BookingInitiated := [OnInitiated], UserValidated := [OnValidated], SlotReserved := [OnSlotReserved],
        PriceCalculated := [OnPriceCalculated], CompensationRequired := [OnCompensationRequired],
        BookingFailed := [OnFailed]]
  }

  /** Everything a saga reads and writes. */
  datatype World = World(
    bookings: map<string, BookingState>,
    slots: map<string, SlotReservation>,
    confirmations: map<string, Confirmation>,
    quota: map<string, QuotaState>,
    quotaLimit: nat,
    history: seq<BookingEvent>)

  /**
   * What the saga takes from outside: today's date in IST (the quota key),
   * whether today is the user's birthday, the holiday lookup's answer, the
   * clock text in a reference id, and which compensating store calls throw
   * (with their messages; none do in this code base).
   */
  datatype Env = Env(today: string, isBirthday: bool, holiday: HolidayCheck, clock: string,
                     undoFaults: map<UndoAction, string>)

  const MissingFields := "Invalid user data: missing required fields"
  const NoValidServices := "No valid services selected"
  const InvalidState := "Invalid state for price calculation"
  const QuotaReached := "Daily discount quota reached. Please try again tomorrow."
  const PriceFailed := "Price calculation failed"
  const DefaultError := "Booking failed"
  const UndefinedUser := "Cannot read properties of undefined (reading 'name')"

  function FaultMessage(f: FaultPoint): string {
    match f
    case AfterPrice => "Simulated failure at after_price"
    case ReserveSlot => "Simulated failure at reserve_slot"
    case CompleteBooking => "Simulated failure at complete_booking"
  }

  /** The next event of the same saga: same request and correlation ids. */
  function Follow(e: BookingEvent, t: EventType, p: Payload): (r: BookingEvent)
    ensures r.requestId == e.requestId && r.correlationId == e.correlationId
    ensures r.eventType == t && r.payload == p
  {
    BookingEvent(t, e.requestId, e.correlationId, p)
  }

  /** A follow-up event carrying only an error message. */
  function FailureEvent(e: BookingEvent, t: EventType, error: string): (r: BookingEvent)
    ensures r.requestId == e.requestId && r.correlationId == e.correlationId && r.eventType == t
    ensures ErrorOf(r.payload) == Some(error)
    ensures r.payload == FailurePayload(Some(error), None, None)
  {
    Follow(e, t, FailurePayload(Some(error), None, None))
  }

  // ---------------------------------------------------------------- validation

  /** All three user fields are present (non-empty). */
  predicate UserComplete(u: User) {
    u.name != "" && u.gender.Some? && u.dateOfBirth != ""
  }

  /** What one id contributes: its service, or nothing when it is unknown. */
  function ResolveId(id: string): (r: seq<MedicalService>)
    ensures r == [] <==> Catalog.ServiceById(id).None?
    ensures r != [] ==> r == [Catalog.ServiceById(id).value]
  {
    match Catalog.ServiceById(id)
    case Some(s) => [s]
    case None => []
  }

  /** `ids.map(getServiceById).filter(defined)`: unknown ids are dropped, order kept. */
  function Resolve(ids: seq<string>): (r: seq<MedicalService>)
    ensures |r| <= |ids|
    ensures forall s :: s in r ==> s in Catalog.MedicalServices
    ensures r == [] <==> forall id :: id in ids ==> Catalog.ServiceById(id).None?
  {
    if ids == [] then []
    else
      var rest := Resolve(ids[1..]);
      assert forall id :: id in ids <==> id == ids[0] || id in ids[1..];
      ResolveId(ids[0]) + rest
  }

  /** A service is resolved exactly when some id looks it up. */
  lemma {:induction false} ResolveKeeps(ids: seq<string>)
    ensures forall s :: s in Resolve(ids) <==> exists id :: id in ids && Catalog.ServiceById(id) == Some(s)
  {
    if ids != [] {
      ResolveKeeps(ids[1..]);
      assert forall id :: id in ids <==> id == ids[0] || id in ids[1..];
    }
  }

  /** Resolving a non-empty list: the first id's contribution, then the rest. */
  lemma ResolveCons(ids: seq<string>)
    requires ids != []
    ensures Resolve(ids) == ResolveId(ids[0]) + Resolve(ids[1..])
  {
  }

  /** Resolving a concatenation resolves each part in turn, so the order of the ids is kept. */
  lemma {:induction false} ResolveAppend(a: seq<string>, b: seq<string>)
    ensures Resolve(a + b) == Resolve(a) + Resolve(b)
  {
    if a == [] {
      assert a + b == b;
    } else {
      var ab := a + b;
      assert ab[0] == a[0] && ab[1..] == a[1..] + b;
      ResolveCons(ab);
      ResolveCons(a);
      ResolveAppend(a[1..], b);
      ConcatAssoc(ResolveId(a[0]), Resolve(a[1..]), Resolve(b));
    }
  }

  lemma ConcatAssoc<T>(x: seq<T>, y: seq<T>, z: seq<T>)
    ensures x + (y + z) == (x + y) + z
  {
  }

  /** One id resolves to its service, or to nothing when it is unknown. */
  lemma ResolveOne(id: string)
    ensures Resolve([id]) == ResolveId(id)
  {
    ResolveCons([id]);
    assert [id][1..] == [];
  }

  /** The resolved services whose `availableFor` lacks `g`. */
  function Unavailable(services: seq<MedicalService>, g: Gender): (r: seq<MedicalService>)
    ensures forall s :: s in r <==> s in services && g !in s.availableFor
  {
    if services == [] then []
    else if g !in services[0].availableFor then [services[0]] + Unavailable(services[1..], g)
    else Unavailable(services[1..], g)
  }

  /** The `Gender` enum's string value. */
  function GenderName(g: Gender): (r: string)
    ensures r in ["male", "female", "other"]
  {
    match g
    case Male => "male"
    case Female => "female"
    case Other => "other"
  }

  /** `services.map(s => s.name).join(', ')` */
  function JoinNames(services: seq<MedicalService>): string {
    if services == [] then ""
    else if |services| == 1 then services[0].name
    else services[0].name + ", " + JoinNames(services[1..])
  }

  /** Distinct genders have distinct names. */
  lemma GenderNameDistinct(g1: Gender, g2: Gender)
    ensures GenderName(g1) == GenderName(g2) <==> g1 == g2
  {
  }

  /** Joining two non-empty lists puts one separator between their joins. */
  lemma {:induction false} JoinNamesAppend(a: seq<MedicalService>, b: seq<MedicalService>)
    requires a != [] && b != []
    ensures JoinNames(a + b) == JoinNames(a) + ", " + JoinNames(b)
  {
    assert (a + b)[0] == a[0];
    if |a| == 1 {
      assert (a + b)[1..] == b;
    } else {
      assert (a + b)[1..] == a[1..] + b;
      JoinNamesAppend(a[1..], b);
    }
  }

  datatype Validation = Accepted(services: seq<MedicalService>) | Rejected(error: string)

  /**
   * The checks of the initiated handler, in order: user fields, at least one
   * resolvable id, every resolved service offered to the user's gender.
   */
  function Validate(u: User, ids: seq<string>): (r: Validation)
    ensures r.Accepted? <==>
              UserComplete(u) && Resolve(ids) != []
              && forall s :: s in Resolve(ids) ==> u.gender.value in s.availableFor
    ensures r.Accepted? ==> r.services == Resolve(ids)
    ensures !UserComplete(u) ==> r == Rejected(MissingFields)
    ensures UserComplete(u) && Resolve(ids) == [] ==> r == Rejected(NoValidServices)
    ensures UserComplete(u) && Resolve(ids) != [] && Unavailable(Resolve(ids), u.gender.value) != [] ==>
              r == Rejected("Services not available for " + GenderName(u.gender.value) + ": "
                            + JoinNames(Unavailable(Resolve(ids), u.gender.value)))
    ensures r.Rejected? ==> r.error != ""
  {
    if !UserComplete(u) then Rejected(MissingFields)
    else
      var services := Resolve(ids);
      if services == [] then Rejected(NoValidServices)
      else
        var invalid := Unavailable(services, u.gender.value);
        if invalid != [] then
          assert invalid[0] in services && u.gender.value !in invalid[0].availableFor;
          Rejected("Services not available for " + GenderName(u.gender.value) + ": " + JoinNames(invalid))
        else
          assert forall s :: s in services ==> s !in invalid;
          Accepted(services)
  }

  /** Each check that fails has its own message: the message tells which check rejected the request. */
  lemma RejectionsDistinct(u: User, ids: seq<string>)
    ensures var r := Validate(u, ids);
            r.Rejected? ==> (r.error == MissingFields <==> !UserComplete(u))
                            && (r.error == NoValidServices <==> UserComplete(u) && Resolve(ids) == [])
  {
    var r := Validate(u, ids);
    if r.Rejected? && UserComplete(u) && Resolve(ids) != [] {
      assert r.error[0] == 'S';
      assert MissingFields[0] == 'I' && NoValidServices[0] == 'N';
    }
  }

  // ---------------------------------------------------------------- handler effects

  /**
   * What a handler does once its writes are done. Every handler of the saga
   * ends in one of two ways: it returns (normally, or by throwing), or its
   * last act is one publish. `onThrow` is the event a surrounding `catch`
   * publishes when that publish throws.
   */
  datatype Tail = Return(outcome: Outcome) | PublishNext(next: BookingEvent, onThrow: Option<BookingEvent>)

  /** The events a tail publishes all rank below `rank`. */
  predicate Below(t: Tail, rank: nat) {
    t.PublishNext? ==> Rank(t.next.eventType) < rank && (t.onThrow.Some? ==> Rank(t.onThrow.value.eventType) < rank)
  }

  /** The status update the handlers make, on the world's booking table. */
  function SetStatus(w: World, requestId: string, status: BookingStatus, u: Bookings.BookingUpdate): World {
    w.(bookings := Bookings.UpdateStatus(w.bookings, requestId, status, u).1)
  }

  /** BOOKING_INITIATED: validate, then record the resolved services and go on to USER_VALIDATED. */
  function InitiatedEffect(w: World, e: BookingEvent): (r: (Tail, World))
    ensures r.0.PublishNext? ==> r.0.onThrow.None? && (r.0.next.eventType == BookingFailed || r.0.next.eventType == UserValidated)
  {
    if !e.payload.InitiatedPayload? then (Return(Threw(UndefinedUser)), w)
    else
      var p := e.payload;
      match Validate(p.user, p.serviceIds)
      case Rejected(error) => (PublishNext(FailureEvent(e, BookingFailed, error), None), w)
      case Accepted(services) =>
        var u := Bookings.NoUpdates.(user := Some(p.user), selectedServices := Some(services),
                                     simulateFailureAt := Some(p.simulateFailureAt));
        (PublishNext(Follow(e, UserValidated, ValidatedPayload(p.user, services)), None),
         SetStatus(w, e.requestId, Validating, u))
  }

  /** The writes of the USER_VALIDATED handler: status `reserving_slot`, then the slot reservation. */
  function ReserveStep(w: World, requestId: string): (SlotReservation, World) {
    var w1 := SetStatus(w, requestId, ReservingSlot, Bookings.NoUpdates);
    var (reservation, slots) := Slots.Reserve(w1.slots, requestId);
    (reservation, w1.(slots := slots))
  }

  /** USER_VALIDATED: reserve the slot first, then honour a `reserve_slot` fault. */
  function ValidatedEffect(w: World, e: BookingEvent): (r: (Tail, World))
    ensures r.0.PublishNext? ==> r.0.onThrow.None? && (r.0.next.eventType == CompensationRequired || r.0.next.eventType == SlotReserved)
  {
    if e.requestId !in w.bookings then (Return(Pass), w)
    else
      var step := ReserveStep(w, e.requestId);
      var next := if w.bookings[e.requestId].simulateFailureAt == Some(ReserveSlot)
                  then FailureEvent(e, CompensationRequired, FaultMessage(ReserveSlot))
                  else Follow(e, SlotReserved, ReservationPayload(step.0));
      (PublishNext(next, None), step.1)
  }

  /** The first writes of the SLOT_RESERVED handler: status `calculating_price`, then the price and the R1 quota. */
  function PricingStep(w: World, requestId: string, state: BookingState, env: Env): (PricingResult, World) {
    var w1 := SetStatus(w, requestId, CalculatingPrice, Bookings.NoUpdates);
    var (pricing, quota) := Pricing.Price(state.user, state.selectedServices, env.isBirthday, env.holiday,
                                          w1.quota, w1.quotaLimit, env.today);
    (pricing, w1.(quota := quota))
  }

  /**
   * How the SLOT_RESERVED handler acts on the price: an exhausted quota asks
   * for compensation before anything is written; otherwise the four price
   * fields are written with status `processing`, and then an `after_price`
   * fault asks for compensation while its absence announces the price. The
   * result is the event to publish and the tables.
   */
  function ContinueStep(w: World, e: BookingEvent, state: BookingState, pricing: PricingResult): (r: (BookingEvent, World))
    ensures r.0.requestId == e.requestId
    ensures r.0.eventType == (if pricing.r1QuotaExhausted || state.simulateFailureAt == Some(AfterPrice)
                              then CompensationRequired else PriceCalculated)
  {
    if pricing.r1QuotaExhausted then
      (Follow(e, CompensationRequired, FailurePayload(Some(QuotaReached), Some(pricing), None)), w)
    else
      var u := Bookings.NoUpdates.(basePrice := Some(pricing.basePrice),
                                   r1DiscountApplied := Some(pricing.r1DiscountApplied),
                                   r2DiscountApplied := Some(pricing.r2DiscountApplied),
                                   finalPrice := Some(pricing.finalPrice));
      var w1 := SetStatus(w, e.requestId, Processing, u);
      if state.simulateFailureAt == Some(AfterPrice) then
        (Follow(e, CompensationRequired, FailurePayload(Some(FaultMessage(AfterPrice)), Some(pricing), None)), w1)
      else
        (Follow(e, PriceCalculated, PricingPayload(pricing)), w1)
  }

  /**
   * SLOT_RESERVED: price the booking and act on the price; the publish sits
   * inside the `try`, so an exception from it turns into COMPENSATION_REQUIRED
   * ("Price calculation failed"). An unknown booking fails the saga.
   */
  function SlotReservedEffect(w: World, e: BookingEvent, env: Env): (r: (Tail, World))
    ensures r.0.PublishNext?
    ensures (r.0.next.eventType == BookingFailed || r.0.next.eventType == CompensationRequired || r.0.next.eventType == PriceCalculated)
    ensures r.0.onThrow.Some? ==> r.0.onThrow.value.eventType == CompensationRequired
  {
    if e.requestId !in w.bookings then (PublishNext(FailureEvent(e, BookingFailed, InvalidState), None), w)
    else
      var state := w.bookings[e.requestId];
      var priced := PricingStep(w, e.requestId, state, env);
      var next := ContinueStep(priced.1, e, state, priced.0);
      (PublishNext(next.0, Some(FailureEvent(e, CompensationRequired, PriceFailed))), next.1)
  }

  /** The reference id: "MB-", the upper-cased first 8 characters of the request id, "-", the clock text. */
  function ReferenceId(requestId: string, clock: string): (r: string)
    ensures var k := if |requestId| < 8 then |requestId| else 8;
            |r| == 4 + k + |clock| && r[..3] == "MB-"
            && (forall i :: 0 <= i < k ==> r[3 + i] == UpperChar(requestId[i]))
            && r[3 + k] == '-' && r[4 + k..] == clock
  {
    "MB-" + UpperPrefix8(requestId) + "-" + clock
  }

  /** The first writes of the PRICE_CALCULATED handler: the confirmation, then the reference id on the booking. */
  function ConfirmStep(w: World, requestId: string, env: Env): (string, World) {
    var ref := ReferenceId(requestId, env.clock);
    var w1 := w.(confirmations := Confirmations.Create(w.confirmations, requestId, ref));
    (ref, SetStatus(w1, requestId, Processing, Bookings.NoUpdates.(referenceId := Some(Some(ref)))))
  }

  /**
   * The rest of the PRICE_CALCULATED handler once the confirmation exists: a
   * `complete_booking` fault asks for compensation, carrying the reference
   * id, with no further write; otherwise the booking is marked `completed`
   * and BOOKING_COMPLETED announced. The result is the event to publish and
   * the tables.
   */
  function CompletionStep(w: World, e: BookingEvent, state: BookingState, ref: string): (r: (BookingEvent, World))
    ensures r.0.requestId == e.requestId
    ensures r.0.eventType == (if state.simulateFailureAt == Some(CompleteBooking) then CompensationRequired
                              else BookingCompleted)
  {
    if state.simulateFailureAt == Some(CompleteBooking) then
      (Follow(e, CompensationRequired, FailurePayload(Some(FaultMessage(CompleteBooking)), None, Some(ref))), w)
    else
      (Follow(e, BookingCompleted, CompletedPayload(ref, state.finalPrice)),
       SetStatus(w, e.requestId, Completed, Bookings.NoUpdates.(referenceId := Some(Some(ref)))))
  }

  /** PRICE_CALCULATED: create the confirmation and store the reference id first, then honour a `complete_booking` fault. */
  function PriceCalculatedEffect(w: World, e: BookingEvent, env: Env): (r: (Tail, World))
    ensures r.0.PublishNext? ==> r.0.onThrow.None? && (r.0.next.eventType == CompensationRequired || r.0.next.eventType == BookingCompleted)
  {
    if e.requestId !in w.bookings then (Return(Pass), w)
    else
      var confirmed := ConfirmStep(w, e.requestId, env);
      var next := CompletionStep(confirmed.1, e, w.bookings[e.requestId], confirmed.0);
      (PublishNext(next.0, None), next.1)
  }

  /**
   * One guarded compensating call inside its `try`: logged `completed` with
   * its effect, or, when the store call throws, logged `failed` with the
   * message and no effect.
   */
  function Attempt(a: UndoAction, env: Env, w: World, undone: World): (r: (seq<CompensationAction>, World))
    ensures |r.0| == 1 && r.0[0].action == a
    ensures r.0[0].status == ActionCompleted <==> a !in env.undoFaults
  {
    if a in env.undoFaults then ([CompensationAction(a, ActionFailed, Some(env.undoFaults[a]))], w)
    else ([CompensationAction(a, ActionCompleted, None)], undone)
  }

  /** Step 1 of compensation: delete the confirmation, if one exists. */
  function UndoConfirmation(w: World, requestId: string, env: Env): (seq<CompensationAction>, World) {
    if requestId in w.confirmations then
      Attempt(DeleteBookingConfirmation, env, w, w.(confirmations := Confirmations.Delete(w.confirmations, requestId).1))
    else ([], w)
  }

  /** Step 2 of compensation: release the slot, if one is reserved. */
  function UndoSlot(w: World, requestId: string, env: Env): (seq<CompensationAction>, World) {
    if requestId in w.slots then
      Attempt(ReleaseReservedSlot, env, w, w.(slots := Slots.Release(w.slots, requestId).1))
    else ([], w)
  }

  /** Step 3 of compensation: revoke one quota unit, if R1 was applied. */
  function UndoQuota(w: World, r1Applied: bool, env: Env): (seq<CompensationAction>, World) {
    if r1Applied then
      Attempt(RevokeR1DiscountQuota, env, w, w.(quota := Quota.Revoke(w.quota, w.quotaLimit, env.today)))
    else ([], w)
  }

  /** The three checks in their fixed order, each attempted whatever happened to the previous ones. */
  function Undo(w: World, requestId: string, r1Applied: bool, env: Env): (seq<CompensationAction>, World) {
    var (l1, w1) := UndoConfirmation(w, requestId, env);
    var (l2, w2) := UndoSlot(w1, requestId, env);
    var (l3, w3) := UndoQuota(w2, r1Applied, env);
    (l1 + l2 + l3, w3)
  }

  /**
   * The writes of the COMPENSATION_REQUIRED handler: mark compensating, undo,
   * then `failed` with the triggering error (by default "Booking failed") and
   * the log, reference id cleared.
   */
  function CompensationStep(w: World, e: BookingEvent, state: BookingState, env: Env): (seq<CompensationAction>, World) {
    var w1 := SetStatus(w, e.requestId, Compensating, Bookings.NoUpdates);
    var (log, w2) := Undo(w1, e.requestId, state.r1DiscountApplied, env);
    var u := Bookings.NoUpdates.(error := Some(Some(OrElse(ErrorOf(e.payload), DefaultError))),
                                 compensationActions := Some(log), referenceId := Some(None));
    (log, SetStatus(w2, e.requestId, Failed, u))
  }

  /** COMPENSATION_REQUIRED: compensate a known booking, then announce COMPENSATION_COMPLETED with the log. */
  function CompensationEffect(w: World, e: BookingEvent, env: Env): (r: (Tail, World))
    ensures r.0.PublishNext? ==> r.0.onThrow.None? && r.0.next.eventType == CompensationCompleted
  {
    if e.requestId !in w.bookings then (Return(Pass), w)
    else
      var step := CompensationStep(w, e, w.bookings[e.requestId], env);
      (PublishNext(Follow(e, CompensationCompleted, CompensationLogPayload(step.0)), None), step.1)
  }

  /** Whether a side effect of the saga exists, as the failed handler probes it. */
  predicate HasSideEffects(w: World, requestId: string) {
    requestId in w.bookings &&
    (w.bookings[requestId].r1DiscountApplied || requestId in w.slots || requestId in w.confirmations
     || Truthy(w.bookings[requestId].referenceId))
  }

  /** BOOKING_FAILED: redirect into compensation when a side effect exists, otherwise just end `failed`. */
  function FailedEffect(w: World, e: BookingEvent): (r: (Tail, World))
    ensures r.0.PublishNext? ==> r.0.onThrow.None? && r.0.next.eventType == CompensationRequired
  {
    if HasSideEffects(w, e.requestId) then
      (PublishNext(Follow(e, CompensationRequired, FailurePayload(ErrorOf(e.payload), None, None)), None), w)
    else
      (Return(Pass), SetStatus(w, e.requestId, Failed,
                               Bookings.NoUpdates.(error := Some(Some(OrElse(ErrorOf(e.payload), DefaultError))))))
  }

  /** The writes of handler `h` on event `e`, and what it does last. */
  function Effect(h: HandlerId, w: World, e: BookingEvent, env: Env): (Tail, World) {
    match h
    case OnInitiated => InitiatedEffect(w, e)
    case OnValidated => ValidatedEffect(w, e)
    case OnSlotReserved => SlotReservedEffect(w, e, env)
    case OnPriceCalculated => PriceCalculatedEffect(w, e, env)
    case OnCompensationRequired => CompensationEffect(w, e, env)
    case OnFailed => FailedEffect(w, e)
  }

  // ---------------------------------------------------------------- dispatch

  /** eventBus.publish: record `e`, then run its subscribers in registration order. */
  function Dispatch(wiring: map<EventType, seq<HandlerId>>, w: World, e: BookingEvent, env: Env): (Outcome, World)
    requires Wired(wiring)
    decreases Rank(e.eventType), 3
  {
    RunHandlers(wiring, w.(history := w.history + [e]), e, Events.Subscribers(wiring, e.eventType), env)
  }

  /** The publish loop: each handler runs to completion; the first exception stops the rest and propagates. */
  function RunHandlers(wiring: map<EventType, seq<HandlerId>>, w: World, e: BookingEvent, hs: seq<HandlerId>, env: Env)
    : (Outcome, World)
    requires Wired(wiring)
    requires forall h :: h in hs ==> HandledType(h) == e.eventType
    decreases Rank(e.eventType), 2, |hs|
  {
    if hs == [] then (Pass, w)
    else
      var (o, w1) := Handle(wiring, w, e, hs[0], env);
      if o.Threw? then (o, w1) else RunHandlers(wiring, w1, e, hs[1..], env)
  }

  /** One handler run to completion: its writes, then its last act, nested publishes included. */
  function Handle(wiring: map<EventType, seq<HandlerId>>, w: World, e: BookingEvent, h: HandlerId, env: Env)
    : (Outcome, World)
    requires Wired(wiring)
    requires HandledType(h) == e.eventType
    decreases Rank(e.eventType), 1
  {
    var step := Effect(h, w, e, env);
    Conclude(wiring, step.1, e, step.0, env)
  }

  /**
   * A handler's last act: return, or publish; a publish inside a `try` that
   * throws has its `catch` publish in turn. The saga only ever publishes
   * events of lower rank, as the contracts of the effect functions above
   * show; the rank test keeps the recursion well-founded and never fails
   * for the handlers of the saga.
   */
  function Conclude(wiring: map<EventType, seq<HandlerId>>, w: World, e: BookingEvent, t: Tail, env: Env)
    : (Outcome, World)
    requires Wired(wiring)
    decreases Rank(e.eventType), 0
  {
    if !Below(t, Rank(e.eventType)) then (Pass, w)
    else
      match t
      case Return(o) => (o, w)
      case PublishNext(next, None) => Dispatch(wiring, w, next, env)
      case PublishNext(next, Some(recovery)) =>
        var tried := Dispatch(wiring, w, next, env);
        if tried.0.Threw? then Dispatch(wiring, tried.1, recovery, env) else tried
  }
}
