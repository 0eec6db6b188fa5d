/**
 * What the saga of src/events/handlers.ts promises, proved about the
 * functions of SagaSpec with the handlers subscribed as handlers.ts
 * subscribes them. By the contracts of the Saga class these hold of the
 * imperative handlers too.
 */
module SagaProofs {
  import opened Wrappers
  import opened Types
  import Quota
  import Slots
  import Confirmations
  import Bookings
  import Pricing
  import Events
  import opened SagaSpec

  // ---------------------------------------------------------------- dispatch with the standard wiring

  /** An event of a handled type runs exactly its one handler, after being recorded. */
  lemma DispatchVia(w: World, e: BookingEvent, h: HandlerId, env: Env)
    requires HandledType(h) == e.eventType
    ensures Dispatch(StandardWiring(), w, e, env) == Handle(StandardWiring(), w.(history := w.history + [e]), e, h, env)
  {
    var wiring := StandardWiring();
    assert Events.Subscribers(wiring, e.eventType) == [h] by {
      match h
      case OnInitiated =>
      case OnValidated =>
      case OnSlotReserved =>
      case OnPriceCalculated =>
      case OnCompensationRequired =>
      case OnFailed =>
    }
    var w1 := w.(history := w.history + [e]);
    var (o, w2) := Handle(wiring, w1, e, h, env);
    assert RunHandlers(wiring, w1, e, [h], env) == if o.Threw? then (o, w2) else RunHandlers(wiring, w2, e, [], env);
  }

  /** Publishing BOOKING_INITIATED records it, then runs its handler's writes and its last act. */
  lemma DispatchInitiated(w: World, e: BookingEvent, env: Env)
    requires e.eventType == BookingInitiated
    ensures var w1 := w.(history := w.history + [e]);
            Dispatch(StandardWiring(), w, e, env) == Conclude(StandardWiring(), InitiatedEffect(w1, e).1, e, InitiatedEffect(w1, e).0, env)
  {
    var w1 := w.(history := w.history + [e]);
    DispatchVia(w, e, OnInitiated, env);
    assert Effect(OnInitiated, w1, e, env) == InitiatedEffect(w1, e);
  }

  /** Publishing USER_VALIDATED records it, then runs its handler's writes and its last act. */
  lemma DispatchValidated(w: World, e: BookingEvent, env: Env)
    requires e.eventType == UserValidated
    ensures var w1 := w.(history := w.history + [e]);
            Dispatch(StandardWiring(), w, e, env) == Conclude(StandardWiring(), ValidatedEffect(w1, e).1, e, ValidatedEffect(w1, e).0, env)
  {
    var w1 := w.(history := w.history + [e]);
    DispatchVia(w, e, OnValidated, env);
    assert Effect(OnValidated, w1, e, env) == ValidatedEffect(w1, e);
  }

  /** Publishing SLOT_RESERVED records it, then runs its handler's writes and its last act. */
  lemma DispatchSlotReserved(w: World, e: BookingEvent, env: Env)
    requires e.eventType == SlotReserved
    ensures var w1 := w.(history := w.history + [e]);
            Dispatch(StandardWiring(), w, e, env) == Conclude(StandardWiring(), SlotReservedEffect(w1, e, env).1, e, SlotReservedEffect(w1, e, env).0, env)
  {
    var w1 := w.(history := w.history + [e]);
    DispatchVia(w, e, OnSlotReserved, env);
    assert Effect(OnSlotReserved, w1, e, env) == SlotReservedEffect(w1, e, env);
  }

  /** Publishing PRICE_CALCULATED records it, then runs its handler's writes and its last act. */
  lemma DispatchPriceCalculated(w: World, e: BookingEvent, env: Env)
    requires e.eventType == PriceCalculated
    ensures var w1 := w.(history := w.history + [e]);
            Dispatch(StandardWiring(), w, e, env) == Conclude(StandardWiring(), PriceCalculatedEffect(w1, e, env).1, e, PriceCalculatedEffect(w1, e, env).0, env)
  {
    var w1 := w.(history := w.history + [e]);
    DispatchVia(w, e, OnPriceCalculated, env);
    assert Effect(OnPriceCalculated, w1, e, env) == PriceCalculatedEffect(w1, e, env);
  }

  /** Publishing COMPENSATION_REQUIRED records it, then runs its handler's writes and its last act. */
  lemma DispatchCompensation(w: World, e: BookingEvent, env: Env)
    requires e.eventType == CompensationRequired
    ensures var w1 := w.(history := w.history + [e]);
            Dispatch(StandardWiring(), w, e, env) == Conclude(StandardWiring(), CompensationEffect(w1, e, env).1, e, CompensationEffect(w1, e, env).0, env)
  {
    var w1 := w.(history := w.history + [e]);
    DispatchVia(w, e, OnCompensationRequired, env);
    assert Effect(OnCompensationRequired, w1, e, env) == CompensationEffect(w1, e, env);
  }

  /** Publishing BOOKING_FAILED records it, then runs its handler's writes and its last act. */
  lemma DispatchFailed(w: World, e: BookingEvent, env: Env)
    requires e.eventType == BookingFailed
    ensures var w1 := w.(history := w.history + [e]);
            Dispatch(StandardWiring(), w, e, env) == Conclude(StandardWiring(), FailedEffect(w1, e).1, e, FailedEffect(w1, e).0, env)
  {
    var w1 := w.(history := w.history + [e]);
    DispatchVia(w, e, OnFailed, env);
    assert Effect(OnFailed, w1, e, env) == FailedEffect(w1, e);
  }

  /** A BOOKING_INITIATED handler run that ends in a publish is that publish, on the tables the handler left. */
  lemma InitiatedPublishes(w: World, e: BookingEvent, env: Env, next: BookingEvent, w2: World)
    requires e.eventType == BookingInitiated
    requires InitiatedEffect(w.(history := w.history + [e]), e) == (PublishNext(next, None), w2)
    ensures Dispatch(StandardWiring(), w, e, env) == Dispatch(StandardWiring(), w2, next, env)
  {
    DispatchInitiated(w, e, env);
    ConcludePublish(StandardWiring(), w2, e, next, env);
  }

  /** A USER_VALIDATED handler run that ends in a publish is that publish, on the tables the handler left. */
  lemma ValidatedPublishes(w: World, e: BookingEvent, env: Env, next: BookingEvent, w2: World)
    requires e.eventType == UserValidated
    requires ValidatedEffect(w.(history := w.history + [e]), e) == (PublishNext(next, None), w2)
    ensures Dispatch(StandardWiring(), w, e, env) == Dispatch(StandardWiring(), w2, next, env)
  {
    DispatchValidated(w, e, env);
    ConcludePublish(StandardWiring(), w2, e, next, env);
  }

  /** A SLOT_RESERVED handler run that ends in a plain publish is that publish, on the tables the handler left. */
  lemma SlotReservedPublishes(w: World, e: BookingEvent, env: Env, next: BookingEvent, w2: World)
    requires e.eventType == SlotReserved
    requires SlotReservedEffect(w.(history := w.history + [e]), e, env) == (PublishNext(next, None), w2)
    ensures Dispatch(StandardWiring(), w, e, env) == Dispatch(StandardWiring(), w2, next, env)
  {
    DispatchSlotReserved(w, e, env);
    ConcludePublish(StandardWiring(), w2, e, next, env);
  }

  /**
   * A SLOT_RESERVED handler run that ends in a publish inside its `try` is
   * that publish, and when it throws, the `catch` publish on the tables the
   * failed one left.
   */
  lemma SlotReservedTries(w: World, e: BookingEvent, env: Env, next: BookingEvent, recovery: BookingEvent, w2: World)
    requires e.eventType == SlotReserved
    requires SlotReservedEffect(w.(history := w.history + [e]), e, env) == (PublishNext(next, Some(recovery)), w2)
    ensures var tried := Dispatch(StandardWiring(), w2, next, env);
            Dispatch(StandardWiring(), w, e, env)
              == if tried.0.Threw? then Dispatch(StandardWiring(), tried.1, recovery, env) else tried
  {
    DispatchSlotReserved(w, e, env);
    ConcludeCatch(StandardWiring(), w2, e, next, recovery, env);
  }

  /** A PRICE_CALCULATED handler run that ends in a publish is that publish, on the tables the handler left. */
  lemma PriceCalculatedPublishes(w: World, e: BookingEvent, env: Env, next: BookingEvent, w2: World)
    requires e.eventType == PriceCalculated
    requires PriceCalculatedEffect(w.(history := w.history + [e]), e, env) == (PublishNext(next, None), w2)
    ensures Dispatch(StandardWiring(), w, e, env) == Dispatch(StandardWiring(), w2, next, env)
  {
    DispatchPriceCalculated(w, e, env);
    ConcludePublish(StandardWiring(), w2, e, next, env);
  }

  /** A last act that publishes an event of lower rank outside any `try` is that publish. */
  lemma ConcludePublish(wiring: map<EventType, seq<HandlerId>>, w: World, e: BookingEvent, next: BookingEvent, env: Env)
    requires Wired(wiring)
    requires Rank(next.eventType) < Rank(e.eventType)
    ensures Conclude(wiring, w, e, PublishNext(next, None), env) == Dispatch(wiring, w, next, env)
  {
  }

  /**
   * A last act that publishes inside a `try` whose `catch` publishes
   * `recovery`: the publish, and when it throws, the recovery publish on the
   * tables the failed one left.
   */
  lemma ConcludeCatch(wiring: map<EventType, seq<HandlerId>>, w: World, e: BookingEvent, next: BookingEvent,
                      recovery: BookingEvent, env: Env)
    requires Wired(wiring)
    requires Rank(next.eventType) < Rank(e.eventType) && Rank(recovery.eventType) < Rank(e.eventType)
    ensures var tried := Dispatch(wiring, w, next, env);
            Conclude(wiring, w, e, PublishNext(next, Some(recovery)), env)
              == if tried.0.Threw? then Dispatch(wiring, tried.1, recovery, env) else tried
  {
  }

  /** The two terminal events have no subscriber: publishing one only records it. */
  lemma DispatchTerminal(w: World, e: BookingEvent, env: Env)
    requires e.eventType == BookingCompleted || e.eventType == CompensationCompleted
    ensures Dispatch(StandardWiring(), w, e, env) == (Pass, w.(history := w.history + [e]))
  {
    assert Events.Subscribers(StandardWiring(), e.eventType) == [];
  }

  // ---------------------------------------------------------------- compensation

  /** The fixed order of the compensating steps. */
  function Order(a: UndoAction): nat {
    match a
    case DeleteBookingConfirmation => 0
    case ReleaseReservedSlot => 1
    case RevokeR1DiscountQuota => 2
  }

  /** Whether the side effect that `a` undoes exists. */
  predicate EffectExists(w: World, requestId: string, r1Applied: bool, a: UndoAction) {
    match a
    case DeleteBookingConfirmation => requestId in w.confirmations
    case ReleaseReservedSlot => requestId in w.slots
    case RevokeR1DiscountQuota => r1Applied
  }

  /** A log entry as its `try` block writes it: completed, or failed with the thrown message. */
  predicate LoggedAsAttempted(c: CompensationAction, env: Env) {
    if c.action in env.undoFaults then c.status == ActionFailed && c.error == Some(env.undoFaults[c.action])
    else c.status == ActionCompleted && c.error == None
  }

  /** The entry a guarded step appends for `a`. */
  function Entry(a: UndoAction, env: Env): (c: CompensationAction)
    ensures c.action == a && LoggedAsAttempted(c, env)
  {
    if a in env.undoFaults then CompensationAction(a, ActionFailed, Some(env.undoFaults[a]))
    else CompensationAction(a, ActionCompleted, None)
  }

  /** The entry for `a` when its effect exists, nothing otherwise. */
  function EntryIf(exists_: bool, a: UndoAction, env: Env): seq<CompensationAction> {
    if exists_ then [Entry(a, env)] else []
  }

  /** The log of the three steps, each contributing the entry of an existing effect. */
  lemma UndoLogShape(w: World, requestId: string, r1Applied: bool, env: Env)
    ensures Undo(w, requestId, r1Applied, env).0
              == EntryIf(requestId in w.confirmations, DeleteBookingConfirmation, env)
                 + EntryIf(requestId in w.slots, ReleaseReservedSlot, env)
                 + EntryIf(r1Applied, RevokeR1DiscountQuota, env)
  {
    var (l1, w1) := UndoConfirmation(w, requestId, env);
    var (l2, w2) := UndoSlot(w1, requestId, env);
    assert w1.slots == w.slots;
    assert l1 == EntryIf(requestId in w.confirmations, DeleteBookingConfirmation, env);
    assert l2 == EntryIf(requestId in w.slots, ReleaseReservedSlot, env);
  }

  /**
   * Compensation's log: one entry per side effect that exists and none for
   * a missing one, in the fixed order confirmation, slot, quota, each
   * recording whether its store call succeeded; a failed call does not
   * keep the later steps from being attempted.
   */
  lemma UndoLogExactly(w: World, requestId: string, r1Applied: bool, env: Env)
    ensures var log := Undo(w, requestId, r1Applied, env).0;
            (forall a :: (exists i :: 0 <= i < |log| && log[i].action == a) <==> EffectExists(w, requestId, r1Applied, a))
            && (forall i, j :: 0 <= i < j < |log| ==> Order(log[i].action) < Order(log[j].action))
            && (forall i :: 0 <= i < |log| ==> LoggedAsAttempted(log[i], env))
  {
    UndoLogShape(w, requestId, r1Applied, env);
    var l1 := EntryIf(requestId in w.confirmations, DeleteBookingConfirmation, env);
    var l2 := EntryIf(requestId in w.slots, ReleaseReservedSlot, env);
    var l3 := EntryIf(r1Applied, RevokeR1DiscountQuota, env);
    var log := l1 + l2 + l3;
    assert forall i :: 0 <= i < |log| ==>
      log[i] == (if i < |l1| then l1[i] else if i < |l1| + |l2| then l2[i - |l1|] else l3[i - |l1| - |l2|]);
    forall a
      ensures (exists i :: 0 <= i < |log| && log[i].action == a) <==> EffectExists(w, requestId, r1Applied, a)
    {
      if EffectExists(w, requestId, r1Applied, a) {
        match a
        case DeleteBookingConfirmation => assert log[0].action == a;
        case ReleaseReservedSlot => assert log[|l1|].action == a;
        case RevokeR1DiscountQuota => assert log[|l1| + |l2|].action == a;
      }
    }
  }

  /** The tables after compensation: each existing effect removed unless its call failed. */
  lemma UndoWorldShape(w: World, requestId: string, r1Applied: bool, env: Env)
    ensures Undo(w, requestId, r1Applied, env).1
              == w.(confirmations := if requestId in w.confirmations && DeleteBookingConfirmation !in env.undoFaults
                                     then Confirmations.Delete(w.confirmations, requestId).1 else w.confirmations,
                    slots := if requestId in w.slots && ReleaseReservedSlot !in env.undoFaults
                             then Slots.Release(w.slots, requestId).1 else w.slots,
                    quota := if r1Applied && RevokeR1DiscountQuota !in env.undoFaults
                             then Quota.Revoke(w.quota, w.quotaLimit, env.today) else w.quota)
  {
    var (l1, w1) := UndoConfirmation(w, requestId, env);
    var (l2, w2) := UndoSlot(w1, requestId, env);
    assert w1 == w.(confirmations := if requestId in w.confirmations && DeleteBookingConfirmation !in env.undoFaults
                                     then Confirmations.Delete(w.confirmations, requestId).1 else w.confirmations);
    assert w2 == w1.(slots := if requestId in w.slots && ReleaseReservedSlot !in env.undoFaults
                              then Slots.Release(w.slots, requestId).1 else w.slots);
  }

  /**
   * Compensation's effect on the tables: the confirmation and the slot of
   * the request are gone unless their own call failed, today's quota is
   * revoked once when R1 was applied, other requests' entries, the booking
   * table and the history are untouched.
   */
  lemma UndoEffectsExactly(w: World, requestId: string, r1Applied: bool, env: Env)
    ensures var after := Undo(w, requestId, r1Applied, env).1;
            (requestId in after.confirmations <==>
               requestId in w.confirmations && DeleteBookingConfirmation in env.undoFaults)
            && (requestId in after.slots <==> requestId in w.slots && ReleaseReservedSlot in env.undoFaults)
            && (forall k :: k != requestId ==> (k in after.confirmations <==> k in w.confirmations))
            && (forall k :: k != requestId && k in w.confirmations ==> after.confirmations[k] == w.confirmations[k])
            && (forall k :: k != requestId ==> (k in after.slots <==> k in w.slots))
            && (forall k :: k != requestId && k in w.slots ==> after.slots[k] == w.slots[k])
            && after.quota == (if r1Applied && RevokeR1DiscountQuota !in env.undoFaults
                               then Quota.Revoke(w.quota, w.quotaLimit, env.today) else w.quota)
            && after.bookings == w.bookings && after.history == w.history && after.quotaLimit == w.quotaLimit
  {
    UndoWorldShape(w, requestId, r1Applied, env);
  }

  /** Compensation reads only the slot, confirmation and quota tables: the booking table and the history pass through. */
  lemma UndoIgnoresBookings(w: World, v: World, requestId: string, r1Applied: bool, env: Env)
    requires v.slots == w.slots && v.confirmations == w.confirmations
    requires v.quota == w.quota && v.quotaLimit == w.quotaLimit
    ensures Undo(v, requestId, r1Applied, env).0 == Undo(w, requestId, r1Applied, env).0
    ensures Undo(v, requestId, r1Applied, env).1
            == Undo(w, requestId, r1Applied, env).1.(bookings := v.bookings, history := v.history)
  {
    UndoLogShape(w, requestId, r1Applied, env);
    UndoLogShape(v, requestId, r1Applied, env);
    UndoWorldShape(w, requestId, r1Applied, env);
    UndoWorldShape(v, requestId, r1Applied, env);
  }

  /** The tables after the COMPENSATION_REQUIRED handler has run on a known booking: its writes, then COMPENSATION_COMPLETED recorded. */
  function CompensationRun(w: World, e: BookingEvent, env: Env): World
    requires e.requestId in w.bookings
  {
    var step := CompensationStep(w, e, w.bookings[e.requestId], env);
    step.1.(history := step.1.history + [Follow(e, CompensationCompleted, CompensationLogPayload(step.0))])
  }

  /** Publishing COMPENSATION_REQUIRED for a known booking: one run of its handler, ending with COMPENSATION_COMPLETED recorded. */
  lemma CompensateUnfold(w: World, e: BookingEvent, env: Env)
    requires e.eventType == CompensationRequired
    requires e.requestId in w.bookings
    ensures Dispatch(StandardWiring(), w, e, env) == (Pass, CompensationRun(w.(history := w.history + [e]), e, env))
  {
    var w1 := w.(history := w.history + [e]);
    var step := CompensationStep(w1, e, w1.bookings[e.requestId], env);
    var next := Follow(e, CompensationCompleted, CompensationLogPayload(step.0));
    DispatchCompensation(w, e, env);
    CompensationEffectKnown(w1, e, env);
    ConcludePublish(StandardWiring(), step.1, e, next, env);
    DispatchTerminal(step.1, next, env);
  }

  /** The COMPENSATION_REQUIRED handler on a known booking: its writes, then COMPENSATION_COMPLETED carrying the log. */
  lemma CompensationEffectKnown(w: World, e: BookingEvent, env: Env)
    requires e.requestId in w.bookings
    ensures var step := CompensationStep(w, e, w.bookings[e.requestId], env);
            CompensationEffect(w, e, env)
              == (PublishNext(Follow(e, CompensationCompleted, CompensationLogPayload(step.0)), None), step.1)
  {
  }

  /** The final status update of compensation on a booking table where the booking is `compensating`. */
  lemma SetFailedAfterUndo(w: World, bookings: map<string, BookingState>, id: string, state: BookingState,
                           u: Bookings.BookingUpdate, final: BookingState)
    requires Bookings.KeyedByRequest(bookings) && id in bookings && state == bookings[id]
    requires w.bookings == bookings[id := state.(status := Compensating)]
    requires u.error.Some? && u.compensationActions.Some? && u.referenceId == Some(None)
    requires u == Bookings.NoUpdates.(error := u.error, compensationActions := u.compensationActions,
                                      referenceId := u.referenceId)
    requires final == state.(status := Failed, error := u.error.value, compensationActions := u.compensationActions.value,
                             referenceId := None)
    ensures SetStatus(w, id, Failed, u) == w.(bookings := bookings[id := final])
  {
    assert Bookings.Merge(state.(status := Compensating), u, Failed) == final;
    assert Bookings.UpdateStatus(w.bookings, id, Failed, u).1 == bookings[id := final];
  }

  /**
   * The tables compensation leaves for the known booking of `e`: the undo
   * steps' effects, the booking `failed` with the triggering error (by
   * default "Booking failed"), the log replacing the old one and the
   * reference id cleared, and the event then COMPENSATION_COMPLETED recorded.
   */
  function CompensationOutcome(w: World, e: BookingEvent, env: Env): World
    requires e.requestId in w.bookings
  {
    var state := w.bookings[e.requestId];
    var (log, undone) := Undo(w, e.requestId, state.r1DiscountApplied, env);
    var final := state.(status := Failed, error := Some(OrElse(ErrorOf(e.payload), DefaultError)),
                        compensationActions := log, referenceId := None);
    undone.(bookings := w.bookings[e.requestId := final],
            history := w.history + [e, Follow(e, CompensationCompleted, CompensationLogPayload(log))])
  }

  /** COMPENSATION_REQUIRED for a request with no booking only records the event. */
  lemma CompensationUnknownBooking(w: World, e: BookingEvent, env: Env)
    requires e.eventType == CompensationRequired
    requires e.requestId !in w.bookings
    ensures Dispatch(StandardWiring(), w, e, env) == (Pass, w.(history := w.history + [e]))
  {
    DispatchCompensation(w, e, env);
  }

  /**
   * The COMPENSATION_REQUIRED handler: a known booking ends `failed` with the
   * triggering error (by default "Booking failed"), the compensation log
   * replacing the old one and the reference id cleared; the undo steps act as
   * UndoLogExactly and UndoEffectsExactly say, and COMPENSATION_COMPLETED is
   * published last, carrying the log.
   */
  lemma CompensationEndsFailed(w: World, e: BookingEvent, env: Env)
    requires e.eventType == CompensationRequired
    requires Bookings.KeyedByRequest(w.bookings)
    requires e.requestId in w.bookings
    ensures Dispatch(StandardWiring(), w, e, env) == (Pass, CompensationOutcome(w, e, env))
  {
    CompensateUnfold(w, e, env);
    CompensationTables(w.(history := w.history + [e]), w, e, env);
  }

  /** The tables the COMPENSATION_REQUIRED handler leaves, in terms of the tables before the event. */
  lemma CompensationTables(w0: World, w: World, e: BookingEvent, env: Env)
    requires Bookings.KeyedByRequest(w.bookings)
    requires e.requestId in w.bookings
    requires w0 == w.(history := w.history + [e])
    ensures CompensationRun(w0, e, env) == CompensationOutcome(w, e, env)
  {
    var id := e.requestId;
    var state := w.bookings[id];
    var (log, undone) := Undo(w, id, state.r1DiscountApplied, env);
    var w2 := undone.(bookings := w.bookings[id := state.(status := Compensating)], history := w0.history);
    UndoWhileCompensating(w0, w, e, env);
    var u := Bookings.NoUpdates.(error := Some(Some(OrElse(ErrorOf(e.payload), DefaultError))),
                                 compensationActions := Some(log), referenceId := Some(None));
    var final := state.(status := Failed, error := Some(OrElse(ErrorOf(e.payload), DefaultError)),
                        compensationActions := log, referenceId := None);
    SetFailedAfterUndo(w2, w.bookings, id, state, u, final);
    AppendTwo(w.history, e, Follow(e, CompensationCompleted, CompensationLogPayload(log)));
  }

  /** Recording an event and then its follow-up extends the history by both, in that order. */
  lemma AppendTwo(h: seq<BookingEvent>, first: BookingEvent, second: BookingEvent)
    ensures h + [first] + [second] == h + [first, second]
  {
  }

  /** Marking the booking `compensating` first changes nothing the undo steps do. */
  lemma UndoWhileCompensating(w0: World, w: World, e: BookingEvent, env: Env)
    requires Bookings.KeyedByRequest(w.bookings)
    requires e.requestId in w.bookings
    requires w0 == w.(history := w.history + [e])
    ensures var id := e.requestId;
            var state := w.bookings[id];
            var (log, undone) := Undo(w, id, state.r1DiscountApplied, env);
            Undo(SetStatus(w0, id, Compensating, Bookings.NoUpdates), id, state.r1DiscountApplied, env)
              == (log, undone.(bookings := w.bookings[id := state.(status := Compensating)], history := w0.history))
  {
    var id := e.requestId;
    var state := w.bookings[id];
    var w1 := SetStatus(w0, id, Compensating, Bookings.NoUpdates);
    assert w1 == w0.(bookings := w.bookings[id := state.(status := Compensating)]);
    UndoIgnoresBookings(w, w1, id, state.r1DiscountApplied, env);
  }

  /**
   * The BOOKING_FAILED handler redirects into compensation exactly when a
   * side effect exists (R1 applied, a slot, a confirmation or a reference
   * id); otherwise the booking simply ends `failed` with the error, by
   * default "Booking failed", and no store but the booking table changes.
   */
  lemma FailedRedirectsIff(w: World, e: BookingEvent, env: Env)
    requires e.eventType == BookingFailed
    ensures var redirect := Follow(e, CompensationRequired, FailurePayload(ErrorOf(e.payload), None, None));
            HasSideEffects(w, e.requestId) ==>
              Dispatch(StandardWiring(), w, e, env)
                == Dispatch(StandardWiring(), w.(history := w.history + [e]), redirect, env)
    ensures !HasSideEffects(w, e.requestId) ==>
              Dispatch(StandardWiring(), w, e, env)
                == (Pass, w.(history := w.history + [e],
                             bookings := Bookings.UpdateStatus(w.bookings, e.requestId, Failed,
                               Bookings.NoUpdates.(error := Some(Some(OrElse(ErrorOf(e.payload), DefaultError))))).1))
  {
    var w1 := w.(history := w.history + [e]);
    DispatchFailed(w, e, env);
    if HasSideEffects(w, e.requestId) {
      ConcludePublish(StandardWiring(), w1, e, Follow(e, CompensationRequired, FailurePayload(ErrorOf(e.payload), None, None)), env);
    }
  }
}
