# medical-booking: the booking saga in Dafny

A model of the core of medical-booking, a TypeScript booking service for
medical check-ups built as an event-driven saga. A request is saved as a
`pending` booking. BOOKING_INITIATED is published on an in-process event bus.
One handler per event type then drives the booking through these stages:

1. validation;
2. slot reservation;
3. pricing, with the R1 discount (12%, limited by a per-day quota) and the
   R2 holiday discount (3% of what is left after R1);
4. confirmation.

The saga ends with BOOKING_COMPLETED or, after compensation, with the
booking `failed`. Compensation deletes the confirmation, then releases the
slot, then returns the R1 quota unit, each only if its side effect exists.
Faults can be injected at three points (`reserve_slot`, `after_price`,
`complete_booking`) to force the compensating path.

The model has one module per source file:

- Types: records and enumerations.
- Catalog: the service catalog.
- Quota, Slots, Confirmations, Bookings: the four in-memory stores. Each
  store is a class whose map field its methods reassign. Each method is
  proved against a pure function of the same module, and the lemmas beside
  those functions state what the store promises.
- Pricing: the price engine. An imperative `CalculatePrice` consumes the
  shared quota, and it is proved equal to the pure `Price`.
- Events: the event bus.
- Orchestrator: the entry point.

The saga is modelled twice:

- **Handlers.Saga** is the imperative form. Each handler is a method over
  the shared stores, and `Publish` is the handler loop of the bus. Nested
  publishes are recursive calls, so the history is built depth-first, as
  awaiting the handlers builds it.
- **SagaSpec** is the specification. Each handler's writes and last act are
  a function (`InitiatedEffect`, ...). `Dispatch`/`RunHandlers`/`Handle`/`Conclude`
  run them on a bus. Every method of `Handlers.Saga` is proved to leave the
  stores and the history exactly as its SagaSpec function says.

SagaProofs, SagaStages and SagaRun prove what the saga promises about these
functions:

- SagaProofs: compensation and the failed handler;
- SagaStages: each stage and each of its branches;
- SagaRun: whole runs, from initiateBooking to the end of the saga, and the
  one correlation id every event of a saga carries.

Inputs the source reads from the outside world are parameters (`Env`):

- today's date in IST, the quota key;
- whether today is the user's birthday;
- the holiday lookup's answer or exception;
- the clock text in a reference id;
- which compensating store calls throw, with their messages. None throws
  in this code base, and the model lets them throw.

Money is `real`.

## Model

| member | source | states |
|---|---|---|
| Types.OrElse | src/events/handlers.ts:309 | `x \|\| fallback` on an optional string: the value when it is present and non-empty, the fallback otherwise |
| Types.UpperPrefix8 | src/storage/slotStore.ts:7 | `substring(0, 8).toUpperCase()`: as many characters as the id has, at most 8, each the upper-case form of the id's character at the same position |
| Types.ToUpper | src/storage/slotStore.ts:7 | upper-casing keeps the length and maps each character by itself |
| Catalog.OfferedTo | src/data/services.ts:66-70 | `filter` by gender: an entry is in the result iff it is in the list and offered to the gender; never longer than the list |
| Catalog.ServicesForGender | src/data/services.ts:66-70 | getServicesForGender returns exactly the catalog entries offered to the gender |
| Catalog.FindById | src/data/services.ts:72-74 | `find` by id: none iff no entry has the id; otherwise an entry of the list with that id |
| Catalog.ServiceById | src/data/services.ts:72-74 | getServiceById: none iff no catalog entry has the id, otherwise the catalog entry with that id |
| Catalog.CatalogIdsDistinct | src/data/services.ts:3-64 | the ten catalog ids are pairwise distinct |
| Catalog.FindByIdUnique | src/data/services.ts:72-74 | in a list with distinct ids, `find` by an entry's id returns that very entry |
| Catalog.ServiceByIdUnique | src/data/services.ts:3-64 | every catalog entry is what getServiceById returns for its id, so lookup by id is unambiguous |
| Catalog.CatalogPricesPositive | src/data/services.ts:3-64 | every catalog base price is positive |
| Catalog.OtherGetsOnlyCommon | src/data/services.ts:40-70 | gender `other` is offered exactly the four `common-*` services, in catalog order |
| Catalog.GenderSpecificNotForOther | src/data/services.ts:3-39 | none of the gynecological or male services is offered to `other` |
| Catalog.CommonForEveryone | src/data/services.ts:40-63 | each `common-*` service is offered to all three genders |
| Catalog.CommonIdsPrefix | src/data/services.ts:40-63 | the last four entries are the `common-*` ones |
| Catalog.CommonServicesTotal | src/data/services.ts:40-63 | the four `common-*` services cost 2300 together, over the 1000 threshold of R1 |
| Catalog.OfferedToAppend | src/data/services.ts:66-70 | filtering by gender distributes over concatenation |
| Catalog.OfferedToSkip | src/data/services.ts:66-70 | a prefix of entries not offered to the gender contributes nothing to the filter |
| Catalog.OfferedToAllOffered | src/data/services.ts:66-70 | a list whose entries are all offered to the gender filters to itself |
| Quota.QuotaOn | src/storage/quotaStore.ts:9-21 | the record getQuotaState yields: the stored one, or, on a first access, granted 0 with the configured maximum |
| Quota.Touched | src/storage/quotaStore.ts:9-21 | the first read of a date inserts its fresh record; the count and every other date's record stay |
| Quota.CanGrant | src/storage/quotaStore.ts:39-42 | canGrantR1Discount is true iff granted < max |
| Quota.Grant | src/storage/quotaStore.ts:44-54 | at or above the maximum the grant fails and the count stays; below it the count rises by exactly one; no other date changes |
| Quota.Revoke | src/storage/quotaStore.ts:56-63 | the count drops by one only when positive, never below zero; no other date changes |
| Quota.Status | src/storage/quotaStore.ts:65-72 | getQuotaStatus: granted and max are the date's record (or 0 and the limit before first access), remaining = max - granted; the first read inserts the fresh record |
| Quota.Reset | src/storage/quotaStore.ts:74-77 | resetQuota removes the date's record; every other date keeps its record, key and value |
| Quota.OperationsPreserveValid | src/storage/quotaStore.ts:44-63 | every operation keeps each record under its own date with 0 <= granted <= max |
| Quota.CanGrantBelowLimit | src/storage/quotaStore.ts:39-54 | on a valid table, canGrant and grant succeed iff the day's count is below the configured limit |
| Quota.GrantThenRevoke | src/storage/quotaStore.ts:44-63 | a successful grant followed by a revoke on the same date restores the count |
| Quota.ResetStartsFromZero | src/storage/quotaStore.ts:65-77 | after resetQuota the next status of that date is granted 0, remaining = the limit |
| Quota.GrantTimesFromFresh | src/storage/quotaStore.ts:44-77 | from a date with no record, n <= limit grants all succeed and leave remaining = limit - n; at the limit the next grant fails |
| Quota.GrantTimesFromReset | src/storage/quotaStore.ts:44-77 | the same after resetQuota, whatever the table held for the date before |
| Quota.QuotaStore.constructor | src/storage/quotaStore.ts:5-7 | the table starts empty with the configured limit (100 by default) |
| Quota.QuotaStore.GetQuotaState | src/storage/quotaStore.ts:9-37 | returns the date's record, inserting a fresh one on first access, as QuotaOn and Touched say |
| Quota.QuotaStore.CanGrantR1Discount | src/storage/quotaStore.ts:39-42 | true iff the day's count is below the limit; the table changes as CanGrant says |
| Quota.QuotaStore.GrantR1Discount | src/storage/quotaStore.ts:44-54 | true iff the day's count was below the limit; the table becomes Grant's |
| Quota.QuotaStore.RevokeR1Discount | src/storage/quotaStore.ts:56-63 | the table becomes Revoke's |
| Quota.QuotaStore.GetQuotaStatus | src/storage/quotaStore.ts:65-72 | the status and table of Status |
| Quota.QuotaStore.ResetQuota | src/storage/quotaStore.ts:74-77 | the table becomes Reset's |
| Slots.SlotIdFor | src/storage/slotStore.ts:7 | a new slot id is "SLOT-" followed by the upper-cased first 8 characters of the request id (all of it when shorter) |
| Slots.Reserve | src/storage/slotStore.ts:3-12 | a held reservation is returned unchanged with no write; otherwise a new one with SlotIdFor is stored; afterwards the request holds the returned reservation; other requests keep theirs |
| Slots.ReserveIdempotent | src/storage/slotStore.ts:3-12 | reserving twice equals reserving once, with the same reservation returned |
| Slots.Release | src/storage/slotStore.ts:18-20 | releaseSlot returns true iff a reservation existed; afterwards none exists; other reservations are kept |
| Slots.SlotStore.constructor | src/storage/slotStore.ts:1 | the table starts empty |
| Slots.SlotStore.ReserveSlot | src/storage/slotStore.ts:3-16 | result and table as Reserve says; afterwards isSlotReserved holds |
| Slots.SlotStore.ReleaseSlot | src/storage/slotStore.ts:14-20 | returns whether the slot was reserved; afterwards isSlotReserved is false |
| Slots.SlotStore.ClearSlots | src/storage/slotStore.ts:22-24 | no reservation is left |
| Confirmations.Create | src/storage/confirmationStore.ts:3-5 | an upsert: the request then holds the given reference id; other keys are kept |
| Confirmations.CreateTwiceKeepsLast | src/storage/confirmationStore.ts:3-5 | a second creation replaces the first reference id |
| Confirmations.Delete | src/storage/confirmationStore.ts:11-13 | deleteConfirmation returns true iff a record existed; afterwards none exists; other keys are kept |
| Confirmations.ConfirmationStore.constructor | src/storage/confirmationStore.ts:1 | the table starts empty |
| Confirmations.ConfirmationStore.CreateConfirmation | src/storage/confirmationStore.ts:3-9 | the table becomes Create's; afterwards hasConfirmation holds |
| Confirmations.ConfirmationStore.DeleteConfirmation | src/storage/confirmationStore.ts:7-13 | returns whether a record existed; afterwards hasConfirmation is false |
| Confirmations.ConfirmationStore.ClearConfirmations | src/storage/confirmationStore.ts:15-17 | no record is left |
| Bookings.Merge | src/storage/bookingStore.ts:23-28 | `{...state, ...updates, status}`: the status argument always wins and the request id is kept; an empty update changes only the status |
| Bookings.MergeFields | src/storage/bookingStore.ts:23-28 | for each of the ten optional fields: absent in the update keeps the old value, present (even `undefined`) takes the carried value; the status is always the argument |
| Bookings.MergeIdempotent | src/storage/bookingStore.ts:23-28 | merging the same update twice changes nothing more |
| Bookings.Save | src/storage/bookingStore.ts:5-7 | saveBookingState stores the record under its own request id, overwriting |
| Bookings.SaveKeepsOthers | src/storage/bookingStore.ts:5-7 | saving leaves every other request's record as it was and keeps the table keyed by request id |
| Bookings.Lookup | src/storage/bookingStore.ts:9-11 | getBookingState finds a record iff the request id is stored |
| Bookings.UpdateStatus | src/storage/bookingStore.ts:13-32 | an unknown request yields undefined and no change; a known one is merged, saved, and the merged record returned |
| Bookings.UpdateKeepsKeying | src/storage/bookingStore.ts:13-32 | on a keyed table an update keeps the keys and the other records; a lookup afterwards yields the returned record |
| Bookings.UpdateTwice | src/storage/bookingStore.ts:13-32 | two status-only updates in a row equal the second alone |
| Bookings.BookingStore.constructor | src/storage/bookingStore.ts:3 | the table starts empty |
| Bookings.BookingStore.SaveBookingState | src/storage/bookingStore.ts:5-7 | the table becomes Save's; getBookingState then returns the record |
| Bookings.BookingStore.UpdateBookingStatus | src/storage/bookingStore.ts:13-32 | result and table as UpdateStatus says; the returned record is what getBookingState yields afterwards |
| Bookings.BookingStore.ClearStore | src/storage/bookingStore.ts:38-40 | the table is empty |
| Pricing.BasePriceAppend | src/pricing/rules.ts:26 | the base price (a `reduce` sum) of a concatenation is the sum of the parts' base prices |
| Pricing.BasePriceNonNegative | src/pricing/rules.ts:26 | non-negative prices sum to a non-negative base price |
| Pricing.R1 | src/pricing/rules.ts:29-57 | no eligibility: no discount and no quota access; eligibility: applied iff the day's count is below the maximum, exhausted otherwise, amount 12% of the base, quota up by one exactly when applied |
| Pricing.R2 | src/pricing/rules.ts:59-83 | R2 applies iff the lookup answered "holiday", amount 3% of the price after R1; a non-empty warning sets holidayCheckError; a thrown Error sets its message (even empty), any other thrown value "Unknown error" |
| Pricing.Price | src/pricing/rules.ts:18-105 | base = sum of the prices; applied and exhausted never both true; R1 as eligibility and quota decide; R2 on the amount after R1; final = base - R1 - R2; holidayCheckError is the warning or the caught message as R2 gives it; quota up by one iff R1 applied, other dates kept |
| Pricing.FinalPriceBounds | src/pricing/rules.ts:85 | 0 <= finalPrice <= basePrice whenever basePrice >= 0 |
| Pricing.HolidayDoesNotAffectR1 | src/pricing/rules.ts:63-83 | the holiday answer, warning or exception never changes the R1 outcome or the quota |
| Pricing.NoDiscountWithoutEligibility | src/pricing/rules.ts:29-85 | without R1 eligibility and without a holiday the final price is the base price |
| Pricing.CalculatePrice | src/pricing/rules.ts:18-105 | the imperative engine returns Price's result and leaves the shared quota as Price says |
| Pricing.CompensateR1Discount | src/pricing/rules.ts:107-111 | exactly one revoke on the day's quota |
| Events.FilterByRequest | src/events/eventBus.ts:36-38 | an event is in the per-request history iff it is in the history with that request id |
| Events.FilterByRequestAppend | src/events/eventBus.ts:36-38 | filtering distributes over appending, so the per-request history keeps publish order |
| Events.FilterByRequestIgnoresOthers | src/events/eventBus.ts:19-20 | publishing another request's event leaves a request's history unchanged |
| Events.EventBus.constructor | src/events/eventBus.ts:9-10 | no subscriptions and an empty history |
| Events.EventBus.Subscribe | src/events/eventBus.ts:12-17 | the handler is appended to its type's list (created when absent); other types and the history are unchanged |
| Events.EventBus.Record | src/events/eventBus.ts:19-22 | publish appends the event to the history before any handler runs and runs the type's handlers in registration order, none for an unsubscribed type |
| Events.EventBus.ClearHistory | src/events/eventBus.ts:40-42 | the history is emptied and the subscriptions stay |
| SagaSpec.StandardWiring | src/events/handlers.ts:11-345 | the six subscriptions of handlers.ts subscribe each handler under its own event type only |
| SagaSpec.Follow | src/events/handlers.ts:66-73 | a follow-up event carries the triggering event's request id and correlation id, the requested type and the given payload |
| SagaSpec.FailureEvent | src/events/handlers.ts:17-24 | a failure event carries the triggering event's request id and correlation id, the requested type and a payload holding only the error |
| SagaSpec.ResolveId | src/events/handlers.ts:28-29 | one id contributes its catalog service, or nothing iff the lookup finds none |
| SagaSpec.Resolve | src/events/handlers.ts:27-29 | no longer than the ids; every result is a catalog entry; empty iff no id resolves |
| SagaSpec.ResolveKeeps | src/events/handlers.ts:27-29 | a service is in the result iff some id looks it up: every resolvable id's service is kept, unknown ids are dropped |
| SagaSpec.ResolveCons | src/events/handlers.ts:27-29 | resolving a list is the first id's contribution followed by the rest's |
| SagaSpec.ResolveAppend | src/events/handlers.ts:27-29 | resolving a concatenation is resolving each part in turn, so the services come in the order of their ids |
| SagaSpec.ResolveOne | src/events/handlers.ts:28-29 | a single id resolves to its service or to nothing |
| SagaSpec.Unavailable | src/events/handlers.ts:42-44 | exactly the resolved services not offered to the gender |
| SagaSpec.Validate | src/events/handlers.ts:15-58 | accepted iff the user is complete, some id resolves and every resolved service is offered to the gender; then the services are exactly the resolved ones; rejected with the missing-fields message, the no-valid-services message, or "Services not available for <gender>: <names of the unavailable services joined by ', '>" |
| SagaSpec.GenderName | src/types/index.ts:1-5 | the gender's enum string: "male", "female" or "other" |
| SagaSpec.GenderNameDistinct | src/types/index.ts:1-5 | two genders have the same string iff they are the same gender |
| SagaSpec.JoinNamesAppend | src/events/handlers.ts:54 | `join(', ')`: joining two non-empty lists is their joins with one ", " between |
| SagaSpec.RejectionsDistinct | src/events/handlers.ts:15-58 | each failed check has its own message: the missing-fields message iff the user is incomplete, the no-valid-services message iff no id resolves |
| SagaSpec.InitiatedEffect | src/events/handlers.ts:11-74 | the BOOKING_INITIATED handler publishes BOOKING_FAILED or USER_VALIDATED and nothing inside a `try` |
| SagaSpec.ValidatedEffect | src/events/handlers.ts:76-110 | the USER_VALIDATED handler publishes COMPENSATION_REQUIRED or SLOT_RESERVED |
| SagaSpec.ContinueStep | src/events/handlers.ts:140-181 | after pricing: COMPENSATION_REQUIRED when the quota is exhausted or on an `after_price` fault, PRICE_CALCULATED otherwise |
| SagaSpec.SlotReservedEffect | src/events/handlers.ts:112-193 | the SLOT_RESERVED handler always publishes; its `catch` publishes COMPENSATION_REQUIRED |
| SagaSpec.ReferenceId | src/events/handlers.ts:205 | a reference id is "MB-", the upper-cased first 8 characters of the request id, "-", then the clock text |
| SagaSpec.CompletionStep | src/events/handlers.ts:210-231 | COMPENSATION_REQUIRED on a `complete_booking` fault, BOOKING_COMPLETED otherwise |
| SagaSpec.PriceCalculatedEffect | src/events/handlers.ts:195-232 | the PRICE_CALCULATED handler publishes COMPENSATION_REQUIRED or BOOKING_COMPLETED |
| SagaSpec.Attempt | src/events/handlers.ts:249-265 | a guarded step logs exactly one entry for its action, `completed` iff its store call does not throw |
| SagaSpec.CompensationEffect | src/events/handlers.ts:234-322 | the COMPENSATION_REQUIRED handler publishes only COMPENSATION_COMPLETED |
| SagaSpec.FailedEffect | src/events/handlers.ts:324-345 | the BOOKING_FAILED handler publishes only COMPENSATION_REQUIRED |
| Handlers.RegisterHandlers | src/events/handlers.ts:11-345 | the six top-level subscriptions leave the bus with exactly StandardWiring |
| Handlers.Saga.constructor | src/events/eventBus.ts:45 | fresh empty stores and the bus with the saga's handlers subscribed |
| Handlers.Saga.Publish | src/events/eventBus.ts:19-34 | publish records the event, runs the handlers in order and stops at the first that throws, leaving outcome and tables as Dispatch says |
| Handlers.Saga.Run | src/events/eventBus.ts:25-27 | one awaited handler run is Handle: the handler's writes, then its last act |
| Handlers.Saga.Continue | src/events/handlers.ts:174-192 | a handler's last act, including the `catch` publish when the guarded publish throws, is Conclude |
| Handlers.Saga.Act | src/events/handlers.ts:11-345 | the body of each handler up to its last act is Effect |
| Handlers.Saga.HandleInitiated | src/events/handlers.ts:11-74 | the BOOKING_INITIATED handler is InitiatedEffect |
| Handlers.Saga.CheckRequest | src/events/handlers.ts:15-58 | the checks, in their order, give Validate's verdict |
| Handlers.Saga.HandleValidated | src/events/handlers.ts:76-110 | the USER_VALIDATED handler is ValidatedEffect |
| Handlers.Saga.ReserveForBooking | src/events/handlers.ts:86-87 | status `reserving_slot`, then the reservation, as ReserveStep |
| Handlers.Saga.HandleSlotReserved | src/events/handlers.ts:112-193 | the SLOT_RESERVED handler is SlotReservedEffect |
| Handlers.Saga.PriceBooking | src/events/handlers.ts:130-138 | status `calculating_price`, then calculatePrice on the shared quota, as PricingStep |
| Handlers.Saga.ActOnPrice | src/events/handlers.ts:140-181 | the branches on the price, as ContinueStep |
| Handlers.Saga.HandlePriceCalculated | src/events/handlers.ts:195-232 | the PRICE_CALCULATED handler is PriceCalculatedEffect |
| Handlers.Saga.ConfirmBooking | src/events/handlers.ts:205-208 | the confirmation, then the reference id on the booking, as ConfirmStep |
| Handlers.Saga.FinishBooking | src/events/handlers.ts:210-231 | the `complete_booking` fault or completion, as CompletionStep |
| Handlers.Saga.HandleCompensationRequired | src/events/handlers.ts:234-322 | the COMPENSATION_REQUIRED handler is CompensationEffect |
| Handlers.Saga.CompensateBooking | src/events/handlers.ts:244-312 | `compensating`, the undo steps, then `failed` with error, log and cleared reference id, as CompensationStep |
| Handlers.Saga.UndoEffects | src/events/handlers.ts:246-306 | the three guarded steps in order, each attempted whatever happened before, as Undo |
| Handlers.Saga.UndoConfirmationStep | src/events/handlers.ts:248-266 | delete the confirmation if one exists, logged by outcome |
| Handlers.Saga.UndoSlotStep | src/events/handlers.ts:268-286 | release the slot if one is reserved, logged by outcome |
| Handlers.Saga.UndoQuotaStep | src/events/handlers.ts:288-306 | revoke one quota unit if R1 was applied, logged by outcome |
| Handlers.Saga.HandleFailed | src/events/handlers.ts:324-345 | the BOOKING_FAILED handler is FailedEffect |
| SagaProofs.DispatchVia | src/events/eventBus.ts:19-34 | publishing an event of a handled type records it and runs exactly its one handler |
| SagaProofs.DispatchInitiated | src/events/handlers.ts:11 | publishing BOOKING_INITIATED runs InitiatedEffect on the recorded tables, then its last act |
| SagaProofs.DispatchValidated | src/events/handlers.ts:76 | the same for USER_VALIDATED and ValidatedEffect |
| SagaProofs.DispatchSlotReserved | src/events/handlers.ts:112 | the same for SLOT_RESERVED and SlotReservedEffect |
| SagaProofs.DispatchPriceCalculated | src/events/handlers.ts:195 | the same for PRICE_CALCULATED and PriceCalculatedEffect |
| SagaProofs.DispatchCompensation | src/events/handlers.ts:234 | the same for COMPENSATION_REQUIRED and CompensationEffect |
| SagaProofs.DispatchFailed | src/events/handlers.ts:324 | the same for BOOKING_FAILED and FailedEffect |
| SagaProofs.InitiatedPublishes | src/events/handlers.ts:66-73 | a BOOKING_INITIATED run ending in a publish is that publish on the tables the handler left |
| SagaProofs.ValidatedPublishes | src/events/handlers.ts:102-109 | the same for USER_VALIDATED |
| SagaProofs.SlotReservedPublishes | src/events/handlers.ts:119-127 | the same for the plain publish of SLOT_RESERVED |
| SagaProofs.SlotReservedTries | src/events/handlers.ts:132-192 | a SLOT_RESERVED run is its guarded publish, and when that throws, the `catch` publish on the tables it left |
| SagaProofs.PriceCalculatedPublishes | src/events/handlers.ts:224-231 | the same for PRICE_CALCULATED |
| SagaProofs.ConcludePublish | src/events/eventBus.ts:19-34 | an awaited publish as a handler's last act is that publish |
| SagaProofs.ConcludeCatch | src/events/handlers.ts:182-192 | a publish inside `try` whose `catch` publishes: the publish, and the recovery publish if it threw |
| SagaProofs.DispatchTerminal | src/events/eventBus.ts:22 | BOOKING_COMPLETED and COMPENSATION_COMPLETED have no subscriber: publishing one only records it |
| SagaProofs.Entry | src/events/handlers.ts:249-265 | a log entry names its action and is `completed`, or `failed` with the thrown message |
| SagaProofs.UndoLogShape | src/events/handlers.ts:246-306 | the log is the confirmation entry, then the slot entry, then the quota entry, each present iff its effect exists |
| SagaProofs.UndoLogExactly | src/events/handlers.ts:246-306 | an action is logged iff its side effect exists; entries follow the order confirmation, slot, quota; each records whether its call succeeded |
| SagaProofs.UndoWorldShape | src/events/handlers.ts:248-306 | each existing effect is removed unless its call failed; the quota is revoked once when R1 was applied |
| SagaProofs.UndoEffectsExactly | src/events/handlers.ts:248-306 | afterwards the confirmation and slot exist iff they existed and their call failed; other requests, the booking table and the history are untouched |
| SagaProofs.UndoIgnoresBookings | src/events/handlers.ts:248-306 | the undo steps read only the slot, confirmation and quota tables |
| SagaProofs.CompensateUnfold | src/events/handlers.ts:234-322 | COMPENSATION_REQUIRED for a known booking is one run of its handler ending with COMPENSATION_COMPLETED recorded |
| SagaProofs.CompensationEffectKnown | src/events/handlers.ts:244-321 | on a known booking the handler's writes are CompensationStep and it publishes COMPENSATION_COMPLETED with the log |
| SagaProofs.SetFailedAfterUndo | src/events/handlers.ts:308-312 | the final update sets `failed`, the error and the log and clears the reference id, nothing else |
| SagaProofs.CompensationUnknownBooking | src/events/handlers.ts:238-242 | COMPENSATION_REQUIRED without a booking only records the event |
| SagaProofs.CompensationEndsFailed | src/events/handlers.ts:234-322 | compensation ends `failed` with the triggering error (default 'Booking failed'), the new log and no reference id, after the undo steps, with COMPENSATION_COMPLETED last |
| SagaProofs.CompensationTables | src/events/handlers.ts:244-312 | the handler's tables expressed from the tables before the event |
| SagaProofs.AppendTwo | src/events/eventBus.ts:20 | recording an event and then its follow-up appends both, in order |
| SagaProofs.UndoWhileCompensating | src/events/handlers.ts:244-306 | marking the booking `compensating` first changes nothing the undo steps do |
| SagaProofs.FailedRedirectsIff | src/events/handlers.ts:324-345 | BOOKING_FAILED redirects into compensation iff R1 was applied or a slot, confirmation or reference id exists; otherwise it only sets `failed` with the error |
| SagaStages.StatusOnly | src/storage/bookingStore.ts:23-30 | a status-only update of a known booking changes only its status |
| SagaStages.ValidatingRecord | src/events/handlers.ts:60-64 | successful validation writes status `validating`, the user, exactly the resolved services and the fault point |
| SagaStages.InitiatedRejects | src/events/handlers.ts:15-58 | a failed check publishes BOOKING_FAILED with that check's message and writes nothing |
| SagaStages.RejectedEndsFailed | src/events/handlers.ts:15-58 | a rejected request without side effects ends `failed` with the message; slots, confirmations and quota untouched |
| SagaStages.InitiatedAccepts | src/events/handlers.ts:60-73 | an accepted request records the validated data and publishes USER_VALIDATED with the resolved services |
| SagaStages.ValidatedUnknownBooking | src/events/handlers.ts:80-84 | USER_VALIDATED without a booking only records the event |
| SagaStages.ValidatedReserves | src/events/handlers.ts:86-109 | the slot is reserved before the `reserve_slot` fault is looked at; the fault then asks for compensation, its absence publishes SLOT_RESERVED |
| SagaStages.SlotReservedUnknownBooking | src/events/handlers.ts:116-128 | SLOT_RESERVED without a booking publishes BOOKING_FAILED 'Invalid state for price calculation' |
| SagaStages.SlotReservedPrices | src/events/handlers.ts:130-192 | the booking is priced on the shared quota, then the price is acted on; a throwing publish turns into COMPENSATION_REQUIRED |
| SagaStages.PricingStepKnown | src/events/handlers.ts:130-138 | the pricing writes: status `calculating_price` and the quota after R1 |
| SagaStages.QuotaExhaustedCompensates | src/events/handlers.ts:140-153 | an exhausted quota compensates before any price or R1 flag is written, so no quota is revoked |
| SagaStages.PriceRecord | src/events/handlers.ts:155-160 | the price update writes exactly the four price fields with status `processing` |
| SagaStages.AfterPriceFaultCompensates | src/events/handlers.ts:155-171 | an `after_price` fault compensates once the prices and the R1 grant are recorded |
| SagaStages.PricedContinues | src/events/handlers.ts:155-181 | otherwise PRICE_CALCULATED follows on the priced tables |
| SagaStages.PriceCalculatedUnknownBooking | src/events/handlers.ts:199-203 | PRICE_CALCULATED without a booking only records the event |
| SagaStages.ConfirmedRecord | src/events/handlers.ts:207-222 | both status updates carry the reference id; the table stays keyed |
| SagaStages.ConfirmedCompletes | src/events/handlers.ts:205-231 | without a fault the booking ends `completed` with its reference id and confirmation, BOOKING_COMPLETED last; slots and quota untouched |
| SagaStages.CompleteBookingFaultCompensates | src/events/handlers.ts:205-219 | a `complete_booking` fault fires after the confirmation and reference id exist; compensation carries and then clears that reference id |
| SagaRun.ReservedKeyed | src/events/handlers.ts:86-87 | the reserved tables stay keyed by request id |
| SagaRun.DispatchFromPriceCalculated | src/events/handlers.ts:195-232 | publishing PRICE_CALCULATED leaves exactly FromPriceCalculated |
| SagaRun.DispatchFromSlotReserved | src/events/handlers.ts:112-193 | publishing SLOT_RESERVED leaves exactly FromSlotReserved |
| SagaRun.DispatchFromValidated | src/events/handlers.ts:76-110 | publishing USER_VALIDATED leaves exactly FromValidated |
| SagaRun.DispatchFromInitiated | src/events/handlers.ts:11-74 | publishing BOOKING_INITIATED for a booking without side effects runs the saga to its end: FromInitiated, outcome Pass |
| SagaRun.DispatchAccepted | src/events/handlers.ts:60-73 | the accepted branch of that run |
| SagaRun.ValidatedKeyed | src/events/handlers.ts:60-64 | the validated tables stay keyed by request id |
| SagaRun.CompensationSettles | src/events/handlers.ts:244-312 | compensation with no throwing call leaves the booking `failed` with no slot, confirmation or reference id and today's R1 count back |
| SagaRun.SettlesFromPriceCalculated | src/events/handlers.ts:205-231 | from PRICE_CALCULATED the booking settles, `failed` iff a `complete_booking` fault is set |
| SagaRun.SettlesFromSlotReserved | src/events/handlers.ts:130-181 | from SLOT_RESERVED the booking settles, `failed` iff the quota is exhausted or a later fault is set |
| SagaRun.ReservedFacts | src/events/handlers.ts:86-87 | what the later stages read of the reserved tables |
| SagaRun.ValidatedFacts | src/events/handlers.ts:60-64 | what the later stages read of the validated tables |
| SagaRun.SettlesFromValidated | src/events/handlers.ts:86-109 | from USER_VALIDATED the booking settles, `failed` iff any fault is set or the quota is exhausted |
| SagaRun.SettlesFromInitiated | src/events/handlers.ts:15-73 | from BOOKING_INITIATED the booking settles, `completed` iff validation passes, no fault is set and the quota is not exhausted |
| SagaRun.InitiateBookingSettles | src/workflow/orchestrator.ts:9-44 | initiateBooking plus the saga never throws; the booking ends `completed` iff valid, fault-free and not exhausted, else `failed`; a failed one holds no slot, confirmation or reference id and today's R1 count is back; a completed one keeps both and holds the one R1 unit its discount took, if any |
| SagaRun.AppendSameSaga | src/events/eventBus.ts:19-20 | appending events of one saga to the history keeps the earlier history and adds only that saga's events |
| SagaRun.CompensationSameSaga | src/events/handlers.ts:314-321 | compensation adds only the triggering event and a COMPENSATION_COMPLETED with its request and correlation ids |
| SagaRun.FromPriceCalculatedSameSaga | src/events/handlers.ts:195-232 | every event from PRICE_CALCULATED on carries its request and correlation ids |
| SagaRun.FromSlotReservedSameSaga | src/events/handlers.ts:112-193 | every event from SLOT_RESERVED on carries its request and correlation ids |
| SagaRun.FromValidatedSameSaga | src/events/handlers.ts:76-110 | every event from USER_VALIDATED on carries its request and correlation ids |
| SagaRun.FromInitiatedSameSaga | src/events/handlers.ts:11-74 | every event from BOOKING_INITIATED on carries its request and correlation ids |
| SagaRun.FromInitiatedStartsWith | src/events/eventBus.ts:19-20 | the saga's history opens with BOOKING_INITIATED itself |
| SagaRun.InitiateBookingCorrelated | src/workflow/orchestrator.ts:29-35 | the history before initiateBooking is kept, the saga's first event is the initiated event, and every event of the saga carries the request id and the correlation id it was started with |
| Orchestrator.InitialState | src/workflow/orchestrator.ts:14-27 | `pending`, no services, zero prices, both flags false, empty log, fault point copied |
| Orchestrator.InitiatedEvent | src/workflow/orchestrator.ts:30-41 | BOOKING_INITIATED carries the request id, the call's correlation id, the user, the raw service ids and the fault point |
| Orchestrator.InitialStateHasNoSideEffects | src/workflow/orchestrator.ts:29 | a freshly saved booking has nothing to compensate while no slot or confirmation exists under its id |
| Orchestrator.InitiateBooking | src/workflow/orchestrator.ts:9-44 | saves the initial state, publishes BOOKING_INITIATED (the whole saga runs inside) and returns the initial `pending` snapshot |
| Orchestrator.GetBookingStatus | src/workflow/orchestrator.ts:46-48 | a plain lookup of the stored record |

## Left out

- Logging (src/utils/logger.ts): the logger calls in the core have no effect on the model.
- The command-line interface (src/cli/index.ts) and the demo scenarios (src/test/scenarios.ts): UI and polling, not core logic.
- The holiday service (src/services/holidayService.ts) and the date utilities (src/utils/date.ts): the network call, the wall clock and the IST conversion. Their results are inputs: today's date, whether today is the birthday, and the holiday answer or exception.
- One date per saga: `Env.today` is read once. The R1 check, the grant and the compensating revoke all use it. The source reads the IST date afresh in each quota call: src/storage/quotaStore.ts:10, reached from src/pricing/rules.ts:44-45 and 110. Between the grant and a revoke lie `await checkIfHoliday()` (src/pricing/rules.ts:64) and the rest of the publish chain. So a saga that crosses IST midnight there revokes on the new date. The old day keeps its unit, and the new day loses one it never granted, or stays at zero. The model does not capture this. SagaRun.CompensationSettles and SagaRun.InitiateBookingSettles ("today's R1 count is back") hold only for a saga that stays within one IST day.
- Quota.QuotaOn, Quota.Reset: `date || getISTDate()` (src/storage/quotaStore.ts:10, 75) reads an empty date as today. The model keys on the date it is given, so `""` is a date of its own. No core caller passes `""`.
- Identifiers and timestamps (event ids, correlation ids, createdAt, updatedAt, reservedAt): uuid and the clock. The correlation id is a parameter of initiateBooking. The `Date.now()` part of a reference id is the `clock` input.
- Floating point: prices are `real`, so no rounding of `0.12` and `0.03` on doubles is modelled.
- The `MAX_R1_DISCOUNTS` environment variable: the limit is a constructor parameter. `Quota.DefaultMaxR1Discounts` is the default of 100.
- Asynchrony and concurrency: every `await` is modelled as a call that runs to completion. One saga runs at a time, so no interleaving of sagas is modelled.
- The date-mismatch branch of getQuotaState (src/storage/quotaStore.ts:27-34): every record sits under its own date (`Quota.ValidTable`), so the branch can never fire.
- getAllBookings (src/storage/bookingStore.ts:34-36): no core file calls it.
- The `!state.user || !state.selectedServices` test of the SLOT_RESERVED handler: a stored booking always has both in this code base, so only the missing booking is modelled.
- `originalError` in the payload of the `catch` at src/events/handlers.ts:190: the exception object is not modelled; the payload carries "Price calculation failed".
- Types.ToUpper: upper-cases ASCII letters only, where JavaScript's `toUpperCase` also maps other letters. This affects the slot id and the reference id.
- Handlers.Saga.Continue and SagaSpec.Conclude carry a rank test that lets the recursion of nested publishes terminate. No handler of the saga fails it, since each publishes only events of a lower rank (the ensures of the effect functions). A handler that published an event of higher rank would return instead of publishing.
- Store calls during compensation never throw in this code base; `Env.undoFaults` lets the model say what happens if they do. The end-to-end lemmas of SagaRun assume none throws.
- Handlers.Saga.HandleInitiated: a BOOKING_INITIATED event without an initiated payload makes the source throw a TypeError when it reads `user.name`. The model returns `Threw` with that message, which the bus propagates. It does not model the TypeError itself.
