/**
 * The records and enumerations shared by the booking saga
 * (src/types/index.ts), together with the pricing result of
 * src/pricing/rules.ts and the event payloads the handlers exchange.
 * Identifiers and timestamps (eventId, createdAt, updatedAt) carry no
 * behaviour in the core and are not modelled.
 */
module Types {
  import opened Wrappers

  datatype Gender = Male | Female | Other

  /** `CheckingQuota` and `FetchingHoliday` exist in the enumeration but no handler ever sets them. */
  datatype BookingStatus =
    | Pending | Validating | CheckingQuota | FetchingHoliday | CalculatingPrice
    | ReservingSlot | Processing | Completed | Failed | Compensating

  /** `QuotaChecked` and `HolidayFetched` exist in the enumeration but nothing publishes them. */
  datatype EventType =
    | BookingInitiated | UserValidated | QuotaChecked | HolidayFetched | PriceCalculated
    | SlotReserved | BookingCompleted | BookingFailed | CompensationRequired | CompensationCompleted

  /** The three injected fault points a request may name. */
  datatype FaultPoint = AfterPrice | ReserveSlot | CompleteBooking

  /** A missing field is the empty string (name, date of birth) or `None` (gender). */
  datatype User = User(name: string, gender: Option<Gender>, dateOfBirth: string)

  datatype MedicalService = MedicalService(id: string, name: string, basePrice: real, availableFor: seq<Gender>)

  datatype BookingRequest = BookingRequest(
    requestId: string,
    user: User,
    selectedServices: seq<string>,
    simulateFailureAt: Option<FaultPoint>)

  /** The three compensating actions, named as the log records them. */
  datatype UndoAction = DeleteBookingConfirmation | ReleaseReservedSlot | RevokeR1DiscountQuota

  function ActionName(a: UndoAction): string {
    match a
    case DeleteBookingConfirmation => "delete_booking_confirmation"
    case ReleaseReservedSlot => "release_reserved_slot"
    case RevokeR1DiscountQuota => "revoke_r1_discount_quota"
  }

  datatype ActionStatus = ActionPending | ActionCompleted | ActionFailed

  datatype CompensationAction = CompensationAction(action: UndoAction, status: ActionStatus, error: Option<string>)

  datatype BookingState = BookingState(
    requestId: string,
    user: User,
    selectedServices: seq<MedicalService>,
    basePrice: real,
    r1DiscountApplied: bool,
    r2DiscountApplied: bool,
    finalPrice: real,
    status: BookingStatus,
    simulateFailureAt: Option<FaultPoint>,
    referenceId: Option<string>,
    error: Option<string>,
    compensationActions: seq<CompensationAction>)

  datatype QuotaState = QuotaState(date: string, r1DiscountsGranted: nat, maxR1Discounts: nat)

  /**
   * What the holiday lookup delivered: an answer (with an optional warning)
   * or an exception, whose message is `Some(m)` for an `Error` (even when
   * `m` is empty) and `None` for any other thrown value.
   */
  datatype HolidayCheck =
    | Answered(isHoliday: bool, warning: Option<string>)
    | Raised(message: Option<string>)

  datatype PricingResult = PricingResult(
    basePrice: real,
    r1DiscountApplied: bool,
    r1DiscountAmount: real,
    r2DiscountApplied: bool,
    r2DiscountAmount: real,
    finalPrice: real,
    r1QuotaExhausted: bool,
    holidayCheckError: Option<string>)

  datatype SlotReservation = SlotReservation(slotId: string)

  datatype Confirmation = Confirmation(referenceId: string)

  /** The payload shapes the orchestrator and the handlers publish. */
  datatype Payload =
    | InitiatedPayload(user: User, serviceIds: seq<string>, simulateFailureAt: Option<FaultPoint>)
    | ValidatedPayload(validUser: User, services: seq<MedicalService>)
    | ReservationPayload(reservation: SlotReservation)
    | PricingPayload(pricing: PricingResult)
    | CompletedPayload(completedReference: string, finalPrice: real)
    | FailurePayload(error: Option<string>, failedPricing: Option<PricingResult>, failedReference: Option<string>)
    | CompensationLogPayload(actions: seq<CompensationAction>)

  datatype BookingEvent = BookingEvent(eventType: EventType, requestId: string, correlationId: string, payload: Payload)

  /** JavaScript truthiness of an optional string: present and non-empty. */
  predicate Truthy(s: Option<string>) {
    s.Some? && s.value != ""
  }

  /** `s || fallback` for an optional string. */
  function OrElse(s: Option<string>, fallback: string): (r: string)
    ensures Truthy(s) ==> r == s.value
    ensures !Truthy(s) ==> r == fallback
  {
    if Truthy(s) then s.value else fallback
  }

  /** The `error` field of a payload, `undefined` when the payload has none. */
  function ErrorOf(p: Payload): Option<string> {
    if p.FailurePayload? then p.error else None
  }

  /** `substring(0, 8).toUpperCase()`, on ASCII letters. */
  function UpperPrefix8(s: string): (r: string)
    ensures |r| == if |s| < 8 then |s| else 8
    ensures forall i :: 0 <= i < |r| ==> r[i] == UpperChar(s[i])
  {
    ToUpper(s[..if |s| < 8 then |s| else 8])
  }

  function ToUpper(s: string): (r: string)
    ensures |r| == |s|
    ensures forall i :: 0 <= i < |s| ==> r[i] == UpperChar(s[i])
  {
    if s == [] then [] else [UpperChar(s[0])] + ToUpper(s[1..])
  }

  function UpperChar(c: char): char {
    if 'a' <= c <= 'z' then (c as int - 32) as char else c
  }
}
