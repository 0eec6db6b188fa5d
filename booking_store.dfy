/**
 * The booking state table (src/storage/bookingStore.ts) and its one update
 * operation: a record merge in which the status argument always wins.
 */
module Bookings {
  import opened Wrappers
  import opened Types

  /**
   * A `Partial<BookingState>`: `None` is a field the update does not carry.
   * For the optional fields, `Some(None)` is a field carried with the value
   * `undefined`, which the merge copies like any other value. The identity
   * and timestamp fields are never part of an update in this core.
   */
  datatype BookingUpdate = BookingUpdate(
    user: Option<User>,
    selectedServices: Option<seq<MedicalService>>,
    basePrice: Option<real>,
    r1DiscountApplied: Option<bool>,
    r2DiscountApplied: Option<bool>,
    finalPrice: Option<real>,
    status: Option<BookingStatus>,
    simulateFailureAt: Option<Option<FaultPoint>>,
    referenceId: Option<Option<string>>,
    error: Option<Option<string>>,
    compensationActions: Option<seq<CompensationAction>>)

  /** The update that carries no field. */
  const NoUpdates := BookingUpdate(None, None, None, None, None, None, None, None, None, None, None)

  /**
   * `{ ...state, ...updates, status }`: each field the update carries replaces
   * the old one, every other field is kept, and the status is always the
   * `status` argument, whatever the update says.
   */
  function Merge(s: BookingState, u: BookingUpdate, status: BookingStatus): (r: BookingState)
    ensures r.status == status
    ensures r.requestId == s.requestId
    ensures u == NoUpdates ==> r == s.(status := status)
  {
    BookingState(
      requestId := s.requestId,
      user := u.user.GetOr(s.user),
      selectedServices := u.selectedServices.GetOr(s.selectedServices),
      basePrice := u.basePrice.GetOr(s.basePrice),
      r1DiscountApplied := u.r1DiscountApplied.GetOr(s.r1DiscountApplied),
      r2DiscountApplied := u.r2DiscountApplied.GetOr(s.r2DiscountApplied),
      finalPrice := u.finalPrice.GetOr(s.finalPrice),
      status := status,
      simulateFailureAt := u.simulateFailureAt.GetOr(s.simulateFailureAt),
      referenceId := u.referenceId.GetOr(s.referenceId),
      error := u.error.GetOr(s.error),
      compensationActions := u.compensationActions.GetOr(s.compensationActions))
  }

  /**
   * Field by field: a field the update does not carry keeps its old value, one
   * it carries (even as `undefined`) takes the carried value, and the status
   * is the argument's whatever the update says.
   */
  lemma MergeFields(s: BookingState, u: BookingUpdate, status: BookingStatus)
    ensures Merge(s, u, status).status == status
    ensures var r := Merge(s, u, status); (u.user.None? ==> r.user == s.user) && (u.user.Some? ==> r.user == u.user.value)
    ensures var r := Merge(s, u, status); (u.selectedServices.None? ==> r.selectedServices == s.selectedServices) && (u.selectedServices.Some? ==> r.selectedServices == u.selectedServices.value)
    ensures var r := Merge(s, u, status); (u.basePrice.None? ==> r.basePrice == s.basePrice) && (u.basePrice.Some? ==> r.basePrice == u.basePrice.value)
    ensures var r := Merge(s, u, status); (u.r1DiscountApplied.None? ==> r.r1DiscountApplied == s.r1DiscountApplied) && (u.r1DiscountApplied.Some? ==> r.r1DiscountApplied == u.r1DiscountApplied.value)
    ensures var r := Merge(s, u, status); (u.r2DiscountApplied.None? ==> r.r2DiscountApplied == s.r2DiscountApplied) && (u.r2DiscountApplied.Some? ==> r.r2DiscountApplied == u.r2DiscountApplied.value)
    ensures var r := Merge(s, u, status); (u.finalPrice.None? ==> r.finalPrice == s.finalPrice) && (u.finalPrice.Some? ==> r.finalPrice == u.finalPrice.value)
    ensures var r := Merge(s, u, status); (u.simulateFailureAt.None? ==> r.simulateFailureAt == s.simulateFailureAt) && (u.simulateFailureAt.Some? ==> r.simulateFailureAt == u.simulateFailureAt.value)
    ensures var r := Merge(s, u, status); (u.referenceId.None? ==> r.referenceId == s.referenceId) && (u.referenceId.Some? ==> r.referenceId == u.referenceId.value)
    ensures var r := Merge(s, u, status); (u.error.None? ==> r.error == s.error) && (u.error.Some? ==> r.error == u.error.value)
    ensures var r := Merge(s, u, status); (u.compensationActions.None? ==> r.compensationActions == s.compensationActions) && (u.compensationActions.Some? ==> r.compensationActions == u.compensationActions.value)
  {
  }

  /** Merging the same update twice changes nothing more. */
  lemma MergeIdempotent(s: BookingState, u: BookingUpdate, status: BookingStatus)
    ensures Merge(Merge(s, u, status), u, status) == Merge(s, u, status)
  {
  }

  /** Every record is stored under its own request id. */
  ghost predicate KeyedByRequest(m: map<string, BookingState>) {
    forall k :: k in m ==> m[k].requestId == k
  }

  /** saveBookingState: store under the record's own request id, overwriting. */
  function Save(m: map<string, BookingState>, s: BookingState): (r: map<string, BookingState>)
    ensures s.requestId in r && r[s.requestId] == s
    ensures r.Keys == m.Keys + {s.requestId}
  {
    m[s.requestId := s]
  }

  /** Saving leaves every other request's record as it was, and keeps the table keyed by request id. */
  lemma SaveKeepsOthers(m: map<string, BookingState>, s: BookingState)
    ensures forall k :: k in m && k != s.requestId ==> Save(m, s)[k] == m[k]
    ensures KeyedByRequest(m) ==> KeyedByRequest(Save(m, s))
  {
  }

  /** getBookingState */
  function Lookup(m: map<string, BookingState>, requestId: string): (r: Option<BookingState>)
    ensures r.Some? <==> requestId in m
  {
    if requestId in m then Some(m[requestId]) else None
  }

  /**
   * updateBookingStatus: an unknown request yields `undefined` and no change;
   * a known one is merged, saved, and the merged record returned, which is
   * what a lookup yields afterwards. Other requests are untouched.
   */
  function UpdateStatus(m: map<string, BookingState>, requestId: string, status: BookingStatus, u: BookingUpdate)
    : (r: (Option<BookingState>, map<string, BookingState>))
    ensures requestId !in m ==> r == (None, m)
    ensures requestId in m ==> r.0 == Some(Merge(m[requestId], u, status)) && r.1 == Save(m, r.0.value)
  {
    match Lookup(m, requestId)
    case None => (None, m)
    case Some(s) =>
      var updated := Merge(s, u, status);
      (Some(updated), Save(m, updated))
  }

  /**
   * On a table keyed by request id, an update of a known request replaces
   * that request's record by the merged one, which a lookup then yields; the
   * keys, every other record and the keying are kept.
   */
  lemma UpdateKeepsKeying(m: map<string, BookingState>, requestId: string, status: BookingStatus, u: BookingUpdate)
    requires KeyedByRequest(m)
    ensures var r := UpdateStatus(m, requestId, status, u);
            KeyedByRequest(r.1) && r.1.Keys == m.Keys
            && (requestId in m ==> r.1 == m[requestId := r.0.value] && Lookup(r.1, requestId) == r.0)
            && (forall k :: k in m && k != requestId ==> r.1[k] == m[k])
  {
    if requestId in m {
      SaveKeepsOthers(m, UpdateStatus(m, requestId, status, u).0.value);
    }
  }

  /** Two status-only updates in a row leave what the second alone would: the later status wins. */
  lemma UpdateTwice(m: map<string, BookingState>, requestId: string, s1: BookingStatus, s2: BookingStatus)
    requires KeyedByRequest(m) && requestId in m
    ensures UpdateStatus(UpdateStatus(m, requestId, s1, NoUpdates).1, requestId, s2, NoUpdates).1
         == UpdateStatus(m, requestId, s2, NoUpdates).1
  {
  }

  /** The process-wide booking table. */
  class BookingStore {
    var states: map<string, BookingState>

    ghost predicate Valid()
      reads this
    {
      KeyedByRequest(states)
    }

    constructor ()
      ensures Valid() && states == map[]
    {
      states := map[];
    }

    /** saveBookingState */
    method SaveBookingState(s: BookingState)
      requires Valid()
      modifies this
      ensures Valid()
      ensures states == Save(old(states), s)
      ensures GetBookingState(s.requestId) == Some(s)
    {
      SaveKeepsOthers(states, s);
      states := states[s.requestId := s];
    }

    /** getBookingState */
    function GetBookingState(requestId: string): Option<BookingState>
      reads this
    {
      Lookup(states, requestId)
    }

    /** updateBookingStatus */
    method UpdateBookingStatus(requestId: string, status: BookingStatus, u: BookingUpdate)
      returns (updated: Option<BookingState>)
      requires Valid()
      modifies this
      ensures Valid()
      ensures (updated, states) == UpdateStatus(old(states), requestId, status, u)
      ensures updated == GetBookingState(requestId) || updated.None?
    {
      UpdateKeepsKeying(states, requestId, status, u);
      var state := GetBookingState(requestId);
      if state.None? {
        return None;
      }
      var merged := Merge(state.value, u, status);
      SaveBookingState(merged);
      updated := Some(merged);
    }

    /** clearStore */
    method ClearStore()
      modifies this
      ensures Valid() && states == map[]
    {
      states := map[];
    }
  }
}
