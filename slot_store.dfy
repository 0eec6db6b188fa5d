/**
 * Slot reservations keyed by request id (src/storage/slotStore.ts). The
 * reservation timestamp is not modelled.
 */
module Slots {
  import opened Types

  /** The slot id of a new reservation: "SLOT-" and the upper-cased first 8 characters of the request id. */
  function SlotIdFor(requestId: string): (r: string)
    ensures |r| == 5 + (if |requestId| < 8 then |requestId| else 8)
    ensures r[..5] == "SLOT-"
    ensures forall i :: 0 <= i < |r| - 5 ==> r[5 + i] == UpperChar(requestId[i])
  {
    "SLOT-" + UpperPrefix8(requestId)
  }

  /**
   * reserveSlot: the reservation held for the request afterwards and the new
   * table. A request that already holds one gets it back and nothing changes;
   * otherwise a new reservation is stored. Other requests keep theirs.
   */
  function Reserve(m: map<string, SlotReservation>, requestId: string): (r: (SlotReservation, map<string, SlotReservation>))
    ensures requestId in r.1 && r.1[requestId] == r.0
    ensures requestId in m ==> r.0 == m[requestId] && r.1 == m
    ensures requestId !in m ==> r.0.slotId == SlotIdFor(requestId)
    ensures r.1.Keys == m.Keys + {requestId}
    ensures forall k :: k in m && k != requestId ==> r.1[k] == m[k]
  {
    if requestId in m then (m[requestId], m)
    else
      var reservation := SlotReservation(SlotIdFor(requestId));
      (reservation, m[requestId := reservation])
  }

  /** Reserving twice is the same as reserving once, and both calls return the same reservation. */
  lemma ReserveIdempotent(m: map<string, SlotReservation>, requestId: string)
    ensures Reserve(Reserve(m, requestId).1, requestId) == Reserve(m, requestId)
  {
  }

  /** releaseSlot: whether a reservation existed, and the table without it. */
  function Release(m: map<string, SlotReservation>, requestId: string): (r: (bool, map<string, SlotReservation>))
    ensures r.0 <==> requestId in m
    ensures requestId !in r.1
    ensures r.1.Keys == m.Keys - {requestId}
    ensures forall k :: k in r.1 ==> r.1[k] == m[k]
  {
    (requestId in m, m - {requestId})
  }

  /** The process-wide slot table. */
  class SlotStore {
    var reservations: map<string, SlotReservation>

    constructor ()
      ensures reservations == map[]
    {
      reservations := map[];
    }

    /** reserveSlot */
    method ReserveSlot(requestId: string) returns (reservation: SlotReservation)
      modifies this
      ensures (reservation, reservations) == Reserve(old(reservations), requestId)
      ensures IsSlotReserved(requestId)
    {
      if requestId in reservations {
        return reservations[requestId];
      }
      reservation := SlotReservation(SlotIdFor(requestId));
      reservations := reservations[requestId := reservation];
    }

    /** isSlotReserved */
    predicate IsSlotReserved(requestId: string)
      reads this
    {
      requestId in reservations
    }

    /** releaseSlot */
    method ReleaseSlot(requestId: string) returns (existed: bool)
      modifies this
      ensures (existed, reservations) == Release(old(reservations), requestId)
      ensures existed == old(IsSlotReserved(requestId)) && !IsSlotReserved(requestId)
    {
      existed := requestId in reservations;
      reservations := reservations - {requestId};
    }

    /** clearSlots */
    method ClearSlots()
      modifies this
      ensures reservations == map[]
    {
      reservations := map[];
    }
  }
}
