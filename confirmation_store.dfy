/**
 * Booking confirmations keyed by request id
 * (src/storage/confirmationStore.ts). The creation timestamp is not modelled.
 */
module Confirmations {
  import opened Types

  /** createConfirmation: an upsert; a later call replaces the stored reference id. */
  function Create(m: map<string, Confirmation>, requestId: string, referenceId: string): (r: map<string, Confirmation>)
    ensures requestId in r && r[requestId].referenceId == referenceId
    ensures r.Keys == m.Keys + {requestId}
    ensures forall k :: k in m && k != requestId ==> r[k] == m[k]
  {
    m[requestId := Confirmation(referenceId)]
  }

  /** Two creations for one request leave only the second reference id. */
  lemma CreateTwiceKeepsLast(m: map<string, Confirmation>, requestId: string, first: string, second: string)
    ensures Create(Create(m, requestId, first), requestId, second) == Create(m, requestId, second)
  {
  }

  /** deleteConfirmation: whether a record existed, and the table without it. */
  function Delete(m: map<string, Confirmation>, requestId: string): (r: (bool, map<string, Confirmation>))
    ensures r.0 <==> requestId in m
    ensures requestId !in r.1
    ensures r.1.Keys == m.Keys - {requestId}
    ensures forall k :: k in r.1 ==> r.1[k] == m[k]
  {
    (requestId in m, m - {requestId})
  }

  /** The process-wide confirmation table. */
  class ConfirmationStore {
    var records: map<string, Confirmation>

    constructor ()
      ensures records == map[]
    {
      records := map[];
    }

    /** createConfirmation */
    method CreateConfirmation(requestId: string, referenceId: string)
      modifies this
      ensures records == Create(old(records), requestId, referenceId)
      ensures HasConfirmation(requestId)
    {
      records := records[requestId := Confirmation(referenceId)];
    }

    /** hasConfirmation */
    predicate HasConfirmation(requestId: string)
      reads this
    {
      requestId in records
    }

    /** deleteConfirmation */
    method DeleteConfirmation(requestId: string) returns (existed: bool)
      modifies this
      ensures (existed, records) == Delete(old(records), requestId)
      ensures existed == old(HasConfirmation(requestId)) && !HasConfirmation(requestId)
    {
      existed := requestId in records;
      records := records - {requestId};
    }

    /** clearConfirmations */
    method ClearConfirmations()
      modifies this
      ensures records == map[]
    {
      records := map[];
    }
  }
}
