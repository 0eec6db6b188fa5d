/**
 * The per-day R1 discount quota (src/storage/quotaStore.ts): a date-keyed
 * table of counters. The pure functions below give the table each operation
 * leaves behind; the class QuotaStore is the mutable table the saga shares.
 * The date that the source defaults to "today in IST" is a parameter here.
 */
module Quota {
  import opened Types

  /** The limit used when no configuration overrides it. */
  const DefaultMaxR1Discounts: nat := 100

  /** Every record sits under its own date, carries the configured limit and never exceeds it. */
  ghost predicate ValidTable(records: map<string, QuotaState>, limit: nat) {
    forall d :: d in records ==>
      records[d].date == d && records[d].maxR1Discounts == limit && records[d].r1DiscountsGranted <= limit
  }

  /** Discounts granted so far on `date`; a date never touched counts as zero. */
  function Granted(records: map<string, QuotaState>, date: string): nat {
    if date in records then records[date].r1DiscountsGranted else 0
  }

  /** The record getQuotaState yields: the stored one, or a fresh one at zero. */
  function QuotaOn(records: map<string, QuotaState>, limit: nat, date: string): (q: QuotaState)
    ensures q.r1DiscountsGranted == Granted(records, date)
    ensures date !in records ==> q == QuotaState(date, 0, limit)
  {
    if date in records then records[date] else QuotaState(date, 0, limit)
  }

  /** The table after getQuotaState: the first read of a date inserts its fresh record. */
  function Touched(records: map<string, QuotaState>, limit: nat, date: string): (r: map<string, QuotaState>)
    ensures r.Keys == records.Keys + {date}
    ensures Granted(r, date) == Granted(records, date)
    ensures forall d :: d in records ==> r[d] == records[d]
  {
    records[date := QuotaOn(records, limit, date)]
  }

  /** canGrantR1Discount: whether the day still has room, and the table after the read. */
  function CanGrant(records: map<string, QuotaState>, limit: nat, date: string): (r: (bool, map<string, QuotaState>))
    ensures r.0 <==> QuotaOn(records, limit, date).r1DiscountsGranted < QuotaOn(records, limit, date).maxR1Discounts
    ensures r.1 == Touched(records, limit, date)
  {
    var q := QuotaOn(records, limit, date);
    (q.r1DiscountsGranted < q.maxR1Discounts, Touched(records, limit, date))
  }

  /**
   * grantR1Discount: at or above the maximum nothing is granted and the count
   * stays; below it the count rises by exactly one. No other date changes.
   */
  function Grant(records: map<string, QuotaState>, limit: nat, date: string): (r: (bool, map<string, QuotaState>))
    ensures r.0 <==> QuotaOn(records, limit, date).r1DiscountsGranted < QuotaOn(records, limit, date).maxR1Discounts
    ensures Granted(r.1, date) == Granted(records, date) + (if r.0 then 1 else 0)
    ensures r.1.Keys == records.Keys + {date}
    ensures forall d :: d in records && d != date ==> r.1[d] == records[d]
  {
    var q := QuotaOn(records, limit, date);
    if q.r1DiscountsGranted >= q.maxR1Discounts then (false, Touched(records, limit, date))
    else (true, records[date := q.(r1DiscountsGranted := q.r1DiscountsGranted + 1)])
  }

  /** revokeR1Discount: the count drops by one, but never below zero. No other date changes. */
  function Revoke(records: map<string, QuotaState>, limit: nat, date: string): (r: map<string, QuotaState>)
    ensures Granted(r, date) == if Granted(records, date) > 0 then Granted(records, date) - 1 else 0
    ensures r.Keys == records.Keys + {date}
    ensures forall d :: d in records && d != date ==> r[d] == records[d]
  {
    var q := QuotaOn(records, limit, date);
    if q.r1DiscountsGranted > 0 then records[date := q.(r1DiscountsGranted := q.r1DiscountsGranted - 1)]
    else Touched(records, limit, date)
  }

  datatype QuotaStatus = QuotaStatus(granted: nat, max: nat, remaining: int)

  /** getQuotaStatus: granted, maximum and what is left of the day's quota. */
  function Status(records: map<string, QuotaState>, limit: nat, date: string): (r: (QuotaStatus, map<string, QuotaState>))
    ensures r.0.granted == Granted(records, date)
    ensures r.0.max == QuotaOn(records, limit, date).maxR1Discounts
    ensures r.0.remaining == r.0.max - r.0.granted
    ensures date !in records ==> r.0 == QuotaStatus(0, limit, limit)
    ensures r.1 == Touched(records, limit, date)
  {
    var q := QuotaOn(records, limit, date);
    (QuotaStatus(q.r1DiscountsGranted, q.maxR1Discounts, q.maxR1Discounts - q.r1DiscountsGranted), Touched(records, limit, date))
  }

  /** resetQuota: forget the date, so that its next access starts from zero. */
  function Reset(records: map<string, QuotaState>, date: string): (r: map<string, QuotaState>)
    ensures date !in r
    ensures forall d :: d != date ==> (d in r <==> d in records)
    ensures forall d :: d in r ==> d in records && r[d] == records[d]
  {
    records - {date}
  }

  /** Every operation keeps the table valid. */
  lemma OperationsPreserveValid(records: map<string, QuotaState>, limit: nat, date: string)
    requires ValidTable(records, limit)
    ensures ValidTable(Touched(records, limit, date), limit)
    ensures ValidTable(Grant(records, limit, date).1, limit)
    ensures ValidTable(Revoke(records, limit, date), limit)
    ensures ValidTable(Reset(records, date), limit)
  {
  }

  /** In a valid table, room to grant means the count is below the configured limit. */
  lemma CanGrantBelowLimit(records: map<string, QuotaState>, limit: nat, date: string)
    requires ValidTable(records, limit)
    ensures CanGrant(records, limit, date).0 <==> Granted(records, date) < limit
    ensures Grant(records, limit, date).0 <==> Granted(records, date) < limit
  {
  }

  /** A successful grant followed by a revoke on the same date restores the count. */
  lemma GrantThenRevoke(records: map<string, QuotaState>, limit: nat, date: string)
    requires Grant(records, limit, date).0
    ensures Granted(Revoke(Grant(records, limit, date).1, limit, date), date) == Granted(records, date)
  {
  }

  /** After a reset the date starts afresh: nothing granted, the full limit remaining. */
  lemma ResetStartsFromZero(records: map<string, QuotaState>, limit: nat, date: string)
    ensures Status(Reset(records, date), limit, date).0 == QuotaStatus(0, limit, limit)
  {
  }

  /** `n` consecutive grant attempts on one date. */
  function GrantTimes(records: map<string, QuotaState>, limit: nat, date: string, n: nat): map<string, QuotaState>
  {
    if n == 0 then records else Grant(GrantTimes(records, limit, date, n - 1), limit, date).1
  }

  /**
   * From a date with no record, `n` grants up to the limit all succeed, leave
   * `remaining == limit - n`, and once the limit is reached the next grant fails.
   */
  lemma {:induction false} GrantTimesFromFresh(start: map<string, QuotaState>, limit: nat, date: string, n: nat)
    requires ValidTable(start, limit) && date !in start
    requires n <= limit
    ensures ValidTable(GrantTimes(start, limit, date, n), limit)
    ensures Status(GrantTimes(start, limit, date, n), limit, date).0 == QuotaStatus(n, limit, limit - n)
    ensures n == limit ==> !Grant(GrantTimes(start, limit, date, n), limit, date).0
  {
    if n > 0 {
      GrantTimesFromFresh(start, limit, date, n - 1);
      var before := GrantTimes(start, limit, date, n - 1);
      OperationsPreserveValid(before, limit, date);
      CanGrantBelowLimit(before, limit, date);
    } else {
      CanGrantBelowLimit(start, limit, date);
    }
  }

  /** The same from a reset date, whatever the table held before. */
  lemma GrantTimesFromReset(records: map<string, QuotaState>, limit: nat, date: string, n: nat)
    requires ValidTable(records, limit)
    requires n <= limit
    ensures ValidTable(GrantTimes(Reset(records, date), limit, date, n), limit)
    ensures Status(GrantTimes(Reset(records, date), limit, date, n), limit, date).0 == QuotaStatus(n, limit, limit - n)
    ensures n == limit ==> !Grant(GrantTimes(Reset(records, date), limit, date, n), limit, date).0
  {
    OperationsPreserveValid(records, limit, date);
    GrantTimesFromFresh(Reset(records, date), limit, date, n);
  }

  /** The mutable quota table of one process, with its configured limit. */
  class QuotaStore {
    var records: map<string, QuotaState>
    const limit: nat

    ghost predicate Valid()
      reads this
    {
      ValidTable(records, limit)
    }

    constructor (limit: nat)
      ensures Valid() && records == map[] && this.limit == limit
    {
      this.limit := limit;
      records := map[];
    }

    /** getQuotaState */
    method GetQuotaState(date: string) returns (q: QuotaState)
      requires Valid()
      modifies this
      ensures Valid()
      ensures q == QuotaOn(old(records), limit, date) && q.date == date
      ensures records == Touched(old(records), limit, date)
    {
      if date in records {
        q := records[date];
      } else {
        q := QuotaState(date, 0, limit);
        records := records[date := q];
      }
    }

    /** canGrantR1Discount */
    method CanGrantR1Discount(date: string) returns (ok: bool)
      requires Valid()
      modifies this
      ensures Valid()
      ensures ok <==> Granted(old(records), date) < limit
      ensures (ok, records) == CanGrant(old(records), limit, date)
    {
      var q := GetQuotaState(date);
      ok := q.r1DiscountsGranted < q.maxR1Discounts;
    }

    /** grantR1Discount */
    method GrantR1Discount(date: string) returns (ok: bool)
      requires Valid()
      modifies this
      ensures Valid()
      ensures ok <==> Granted(old(records), date) < limit
      ensures (ok, records) == Grant(old(records), limit, date)
    {
      var q := GetQuotaState(date);
      if q.r1DiscountsGranted >= q.maxR1Discounts {
        return false;
      }
      q := q.(r1DiscountsGranted := q.r1DiscountsGranted + 1);
      assert records[date := q] == old(records)[date := q];
      records := records[q.date := q];
      ok := true;
    }

    /** revokeR1Discount */
    method RevokeR1Discount(date: string)
      requires Valid()
      modifies this
      ensures Valid()
      ensures records == Revoke(old(records), limit, date)
    {
      var q := GetQuotaState(date);
      if q.r1DiscountsGranted > 0 {
        q := q.(r1DiscountsGranted := q.r1DiscountsGranted - 1);
        records := records[q.date := q];
      }
    }

    /** getQuotaStatus */
    method GetQuotaStatus(date: string) returns (s: QuotaStatus)
      requires Valid()
      modifies this
      ensures Valid()
      ensures (s, records) == Status(old(records), limit, date)
    {
      var q := GetQuotaState(date);
      s := QuotaStatus(q.r1DiscountsGranted, q.maxR1Discounts, q.maxR1Discounts - q.r1DiscountsGranted);
    }

    /** resetQuota */
    method ResetQuota(date: string)
      requires Valid()
      modifies this
      ensures Valid()
      ensures records == Reset(old(records), date)
    {
      records := records - {date};
    }
  }
}
