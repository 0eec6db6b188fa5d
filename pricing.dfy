/**
 * The price engine (src/pricing/rules.ts): a base price, the R1 discount
 * (12%, limited by the daily quota) and the R2 holiday discount (3% of what
 * is left after R1). Money is `real`; the birthday test and the holiday
 * lookup are inputs.
 */
module Pricing {
  import opened Wrappers
  import opened Types
  import Quota

  /** `services.reduce((sum, s) => sum + s.basePrice, 0)` */
  function BasePrice(services: seq<MedicalService>): real {
    if services == [] then 0.0 else BasePrice(services[..|services| - 1]) + services[|services| - 1].basePrice
  }

  /** The base price of a concatenation is the sum of the parts' base prices. */
  lemma {:induction false} BasePriceAppend(a: seq<MedicalService>, b: seq<MedicalService>)
    ensures BasePrice(a + b) == BasePrice(a) + BasePrice(b)
  {
    if b == [] {
      assert a + b == a;
    } else {
      assert (a + b)[..|a + b| - 1] == a + b[..|b| - 1];
      BasePriceAppend(a, b[..|b| - 1]);
    }
  }

  /** Prices that are not negative add up to a base price that is not negative. */
  lemma {:induction false} BasePriceNonNegative(services: seq<MedicalService>)
    requires forall s :: s in services ==> s.basePrice >= 0.0
    ensures BasePrice(services) >= 0.0
  {
    if services != [] {
      assert forall s :: s in services[..|services| - 1] ==> s in services;
      BasePriceNonNegative(services[..|services| - 1]);
    }
  }

  /** R1 eligibility: a female user on her birthday, or a base price strictly over 1000. */
  predicate QualifiesForR1(gender: Option<Gender>, isBirthday: bool, basePrice: real) {
    (gender == Some(Female) && isBirthday) || basePrice > 1000.0
  }

  /** The R1 part of a price: (applied, amount, quota exhausted) and the quota table afterwards. */
  function R1(qualifies: bool, basePrice: real, records: map<string, QuotaState>, limit: nat, date: string)
    : (r: (bool, real, bool, map<string, QuotaState>))
    ensures !qualifies ==> r == (false, 0.0, false, records)
    ensures qualifies ==> (r.0 <==> Quota.Granted(records, date) < Quota.QuotaOn(records, limit, date).maxR1Discounts)
    ensures qualifies ==> r.2 == !r.0
    ensures r.1 == if r.0 then basePrice * 0.12 else 0.0
    ensures Quota.Granted(r.3, date) == Quota.Granted(records, date) + (if r.0 then 1 else 0)
    ensures forall d :: d in records && d != date ==> d in r.3 && r.3[d] == records[d]
  {
    if !qualifies then (false, 0.0, false, records)
    else
      var (can, afterRead) := Quota.CanGrant(records, limit, date);
      if !can then (false, 0.0, true, afterRead)
      else
        var (granted, afterGrant) := Quota.Grant(afterRead, limit, date);
        if granted then (true, basePrice * 0.12, false, afterGrant)
        else (false, 0.0, true, afterGrant)
  }

  /** The R2 part of a price: (applied, amount, warning), computed on the amount left after R1. */
  function R2(holiday: HolidayCheck, afterR1: real): (r: (bool, real, Option<string>))
    ensures r.0 <==> holiday.Answered? && holiday.isHoliday
    ensures r.1 == if r.0 then afterR1 * 0.03 else 0.0
    ensures holiday.Raised? && holiday.message.Some? ==> r.2 == holiday.message
    ensures holiday.Raised? && holiday.message.None? ==> r.2 == Some("Unknown error")
    ensures holiday.Answered? ==> r.2 == (if Truthy(holiday.warning) then holiday.warning else None)
  {
    match holiday
    case Answered(isHoliday, warning) =>
      (isHoliday, if isHoliday then afterR1 * 0.03 else 0.0, if Truthy(warning) then warning else None)
    case Raised(message) =>
      (false, 0.0, Some(message.GetOr("Unknown error")))
  }

  /**
   * calculatePrice, as a function of its inputs and the quota table: the
   * result and the table afterwards.
   */
  function Price(user: User, services: seq<MedicalService>, isBirthday: bool, holiday: HolidayCheck,
                 records: map<string, QuotaState>, limit: nat, date: string)
    : (r: (PricingResult, map<string, QuotaState>))
    ensures r.0.basePrice == BasePrice(services)
    ensures !(r.0.r1DiscountApplied && r.0.r1QuotaExhausted)
    ensures !QualifiesForR1(user.gender, isBirthday, BasePrice(services)) ==>
              !r.0.r1DiscountApplied && r.0.r1DiscountAmount == 0.0 && !r.0.r1QuotaExhausted && r.1 == records
    ensures QualifiesForR1(user.gender, isBirthday, BasePrice(services)) ==>
              (r.0.r1DiscountApplied <==> Quota.Granted(records, date) < Quota.QuotaOn(records, limit, date).maxR1Discounts)
              && r.0.r1QuotaExhausted == !r.0.r1DiscountApplied
    ensures r.0.r1DiscountAmount == if r.0.r1DiscountApplied then r.0.basePrice * 0.12 else 0.0
    ensures Quota.Granted(r.1, date) == Quota.Granted(records, date) + (if r.0.r1DiscountApplied then 1 else 0)
    ensures r.0.r2DiscountApplied <==> holiday.Answered? && holiday.isHoliday
    ensures r.0.r2DiscountAmount == if r.0.r2DiscountApplied then (r.0.basePrice - r.0.r1DiscountAmount) * 0.03 else 0.0
    ensures r.0.finalPrice == r.0.basePrice - r.0.r1DiscountAmount - r.0.r2DiscountAmount
    ensures r.0.holidayCheckError == R2(holiday, r.0.basePrice - r.0.r1DiscountAmount).2
    ensures forall d :: d in records && d != date ==> d in r.1 && r.1[d] == records[d]
  {
    var base := BasePrice(services);
    var (applied, amount, exhausted, afterR1) := R1(QualifiesForR1(user.gender, isBirthday, base), base, records, limit, date);
    var (holidayApplied, holidayAmount, warning) := R2(holiday, base - amount);
    (PricingResult(base, applied, amount, holidayApplied, holidayAmount, base - amount - holidayAmount, exhausted, warning), afterR1)
  }

  /** With a base price that is not negative, the final price lies between zero and the base price. */
  lemma FinalPriceBounds(user: User, services: seq<MedicalService>, isBirthday: bool, holiday: HolidayCheck,
                         records: map<string, QuotaState>, limit: nat, date: string)
    requires BasePrice(services) >= 0.0
    ensures var p := Price(user, services, isBirthday, holiday, records, limit, date).0;
            0.0 <= p.finalPrice <= p.basePrice
  {
  }

  /**
   * The holiday answer, its warning or its failure never changes the R1
   * outcome nor the quota; it only decides R2 and the warning.
   */
  lemma HolidayDoesNotAffectR1(user: User, services: seq<MedicalService>, isBirthday: bool,
                               h1: HolidayCheck, h2: HolidayCheck,
                               records: map<string, QuotaState>, limit: nat, date: string)
    ensures var (p1, q1) := Price(user, services, isBirthday, h1, records, limit, date);
            var (p2, q2) := Price(user, services, isBirthday, h2, records, limit, date);
            p1.r1DiscountApplied == p2.r1DiscountApplied && p1.r1DiscountAmount == p2.r1DiscountAmount
            && p1.r1QuotaExhausted == p2.r1QuotaExhausted && q1 == q2
  {
  }

  /** No discount at all when the request does not qualify for R1 and today is no holiday. */
  lemma NoDiscountWithoutEligibility(user: User, services: seq<MedicalService>, isBirthday: bool, holiday: HolidayCheck,
                                     records: map<string, QuotaState>, limit: nat, date: string)
    requires !QualifiesForR1(user.gender, isBirthday, BasePrice(services))
    requires !(holiday.Answered? && holiday.isHoliday)
    ensures Price(user, services, isBirthday, holiday, records, limit, date).0.finalPrice == BasePrice(services)
  {
  }

  /** calculatePrice: the imperative engine, consuming the shared quota in place. */
  method CalculatePrice(user: User, services: seq<MedicalService>, isBirthday: bool, holiday: HolidayCheck,
                        quota: Quota.QuotaStore, date: string)
    returns (result: PricingResult)
    requires quota.Valid()
    modifies quota
    ensures quota.Valid()
    ensures (result, quota.records) == Price(user, services, isBirthday, holiday, old(quota.records), quota.limit, date)
  {
    var basePrice := BasePrice(services);
    var qualifiesForR1 := QualifiesForR1(user.gender, isBirthday, basePrice);
    var r1DiscountApplied := false;
    var r1DiscountAmount := 0.0;
    var r1QuotaExhausted := false;

    if qualifiesForR1 {
      var can := quota.CanGrantR1Discount(date);
      if can {
        var granted := quota.GrantR1Discount(date);
        if granted {
          r1DiscountApplied := true;
          r1DiscountAmount := basePrice * 0.12;
        } else {
          r1QuotaExhausted := true;
        }
      } else {
        r1QuotaExhausted := true;
      }
    }

    var r2DiscountApplied := false;
    var r2DiscountAmount := 0.0;
    var holidayCheckError: Option<string> := None;
    match holiday {
      case Answered(isHoliday, warning) =>
        if isHoliday {
          r2DiscountApplied := true;
          r2DiscountAmount := (basePrice - r1DiscountAmount) * 0.03;
        }
        if Truthy(warning) {
          holidayCheckError := warning;
        }
      case Raised(message) =>
        holidayCheckError := Some(message.GetOr("Unknown error"));
    }

    var finalPrice := basePrice - r1DiscountAmount - r2DiscountAmount;
    result := PricingResult(basePrice, r1DiscountApplied, r1DiscountAmount, r2DiscountApplied,
                            r2DiscountAmount, finalPrice, r1QuotaExhausted, holidayCheckError);
  }

  /** compensateR1Discount: exactly one revoke on the quota of `date`. */
  method CompensateR1Discount(quota: Quota.QuotaStore, date: string)
    requires quota.Valid()
    modifies quota
    ensures quota.Valid()
    ensures quota.records == Quota.Revoke(old(quota.records), quota.limit, date)
  {
    quota.RevokeR1Discount(date);
  }
}
