/**
 * The static catalog of medical services (src/data/services.ts) and its two
 * lookups.
 */
module Catalog {
  import opened Wrappers
  import opened Types

  const MedicalServices: seq<MedicalService> := [
    MedicalService("gyn-001", "Gynecological Consultation", 800.0, [Female]),
    MedicalService("gyn-002", "Pap Smear Test", 600.0, [Female]),
    MedicalService("gyn-003", "Mammography", 1200.0, [Female]),
    MedicalService("male-001", "Prostate Examination", 700.0, [Male]),
    MedicalService("male-002", "Testosterone Level Test", 900.0, [Male]),
    MedicalService("male-003", "Male Fertility Test", 1500.0, [Male]),
    MedicalService("common-001", "General Health Checkup", 500.0, [Male, Female, Other]),
    MedicalService("common-002", "Blood Test", 400.0, [Male, Female, Other]),
    MedicalService("common-003", "ECG", 600.0, [Male, Female, Other]),
    MedicalService("common-004", "X-Ray", 800.0, [Male, Female, Other])
  ]

  /** `filter` over a list of services: those offered to `g`, in list order. */
  function OfferedTo(services: seq<MedicalService>, g: Gender): (r: seq<MedicalService>)
    ensures |r| <= |services|
    ensures forall s :: s in r <==> s in services && g in s.availableFor
  {
    if services == [] then []
    else if g in services[0].availableFor then [services[0]] + OfferedTo(services[1..], g)
    else OfferedTo(services[1..], g)
  }

  /** getServicesForGender: the catalog entries offered to `g`, in catalog order. */
  function ServicesForGender(g: Gender): (r: seq<MedicalService>)
    ensures forall s :: s in r <==> s in MedicalServices && g in s.availableFor
  {
    OfferedTo(MedicalServices, g)
  }

  /** `find` over a list of services: the first entry with this id. */
  function FindById(services: seq<MedicalService>, id: string): (r: Option<MedicalService>)
    ensures r.None? <==> forall s :: s in services ==> s.id != id
    ensures r.Some? ==> r.value in services && r.value.id == id
  {
    if services == [] then None
    else if services[0].id == id then Some(services[0])
    else FindById(services[1..], id)
  }

  /** getServiceById: the catalog entry with this id, or none. */
  function ServiceById(id: string): (r: Option<MedicalService>)
    ensures r.None? <==> forall s :: s in MedicalServices ==> s.id != id
    ensures r.Some? ==> r.value in MedicalServices && r.value.id == id
  {
    FindById(MedicalServices, id)
  }

  /** Catalog ids are pairwise distinct, so a lookup by id is unambiguous. */
  lemma CatalogIdsDistinct()
    ensures forall i, j :: 0 <= i < j < |MedicalServices| ==> MedicalServices[i].id != MedicalServices[j].id
  {
  }

  /** Whichever entry carries an id is the one ServiceById returns. */
  lemma ServiceByIdUnique(s: MedicalService)
    requires s in MedicalServices
    ensures ServiceById(s.id) == Some(s)
  {
    CatalogIdsDistinct();
    FindByIdUnique(MedicalServices, s);
  }

  /** In a list with distinct ids, `find` by an entry's id returns that entry. */
  lemma {:induction false} FindByIdUnique(services: seq<MedicalService>, s: MedicalService)
    requires forall i, j :: 0 <= i < j < |services| ==> services[i].id != services[j].id
    requires s in services
    ensures FindById(services, s.id) == Some(s)
  {
    if services[0] != s {
      assert services[0].id != s.id by {
        var k :| 0 <= k < |services| && services[k] == s;
        assert k > 0;
      }
      assert forall i, j :: 0 <= i < j < |services[1..]| ==> services[1..][i].id != services[1..][j].id by {
        forall i, j | 0 <= i < j < |services[1..]|
          ensures services[1..][i].id != services[1..][j].id
        {
          assert services[1..][i] == services[i + 1] && services[1..][j] == services[j + 1];
        }
      }
      FindByIdUnique(services[1..], s);
    }
  }

  /** Every catalog price is positive. */
  lemma CatalogPricesPositive()
    ensures forall s :: s in MedicalServices ==> s.basePrice > 0.0
  {
  }

  /** The `common-*` services are the last four entries. */
  const CommonServices: seq<MedicalService> := MedicalServices[6..]

  /** Gender `other` is offered exactly the four `common-*` services, in catalog order. */
  lemma OtherGetsOnlyCommon()
    ensures ServicesForGender(Other) == CommonServices
  {
    GenderSpecificNotForOther();
    CommonForEveryone();
    OfferedToSkip(MedicalServices, Other, 6);
    OfferedToAllOffered(CommonServices, Other);
  }

  /** None of the first six entries, the gynecological and male ones, is offered to `other`. */
  lemma GenderSpecificNotForOther()
    ensures forall i :: 0 <= i < 6 ==> Other !in MedicalServices[i].availableFor
  {
  }

  /** Each `common-*` entry is offered to every gender. */
  lemma CommonForEveryone()
    ensures forall s :: s in CommonServices ==> s.availableFor == [Male, Female, Other]
  {
    assert CommonServices == [MedicalServices[6], MedicalServices[7], MedicalServices[8], MedicalServices[9]];
  }

  /** The last four catalog entries are exactly the `common-*` ones. */
  lemma CommonIdsPrefix()
    ensures forall s :: s in CommonServices ==> s.id[..7] == "common-"
  {
    assert CommonServices == [MedicalServices[6], MedicalServices[7], MedicalServices[8], MedicalServices[9]];
  }

  /** `common-001`..`common-004` together cost 2300, over the 1000 high-value threshold. */
  lemma CommonServicesTotal()
    ensures CommonServices[0].basePrice + CommonServices[1].basePrice
          + CommonServices[2].basePrice + CommonServices[3].basePrice == 2300.0
  {
  }

  lemma {:induction false} OfferedToAppend(a: seq<MedicalService>, b: seq<MedicalService>, g: Gender)
    ensures OfferedTo(a + b, g) == OfferedTo(a, g) + OfferedTo(b, g)
  {
    if a == [] {
      assert a + b == b;
    } else {
      assert (a + b)[0] == a[0];
      assert (a + b)[1..] == a[1..] + b;
      OfferedToAppend(a[1..], b, g);
    }
  }

  lemma {:induction false} OfferedToSkip(a: seq<MedicalService>, g: Gender, k: nat)
    requires k <= |a|
    requires forall i :: 0 <= i < k ==> g !in a[i].availableFor
    ensures OfferedTo(a, g) == OfferedTo(a[k..], g)
  {
    if k > 0 {
      OfferedToSkip(a[1..], g, k - 1);
      assert a[1..][k - 1..] == a[k..];
    }
  }

  lemma {:induction false} OfferedToAllOffered(a: seq<MedicalService>, g: Gender)
    requires forall s :: s in a ==> g in s.availableFor
    ensures OfferedTo(a, g) == a
  {
    if a != [] {
      OfferedToAllOffered(a[1..], g);
    }
  }
}
