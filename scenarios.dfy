/** Call sequences over a fresh store, proved from the operations' contracts
    alone: the bootstrap seeds once, a purchase is scoped to its owner and
    a repeated purchase changes nothing. */
module Scenarios {
  import opened Wrappers
  import opened Query
  import opened Models
  import opened Schemas
  import opened Api
  import Earnings

  /** Two bootstraps on an empty store leave one therapist, two leads and two
      sessions, and both return the same demo therapist. */
  method BootstrapTwice(now: Timestamp, later: Timestamp)
    returns (therapistCount: nat, leadCount: nat, sessionCount: nat, first: Result<Therapist, BootstrapError>,
             second: Result<Therapist, BootstrapError>)
    ensures therapistCount == 1 && leadCount == 2 && sessionCount == 2
    ensures first == second == Success(DemoTherapist)
  {
    var store := new Store();
    first := store.GetCurrentTherapist(now);
    second := store.GetCurrentTherapist(later);
    therapistCount, leadCount, sessionCount := |store.therapists|, |store.leads|, |store.sessions|;
  }

  /** After buying the first sample lead, the demo therapist has spent its price, 20. */
  lemma SpentAfterBuyingFirstSample(now: Timestamp)
    ensures var seeded := SampleLeads(DemoTherapistId, 1, now);
            Earnings.PurchasedPrices(seeded[0 := seeded[0].(purchased := true)], DemoTherapistId) == 20.0
  {
    var seeded := SampleLeads(DemoTherapistId, 1, now);
    var bought := seeded[0 := seeded[0].(purchased := true)];
    assert bought[1..][1..] == [];
    assert Earnings.PurchasedPrices(bought[1..], DemoTherapistId) == 0.0;
  }

  /** A fresh store after the bootstrap holds the demo therapist and its sample data. */
  method BootstrappedStore(now: Timestamp) returns (store: Store)
    ensures fresh(store) && store.Valid()
    ensures store.therapists == [DemoTherapist] && store.nextTherapistId == 2
    ensures store.leads == SampleLeads(DemoTherapistId, 1, now)
  {
    store := new Store();
    var me := store.GetCurrentTherapist(now);
  }

  /** A fresh store after the bootstrap and one more profile: the demo
      therapist's seeded leads, and a second therapist with id 2. */
  method DemoAndOtherTherapist(now: Timestamp) returns (store: Store, other: TherapistOut)
    ensures fresh(store) && store.Valid()
    ensures store.leads == SampleLeads(DemoTherapistId, 1, now)
    ensures other.id == 2
  {
    store := BootstrappedStore(now);
    assert "other@example.com" != DemoEmail by {
      assert "other@example.com"[0] != DemoEmail[0];
    }
    assert !TherapistWithEmail("other@example.com")(store.therapists[0]);
    other := store.CreateTherapistProfile(TherapistCreate("Other Therapist", "other@example.com", None, None));
  }

  /** Another therapist cannot buy the demo therapist's lead 1; the owner can,
      once; buying it again is reported as already purchased; the owner's
      amount spent on leads is then exactly that lead's price. */
  method ScopedPurchase(now: Timestamp)
    returns (foreign: Result<PurchaseReply, NotFound>, bought: Result<PurchaseReply, NotFound>,
             again: Result<PurchaseReply, NotFound>, spent: Money)
    ensures foreign == Failure(LeadNotFound(1))
    ensures bought == Success(Purchased(1))
    ensures again == Success(AlreadyPurchased)
    ensures spent == 20.0
  {
    var store, other := DemoAndOtherTherapist(now);
    var seeded := SampleLeads(DemoTherapistId, 1, now);

    assert !LeadKey(2, 1)(seeded[0]) && !LeadKey(2, 1)(seeded[1]);
    foreign := store.PurchaseLead(other.id, 1);

    assert LeadKey(DemoTherapistId, 1)(seeded[0]);
    bought := store.PurchaseLead(DemoTherapistId, 1);
    var afterPurchase := seeded[0 := seeded[0].(purchased := true)];
    assert store.leads == afterPurchase;

    assert LeadKey(DemoTherapistId, 1)(afterPurchase[0]);
    again := store.PurchaseLead(DemoTherapistId, 1);

    SpentAfterBuyingFirstSample(now);
    spent := Earnings.GetEarnings(store.leads, store.sessions, DemoTherapistId).spentOnLeads;
  }
}
