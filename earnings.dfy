/** The earnings summary (get_earnings in main.py): a read-only fold over the
    caller's completed sessions and purchased leads. */
module Earnings {
  import opened Wrappers
  import opened Query
  import opened Models
  import opened Schemas

  /** `sum(f(x) for x in s)`, with exact arithmetic. */
  function Sum<T>(s: seq<T>, f: T -> Money): Money
  {
    if s == [] then 0.0 else f(s[0]) + Sum(s[1..], f)
  }

  function Fee(s: Session): Money
  {
    s.fee
  }

  function Price(l: Lead): Money
  {
    l.price
  }

  /** The session filter `therapist_id == owner AND status == "completed"`. */
  function CompletedSessionOf(therapistId: int): Session -> bool
  {
    (s: Session) => s.therapistId == therapistId && s.status == StatusCompleted
  }

  /** The lead filter `therapist_id == owner AND purchased == True`. */
  function PurchasedLeadOf(therapistId: int): Lead -> bool
  {
    (l: Lead) => l.therapistId == therapistId && l.purchased
  }

  // Reference definitions: what each record contributes to a therapist's summary.

  function SessionIncome(s: Session, therapistId: int): Money
  {
    if s.therapistId == therapistId && s.status == StatusCompleted then s.fee else 0.0
  }

  function LeadCost(l: Lead, therapistId: int): Money
  {
    if l.therapistId == therapistId && l.purchased then l.price else 0.0
  }

  function CompletedFees(sessions: seq<Session>, therapistId: int): Money
  {
    if sessions == [] then 0.0
    else SessionIncome(sessions[0], therapistId) + CompletedFees(sessions[1..], therapistId)
  }

  function PurchasedPrices(leads: seq<Lead>, therapistId: int): Money
  {
    if leads == [] then 0.0
    else LeadCost(leads[0], therapistId) + PurchasedPrices(leads[1..], therapistId)
  }

  /** Summing the fees of the filtered rows is the per-record reference fold. */
  lemma {:induction false} FromSessionsIsCompletedFees(sessions: seq<Session>, therapistId: int)
    ensures Sum(Filter(sessions, CompletedSessionOf(therapistId)), Fee) == CompletedFees(sessions, therapistId)
  {
    if sessions != [] {
      FromSessionsIsCompletedFees(sessions[1..], therapistId);
    }
  }

  lemma {:induction false} SpentOnLeadsIsPurchasedPrices(leads: seq<Lead>, therapistId: int)
    ensures Sum(Filter(leads, PurchasedLeadOf(therapistId)), Price) == PurchasedPrices(leads, therapistId)
  {
    if leads != [] {
      SpentOnLeadsIsPurchasedPrices(leads[1..], therapistId);
    }
  }

  /** The summary: income from completed sessions, cost of purchased leads,
      gross earnings equal to session income, net earnings after lead costs. */
  function GetEarnings(leads: seq<Lead>, sessions: seq<Session>, therapistId: int): (r: EarningsSummary)
    ensures r.fromSessions == CompletedFees(sessions, therapistId)
    ensures r.spentOnLeads == PurchasedPrices(leads, therapistId)
    ensures r.totalEarnings == r.fromSessions
    ensures r.netEarnings == r.totalEarnings - r.spentOnLeads
  {
    var fromSessions := Sum(Filter(sessions, CompletedSessionOf(therapistId)), Fee);
    var spentOnLeads := Sum(Filter(leads, PurchasedLeadOf(therapistId)), Price);
    FromSessionsIsCompletedFees(sessions, therapistId);
    SpentOnLeadsIsPurchasedPrices(leads, therapistId);
    var totalEarnings := fromSessions;
    EarningsSummary(totalEarnings, fromSessions, spentOnLeads, totalEarnings - spentOnLeads)
  }

  lemma {:induction false} NoCompletedSessionsEarnNothing(sessions: seq<Session>, therapistId: int)
    requires forall k :: 0 <= k < |sessions| ==> !CompletedSessionOf(therapistId)(sessions[k])
    ensures CompletedFees(sessions, therapistId) == 0.0
  {
    if sessions != [] {
      NoCompletedSessionsEarnNothing(sessions[1..], therapistId);
    }
  }

  lemma {:induction false} NoPurchasedLeadsCostNothing(leads: seq<Lead>, therapistId: int)
    requires forall k :: 0 <= k < |leads| ==> !PurchasedLeadOf(therapistId)(leads[k])
    ensures PurchasedPrices(leads, therapistId) == 0.0
  {
    if leads != [] {
      NoPurchasedLeadsCostNothing(leads[1..], therapistId);
    }
  }

  /** With no completed session and no purchased lead, every amount is zero. */
  lemma EarningsOfNothingAreZero(leads: seq<Lead>, sessions: seq<Session>, therapistId: int)
    requires forall k :: 0 <= k < |sessions| ==> !CompletedSessionOf(therapistId)(sessions[k])
    requires forall k :: 0 <= k < |leads| ==> !PurchasedLeadOf(therapistId)(leads[k])
    ensures GetEarnings(leads, sessions, therapistId) == EarningsSummary(0.0, 0.0, 0.0, 0.0)
  {
    NoCompletedSessionsEarnNothing(sessions, therapistId);
    NoPurchasedLeadsCostNothing(leads, therapistId);
  }

  lemma {:induction false} CompletedFeesOfOwnSessions(sessions: seq<Session>, therapistId: int)
    ensures CompletedFees(Filter(sessions, SessionOf(therapistId)), therapistId) == CompletedFees(sessions, therapistId)
  {
    if sessions != [] {
      CompletedFeesOfOwnSessions(sessions[1..], therapistId);
    }
  }

  lemma {:induction false} PurchasedPricesOfOwnLeads(leads: seq<Lead>, therapistId: int)
    ensures PurchasedPrices(Filter(leads, LeadOf(therapistId)), therapistId) == PurchasedPrices(leads, therapistId)
  {
    if leads != [] {
      PurchasedPricesOfOwnLeads(leads[1..], therapistId);
    }
  }

  /** Scoping: the summary reads only the caller's own rows, so two stores that
      agree on the caller's leads and sessions give the same summary, whatever
      other therapists own. */
  lemma EarningsDependOnlyOnOwnRecords(leads: seq<Lead>, sessions: seq<Session>,
                                       leads': seq<Lead>, sessions': seq<Session>, therapistId: int)
    requires Filter(leads, LeadOf(therapistId)) == Filter(leads', LeadOf(therapistId))
    requires Filter(sessions, SessionOf(therapistId)) == Filter(sessions', SessionOf(therapistId))
    ensures GetEarnings(leads, sessions, therapistId) == GetEarnings(leads', sessions', therapistId)
  {
    CompletedFeesOfOwnSessions(sessions, therapistId);
    CompletedFeesOfOwnSessions(sessions', therapistId);
    PurchasedPricesOfOwnLeads(leads, therapistId);
    PurchasedPricesOfOwnLeads(leads', therapistId);
  }

  /** Replacing one session changes the session income by exactly the difference
      of the two records' contributions. */
  lemma {:induction false} CompletedFeesAfterReplace(sessions: seq<Session>, k: nat, s: Session, therapistId: int)
    requires k < |sessions|
    ensures CompletedFees(sessions[k := s], therapistId)
            == CompletedFees(sessions, therapistId) - SessionIncome(sessions[k], therapistId) + SessionIncome(s, therapistId)
  {
    if k > 0 {
      assert sessions[k := s][1..] == sessions[1..][k - 1 := s];
      CompletedFeesAfterReplace(sessions[1..], k - 1, s, therapistId);
    }
  }

  lemma {:induction false} PurchasedPricesAfterReplace(leads: seq<Lead>, k: nat, l: Lead, therapistId: int)
    requires k < |leads|
    ensures PurchasedPrices(leads[k := l], therapistId)
            == PurchasedPrices(leads, therapistId) - LeadCost(leads[k], therapistId) + LeadCost(l, therapistId)
  {
    if k > 0 {
      assert leads[k := l][1..] == leads[1..][k - 1 := l];
      PurchasedPricesAfterReplace(leads[1..], k - 1, l, therapistId);
    }
  }

  /** Purchasing one of the caller's leads adds exactly its price to the amount
      spent and takes it off the net; session income is untouched. */
  lemma PurchaseChargesPrice(leads: seq<Lead>, sessions: seq<Session>, k: nat, therapistId: int)
    requires k < |leads| && leads[k].therapistId == therapistId && !leads[k].purchased
    ensures var before := GetEarnings(leads, sessions, therapistId);
            var after := GetEarnings(leads[k := leads[k].(purchased := true)], sessions, therapistId);
            && after.spentOnLeads == before.spentOnLeads + leads[k].price
            && after.fromSessions == before.fromSessions
            && after.netEarnings == before.netEarnings - leads[k].price
  {
    PurchasedPricesAfterReplace(leads, k, leads[k].(purchased := true), therapistId);
  }

  /** Attaching notes to a session never changes the summary. */
  lemma NotesDoNotAffectEarnings(leads: seq<Lead>, sessions: seq<Session>, k: nat,
                                 notes: Option<string>, therapistId: int)
    requires k < |sessions|
    ensures GetEarnings(leads, sessions[k := sessions[k].(notesEncrypted := notes)], therapistId)
            == GetEarnings(leads, sessions, therapistId)
  {
    CompletedFeesAfterReplace(sessions, k, sessions[k].(notesEncrypted := notes), therapistId);
  }

  /** One completed session at 100 and one scheduled at 999; one purchased lead
      at 20 and one unpurchased at 30: earnings 100, spent 20, net 80. */
  lemma WorkedExample(therapistId: int)
    ensures var sessions := [Session(1, therapistId, "Charlie", 0, StatusCompleted, 100.0, None),
                             Session(2, therapistId, "Dana", 0, StatusScheduled, 999.0, None)];
            var leads := [Lead(1, therapistId, "Alice", None, 20.0, true, 0),
                          Lead(2, therapistId, "Bob", None, 30.0, false, 0)];
            GetEarnings(leads, sessions, therapistId) == EarningsSummary(100.0, 100.0, 20.0, 80.0)
  {
    var sessions := [Session(1, therapistId, "Charlie", 0, StatusCompleted, 100.0, None),
                     Session(2, therapistId, "Dana", 0, StatusScheduled, 999.0, None)];
    var leads := [Lead(1, therapistId, "Alice", None, 20.0, true, 0),
                  Lead(2, therapistId, "Bob", None, 30.0, false, 0)];
    assert StatusScheduled != StatusCompleted by {
      assert StatusScheduled[0] != StatusCompleted[0];
    }
    assert sessions[1..][1..] == [];
    assert CompletedFees(sessions[1..], therapistId) == 0.0;
    assert leads[1..][1..] == [];
    assert PurchasedPrices(leads[1..], therapistId) == 0.0;
  }
}
