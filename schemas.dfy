/** Request bodies and response projections (schemas.py). */
module Schemas {
  import opened Wrappers
  import opened Models

  /** Profile submission: name and email are required, the rest optional. */
  datatype TherapistCreate = TherapistCreate(
    fullName: string,
    email: string,
    specialization: Option<string>,
    bio: Option<string>)

  datatype TherapistOut = TherapistOut(
    id: int,
    fullName: string,
    email: string,
    specialization: Option<string>,
    bio: Option<string>)

  /** A lead as listed: everything except its owner. */
  datatype LeadOut = LeadOut(
    id: int,
    patientName: string,
    issue: Option<string>,
    price: Money,
    purchased: bool,
    createdAt: Timestamp)

  /** A session as listed or returned by an update: no owner, no notes. */
  datatype SessionOut = SessionOut(
    id: int,
    patientName: string,
    scheduledFor: Timestamp,
    status: string,
    fee: Money)

  /** A partial update: an absent field is left as it is. */
  datatype SessionUpdate = SessionUpdate(status: Option<string>, fee: Option<Money>)

  datatype SessionNotesCreate = SessionNotesCreate(notes: string)

  datatype EarningsSummary = EarningsSummary(
    totalEarnings: Money,
    fromSessions: Money,
    spentOnLeads: Money,
    netEarnings: Money)

  /** The update body with neither field given. */
  const EmptyUpdate: SessionUpdate := SessionUpdate(None, None)

  /** The profile response: every column of the record. */
  function ToTherapistOut(t: Therapist): (r: TherapistOut)
    ensures r.id == t.id && r.fullName == t.fullName && r.email == t.email
    ensures r.specialization == t.specialization && r.bio == t.bio
  {
    TherapistOut(t.id, t.fullName, t.email, t.specialization, t.bio)
  }

  /** The lead response: every column but the owner. */
  function ToLeadOut(l: Lead): (r: LeadOut)
    ensures r.id == l.id && r.patientName == l.patientName && r.issue == l.issue
    ensures r.price == l.price && r.purchased == l.purchased && r.createdAt == l.createdAt
  {
    LeadOut(l.id, l.patientName, l.issue, l.price, l.purchased, l.createdAt)
  }

  /** The session response: every column but the owner and the notes. */
  function ToSessionOut(s: Session): (r: SessionOut)
    ensures r.id == s.id && r.patientName == s.patientName && r.scheduledFor == s.scheduledFor
    ensures r.status == s.status && r.fee == s.fee
  {
    SessionOut(s.id, s.patientName, s.scheduledFor, s.status, s.fee)
  }

  /** The profile response loses nothing: the stored record can be read back from it. */
  lemma TherapistOutIsLossless(t: Therapist, u: Therapist)
    requires ToTherapistOut(t) == ToTherapistOut(u)
    ensures t == u
  {
  }

  /** The lead response does not reveal the owner: leads that differ only in
      their owner are listed identically. */
  lemma LeadOutHidesOwner(l: Lead, owner: int)
    ensures ToLeadOut(l.(therapistId := owner)) == ToLeadOut(l)
  {
  }

  /** The session response never exposes the notes ciphertext (nor the owner). */
  lemma SessionOutHidesNotes(s: Session, owner: int, notes: Option<string>)
    ensures ToSessionOut(s.(therapistId := owner, notesEncrypted := notes)) == ToSessionOut(s)
  {
  }
}
