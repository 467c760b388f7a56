/** The three tables of the practice store (models.py): their columns, the
    column defaults applied when a row is created, and the table constraints
    (primary keys, the unique therapist email, the owner foreign keys). */
module Models {
  import opened Wrappers
  import opened Query

  /** Monetary amounts are exact reals here; the tables store floats. */
  type Money = real

  /** Abstract timestamps, in seconds. */
  type Timestamp = int

  const OneDay: int := 86400

  /** The status a new session defaults to, and the status the earnings count;
      the column accepts any string a client sends. */
  const StatusScheduled: string := "scheduled"
  const StatusCompleted: string := "completed"

  datatype Therapist = Therapist(
    id: int,
    fullName: string,
    email: string,
    specialization: Option<string>,
    bio: Option<string>)

  datatype Lead = Lead(
    id: int,
    therapistId: int,
    patientName: string,
    issue: Option<string>,
    price: Money,
    purchased: bool,
    createdAt: Timestamp)

  datatype Session = Session(
    id: int,
    therapistId: int,
    patientName: string,
    scheduledFor: Timestamp,
    status: string,
    fee: Money,
    notesEncrypted: Option<string>)

  /** A lead row as inserted: an omitted price is 0.0, an omitted purchased flag
      is false, and the creation time is the clock reading at insertion. */
  function NewLead(id: int, therapistId: int, patientName: string, issue: Option<string>,
                   price: Option<Money>, purchased: Option<bool>, now: Timestamp): (l: Lead)
    ensures l.id == id && l.therapistId == therapistId && l.patientName == patientName && l.issue == issue
    ensures l.purchased <==> purchased == Some(true)
    ensures price == None ==> l.price == 0.0
    ensures price.Some? ==> l.price == price.value
    ensures l.createdAt == now
  {
    Lead(id, therapistId, patientName, issue,
         match price case Some(p) => p case None => 0.0,
         match purchased case Some(b) => b case None => false,
         now)
  }

  /** A session row as inserted: an omitted status is "scheduled", an omitted
      fee is 0.0, and a new session never carries notes. */
  function NewSession(id: int, therapistId: int, patientName: string, scheduledFor: Timestamp,
                      status: Option<string>, fee: Option<Money>): (s: Session)
    ensures s.id == id && s.therapistId == therapistId && s.patientName == patientName
    ensures s.scheduledFor == scheduledFor
    ensures status == None ==> s.status == StatusScheduled
    ensures status.Some? ==> s.status == status.value
    ensures fee == None ==> s.fee == 0.0
    ensures fee.Some? ==> s.fee == fee.value
    ensures s.notesEncrypted == None
  {
    Session(id, therapistId, patientName, scheduledFor,
            match status case Some(st) => st case None => StatusScheduled,
            match fee case Some(f) => f case None => 0.0,
            None)
  }

  // Row filters used by the endpoints' queries.

  function TherapistWithId(id: int): Therapist -> bool
  {
    (t: Therapist) => t.id == id
  }

  function TherapistWithEmail(email: string): Therapist -> bool
  {
    (t: Therapist) => t.email == email
  }

  function LeadOf(therapistId: int): Lead -> bool
  {
    (l: Lead) => l.therapistId == therapistId
  }

  function SessionOf(therapistId: int): Session -> bool
  {
    (s: Session) => s.therapistId == therapistId
  }

  /** The scoped lookup `therapist_id == owner AND id == leadId`. */
  function LeadKey(therapistId: int, leadId: int): Lead -> bool
  {
    (l: Lead) => l.therapistId == therapistId && l.id == leadId
  }

  function SessionKey(therapistId: int, sessionId: int): Session -> bool
  {
    (s: Session) => s.therapistId == therapistId && s.id == sessionId
  }

  predicate HasTherapist(therapists: seq<Therapist>, id: int)
  {
    exists t :: t in therapists && t.id == id
  }

  predicate UniqueEmails(therapists: seq<Therapist>)
  {
    forall i, j :: 0 <= i < j < |therapists| ==> therapists[i].email != therapists[j].email
  }

  predicate DistinctTherapistIds(therapists: seq<Therapist>)
  {
    forall i, j :: 0 <= i < j < |therapists| ==> therapists[i].id != therapists[j].id
  }

  predicate DistinctLeadIds(leads: seq<Lead>)
  {
    forall i, j :: 0 <= i < j < |leads| ==> leads[i].id != leads[j].id
  }

  predicate DistinctSessionIds(sessions: seq<Session>)
  {
    forall i, j :: 0 <= i < j < |sessions| ==> sessions[i].id != sessions[j].id
  }

  /** The table constraints: primary keys are distinct, therapist emails are
      unique, and every lead and session names an existing therapist as owner. */
  predicate Constraints(therapists: seq<Therapist>, leads: seq<Lead>, sessions: seq<Session>)
  {
    && DistinctTherapistIds(therapists)
    && UniqueEmails(therapists)
    && DistinctLeadIds(leads)
    && DistinctSessionIds(sessions)
    && (forall l :: l in leads ==> HasTherapist(therapists, l.therapistId))
    && (forall s :: s in sessions ==> HasTherapist(therapists, s.therapistId))
  }

  /** Under the owner foreign key, a therapist id that is absent owns no lead and no session. */
  lemma AbsentTherapistOwnsNothing(
    therapists: seq<Therapist>, leads: seq<Lead>, sessions: seq<Session>, id: int)
    requires Constraints(therapists, leads, sessions)
    requires First(therapists, TherapistWithId(id)) == None
    ensures Count(leads, LeadOf(id)) == 0
    ensures Count(sessions, SessionOf(id)) == 0
  {
    forall t | t in therapists
      ensures t.id != id
    {
      var k :| 0 <= k < |therapists| && therapists[k] == t;
      assert !TherapistWithId(id)(therapists[k]);
    }
    assert !HasTherapist(therapists, id);
    assert forall j :: 0 <= j < |leads| ==> leads[j] in leads;
    assert forall j :: 0 <= j < |sessions| ==> sessions[j] in sessions;
  }

  /** The invariant of the whole store: the table constraints hold, and every
      id is positive and below the next id its table will hand out. */
  predicate StoreInvariant(therapists: seq<Therapist>, leads: seq<Lead>, sessions: seq<Session>,
                           nextTherapistId: int, nextLeadId: int, nextSessionId: int)
  {
    && Constraints(therapists, leads, sessions)
    && 1 <= nextTherapistId && 1 <= nextLeadId && 1 <= nextSessionId
    && (forall t :: t in therapists ==> 1 <= t.id < nextTherapistId)
    && (forall l :: l in leads ==> 1 <= l.id < nextLeadId)
    && (forall s :: s in sessions ==> 1 <= s.id < nextSessionId)
  }

  /** Inserting leads that take the next ids in turn and whose owners exist keeps the invariant. */
  lemma InsertLeadsKeepsInvariant(therapists: seq<Therapist>, leads: seq<Lead>, sessions: seq<Session>,
                                  nextTherapistId: int, nextLeadId: int, nextSessionId: int, added: seq<Lead>)
    requires StoreInvariant(therapists, leads, sessions, nextTherapistId, nextLeadId, nextSessionId)
    requires forall k :: 0 <= k < |added| ==> added[k].id == nextLeadId + k
    requires forall l :: l in added ==> HasTherapist(therapists, l.therapistId)
    ensures StoreInvariant(therapists, leads + added, sessions, nextTherapistId, nextLeadId + |added|, nextSessionId)
  {
    var all := leads + added;
    forall i, j | 0 <= i < j < |all|
      ensures all[i].id != all[j].id
    {
      if j < |leads| {
        assert all[i] == leads[i] && all[j] == leads[j];
      } else if i < |leads| {
        assert all[i] in leads && all[j] == added[j - |leads|];
      } else {
        assert all[i] == added[i - |leads|] && all[j] == added[j - |leads|];
      }
    }
    forall l | l in all
      ensures HasTherapist(therapists, l.therapistId) && 1 <= l.id < nextLeadId + |added|
    {
      if l !in leads {
        var k :| 0 <= k < |added| && added[k] == l;
      }
    }
  }

  /** Inserting sessions that take the next ids in turn and whose owners exist keeps the invariant. */
  lemma InsertSessionsKeepsInvariant(therapists: seq<Therapist>, leads: seq<Lead>, sessions: seq<Session>,
                                     nextTherapistId: int, nextLeadId: int, nextSessionId: int, added: seq<Session>)
    requires StoreInvariant(therapists, leads, sessions, nextTherapistId, nextLeadId, nextSessionId)
    requires forall k :: 0 <= k < |added| ==> added[k].id == nextSessionId + k
    requires forall s :: s in added ==> HasTherapist(therapists, s.therapistId)
    ensures StoreInvariant(therapists, leads, sessions + added, nextTherapistId, nextLeadId, nextSessionId + |added|)
  {
    var all := sessions + added;
    forall i, j | 0 <= i < j < |all|
      ensures all[i].id != all[j].id
    {
      if j < |sessions| {
        assert all[i] == sessions[i] && all[j] == sessions[j];
      } else if i < |sessions| {
        assert all[i] in sessions && all[j] == added[j - |sessions|];
      } else {
        assert all[i] == added[i - |sessions|] && all[j] == added[j - |sessions|];
      }
    }
    forall s | s in all
      ensures HasTherapist(therapists, s.therapistId) && 1 <= s.id < nextSessionId + |added|
    {
      if s !in sessions {
        var k :| 0 <= k < |added| && added[k] == s;
      }
    }
  }

  /** Inserting a therapist whose id is positive and unused and whose email is
      unused keeps the invariant; the next therapist id moves past the new one. */
  lemma InsertTherapistKeepsInvariant(therapists: seq<Therapist>, leads: seq<Lead>, sessions: seq<Session>,
                                      nextTherapistId: int, nextLeadId: int, nextSessionId: int, t: Therapist)
    requires StoreInvariant(therapists, leads, sessions, nextTherapistId, nextLeadId, nextSessionId)
    requires 1 <= t.id
    requires forall u :: u in therapists ==> u.id != t.id && u.email != t.email
    ensures StoreInvariant(therapists + [t], leads, sessions,
                           if nextTherapistId <= t.id then t.id + 1 else nextTherapistId, nextLeadId, nextSessionId)
  {
    var all := therapists + [t];
    forall i, j | 0 <= i < j < |all|
      ensures all[i].id != all[j].id && all[i].email != all[j].email
    {
      if j < |therapists| {
        assert all[i] == therapists[i] && all[j] == therapists[j];
      } else {
        assert all[i] in therapists && all[j] == t;
      }
    }
    forall id | HasTherapist(therapists, id)
      ensures HasTherapist(all, id)
    {
      var u :| u in therapists && u.id == id;
      assert u in all;
    }
  }

  /** Rewriting a therapist's other columns, keeping its id and email, keeps the invariant. */
  lemma UpdateTherapistKeepsInvariant(therapists: seq<Therapist>, leads: seq<Lead>, sessions: seq<Session>,
                                      nextTherapistId: int, nextLeadId: int, nextSessionId: int, i: nat, t: Therapist)
    requires StoreInvariant(therapists, leads, sessions, nextTherapistId, nextLeadId, nextSessionId)
    requires i < |therapists| && t.id == therapists[i].id && t.email == therapists[i].email
    ensures StoreInvariant(therapists[i := t], leads, sessions, nextTherapistId, nextLeadId, nextSessionId)
  {
    var all := therapists[i := t];
    forall id | HasTherapist(therapists, id)
      ensures HasTherapist(all, id)
    {
      var u :| u in therapists && u.id == id;
      var k :| 0 <= k < |therapists| && therapists[k] == u;
      assert all[k] in all && all[k].id == id;
    }
    forall u | u in all
      ensures 1 <= u.id < nextTherapistId
    {
      var k :| 0 <= k < |all| && all[k] == u;
      assert therapists[k] in therapists;
    }
  }
}
