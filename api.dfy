/** The domain bodies of the endpoints in main.py, over one in-memory store.
    Each operation is one atomic step. The bootstrap and the profile upsert
    take no therapist id; the purchase, update, notes and listing operations
    take the acting therapist's id explicitly as their scope. */
module Api {
  import opened Wrappers
  import opened Query
  import opened Models
  import opened Schemas
  import opened Security

  const DemoTherapistId: int := 1
  const DemoEmail: string := "therapist@example.com"
  const DemoTherapist: Therapist :=
    Therapist(DemoTherapistId, "Demo Therapist", DemoEmail, Some("General"), Some("This is a demo therapist profile."))

  /** The one error of the core: a scoped lookup that found nothing (HTTP 404). */
  datatype NotFound = LeadNotFound(leadId: int) | SessionNotFound(sessionId: int)

  /** The demo profile cannot be inserted because another record already holds its email. */
  datatype BootstrapError = DemoEmailTaken

  datatype PurchaseReply = AlreadyPurchased | Purchased(leadId: int)

  datatype NotesReply = NotesStored

  /** The two leads the bootstrap seeds: Alice and Bob, unpurchased, at 20 and 25. */
  function SampleLeads(therapistId: int, firstId: int, now: Timestamp): (r: seq<Lead>)
    ensures |r| == 2 && r[0].id == firstId && r[1].id == firstId + 1
    ensures forall l :: l in r ==> l.therapistId == therapistId && !l.purchased && l.createdAt == now
    ensures forall l :: l in r ==> firstId <= l.id < firstId + 2
  {
    [NewLead(firstId, therapistId, "Alice", Some("Anxiety & stress"), Some(20.0), Some(false), now),
     NewLead(firstId + 1, therapistId, "Bob", Some("Work burnout"), Some(25.0), Some(false), now)]
  }

  /** The two sessions the bootstrap seeds: one scheduled a day ahead, one
      completed a day ago with a nonzero fee. */
  function SampleSessions(therapistId: int, firstId: int, now: Timestamp): (r: seq<Session>)
    ensures |r| == 2 && r[0].id == firstId && r[1].id == firstId + 1
    ensures forall s :: s in r ==> s.therapistId == therapistId && s.notesEncrypted == None
    ensures forall s :: s in r ==> firstId <= s.id < firstId + 2
    ensures r[0].status == StatusScheduled && r[0].scheduledFor == now + OneDay
    ensures r[1].status == StatusCompleted && r[1].scheduledFor == now - OneDay && r[1].fee > 0.0
  {
    [NewSession(firstId, therapistId, "Charlie", now + OneDay, Some(StatusScheduled), Some(100.0)),
     NewSession(firstId + 1, therapistId, "Dana", now - OneDay, Some(StatusCompleted), Some(120.0))]
  }

  /** The lead table after seeding: the sample leads are appended, taking the
      next ids, only when the therapist owns no lead yet. */
  function SeededLeads(leads: seq<Lead>, therapistId: int, nextLeadId: int, now: Timestamp): seq<Lead>
  {
    leads + (if Count(leads, LeadOf(therapistId)) == 0 then SampleLeads(therapistId, nextLeadId, now) else [])
  }

  /** The session table after seeding, under the same rule as the leads. */
  function SeededSessions(sessions: seq<Session>, therapistId: int, nextSessionId: int, now: Timestamp): seq<Session>
  {
    sessions + (if Count(sessions, SessionOf(therapistId)) == 0
                then SampleSessions(therapistId, nextSessionId, now) else [])
  }

  /** Seeding only appends: the old table is a prefix of the new one, and
      exactly the two sample rows are appended when the therapist owns none,
      nothing otherwise; leads and sessions are decided independently. */
  lemma SeedingAppendsSamples(leads: seq<Lead>, sessions: seq<Session>, therapistId: int,
                              nextLeadId: int, nextSessionId: int, now: Timestamp)
    ensures var r := SeededLeads(leads, therapistId, nextLeadId, now);
            && |leads| <= |r| && r[..|leads|] == leads
            && (|r| == |leads| + 2 <==> Count(leads, LeadOf(therapistId)) == 0)
            && (|r| == |leads| <==> Count(leads, LeadOf(therapistId)) != 0)
            && (Count(leads, LeadOf(therapistId)) == 0 ==> r[|leads|..] == SampleLeads(therapistId, nextLeadId, now))
    ensures var r := SeededSessions(sessions, therapistId, nextSessionId, now);
            && |sessions| <= |r| && r[..|sessions|] == sessions
            && (|r| == |sessions| + 2 <==> Count(sessions, SessionOf(therapistId)) == 0)
            && (|r| == |sessions| <==> Count(sessions, SessionOf(therapistId)) != 0)
            && (Count(sessions, SessionOf(therapistId)) == 0 ==>
                  r[|sessions|..] == SampleSessions(therapistId, nextSessionId, now))
  {
  }

  /** After seeding, the therapist owns at least one lead and at least one session. */
  lemma {:induction false} SeedingLeavesOwnerRows(leads: seq<Lead>, sessions: seq<Session>, therapistId: int,
                                                 nextLeadId: int, nextSessionId: int, now: Timestamp)
    ensures Count(SeededLeads(leads, therapistId, nextLeadId, now), LeadOf(therapistId)) > 0
    ensures Count(SeededSessions(sessions, therapistId, nextSessionId, now), SessionOf(therapistId)) > 0
  {
    if Count(leads, LeadOf(therapistId)) == 0 {
      var added := SampleLeads(therapistId, nextLeadId, now);
      assert (leads + added)[|leads|] == added[0];
    } else {
      assert SeededLeads(leads, therapistId, nextLeadId, now) == leads;
    }
    if Count(sessions, SessionOf(therapistId)) == 0 {
      var added := SampleSessions(therapistId, nextSessionId, now);
      assert (sessions + added)[|sessions|] == added[0];
    } else {
      assert SeededSessions(sessions, therapistId, nextSessionId, now) == sessions;
    }
  }

  /** Seeding both tables for an existing therapist keeps the store invariant,
      each counter advancing by the number of rows added. */
  lemma SeedingKeepsInvariant(therapists: seq<Therapist>, leads: seq<Lead>, sessions: seq<Session>,
                              nextTherapistId: int, nextLeadId: int, nextSessionId: int,
                              therapistId: int, now: Timestamp)
    requires StoreInvariant(therapists, leads, sessions, nextTherapistId, nextLeadId, nextSessionId)
    requires HasTherapist(therapists, therapistId)
    ensures var ls := SeededLeads(leads, therapistId, nextLeadId, now);
            var ss := SeededSessions(sessions, therapistId, nextSessionId, now);
            StoreInvariant(therapists, ls, ss, nextTherapistId,
                           nextLeadId + (|ls| - |leads|), nextSessionId + (|ss| - |sessions|))
  {
    var addedLeads: seq<Lead> := [];
    if Count(leads, LeadOf(therapistId)) == 0 {
      addedLeads := SampleLeads(therapistId, nextLeadId, now);
    }
    assert SeededLeads(leads, therapistId, nextLeadId, now) == leads + addedLeads;
    InsertLeadsKeepsInvariant(therapists, leads, sessions, nextTherapistId, nextLeadId, nextSessionId, addedLeads);
    var addedSessions: seq<Session> := [];
    if Count(sessions, SessionOf(therapistId)) == 0 {
      addedSessions := SampleSessions(therapistId, nextSessionId, now);
    }
    assert SeededSessions(sessions, therapistId, nextSessionId, now) == sessions + addedSessions;
    InsertSessionsKeepsInvariant(therapists, leads + addedLeads, sessions, nextTherapistId,
                                 nextLeadId + |addedLeads|, nextSessionId, addedSessions);
  }

  /** Between two states of the lead table: no lead disappears or changes id,
      and no purchased lead becomes unpurchased. */
  predicate PurchasesKept(before: seq<Lead>, after: seq<Lead>)
  {
    && |before| <= |after|
    && forall k :: 0 <= k < |before| ==>
         after[k].id == before[k].id && (before[k].purchased ==> after[k].purchased)
  }

  lemma PurchasesKeptTransitive(a: seq<Lead>, b: seq<Lead>, c: seq<Lead>)
    requires PurchasesKept(a, b) && PurchasesKept(b, c)
    ensures PurchasesKept(a, c)
  {
  }

  /** Seeding only appends: every existing lead keeps its id and purchase flag. */
  lemma SeedingKeepsPurchases(leads: seq<Lead>, therapistId: int, nextLeadId: int, now: Timestamp)
    ensures PurchasesKept(leads, SeededLeads(leads, therapistId, nextLeadId, now))
  {
  }

  /** Only the caller's rows may differ; every other therapist's row is as it was. */
  predicate OtherLeadsUntouched(before: seq<Lead>, after: seq<Lead>, therapistId: int)
  {
    && |before| == |after|
    && forall k :: 0 <= k < |before| && before[k].therapistId != therapistId ==> after[k] == before[k]
  }

  predicate OtherSessionsUntouched(before: seq<Session>, after: seq<Session>, therapistId: int)
  {
    && |before| == |after|
    && forall k :: 0 <= k < |before| && before[k].therapistId != therapistId ==> after[k] == before[k]
  }

  /** The partial update of a session: a given status replaces the status (any
      string is accepted), a given fee replaces the fee, nothing else changes. */
  function ApplyUpdate(s: Session, u: SessionUpdate): (r: Session)
    ensures u.status.Some? ==> r.status == u.status.value
    ensures u.status.None? ==> r.status == s.status
    ensures u.fee.Some? ==> r.fee == u.fee.value
    ensures u.fee.None? ==> r.fee == s.fee
    ensures r.(status := s.status, fee := s.fee) == s
  {
    var s1 := if u.status.Some? then s.(status := u.status.value) else s;
    if u.fee.Some? then s1.(fee := u.fee.value) else s1
  }

  /** Sending the same update twice is the same as sending it once. */
  lemma ApplyUpdateIsIdempotent(s: Session, u: SessionUpdate)
    ensures ApplyUpdate(ApplyUpdate(s, u), u) == ApplyUpdate(s, u)
  {
  }

  /** An update with neither field given leaves the session as it was. */
  lemma EmptyUpdateChangesNothing(s: Session)
    ensures ApplyUpdate(s, EmptyUpdate) == s
  {
  }

  function CreatedAt(l: Lead): int
  {
    l.createdAt
  }

  function ScheduledFor(s: Session): int
  {
    s.scheduledFor
  }

  /** list_leads: exactly the caller's leads (a permutation of them), newest
      first; the response shows each through Schemas.ToLeadOut. */
  function ListLeads(leads: seq<Lead>, therapistId: int): (r: seq<Lead>)
    ensures multiset(r) == multiset(Filter(leads, LeadOf(therapistId)))
    ensures SortedDesc(r, CreatedAt)
    ensures forall l :: l in r <==> l in leads && l.therapistId == therapistId
  {
    var r := SortDesc(Filter(leads, LeadOf(therapistId)), CreatedAt);
    SameMembers(r, Filter(leads, LeadOf(therapistId)));
    r
  }

  /** list_sessions: exactly the caller's sessions (a permutation of them),
      latest scheduled first; the response shows each through Schemas.ToSessionOut. */
  function ListSessions(sessions: seq<Session>, therapistId: int): (r: seq<Session>)
    ensures multiset(r) == multiset(Filter(sessions, SessionOf(therapistId)))
    ensures SortedDesc(r, ScheduledFor)
    ensures forall s :: s in r <==> s in sessions && s.therapistId == therapistId
  {
    var r := SortDesc(Filter(sessions, SessionOf(therapistId)), ScheduledFor);
    SameMembers(r, Filter(sessions, SessionOf(therapistId)));
    r
  }

  /** Stored notes decrypt to the plaintext that was attached. */
  lemma StoredNotesDecrypt(c: Cipher, s: Session, notes: string)
    requires RoundTrips(c)
    requires s.notesEncrypted == Some(EncryptText(c, notes))
    ensures DecryptText(c, s.notesEncrypted.value) == notes
  {
  }

  /** The practice store: the three tables and the next row id of each. */
  class Store {
    var therapists: seq<Therapist>
    var leads: seq<Lead>
    var sessions: seq<Session>
    var nextTherapistId: int
    var nextLeadId: int
    var nextSessionId: int

    /** The table constraints hold, and every stored id is positive and below its table's next id. */
    ghost predicate Valid()
      reads this
    {
      StoreInvariant(therapists, leads, sessions, nextTherapistId, nextLeadId, nextSessionId)
    }

    constructor ()
      ensures Valid()
      ensures therapists == [] && leads == [] && sessions == []
      ensures nextTherapistId == 1 && nextLeadId == 1 && nextSessionId == 1
    {
      therapists, leads, sessions := [], [], [];
      nextTherapistId, nextLeadId, nextSessionId := 1, 1, 1;
    }

    /** seed_sample_data: two sample leads if the therapist owns no lead, and,
        independently, two sample sessions if it owns no session. */
    method SeedSampleData(therapistId: int, now: Timestamp)
      requires Valid() && HasTherapist(therapists, therapistId)
      modifies this
      ensures Valid()
      ensures therapists == old(therapists) && nextTherapistId == old(nextTherapistId)
      ensures leads == SeededLeads(old(leads), therapistId, old(nextLeadId), now)
      ensures sessions == SeededSessions(old(sessions), therapistId, old(nextSessionId), now)
      ensures nextLeadId == old(nextLeadId) + (|leads| - |old(leads)|)
      ensures nextSessionId == old(nextSessionId) + (|sessions| - |old(sessions)|)
    {
      SeedingKeepsInvariant(therapists, leads, sessions, nextTherapistId, nextLeadId, nextSessionId,
                            therapistId, now);
      var newLeads := SeededLeads(leads, therapistId, nextLeadId, now);
      var newNextLeadId := nextLeadId + (|newLeads| - |leads|);
      var newSessions := SeededSessions(sessions, therapistId, nextSessionId, now);
      leads, nextLeadId := newLeads, newNextLeadId;
      sessions, nextSessionId := newSessions, nextSessionId + (|newSessions| - |sessions|);
    }

    /** Insert a therapist record whose id and email no stored record holds;
        the id counter moves past the new id. */
    method AddTherapist(t: Therapist)
      requires Valid() && 1 <= t.id
      requires forall u :: u in therapists ==> u.id != t.id && u.email != t.email
      modifies this
      ensures Valid()
      ensures therapists == old(therapists) + [t]
      ensures nextTherapistId == if old(nextTherapistId) <= t.id then t.id + 1 else old(nextTherapistId)
      ensures leads == old(leads) && sessions == old(sessions)
      ensures nextLeadId == old(nextLeadId) && nextSessionId == old(nextSessionId)
    {
      InsertTherapistKeepsInvariant(therapists, leads, sessions, nextTherapistId, nextLeadId, nextSessionId, t);
      therapists := therapists + [t];
      if nextTherapistId <= t.id {
        nextTherapistId := t.id + 1;
      }
    }

    /** The insert branch of get_current_therapist: add the demo therapist
        (id 1) and seed its sample leads and sessions. */
    method CreateDemoTherapist(now: Timestamp)
      requires Valid()
      requires First(therapists, TherapistWithId(DemoTherapistId)).None?
      requires First(therapists, TherapistWithEmail(DemoEmail)).None?
      modifies this
      ensures Valid()
      ensures therapists == old(therapists) + [DemoTherapist]
      ensures leads == old(leads) + SampleLeads(DemoTherapistId, old(nextLeadId), now)
      ensures sessions == old(sessions) + SampleSessions(DemoTherapistId, old(nextSessionId), now)
      ensures nextTherapistId == (if old(nextTherapistId) <= DemoTherapistId then DemoTherapistId + 1
                                  else old(nextTherapistId))
      ensures nextLeadId == old(nextLeadId) + 2 && nextSessionId == old(nextSessionId) + 2
      ensures First(therapists, TherapistWithId(DemoTherapistId)).Some?
      ensures PurchasesKept(old(leads), leads)
    {
      AbsentTherapistOwnsNothing(therapists, leads, sessions, DemoTherapistId);
      forall u | u in therapists
        ensures u.id != DemoTherapistId && u.email != DemoEmail
      {
        var k :| 0 <= k < |therapists| && therapists[k] == u;
        assert !TherapistWithId(DemoTherapistId)(therapists[k]);
        assert !TherapistWithEmail(DemoEmail)(therapists[k]);
      }
      AddTherapist(DemoTherapist);
      assert DemoTherapist in therapists;
      SeedingKeepsPurchases(leads, DemoTherapistId, nextLeadId, now);
      SeedSampleData(DemoTherapistId, now);
      assert TherapistWithId(DemoTherapistId)(therapists[|therapists| - 1]);
    }

    /** get_current_therapist: the demo therapist (id 1) if present; otherwise
        insert it and seed its sample data. The insert fails, changing nothing,
        when another record already holds the demo email. */
    method GetCurrentTherapist(now: Timestamp) returns (r: Result<Therapist, BootstrapError>)
      requires Valid()
      modifies this
      ensures Valid()
      ensures old(First(therapists, TherapistWithId(DemoTherapistId))).Some? ==>
                unchanged(this) && r.Success? && r.value in therapists && r.value.id == DemoTherapistId
      ensures old(First(therapists, TherapistWithId(DemoTherapistId))).None? &&
              old(First(therapists, TherapistWithEmail(DemoEmail))).Some? ==>
                unchanged(this) && r == Failure(DemoEmailTaken)
      ensures old(First(therapists, TherapistWithId(DemoTherapistId))).None? &&
              old(First(therapists, TherapistWithEmail(DemoEmail))).None? ==>
                && r == Success(DemoTherapist)
                && therapists == old(therapists) + [DemoTherapist]
                && leads == old(leads) + SampleLeads(DemoTherapistId, old(nextLeadId), now)
                && sessions == old(sessions) + SampleSessions(DemoTherapistId, old(nextSessionId), now)
                && nextTherapistId == (if old(nextTherapistId) <= DemoTherapistId then DemoTherapistId + 1
                                       else old(nextTherapistId))
                && nextLeadId == old(nextLeadId) + 2 && nextSessionId == old(nextSessionId) + 2
      ensures r.Success? ==> First(therapists, TherapistWithId(DemoTherapistId)).Some?
      ensures PurchasesKept(old(leads), leads)
    {
      var found := First(therapists, TherapistWithId(DemoTherapistId));
      if found.Some? {
        return Success(therapists[found.value]);
      }
      if First(therapists, TherapistWithEmail(DemoEmail)).Some? {
        // The unique email constraint rejects the insert and the transaction rolls back.
        return Failure(DemoEmailTaken);
      }
      CreateDemoTherapist(now);
      r := Success(DemoTherapist);
    }

    /** create_therapist_profile: upsert keyed by email. An existing record
        keeps its id and email and takes the submitted name, specialization
        and bio (absent ones clear the stored value); otherwise a new record is added. */
    method CreateTherapistProfile(payload: TherapistCreate) returns (out: TherapistOut)
      requires Valid()
      modifies this
      ensures Valid()
      ensures leads == old(leads) && sessions == old(sessions)
      ensures nextLeadId == old(nextLeadId) && nextSessionId == old(nextSessionId)
      ensures var found := old(First(therapists, TherapistWithEmail(payload.email)));
              found.Some? ==>
                && found.value < |old(therapists)|
                && therapists == old(therapists)[found.value := old(therapists)[found.value].(
                     fullName := payload.fullName, specialization := payload.specialization, bio := payload.bio)]
                && nextTherapistId == old(nextTherapistId)
                && out == ToTherapistOut(therapists[found.value])
      ensures var found := old(First(therapists, TherapistWithEmail(payload.email)));
              found.None? ==>
                && therapists == old(therapists) + [Therapist(old(nextTherapistId), payload.fullName, payload.email,
                                                              payload.specialization, payload.bio)]
                && nextTherapistId == old(nextTherapistId) + 1
                && out == ToTherapistOut(therapists[|therapists| - 1])
      ensures out.email == payload.email && out.fullName == payload.fullName
      ensures out.specialization == payload.specialization && out.bio == payload.bio
    {
      var found := First(therapists, TherapistWithEmail(payload.email));
      if found.Some? {
        var i := found.value;
        var t := therapists[i].(fullName := payload.fullName, specialization := payload.specialization, bio := payload.bio);
        UpdateTherapistKeepsInvariant(therapists, leads, sessions, nextTherapistId, nextLeadId, nextSessionId, i, t);
        therapists := therapists[i := t];
        out := ToTherapistOut(t);
      } else {
        var t := Therapist(nextTherapistId, payload.fullName, payload.email, payload.specialization, payload.bio);
        forall u | u in therapists
          ensures u.id != t.id && u.email != t.email
        {
          var k :| 0 <= k < |therapists| && therapists[k] == u;
          assert !TherapistWithEmail(payload.email)(therapists[k]);
        }
        AddTherapist(t);
        out := ToTherapistOut(t);
      }
    }

    /** purchase_lead: a scoped miss is NotFound; an already purchased lead is
        left as it is; otherwise that one lead becomes purchased. */
    method PurchaseLead(therapistId: int, leadId: int) returns (r: Result<PurchaseReply, NotFound>)
      requires Valid()
      modifies this
      ensures Valid()
      ensures therapists == old(therapists) && sessions == old(sessions)
      ensures nextTherapistId == old(nextTherapistId) && nextLeadId == old(nextLeadId)
      ensures nextSessionId == old(nextSessionId)
      ensures match old(First(leads, LeadKey(therapistId, leadId)))
              case None => r == Failure(LeadNotFound(leadId)) && leads == old(leads)
              case Some(i) =>
                if old(leads)[i].purchased then r == Success(AlreadyPurchased) && leads == old(leads)
                else r == Success(Purchased(leadId)) && leads == old(leads)[i := old(leads)[i].(purchased := true)]
      ensures PurchasesKept(old(leads), leads)
      ensures OtherLeadsUntouched(old(leads), leads, therapistId)
    {
      var found := First(leads, LeadKey(therapistId, leadId));
      if found.None? {
        return Failure(LeadNotFound(leadId));
      }
      var i := found.value;
      if leads[i].purchased {
        return Success(AlreadyPurchased);
      }
      leads := leads[i := leads[i].(purchased := true)];
      r := Success(Purchased(leads[i].id));
    }

    /** update_session: a scoped miss is NotFound; otherwise the partial update
        is applied to that one session and its new state is returned. */
    method UpdateSession(therapistId: int, sessionId: int, payload: SessionUpdate)
      returns (r: Result<SessionOut, NotFound>)
      requires Valid()
      modifies this
      ensures Valid()
      ensures therapists == old(therapists) && leads == old(leads)
      ensures nextTherapistId == old(nextTherapistId) && nextLeadId == old(nextLeadId)
      ensures nextSessionId == old(nextSessionId)
      ensures match old(First(sessions, SessionKey(therapistId, sessionId)))
              case None => r == Failure(SessionNotFound(sessionId)) && sessions == old(sessions)
              case Some(i) =>
                && i < |old(sessions)|
                && sessions == old(sessions)[i := ApplyUpdate(old(sessions)[i], payload)]
                && r == Success(ToSessionOut(ApplyUpdate(old(sessions)[i], payload)))
      ensures OtherSessionsUntouched(old(sessions), sessions, therapistId)
    {
      var found := First(sessions, SessionKey(therapistId, sessionId));
      if found.None? {
        return Failure(SessionNotFound(sessionId));
      }
      var i := found.value;
      var updated := ApplyUpdate(sessions[i], payload);
      sessions := sessions[i := updated];
      r := Success(ToSessionOut(updated));
    }

    /** add_session_notes: a scoped miss is NotFound; otherwise the session's
        notes become the ciphertext of the submitted text, replacing any earlier
        ciphertext; the plaintext itself is not stored. */
    method AddSessionNotes(therapistId: int, sessionId: int, payload: SessionNotesCreate, cipher: Cipher)
      returns (r: Result<NotesReply, NotFound>)
      requires Valid()
      modifies this
      ensures Valid()
      ensures therapists == old(therapists) && leads == old(leads)
      ensures nextTherapistId == old(nextTherapistId) && nextLeadId == old(nextLeadId)
      ensures nextSessionId == old(nextSessionId)
      ensures match old(First(sessions, SessionKey(therapistId, sessionId)))
              case None => r == Failure(SessionNotFound(sessionId)) && sessions == old(sessions)
              case Some(i) =>
                && r == Success(NotesStored)
                && sessions == old(sessions)[i := old(sessions)[i].(
                     notesEncrypted := Some(EncryptText(cipher, payload.notes)))]
      ensures OtherSessionsUntouched(old(sessions), sessions, therapistId)
    {
      var found := First(sessions, SessionKey(therapistId, sessionId));
      if found.None? {
        return Failure(SessionNotFound(sessionId));
      }
      var i := found.value;
      sessions := sessions[i := sessions[i].(notesEncrypted := Some(EncryptText(cipher, payload.notes)))];
      r := Success(NotesStored);
    }
  }
}
