# Therapist practice store — a Dafny model

This project models the domain core of a small practice-management backend for
independent therapists. The backend keeps therapist profiles, prospective-patient
leads that a therapist can purchase, sessions with a status and a fee, encrypted
session notes, and an earnings summary derived from completed sessions and
purchased leads. A demo therapist (id 1) is created and seeded with sample leads
and sessions the first time it is needed.

The model is one in-memory `Store` (module `Api`) holding the three tables as
sequences plus the next row id of each table. The endpoints that change the tables
are methods on the store: `GetCurrentTherapist` and `CreateTherapistProfile` take no
therapist id, while `PurchaseLead`, `UpdateSession` and `AddSessionNotes` take the
acting therapist's id as a parameter. The read-only endpoints (`list_leads`,
`list_sessions`, `get_earnings`) are pure functions over the tables, also taking that
id. `get_my_profile` and `upload_document` have no counterpart (see "Left out").

Modules, one per source file or concern:

- `Wrappers`: `Option` and `Result`.
- `Query`: the query shapes the endpoints use. `.filter(p).first()` is `First`, `.filter(p)` is `Filter`, `.filter(p).count()` is `Count`, and `.order_by(key.desc())` is `SortDesc`.
- `Models` (models.py): the `Therapist`, `Lead` and `Session` records, their column defaults and the table constraints. The constraints are distinct primary keys, unique emails and owner foreign keys.
- `Schemas` (schemas.py): the request bodies, the `*Out` response projections and `EarningsSummary`.
- `Security` (security.py): the cipher as a pair of functions.
- `Earnings`: the earnings fold and its properties.
- `Api` (main.py): the endpoint bodies and the `Store` class.
- `Scenarios`: call sequences proved from the contracts. These are bootstrapping twice, and a purchase attempted by another therapist and then repeated by the owner.

Deliberate modelling choices:

- Money is an exact `real` (`Models.Money`). The source stores floats and sums them with float rounding.
- Timestamps are abstract integers. "Now" is a parameter, and `timedelta(days=1)` is `OneDay` (86400 seconds).
- The store invariant `Store.Valid` holds the table constraints. It also says every id is positive and below its table's next id. Autoincrement is modelled as a per-table counter, and an explicit insert of id 1 raises the counter past 1. This is an assumption about the database engine (see "Left out").
- `encrypt_text` is the `encrypt` field of a `Security.Cipher` value passed to `AddSessionNotes`.
- The bootstrap can fail. If a record other than id 1 already holds `therapist@example.com`, inserting the demo therapist breaks the unique email constraint. The commit raises and nothing is stored. The model returns `Failure(DemoEmailTaken)` and leaves the store unchanged. Through these endpoints alone this cannot arise from an empty store: the first therapist inserted always receives id 1, so id 1 absent while the demo email is held needs rows written by other means.
- The model keeps three facts of the source that a reader might not expect:
  - Session status is any string. models.py:39 names scheduled/completed/cancelled only in a comment, and `update_session` (main.py:224-225) stores whatever value it is given.
  - A lead's price has no sign constraint (models.py:26).
  - The bootstrap can fail. main.py:61-69 inserts the demo email, which the unique email column (models.py:12) may already hold (see above).
- The bootstrap seeds only when it creates id 1. Suppose the first profile ever submitted through `create_therapist_profile` receives id 1. Then the bootstrap finds that record and never seeds. The model has the same behaviour, because both paths share the therapist id counter.

## Model

| member | source | states |
|---|---|---|
| `Query.First` | main.py:184-188 | the index returned satisfies the filter and no earlier row does; `None` exactly when no row satisfies it (`.first()`) |
| `Query.Filter` | main.py:172-176 | a row is in the result exactly when it is in the table and satisfies the filter; each satisfying row appears exactly as often as in the table, and no other row appears |
| `Query.Count` | main.py:77 | the count is at most the table size, and it is zero exactly when no row satisfies the filter (`.count() == 0`) |
| `Query.CountIsNumberOfMatches` | main.py:96 | the count is exactly the number of rows that satisfy the filter |
| `Query.SortDesc` | main.py:175-176 | the result is a permutation of the input, ordered by descending key (`order_by(... .desc())`) |
| `Models.NewLead` | models.py:19-28 | a new lead stores the given id, owner, name, issue and price; it is purchased only when that is stated; an omitted price is 0.0; its creation time is the insertion time |
| `Models.NewSession` | models.py:32-41 | a new session stores the given id, owner, name, time, status and fee; an omitted status is "scheduled" and an omitted fee 0.0; a new session has no notes |
| `Models.AbsentTherapistOwnsNothing` | models.py:23 | under the owner foreign key, a therapist id that is absent has a lead count and a session count of zero |
| `Models.InsertLeadsKeepsInvariant` | models.py:22-23 | inserting leads that take the next ids in turn and whose owners exist keeps every table constraint, with the lead counter advanced by the number inserted |
| `Models.InsertSessionsKeepsInvariant` | models.py:35-36 | inserting sessions that take the next ids in turn and whose owners exist keeps every table constraint, with the session counter advanced by the number inserted |
| `Models.InsertTherapistKeepsInvariant` | models.py:10-12 | inserting a therapist with a new positive id and an unused email keeps ids distinct and emails unique, with the therapist counter moved past the new id |
| `Models.UpdateTherapistKeepsInvariant` | main.py:124-127 | rewriting name, specialization and bio while keeping id and email keeps every table constraint |
| `Schemas.ToTherapistOut` | schemas.py:11-16 | the profile response carries the record's id, name, email, specialization and bio |
| `Schemas.ToLeadOut` | schemas.py:21-27 | the lead response carries the lead's id, patient, issue, price, purchase flag and creation time |
| `Schemas.ToSessionOut` | schemas.py:32-37 | the session response carries the session's id, patient, time, status and fee |
| `Schemas.TherapistOutIsLossless` | schemas.py:11-16 | the profile response carries every column, so equal responses come from equal records |
| `Schemas.LeadOutHidesOwner` | schemas.py:21-27 | the lead response does not depend on the lead's owner |
| `Schemas.SessionOutHidesNotes` | schemas.py:32-37 | the session response depends on neither the notes ciphertext nor the owner |
| `Security.EncryptText` | security.py:7-8 | under a cipher whose decryption undoes encryption, the token decrypts back to the plaintext |
| `Security.DecryptText` | security.py:10-11 | under such a cipher, a token produced from some plaintext decrypts to that plaintext |
| `Security.EncryptIsInjective` | security.py:7-11 | with a cipher whose decryption undoes encryption, distinct plaintexts never share a ciphertext |
| `Earnings.GetEarnings` | main.py:256-278 | `from_sessions` is the total fee of the caller's completed sessions; `spent_on_leads` is the total price of the caller's purchased leads; `total_earnings == from_sessions`; `net_earnings == total_earnings - spent_on_leads` |
| `Earnings.FromSessionsIsCompletedFees` | main.py:256-261 | summing the fees of the rows the completed-session filter selects equals the record-by-record reference fold |
| `Earnings.SpentOnLeadsIsPurchasedPrices` | main.py:263-268 | summing the prices of the rows the purchased-lead filter selects equals the record-by-record reference fold |
| `Earnings.NoCompletedSessionsEarnNothing` | main.py:256-261 | without a completed session of the caller, session income is zero |
| `Earnings.NoPurchasedLeadsCostNothing` | main.py:263-268 | without a purchased lead of the caller, the amount spent is zero |
| `Earnings.EarningsOfNothingAreZero` | main.py:256-277 | with no qualifying records, all four amounts are zero |
| `Earnings.CompletedFeesOfOwnSessions` | main.py:256-260 | session income is computed from the caller's own sessions alone |
| `Earnings.PurchasedPricesOfOwnLeads` | main.py:263-267 | lead spending is computed from the caller's own leads alone |
| `Earnings.EarningsDependOnlyOnOwnRecords` | main.py:256-268 | two stores that agree on the caller's leads and sessions give the same summary, whatever other therapists own |
| `Earnings.CompletedFeesAfterReplace` | main.py:256-261 | replacing one session changes session income by exactly the difference of the two records' contributions |
| `Earnings.PurchasedPricesAfterReplace` | main.py:263-268 | replacing one lead changes lead spending by exactly the difference of the two records' contributions |
| `Earnings.PurchaseChargesPrice` | main.py:191-196 | purchasing an unpurchased lead of the caller adds its price to `spent_on_leads`, subtracts it from `net_earnings`, and leaves `from_sessions` alone |
| `Earnings.NotesDoNotAffectEarnings` | main.py:247 | attaching notes to a session never changes the summary |
| `Earnings.WorkedExample` | main.py:256-277 | completed 100 plus scheduled 999, and purchased 20 plus unpurchased 30, give total 100, from sessions 100, spent 20, net 80 |
| `Api.SampleLeads` | main.py:78-93 | the lead seed is two leads of the therapist with consecutive fresh ids, unpurchased, created now |
| `Api.SampleSessions` | main.py:97-113 | the session seed is two sessions of the therapist with consecutive fresh ids and no notes: one scheduled a day ahead, one completed a day ago with a positive fee |
| `Api.SeedingAppendsSamples` | main.py:75-114 | for `SeededLeads` and `SeededSessions`: the old table is a prefix of the result; exactly two rows are appended when the therapist's count in that table is zero, and they are the sample rows; otherwise nothing is appended; the two tables are decided independently |
| `Api.SeedingLeavesOwnerRows` | main.py:75-114 | after seeding, the therapist owns at least one lead and at least one session, whatever the tables held before |
| `Api.SeedingKeepsInvariant` | main.py:75-115 | seeding both tables for an existing therapist keeps every table constraint, each counter advancing by the number of rows added |
| `Api.SeedingKeepsPurchases` | main.py:75-115 | seeding only appends, so no lead changes id and no purchase is undone |
| `Api.PurchasesKeptTransitive` | main.py:191-196 | "no purchase is ever undone" composes across any sequence of operations |
| `Api.ApplyUpdate` | main.py:224-227 | a given status replaces the status (any string), a given fee replaces the fee, absent fields and all other columns are kept |
| `Api.ApplyUpdateIsIdempotent` | main.py:224-227 | sending the same partial update twice equals sending it once |
| `Api.EmptyUpdateChangesNothing` | schemas.py:42-44 | an update with neither field given leaves the session unchanged |
| `Api.ListLeads` | main.py:170-178 | the result is a permutation of the caller's leads, newest first by creation time, and contains only the caller's leads |
| `Api.ListSessions` | main.py:200-208 | the result is a permutation of the caller's sessions, latest first by scheduled time, and contains only the caller's sessions |
| `Api.StoredNotesDecrypt` | main.py:247 | stored notes decrypt to exactly the plaintext that was attached |
| `Api.Store.constructor` | models.py:7-43 | an empty store satisfies the invariant, and every id counter starts at 1 |
| `Api.Store.SeedSampleData` | main.py:75-115 | appends the two sample leads only if the therapist's lead count is zero, and independently the two sample sessions only if its session count is zero; the counters advance by the rows added; therapists are unchanged and the invariant is kept |
| `Api.Store.AddTherapist` | main.py:128-137 | inserting a record whose id and email are unused appends it, moves the therapist counter past its id and keeps the invariant; leads and sessions are unchanged |
| `Api.Store.CreateDemoTherapist` | main.py:61-72 | with neither id 1 nor the demo email present, the demo therapist is appended, exactly two sample leads and two sample sessions follow it, and therapist 1 is then present |
| `Api.Store.GetCurrentTherapist` | main.py:58-73 | returns therapist 1 unchanged if present; otherwise fails without change if the demo email is taken; otherwise inserts the demo therapist and seeds exactly two leads and two sessions; a success leaves therapist 1 present, so a second call changes nothing |
| `Api.Store.CreateTherapistProfile` | main.py:121-138 | upsert by email: an existing record keeps its id and email and takes the new name, specialization and bio; otherwise a record with a fresh id is appended; emails stay unique; leads and sessions are unchanged |
| `Api.Store.PurchaseLead` | main.py:182-196 | a miss on (owner, id) is `LeadNotFound` with no change; an already purchased lead gives `AlreadyPurchased` with no change; otherwise only that lead becomes purchased and its id is returned; no purchase is undone, and other owners' leads are untouched |
| `Api.Store.UpdateSession` | main.py:212-231 | a miss on (owner, id) is `SessionNotFound` with no change; otherwise only that session takes the partial update and its new projection is returned; other owners' sessions are untouched |
| `Api.Store.AddSessionNotes` | main.py:235-249 | a miss on (owner, id) is `SessionNotFound` with no change; otherwise only that session's notes become the encryption of the submitted text, replacing earlier notes |
| `Scenarios.BootstrapTwice` | main.py:58-115 | two bootstraps on an empty store leave one therapist, two leads and two sessions, and both return the demo therapist |
| `Scenarios.SpentAfterBuyingFirstSample` | main.py:78-94 | after the first sample lead is bought, the demo therapist's lead spending is 20 |
| `Scenarios.BootstrappedStore` | main.py:58-115 | a fresh store after the bootstrap holds only the demo therapist, the therapist counter is 2, and the leads are the two samples with ids 1 and 2 |
| `Scenarios.DemoAndOtherTherapist` | main.py:121-138 | a profile with a new email submitted after the bootstrap receives id 2 |
| `Scenarios.ScopedPurchase` | main.py:182-196 | another therapist's purchase of lead 1 is not found; the owner's first purchase succeeds and the second reports already purchased; the owner has then spent 20 |

## Left out

- HTTP transport is not modelled. This covers the FastAPI app, CORS, the static mount and the root route (main.py:32-55), and every status code beyond the not-found outcome. `get_my_profile` (main.py:141-144) is only a call to the bootstrap.
- Every endpoint except `create_therapist_profile` first calls `get_current_therapist` and then acts for therapist 1. The model's endpoint methods instead take the therapist id as a parameter. Composing them with `GetCurrentTherapist` is left to the caller, as `Scenarios` does.
- `list_leads` and `list_sessions` answer with `LeadOut` and `SessionOut` rows (main.py:169, main.py:199). `Api.ListLeads` and `Api.ListSessions` return the stored rows, owner column included; the per-row projection is `Schemas.ToLeadOut`/`ToSessionOut`, and mapping it over the list is not modelled.
- `upload_document` (main.py:147-166) is not modelled. It writes bytes to local disk, and no domain record refers to the file.
- Database plumbing is not modelled: table creation, `get_db`, `commit` and `refresh`. Each operation is one atomic step. Concurrency between requests is not modelled.
- Float arithmetic is not modelled. Money is an exact real, so sums have no rounding.
- Wall-clock time is not modelled. `datetime.utcnow` is the parameter `now`. Both seeded leads get the same creation time, while the source reads the clock once per row.
- Fernet is not modelled: key generation at import time, and tokens randomised by IV and timestamp. Encryption is a fixed function inside `Cipher`. Only "stored value is the encryption of the notes" and the decryption round trip are stated.
- `Query.SortDesc`: rows with equal keys keep their store order. SQL leaves the order of ties unspecified.
- The owner column `therapist_id` is nullable in the table. The model stores an integer and keeps an owner foreign-key invariant. The database engine is configured in `database.py`, which is not part of this model, so whether the engine enforces the foreign key is not modelled. Every operation in the core keeps this invariant anyway.
- Id assignment assumes a rowid-style engine: a new row gets one more than the largest id ever assigned, so after an explicit insert of id 1 the next automatic therapist id is 2. An engine with an independent sequence (a PostgreSQL serial, say) could hand out 1 again, and the bootstrap's insert of id 1 would then clash. The model does not capture that behaviour.
