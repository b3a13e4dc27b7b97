/**
 Retention (backend/src/infrastructure/persistence.py, AsyncpgRetentionRepository;
 backend/src/contexts/ocr/application/retention.py): expired rows are claimed under a token and a
 lease, their objects deleted, and the row deleted by whoever holds the claim.
 */
module Retention {
  import opened Domain
  import opened History
  import opened EventLog
  import opened World
  import opened Commits
  import opened Rely

  // ---- the keys a claim hands out ----

  function KeysOfPage(p: PageData): set<Key> {
    {p.inputKey} + (if p.resultKey.Some? then {p.resultKey.value} else {})
    + (if p.visualKey.Some? then {p.visualKey.value} else {})
  }

  function KeysOfPages(pages: seq<PageData>): set<Key> {
    if pages == [] then {} else KeysOfPages(pages[..|pages| - 1]) + KeysOfPage(pages[|pages| - 1])
  }

  function KeysOfArtifacts(artifacts: set<Artifact>): set<Key> { set a | a in artifacts :: a.key }

  // All page and artifact rows of attempts 1..k.
  function KeysUpTo(h: seq<Entry>, k: nat): set<Key> {
    if k == 0 then {}
    else KeysUpTo(h, k - 1) + KeysOfPages(PagesOfAttempt(h, k)) + KeysOfArtifacts(ArtifactsOfAttempt(h, k))
  }

  // The referenced keys under the job's own prefix.
  function HandedKeys(h: seq<Entry>, id: JobId): set<Key>
    requires h != []
  {
    set key | key in KeysUpTo(h, Last(h).attempt) && key.job == id
  }

  lemma {:induction false} PageKeyIsThere(pages: seq<PageData>, i: nat)
    requires i < |pages|
    ensures KeysOfPage(pages[i]) <= KeysOfPages(pages)
  {
    if i < |pages| - 1 { PageKeyIsThere(pages[..|pages| - 1], i); }
  }

  lemma {:induction false} AttemptKeysAreThere(h: seq<Entry>, k: nat, n: nat)
    requires 1 <= k <= n
    ensures KeysOfPages(PagesOfAttempt(h, k)) <= KeysUpTo(h, n) && KeysOfArtifacts(ArtifactsOfAttempt(h, k)) <= KeysUpTo(h, n)
  {
    if k < n { AttemptKeysAreThere(h, k, n - 1); }
  }

  // The last rows of attempt k, its pages and artifacts, name this key.
  predicate NamedBy(h: seq<Entry>, k: nat, key: Key) {
    || (exists i | 0 <= i < |PagesOfAttempt(h, k)| :: key in KeysOfPage(PagesOfAttempt(h, k)[i]))
    || (exists a | a in ArtifactsOfAttempt(h, k) :: a.key == key)
  }

  lemma {:induction false} KeysOfPagesIff(pages: seq<PageData>, key: Key)
    ensures key in KeysOfPages(pages) <==> exists i | 0 <= i < |pages| :: key in KeysOfPage(pages[i])
  {
    if pages != [] {
      var short := pages[..|pages| - 1];
      KeysOfPagesIff(short, key);
      if i :| 0 <= i < |pages| && key in KeysOfPage(pages[i]) { PageKeyIsThere(pages, i); }
      if i :| 0 <= i < |short| && key in KeysOfPage(short[i]) { assert pages[i] == short[i]; }
    }
  }

  lemma {:induction false} KeysUpToIff(h: seq<Entry>, n: nat, key: Key)
    ensures key in KeysUpTo(h, n) <==> exists k :: 1 <= k <= n && NamedBy(h, k, key)
  {
    hide KeysOfPage;
    if n > 0 {
      KeysUpToIff(h, n - 1, key);
      KeysOfPagesIff(PagesOfAttempt(h, n), key);
      assert key in KeysOfPages(PagesOfAttempt(h, n)) + KeysOfArtifacts(ArtifactsOfAttempt(h, n)) <==> NamedBy(h, n, key);
    }
  }

  /** A key is handed out exactly if it lies under the job's prefix and some attempt's last rows name it. */
  lemma HandedKeysIff(h: seq<Entry>, id: JobId, key: Key)
    requires h != []
    ensures key in HandedKeys(h, id) <==> key.job == id && exists k :: 1 <= k <= Last(h).attempt && NamedBy(h, k, key)
  {
    hide KeysUpTo, NamedBy;
    KeysUpToIff(h, Last(h).attempt, key);
  }

  /** Every object the stored job refers to is among the keys handed out. */
  lemma ReferencedIsHanded(c: Config, w: State, id: JobId, key: Key)
    requires Inv(c, w) && id in w.jobs && w.jobs[id].hist != [] && key.job == id
    requires
      var v := Current(w, id);
      || (exists i | 0 <= i < |v.pages| :: key in KeysOfPage(v.pages[i]))
      || (exists a | a in v.artifacts :: a.key == key)
    ensures key in HandedKeys(w.jobs[id].hist, id)
  {
    hide ObjectsOk, KeptOk, CountersOk, ConstraintsOk, OutboxOk, QueueOk, ClaimsOk, Linked, Mirrors;
    var h := w.jobs[id].hist;
    var v := Current(w, id);
    HasHistory(c, w, id);
    Versions(c, id, h, |h| - 1);
    AttemptKeysAreThere(h, v.attempt, v.attempt);
    if i :| 0 <= i < |v.pages| && key in KeysOfPage(v.pages[i]) { PageKeyIsThere(v.pages, i); }
  }

  /** The keys of a claimed job never change: every claimant is handed the same ones. */
  lemma SameKeysForEveryClaim(c: Config, w: State, x: State, id: JobId)
    requires Inv(c, w) && Evolves(w, x) && id in w.jobs && !IsLive(w, id) && w.jobs[id].hist != []
    ensures id in x.jobs && !IsLive(x, id) && x.jobs[id].hist == w.jobs[id].hist
    ensures HandedKeys(x.jobs[id].hist, id) == HandedKeys(w.jobs[id].hist, id)
  {
    hide Inv;
    assert RecEvolves(w.jobs[id], x.jobs[id]);
  }

  // ---- the steps ----

  predicate Expired(row: Row, expires: int, now: int) {
    expires <= now && (row.Live? || (row.Claimed? && row.lease <= now))
  }

  // May be claimed: finished, expired, and free or with a lapsed lease.
  predicate JobClaimable(w: State, id: JobId, now: int) {
    && id in w.jobs && w.jobs[id].hist != [] && Terminal(Current(w, id).state)
    && Expired(w.jobs[id].row, w.jobs[id].expires, now)
  }

  predicate Referenced(w: State, u: UploadId) {
    exists id :: id in w.jobs && !w.jobs[id].row.Deleted? && w.jobs[id].hist != [] && SpecOf(w, id).upload == u
  }

  predicate UploadClaimable(w: State, u: UploadId, now: int) {
    && u in w.uploads && Expired(w.uploads[u].row, w.uploads[u].expires, now) && !Referenced(w, u)
  }

  function ClaimedJobs(w: State, ids: set<JobId>, token: nat, lease: int): State {
    w.(jobs := map id | id in w.jobs :: if id in ids then w.jobs[id].(row := Claimed(token, lease)) else w.jobs[id],
       tokens := w.tokens + {token})
  }

  function ClaimedUploads(w: State, ids: set<UploadId>, token: nat, lease: int): State {
    w.(uploads := map u | u in w.uploads :: if u in ids then w.uploads[u].(row := Claimed(token, lease)) else w.uploads[u],
       tokens := w.tokens + {token})
  }

  lemma ClaimedStore(c: Config, w: State, ids: set<JobId>, token: nat, lease: int)
    requires JobsOk(c, w) && ObjectsOk(c, w) && KeptOk(c, w) && CountersOk(c, w)
    requires forall id | id in ids :: id in w.jobs && w.jobs[id].hist != [] && Terminal(Current(w, id).state)
    ensures var x := ClaimedJobs(w, ids, token, lease); JobsOk(c, x) && ObjectsOk(c, x) && KeptOk(c, x) && CountersOk(c, x)
  {
    hide Linked, Mirrors, ContentOk, Kept, Used, Pow2;
    var x := ClaimedJobs(w, ids, token, lease);
    forall id | id in x.jobs ensures RecOk(c, id, x.jobs[id]) { assert RecOk(c, id, w.jobs[id]); }
  }

  lemma ClaimedSameWork(w: State, ids: set<JobId>, token: nat, lease: int)
    requires forall id | id in ids :: id in w.jobs && !w.jobs[id].row.Deleted?
    ensures SameWork(w, ClaimedJobs(w, ids, token, lease))
  {}

  lemma ClaimedEvolves(w: State, ids: set<JobId>, token: nat, lease: int)
    requires token !in w.tokens && forall id | id in ids :: id in w.jobs && !w.jobs[id].row.Deleted?
    ensures Evolves(w, ClaimedJobs(w, ids, token, lease))
  {}

  /** Claiming finished jobs under a new token keeps the invariant. */
  lemma ClaimJobsOk(c: Config, w: State, ids: set<JobId>, now: int, token: nat, lease: int)
    requires Inv(c, w) && token !in w.tokens && forall id | id in ids :: JobClaimable(w, id, now)
    ensures
      var x := ClaimedJobs(w, ids, token, lease);
      Inv(c, x) && Evolves(w, x)
  {
    hide JobsOk, ObjectsOk, KeptOk, CountersOk, ConstraintsOk, OutboxOk, SameWork, Evolves, Settled, OnceIssued;
    var x := ClaimedJobs(w, ids, token, lease);
    ClaimedStore(c, w, ids, token, lease);
    ClaimedSameWork(w, ids, token, lease);
    forall id | id in w.jobs ensures w.jobs[id].hist != [] { HasHistory(c, w, id); }
    SameWorkKeeps(w, x);
    ClaimedEvolves(w, ids, token, lease);
    forall i | 0 <= i < w.committed ensures Settled(x, x.queue[i]) { SettledStable(c, w, x, w.queue[i]); }
  }

  // Only upload rows have changed, each in a way claims allow.
  lemma UploadsChanged(c: Config, w: State, x: State)
    requires Inv(c, w) && x == w.(uploads := x.uploads, tokens := x.tokens) && w.tokens <= x.tokens
    requires forall u | u in w.uploads ::
               && u in x.uploads && RowEvolves(w.tokens, w.uploads[u].row, x.uploads[u].row)
               && (x.uploads[u].row.Deleted? ==> w.uploads[u].row.Deleted? || !Referenced(w, u))
    requires forall u | u in x.uploads :: RowClaimOk(x, x.uploads[u].row)
    ensures Inv(c, x) && Evolves(w, x)
  {
    hide ConstraintsOk, OutboxOk, QueueOk, RecOk, ContentOk, Kept, CountersOk, Referenced, RecEvolves;
    SameTables(c, w, x);
    SameCounters(c, w, x);
    forall id | id in w.jobs ensures RecEvolves(w.jobs[id], x.jobs[id]) { SameRec(w.jobs[id]); }
  }

  lemma SameRec(r: JobRec)
    ensures RecEvolves(r, r)
  {}

  lemma SameCounters(c: Config, w: State, x: State)
    requires CountersOk(c, w) && x.jobs == w.jobs && x.calls == w.calls && x.slept == w.slept
    ensures CountersOk(c, x)
  {}

  /** Claiming uploads that no job refers to keeps the invariant. */
  lemma ClaimUploadsOk(c: Config, w: State, ids: set<UploadId>, now: int, token: nat, lease: int)
    requires Inv(c, w) && token !in w.tokens && forall u | u in ids :: UploadClaimable(w, u, now)
    ensures
      var x := ClaimedUploads(w, ids, token, lease);
      Inv(c, x) && Evolves(w, x)
  {
    hide JobsOk, ObjectsOk, KeptOk, CountersOk, ConstraintsOk, OutboxOk, QueueOk, Evolves, Referenced;
    UploadsChanged(c, w, ClaimedUploads(w, ids, token, lease));
  }

  // Jobs, outbox and queue are as before; uploads may have been claimed or, if no job refers to them, deleted.
  lemma SameTables(c: Config, w: State, x: State)
    requires Inv(c, w) && x.jobs == w.jobs && x.outbox == w.outbox && x.outboxIds == w.outboxIds && x.queue == w.queue
    requires x.committed == w.committed && x.index == w.index
    requires forall u | u in w.uploads :: u in x.uploads && (x.uploads[u].row.Deleted? ==> w.uploads[u].row.Deleted? || !Referenced(w, u))
    ensures ConstraintsOk(x) && OutboxOk(x) && QueueOk(x)
  {
    hide JobsOk, ObjectsOk, KeptOk, CountersOk, ClaimsOk;
    forall id | id in x.jobs && !x.jobs[id].row.Deleted?
      ensures x.jobs[id].hist != [] && SpecOf(x, id).upload in x.uploads && !x.uploads[SpecOf(x, id).upload].row.Deleted?
    {
      assert Referenced(w, SpecOf(w, id).upload);
    }
    forall k | k in x.index ensures IsIndexed(x, k) { assert IsIndexed(w, k); }
    forall id | id in x.jobs && !x.jobs[id].row.Deleted? && x.jobs[id].hist != [] ensures HasEntry(x, id) { assert HasEntry(w, id); }
    forall i | 0 <= i < |x.outbox| ensures OutboxRowOk(x, x.outbox[i]) { assert OutboxRowOk(w, w.outbox[i]); }
    forall id, k | id in x.jobs && x.jobs[id].hist != [] && !x.jobs[id].row.Deleted? && 1 <= k <= Current(x, id).attempt
      ensures HasOutboxRow(x, id, k)
    {
      assert HasOutboxRow(w, id, k);
    }
    forall n | n in x.outboxIds ensures OnceIssued(x, x.outboxIds[n].0, x.outboxIds[n].1) {
      assert OnceIssued(w, w.outboxIds[n].0, w.outboxIds[n].1);
    }
    forall i | 0 <= i < |x.queue| ensures OnceIssued(x, x.queue[i].job, x.queue[i].attempt) {
      assert OnceIssued(w, w.queue[i].job, w.queue[i].attempt);
    }
    forall i | 0 <= i < x.committed ensures Settled(x, x.queue[i]) { assert Settled(w, w.queue[i]); }
  }

  // ---- deleting ----

  function Erased(w: State, key: Key): State { w.(objects := w.objects - {key}) }

  /** Deleting an object of a job that is no longer visible keeps the invariant. */
  lemma EraseOk(c: Config, w: State, key: Key)
    requires Inv(c, w) && key.job in w.jobs && !IsLive(w, key.job)
    ensures Inv(c, Erased(w, key)) && Evolves(w, Erased(w, key))
  {
    hide ContentOk, Kept, JobsOk, OutboxOk, QueueOk, ConstraintsOk, CountersOk;
    var x := Erased(w, key);
    SameTables(c, w, x);
    forall id | id in x.jobs && x.jobs[id].row.Live?
      ensures x.jobs[id].hist != [] && Kept(c, x.objects, Last(x.jobs[id].hist))
    {
      ErasedKept(c, w, key, id);
    }
    ErasedJobs(c, w, key);
    SameCounters(c, w, x);
  }

  lemma ErasedJobs(c: Config, w: State, key: Key)
    requires JobsOk(c, w)
    ensures JobsOk(c, Erased(w, key))
  {}

  lemma ErasedKept(c: Config, w: State, key: Key, id: JobId)
    requires Inv(c, w) && id in w.jobs && w.jobs[id].row.Live? && key.job != id
    ensures w.jobs[id].hist != [] && Kept(c, w.objects - {key}, Last(w.jobs[id].hist))
  {
    hide CountersOk, ConstraintsOk, OutboxOk, QueueOk, ClaimsOk, ObjectsOk, Linked, Mirrors;
    HasHistory(c, w, id);
    var v := Current(w, id);
    PagesAreNumbered(c, id, w.jobs[id].hist, |w.jobs[id].hist| - 1);
    assert Kept(c, w.objects, v);
    var objects := w.objects - {key};
    forall i | 0 <= i < |v.pages| ensures PageKept(c, objects, v.pages[i]) { assert PageKept(c, w.objects, v.pages[i]); }
    forall a | a in v.artifacts ensures ArtifactKept(c, objects, v.id, a) { assert ArtifactKept(c, w.objects, v.id, a); }
  }

  function Without(rows: seq<OutboxRow>, id: JobId): (r: seq<OutboxRow>)
    ensures forall x | x in r :: x in rows && x.job != id
    ensures forall x | x in rows && x.job != id :: x in r
  {
    if rows == [] then []
    else
      var rest := Without(rows[..|rows| - 1], id);
      var last := rows[|rows| - 1];
      assert rows == rows[..|rows| - 1] + [last];
      if last.job == id then rest else rest + [last]
  }

  lemma {:induction false} WithoutDistinct(rows: seq<OutboxRow>, id: JobId)
    requires OutboxDistinct(rows)
    ensures OutboxDistinct(Without(rows, id))
  {
    if rows != [] {
      var short := rows[..|rows| - 1];
      WithoutDistinct(short, id);
      var rest := Without(short, id);
      forall i | 0 <= i < |rest| ensures exists j :: 0 <= j < |short| && short[j] == rest[i] {
        assert rest[i] in short;
      }
    }
  }

  // The job row with its pages, artifacts and events, and its outbox rows.
  function CompletedJob(w: State, id: JobId): State
    requires id in w.jobs
  {
    w.(jobs := w.jobs[id := w.jobs[id].(row := Row.Deleted)],
       outbox := Without(w.outbox, id),
       index := map k | k in w.index && w.index[k] != id :: w.index[k])
  }

  lemma CompletedStore(c: Config, w: State, id: JobId)
    requires JobsOk(c, w) && ObjectsOk(c, w) && KeptOk(c, w) && CountersOk(c, w) && ClaimsOk(w)
    requires id in w.jobs && w.jobs[id].row.Claimed?
    ensures
      var x := CompletedJob(w, id);
      JobsOk(c, x) && ObjectsOk(c, x) && KeptOk(c, x) && CountersOk(c, x) && ClaimsOk(x) && Evolves(w, x)
  {
    hide Linked, Mirrors, Chain, ContentOk, Kept, Used, Pow2, Without, Evolves;
    var x := CompletedJob(w, id);
    forall j | j in x.jobs ensures RecOk(c, j, x.jobs[j]) { assert RecOk(c, j, w.jobs[j]); }
    CompletedEvolves(w, id);
  }

  lemma CompletedEvolves(w: State, id: JobId)
    requires id in w.jobs && w.jobs[id].row.Claimed?
    ensures Evolves(w, CompletedJob(w, id))
  {
    hide Without;
  }

  lemma CompletedConstraints(w: State, id: JobId)
    requires ConstraintsOk(w) && id in w.jobs
    ensures ConstraintsOk(CompletedJob(w, id))
  {
    hide Without;
    var x := CompletedJob(w, id);
    forall k | k in x.index ensures IsIndexed(x, k) { assert IsIndexed(w, k); }
    forall j | j in x.jobs && !x.jobs[j].row.Deleted? && x.jobs[j].hist != [] ensures HasEntry(x, j) { assert HasEntry(w, j); }
  }

  lemma CompletedOutbox(w: State, id: JobId)
    requires OutboxOk(w) && id in w.jobs
    ensures OutboxOk(CompletedJob(w, id))
    ensures forall j, k | OnceIssued(w, j, k) :: OnceIssued(CompletedJob(w, id), j, k)
  {
    var x := CompletedJob(w, id);
    WithoutDistinct(w.outbox, id);
    forall i | 0 <= i < |x.outbox| ensures OutboxRowOk(x, x.outbox[i]) { CompletedRow(w, id, i); }
    forall j, k | j in x.jobs && x.jobs[j].hist != [] && !x.jobs[j].row.Deleted? && 1 <= k <= Current(x, j).attempt
      ensures HasOutboxRow(x, j, k)
    {
      assert HasOutboxRow(w, j, k);
      var i :| 0 <= i < |w.outbox| && w.outbox[i].job == j && w.outbox[i].attempt == k;
      assert w.outbox[i] in x.outbox;
    }
    forall n | n in x.outboxIds ensures OnceIssued(x, x.outboxIds[n].0, x.outboxIds[n].1) {
      assert OnceIssued(w, w.outboxIds[n].0, w.outboxIds[n].1);
    }
  }

  lemma CompletedRow(w: State, id: JobId, i: nat)
    requires OutboxOk(w) && id in w.jobs && i < |Without(w.outbox, id)|
    ensures OutboxRowOk(CompletedJob(w, id), Without(w.outbox, id)[i])
  {
    hide OutboxDistinct, AttemptsHaveRows, OnceIssued;
    var r := Without(w.outbox, id)[i];
    assert r in Without(w.outbox, id);
    assert r in w.outbox && r.job != id;
    var j :| 0 <= j < |w.outbox| && w.outbox[j] == r;
    assert OutboxRowOk(w, w.outbox[j]);
  }

  /** Deleting a claimed job keeps the invariant: its outbox rows and its index entry go with it. */
  lemma CompleteJobOk(c: Config, w: State, id: JobId)
    requires Inv(c, w) && id in w.jobs && w.jobs[id].row.Claimed?
    ensures Inv(c, CompletedJob(w, id)) && Evolves(w, CompletedJob(w, id))
  {
    hide JobsOk, ObjectsOk, KeptOk, CountersOk, ConstraintsOk, OutboxOk, ClaimsOk, Evolves, Settled, OnceIssued, Without;
    var x := CompletedJob(w, id);
    CompletedStore(c, w, id);
    CompletedConstraints(w, id);
    CompletedOutbox(w, id);
    forall i | 0 <= i < |x.queue| ensures OnceIssued(x, x.queue[i].job, x.queue[i].attempt) {}
    forall i | 0 <= i < x.committed ensures Settled(x, x.queue[i]) { SettledStable(c, w, x, w.queue[i]); }
  }

  function CompletedUpload(w: State, u: UploadId): State
    requires u in w.uploads
  {
    w.(uploads := w.uploads[u := w.uploads[u].(row := Row.Deleted)])
  }

  /** Deleting an upload that no job refers to keeps the invariant; a referenced one cannot be deleted. */
  lemma CompleteUploadOk(c: Config, w: State, u: UploadId)
    requires Inv(c, w) && u in w.uploads && w.uploads[u].row.Claimed?
    ensures Evolves(w, CompletedUpload(w, u)) && (Inv(c, CompletedUpload(w, u)) <==> !Referenced(w, u))
  {
    hide JobsOk, ObjectsOk, KeptOk, CountersOk, OutboxOk, QueueOk;
    var x := CompletedUpload(w, u);
    if !Referenced(w, u) {
      UploadsChanged(c, w, x);
    } else {
      CompletedEvolvesUpload(w, u);
    }
  }

  lemma CompletedEvolvesUpload(w: State, u: UploadId)
    requires u in w.uploads
    ensures Evolves(w, CompletedUpload(w, u))
  {}

  // ---- leases and tokens ----

  function WithLease(row: Row, token: nat, lease: int): Row {
    if row.Claimed? && row.token == token then Claimed(token, lease) else row
  }

  function DeferredJob(w: State, id: JobId, token: nat, lease: int): State {
    if id in w.jobs then w.(jobs := w.jobs[id := w.jobs[id].(row := WithLease(w.jobs[id].row, token, lease))]) else w
  }

  function DeferredUpload(w: State, u: UploadId, token: nat, lease: int): State {
    if u in w.uploads then w.(uploads := w.uploads[u := w.uploads[u].(row := WithLease(w.uploads[u].row, token, lease))]) else w
  }

  lemma DeferJobOk(c: Config, w: State, id: JobId, token: nat, lease: int)
    requires Inv(c, w)
    ensures Inv(c, DeferredJob(w, id, token, lease)) && Evolves(w, DeferredJob(w, id, token, lease))
  {
    hide Linked, Mirrors, ContentOk, Kept, Used, Pow2, OutboxOk, Settled, OnceIssued, ConstraintsOk, JobsOk, SameWork, Evolves;
    var x := DeferredJob(w, id, token, lease);
    DeferredJobs(c, w, id, token, lease);
    forall j | j in w.jobs ensures w.jobs[j].hist != [] { HasHistory(c, w, j); }
    SameWorkKeeps(w, x);
    forall i | 0 <= i < w.committed ensures Settled(x, x.queue[i]) { SettledStable(c, w, x, w.queue[i]); }
  }

  lemma DeferredJobs(c: Config, w: State, id: JobId, token: nat, lease: int)
    requires JobsOk(c, w)
    ensures var x := DeferredJob(w, id, token, lease); JobsOk(c, x) && SameWork(w, x) && Evolves(w, x)
  {
    hide Mirrors, Chain, Evolves, SameWork, WithLease;
    var x := DeferredJob(w, id, token, lease);
    if id in w.jobs { LeaseChanged(w.tokens, w.jobs[id].row, token, lease); }
    forall j | j in x.jobs ensures RecOk(c, j, x.jobs[j]) { assert RecOk(c, j, w.jobs[j]); }
    DeferredSame(w, id, token, lease);
  }

  lemma DeferredSame(w: State, id: JobId, token: nat, lease: int)
    ensures SameWork(w, DeferredJob(w, id, token, lease)) && Evolves(w, DeferredJob(w, id, token, lease))
  {
    hide SameWork, Evolves, DeferredJob;
    DeferredSameWork(w, id, token, lease);
    DeferredEvolves(w, id, token, lease);
  }

  lemma DeferredSameWork(w: State, id: JobId, token: nat, lease: int)
    ensures SameWork(w, DeferredJob(w, id, token, lease))
  {
    hide WithLease;
    if id in w.jobs { LeaseChanged(w.tokens, w.jobs[id].row, token, lease); }
  }

  lemma DeferredEvolves(w: State, id: JobId, token: nat, lease: int)
    ensures Evolves(w, DeferredJob(w, id, token, lease))
  {
    hide WithLease, RowEvolves;
    forall row: Row ensures RowEvolves(w.tokens, row, row) { SameRow(w.tokens, row); }
    if id in w.jobs { LeaseChanged(w.tokens, w.jobs[id].row, token, lease); }
  }

  lemma SameRow(tokens: set<nat>, row: Row)
    ensures RowEvolves(tokens, row, row)
  {}

  lemma LeaseChanged(tokens: set<nat>, row: Row, token: nat, lease: int)
    ensures var changed := WithLease(row, token, lease);
      && RowEvolves(tokens, row, changed)
      && changed.Live? == row.Live? && changed.Deleted? == row.Deleted?
      && (changed.Claimed? ==> row.Claimed? && changed.token == row.token)
  {}

  lemma DeferUploadOk(c: Config, w: State, u: UploadId, token: nat, lease: int)
    requires Inv(c, w)
    ensures Inv(c, DeferredUpload(w, u, token, lease)) && Evolves(w, DeferredUpload(w, u, token, lease))
  {
    hide JobsOk, ObjectsOk, KeptOk, CountersOk, ConstraintsOk, OutboxOk, QueueOk, Evolves, Referenced, WithLease, RowEvolves;
    forall row: Row ensures RowEvolves(w.tokens, row, row) { SameRow(w.tokens, row); }
    if u in w.uploads {
      LeaseChanged(w.tokens, w.uploads[u].row, token, lease);
    }
    UploadsChanged(c, w, DeferredUpload(w, u, token, lease));
  }

  // The row carries another claim than this one, or none any more.
  predicate Lost(row: Row, token: nat) { !(row.Claimed? && row.token == token) }

  /** A claim once lost is lost for good: no later state shows the row under its token again. */
  lemma LostForGood(w: State, x: State, id: JobId, token: nat)
    requires Evolves(w, x) && id in w.jobs && token in w.tokens && Lost(w.jobs[id].row, token)
    ensures id in x.jobs && Lost(x.jobs[id].row, token) && token in x.tokens
  {}

  lemma LostUploadForGood(w: State, x: State, u: UploadId, token: nat)
    requires Evolves(w, x) && u in w.uploads && token in w.tokens && Lost(w.uploads[u].row, token)
    ensures u in x.uploads && Lost(x.uploads[u].row, token) && token in x.tokens
  {}

  /** Two claims that hold a row at the same time are the same claim. */
  lemma OneHolder(row: Row, token: nat, other: nat)
    requires !Lost(row, token) && !Lost(row, other)
    ensures token == other
  {}

  // ---- what workers see ----

  /** Claims, deletions and deferrals are steps every worker allows; a job being worked on is never touched. */
  lemma RetentionIsAllowed(c: Config, w: State, x: State, j: JobId)
    requires Inv(c, w) && Evolves(w, x)
    requires x.calls == w.calls && x.slept == w.slept
    requires forall id | id in w.jobs :: x.jobs[id].hist == w.jobs[id].hist
    requires forall key | key in w.objects && IsLive(x, key.job) :: key in x.objects && x.objects[key] == w.objects[key]
    ensures Others(c, j, w, x)
  {
    hide Inv;
  }
}
