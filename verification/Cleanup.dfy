/**
 The retention repository and its cleanup service as a process: claim_expired, complete, defer and
 run_batch, with any number of other cleanup processes, workers and requests in between.
 */
module Cleanup {
  import opened Domain
  import opened History
  import opened World
  import opened Commits
  import opened Rely
  import opened Retention

  datatype Candidate =
    | JobCandidate(job: JobId, token: nat, keys: set<Key>)
    | UploadCandidate(upload: UploadId, token: nat)

  datatype BatchResult = BatchResult(claimed: nat, completed: nat, deferred: nat, deletedObjects: nat)

  datatype CleanupError = ValueError | Down

  // ---- the oldest expired rows ----

  // ORDER BY expires_at, id
  predicate NotAfter(pool: map<nat, int>, a: nat, b: nat)
    requires a in pool && b in pool
  {
    pool[a] < pool[b] || (pool[a] == pool[b] && a <= b)
  }

  // The first limit rows of the pool in order.
  ghost predicate IsOldest(pool: map<nat, int>, ids: seq<nat>, limit: nat) {
    && |ids| <= limit && (forall i | 0 <= i < |ids| :: ids[i] in pool)
    && (forall i, j | 0 <= i < j < |ids| :: ids[i] != ids[j] && NotAfter(pool, ids[i], ids[j]))
    && (forall b | b in pool && b !in ids :: |ids| == limit && forall i | 0 <= i < |ids| :: NotAfter(pool, ids[i], b))
  }

  method First(pool: map<nat, int>, rest: set<nat>) returns (m: nat)
    requires rest != {} && rest <= pool.Keys
    ensures m in rest && forall b | b in rest :: NotAfter(pool, m, b)
  {
    m :| m in rest;
    var seen := {m};
    while rest - seen != {}
      invariant seen <= rest && m in seen && forall b | b in seen :: NotAfter(pool, m, b)
      decreases rest - seen
    {
      var b :| b in rest - seen;
      seen := seen + {b};
      if !NotAfter(pool, m, b) { m := b; }
    }
    assert forall b | b in rest :: b in seen || b in rest - seen;
  }

  method PickOldest(pool: map<nat, int>, limit: nat) returns (ids: seq<nat>)
    ensures IsOldest(pool, ids, limit)
  {
    ids := [];
    var rest := pool.Keys;
    while rest != {} && |ids| < limit
      invariant |ids| <= limit && rest <= pool.Keys && forall b | b in pool :: b in rest <==> b !in ids
      invariant forall i | 0 <= i < |ids| :: ids[i] in pool && forall b | b in rest :: NotAfter(pool, ids[i], b)
      invariant forall i, j | 0 <= i < j < |ids| :: ids[i] != ids[j] && NotAfter(pool, ids[i], ids[j])
      decreases rest
    {
      var m := First(pool, rest);
      assert m in rest;
      rest := rest - {m};
      ids := ids + [m];
    }
  }

  // ---- what a candidate stands for ----

  // A claim that was made: its token was drawn, and its keys are those of the frozen row.
  ghost predicate Handed(w: State, k: Candidate) {
    && k.token in w.tokens
    && match k
       case JobCandidate(id, _, keys) =>
         id in w.jobs && w.jobs[id].hist != [] && !IsLive(w, id) && keys == HandedKeys(w.jobs[id].hist, id)
       case UploadCandidate(u, _) => u in w.uploads && !w.uploads[u].row.Live?
  }

  // The row is no longer this claim's.
  ghost predicate ClaimLost(w: State, k: Candidate)
    requires Handed(w, k)
  {
    match k
    case JobCandidate(id, token, _) => Lost(w.jobs[id].row, token)
    case UploadCandidate(u, token) => Lost(w.uploads[u].row, token)
  }

  ghost predicate Gone(w: State, k: Candidate)
    requires Handed(w, k)
  {
    match k
    case JobCandidate(id, _, _) => w.jobs[id].row.Deleted?
    case UploadCandidate(u, _) => w.uploads[u].row.Deleted?
  }

  /** A candidate keeps its meaning, and a lost claim stays lost, whatever the others do. */
  lemma HandedStays(c: Config, w: State, x: State, k: Candidate)
    requires Inv(c, w) && Evolves(w, x) && Handed(w, k)
    ensures Handed(x, k) && (ClaimLost(w, k) ==> ClaimLost(x, k)) && (Gone(w, k) ==> Gone(x, k))
  {
    hide Inv, HandedKeys;
    match k
    case JobCandidate(id, token, _) =>
      SameKeysForEveryClaim(c, w, x, id);
      if Lost(w.jobs[id].row, token) { LostForGood(w, x, id, token); }
    case UploadCandidate(u, token) =>
      if Lost(w.uploads[u].row, token) { LostUploadForGood(w, x, u, token); }
  }

  lemma AllHandedStay(c: Config, w: State, x: State, ks: seq<Candidate>)
    requires Inv(c, w) && Evolves(w, x) && forall k | k in ks :: Handed(w, k)
    ensures forall k | k in ks :: Handed(x, k) && (Gone(w, k) ==> Gone(x, k))
  {
    hide Inv, Evolves, Handed, Gone, ClaimLost;
    forall k | k in ks ensures Handed(x, k) && (Gone(w, k) ==> Gone(x, k)) { HandedStays(c, w, x, k); }
  }

  // Under its own token the row is claimed until the claim is lost.
  ghost predicate Holds(w: State, k: Candidate)
    requires Handed(w, k)
  {
    !ClaimLost(w, k)
  }

  // What complete and defer do to the tables.
  function Completion(w: State, k: Candidate): State {
    match k
    case JobCandidate(id, _, _) => if id in w.jobs then CompletedJob(w, id) else w
    case UploadCandidate(u, _) => if u in w.uploads then CompletedUpload(w, u) else w
  }

  function Deferral(w: State, k: Candidate, lease: int): State {
    match k
    case JobCandidate(id, token, _) => DeferredJob(w, id, token, lease)
    case UploadCandidate(u, token) => DeferredUpload(w, u, token, lease)
  }

  /** Deferring under a lost claim changes nothing. */
  lemma StaleDeferral(w: State, k: Candidate, lease: int)
    requires Handed(w, k) && ClaimLost(w, k)
    ensures Deferral(w, k, lease) == w
  {}

  // The row may be claimed again from that time on.
  ghost predicate LeasedUntil(w: State, k: Candidate, lease: int)
    requires Handed(w, k)
  {
    match k
    case JobCandidate(id, token, _) => w.jobs[id].row == Claimed(token, lease)
    case UploadCandidate(u, token) => w.uploads[u].row == Claimed(token, lease)
  }

  lemma DeferredUntil(w: State, k: Candidate, lease: int)
    requires Handed(w, k) && Handed(Deferral(w, k, lease), k)
    ensures ClaimLost(Deferral(w, k, lease), k) || LeasedUntil(Deferral(w, k, lease), k, lease)
  {
    hide HandedKeys;
  }

  lemma DeferralOk(c: Config, w: State, k: Candidate, lease: int)
    requires Inv(c, w)
    ensures Inv(c, Deferral(w, k, lease)) && Evolves(w, Deferral(w, k, lease))
  {
    hide Inv, Evolves, DeferredJob, DeferredUpload;
    match k
    case JobCandidate(id, token, _) => DeferJobOk(c, w, id, token, lease);
    case UploadCandidate(u, token) => DeferUploadOk(c, w, u, token, lease);
  }

  // DELETE ... WHERE retention_claim_token = ... (AND NOT EXISTS a job, for an upload)
  ghost predicate MayComplete(w: State, k: Candidate)
    requires Handed(w, k)
  {
    Holds(w, k) && (k.UploadCandidate? ==> !Referenced(w, k.upload))
  }

  lemma CompletionOk(c: Config, w: State, k: Candidate)
    requires Inv(c, w) && Handed(w, k) && MayComplete(w, k)
    ensures Inv(c, Completion(w, k)) && Evolves(w, Completion(w, k)) && Handed(Completion(w, k), k) && Gone(Completion(w, k), k)
  {
    hide Inv, Evolves, CompletedJob, CompletedUpload, HandedKeys;
    match k
    case JobCandidate(id, _, _) =>
      CompleteJobOk(c, w, id);
      HandedStays(c, w, CompletedJob(w, id), k);
      CompletedIsDeleted(w, id);
    case UploadCandidate(u, _) =>
      CompleteUploadOk(c, w, u);
      HandedStays(c, w, CompletedUpload(w, u), k);
      UploadIsDeleted(w, u);
  }

  lemma CompletedIsDeleted(w: State, id: JobId)
    requires id in w.jobs
    ensures CompletedJob(w, id).jobs[id].row.Deleted?
  {}

  lemma UploadIsDeleted(w: State, u: UploadId)
    requires u in w.uploads
    ensures CompletedUpload(w, u).uploads[u].row.Deleted?
  {}

  function KeysOf(k: Candidate): set<Key> {
    if k.JobCandidate? then k.keys else {}
  }

  /**
   What a completed claim leaves: a stored object of the job is still there exactly if no attempt's
   last rows name it.
   */
  lemma SurvivesIff(w: State, k: Candidate, key: Key)
    requires Handed(w, k) && k.JobCandidate? && key.job == k.job && key in w.objects
    ensures
      var h := w.jobs[k.job].hist;
      key in Completion(w.(objects := w.objects - KeysOf(k)), k).objects
      <==> forall n | 1 <= n <= Last(h).attempt :: !NamedBy(h, n, key)
  {
    hide HandedKeys, NamedBy, Without;
    HandedKeysIff(w.jobs[k.job].hist, k.job, key);
  }

  lemma KeyErasable(w: State, k: Candidate, key: Key)
    requires Handed(w, k) && key in KeysOf(k)
    ensures key.job in w.jobs && !IsLive(w, key.job)
  {}

  function SetOfIds(ids: seq<nat>): set<nat> { set id | id in ids }

  // The rows the claiming statement may take, with their expiry.
  ghost predicate IsJobPool(w: State, now: int, locked: set<JobId>, pool: map<JobId, int>) {
    && (forall id | id in pool :: JobClaimable(w, id, now) && id !in locked && pool[id] == w.jobs[id].expires)
    && (forall id | JobClaimable(w, id, now) && id !in locked :: id in pool)
  }

  ghost predicate IsUploadPool(w: State, now: int, locked: set<UploadId>, pool: map<UploadId, int>) {
    && (forall u | u in pool :: UploadClaimable(w, u, now) && u !in locked && pool[u] == w.uploads[u].expires)
    && (forall u | UploadClaimable(w, u, now) && u !in locked :: u in pool)
  }

  function JobCandidates(w: State, ids: seq<JobId>, token: nat): (r: seq<Candidate>)
    requires forall id | id in ids :: id in w.jobs && w.jobs[id].hist != []
    ensures |r| == |ids| && forall i | 0 <= i < |ids| :: r[i] == JobCandidate(ids[i], token, HandedKeys(w.jobs[ids[i]].hist, ids[i]))
  {
    seq(|ids|, i requires 0 <= i < |ids| => JobCandidate(ids[i], token, HandedKeys(w.jobs[ids[i]].hist, ids[i])))
  }

  function UploadCandidates(ids: seq<UploadId>, token: nat): (r: seq<Candidate>)
    ensures |r| == |ids| && forall i | 0 <= i < |ids| :: r[i] == UploadCandidate(ids[i], token)
  {
    seq(|ids|, i requires 0 <= i < |ids| => UploadCandidate(ids[i], token))
  }

  predicate SameTarget(a: Candidate, b: Candidate) {
    (a.JobCandidate? && b.JobCandidate? && a.job == b.job) || (a.UploadCandidate? && b.UploadCandidate? && a.upload == b.upload)
  }

  predicate DifferentRows(ks: seq<Candidate>) {
    forall i, j | 0 <= i < j < |ks| :: !SameTarget(ks[i], ks[j])
  }

  // What the claiming transaction found at its state.
  ghost predicate ClaimableAt(w: State, k: Candidate, now: int) {
    match k
    case JobCandidate(id, _, _) => JobClaimable(w, id, now)
    case UploadCandidate(u, _) => UploadClaimable(w, u, now)
  }

  // A candidate fresh from its claim.
  ghost predicate Claim(at: State, w: State, k: Candidate, now: int, lease: int) {
    ClaimableAt(at, k, now) && k.token !in at.tokens && Handed(w, k) && MayComplete(w, k) && LeasedUntil(w, k, lease)
  }

  lemma JobsClaimed(c: Config, at: State, now: int, ids: seq<JobId>, token: nat, lease: int)
    requires Inv(c, at) && token !in at.tokens && forall id | id in ids :: JobClaimable(at, id, now)
    ensures
      var w := ClaimedJobs(at, SetOfIds(ids), token, lease);
      && (forall id | id in ids :: id in w.jobs && w.jobs[id].hist != [])
      && forall k | k in JobCandidates(w, ids, token) :: Claim(at, w, k, now, lease)
  {
    hide Inv, HandedKeys;
  }

  lemma UploadsClaimed(at: State, w: State, now: int, ids: seq<UploadId>, token: nat, lease: int)
    requires w.uploads == at.uploads && token !in w.tokens && at.tokens <= w.tokens
    requires forall u | u in ids :: UploadClaimable(at, u, now) && UploadClaimable(w, u, now)
    ensures forall k | k in UploadCandidates(ids, token) :: Claim(at, ClaimedUploads(w, SetOfIds(ids), token, lease), k, now, lease)
  {
    forall k | k in UploadCandidates(ids, token) ensures Claim(at, ClaimedUploads(w, SetOfIds(ids), token, lease), k, now, lease) {
      UploadClaimed(at, w, now, ids, token, lease, k.upload);
    }
  }

  lemma UploadClaimed(at: State, w: State, now: int, ids: seq<UploadId>, token: nat, lease: int, u: UploadId)
    requires w.uploads == at.uploads && token !in w.tokens && at.tokens <= w.tokens && u in ids
    requires UploadClaimable(at, u, now) && UploadClaimable(w, u, now)
    ensures Claim(at, ClaimedUploads(w, SetOfIds(ids), token, lease), UploadCandidate(u, token), now, lease)
  {
    hide Referenced;
    SameReferences(w, ClaimedUploads(w, SetOfIds(ids), token, lease), u);
  }

  // References depend on the jobs that are not deleted, not on who claims them.
  lemma SameReferences(w: State, x: State, u: UploadId)
    requires x.jobs.Keys == w.jobs.Keys
    requires forall id | id in w.jobs :: x.jobs[id].hist == w.jobs[id].hist && x.jobs[id].row.Deleted? == w.jobs[id].row.Deleted?
    ensures Referenced(x, u) == Referenced(w, u)
  {
    if id :| id in w.jobs && !w.jobs[id].row.Deleted? && w.jobs[id].hist != [] && SpecOf(w, id).upload == u {
      assert id in x.jobs && !x.jobs[id].row.Deleted? && x.jobs[id].hist != [] && SpecOf(x, id).upload == u;
    }
    if id :| id in x.jobs && !x.jobs[id].row.Deleted? && x.jobs[id].hist != [] && SpecOf(x, id).upload == u {
      assert id in w.jobs && !w.jobs[id].row.Deleted? && w.jobs[id].hist != [] && SpecOf(w, id).upload == u;
    }
  }

  // Claiming uploads leaves the job candidates as they are.
  lemma JobClaimsStay(at: State, w: State, now: int, ids: set<UploadId>, token: nat, lease: int, k: Candidate)
    requires Claim(at, w, k, now, lease) && k.JobCandidate?
    ensures Claim(at, ClaimedUploads(w, ids, token, lease), k, now, lease)
  {
    hide HandedKeys;
  }

  // Cleaning one row leaves what may be done with the others.
  lemma OthersMayComplete(w: State, k: Candidate, other: Candidate)
    requires Handed(w, k) && Handed(w, other) && !SameTarget(k, other) && MayComplete(w, other)
    ensures
      var x := Completion(w.(objects := w.objects - KeysOf(k)), k);
      Handed(x, other) && MayComplete(x, other)
  {
    hide HandedKeys, Without;
  }

  lemma SameClaims(w: State, x: State, k: Candidate)
    requires Handed(w, k) && Handed(x, k) && x == w.(objects := x.objects)
    ensures MayComplete(x, k) == MayComplete(w, k)
  {
    hide HandedKeys;
    if k.UploadCandidate? { assert Referenced(x, k.upload) == Referenced(w, k.upload); }
  }

  // Claiming jobs does not free any upload.
  lemma SameUploads(w: State, ids: seq<JobId>, token: nat, lease: int, now: int)
    requires forall id | id in ids :: JobClaimable(w, id, now)
    ensures ClaimedJobs(w, SetOfIds(ids), token, lease).uploads == w.uploads
    ensures forall u: nat :: UploadClaimable(w, u, now) <==> UploadClaimable(ClaimedJobs(w, SetOfIds(ids), token, lease), u, now)
  {
    hide Referenced;
    forall u: nat ensures UploadClaimable(w, u, now) <==> UploadClaimable(ClaimedJobs(w, SetOfIds(ids), token, lease), u, now) {
      SameReferences(w, ClaimedJobs(w, SetOfIds(ids), token, lease), u);
    }
  }

  lemma TokensGrow(w: State, x: State)
    requires Evolves(w, x)
    ensures w.tokens <= x.tokens
  {}

  // The keys handed out in all.
  function KeyCount(ks: seq<Candidate>): nat {
    if ks == [] then 0 else KeyCount(ks[..|ks| - 1]) + |KeysOf(ks[|ks| - 1])|
  }

  lemma DifferentTargets(ks: seq<Candidate>, i: nat, j: nat)
    requires DifferentRows(ks) && i < j < |ks|
    ensures !SameTarget(ks[i], ks[j])
  {}

  lemma NothingDueLeft(at: State, w: State, ks: seq<Candidate>, now: int, limit: nat)
    requires |ks| < limit && TakesJobs(at, ks, now, limit) && TakesUploads(at, ks, now, limit)
    requires forall k | k in ks :: Handed(w, k) && Gone(w, k)
    ensures forall id | JobDue(at, id, now) :: id in w.jobs && w.jobs[id].row.Deleted?
    ensures forall u | UploadDue(at, u, now) :: u in w.uploads && w.uploads[u].row.Deleted?
  {
    hide JobDue, UploadDue, HandedKeys;
    forall id | JobDue(at, id, now) ensures id in w.jobs && w.jobs[id].row.Deleted? {
      var k :| k in ks && k.JobCandidate? && k.job == id;
    }
    forall u | UploadDue(at, u, now) ensures u in w.uploads && w.uploads[u].row.Deleted? {
      var k :| k in ks && k.UploadCandidate? && k.upload == u;
    }
  }

  // ---- what the claims say, in the terms of the statement ----

  /** A claimed job was finished and expired, and free or with a lapsed lease; it is now under the new token and lease. */
  lemma ClaimedJobIs(at: State, w: State, k: Candidate, now: int, lease: int)
    requires Claim(at, w, k, now, lease) && k.JobCandidate?
    ensures
      var id := k.job;
      && id in at.jobs && at.jobs[id].hist != [] && Current(at, id).state in {JobState.Succeeded, Failed, Cancelled}
      && at.jobs[id].expires <= now && !at.jobs[id].row.Deleted? && (at.jobs[id].row.Claimed? ==> at.jobs[id].row.lease <= now)
      && id in w.jobs && w.jobs[id].row == Claimed(k.token, lease) && k.token !in at.tokens
  {
    hide HandedKeys;
  }

  /** A claimed upload was expired, free or with a lapsed lease, and no stored job refers to it. */
  lemma ClaimedUploadIs(at: State, w: State, k: Candidate, now: int, lease: int)
    requires Claim(at, w, k, now, lease) && k.UploadCandidate?
    ensures
      var u := k.upload;
      && u in at.uploads && at.uploads[u].expires <= now && !at.uploads[u].row.Deleted?
      && (at.uploads[u].row.Claimed? ==> at.uploads[u].row.lease <= now)
      && (forall id | id in at.jobs && !at.jobs[id].row.Deleted? && at.jobs[id].hist != [] :: SpecOf(at, id).upload != u)
      && u in w.uploads && w.uploads[u].row == Claimed(k.token, lease) && k.token !in at.tokens
  {}

  // The rows due at a state: what a claim may take.
  predicate JobDue(w: State, id: JobId, now: int) {
    && id in w.jobs && w.jobs[id].hist != [] && Current(w, id).state in {JobState.Succeeded, Failed, Cancelled}
    && w.jobs[id].expires <= now && !w.jobs[id].row.Deleted? && (w.jobs[id].row.Claimed? ==> w.jobs[id].row.lease <= now)
  }

  predicate UploadDue(w: State, u: UploadId, now: int) {
    && u in w.uploads && w.uploads[u].expires <= now && !w.uploads[u].row.Deleted?
    && (w.uploads[u].row.Claimed? ==> w.uploads[u].row.lease <= now)
    && forall id | id in w.jobs && !w.jobs[id].row.Deleted? && w.jobs[id].hist != [] :: SpecOf(w, id).upload != u
  }

  lemma DueIsClaimable(w: State, now: int)
    ensures forall id: nat :: JobDue(w, id, now) <==> JobClaimable(w, id, now)
    ensures forall u: nat :: UploadDue(w, u, now) <==> UploadClaimable(w, u, now)
  {}

  // ORDER BY expires_at, id
  predicate Sooner(a: int, i: nat, b: int, j: nat) { a < b || (a == b && i < j) }

  predicate JobsInOrder(at: State, ks: seq<Candidate>) {
    forall i, j | 0 <= i < j < |ks| && ks[i].JobCandidate? && ks[j].JobCandidate? && ks[i].job in at.jobs && ks[j].job in at.jobs ::
      Sooner(at.jobs[ks[i].job].expires, ks[i].job, at.jobs[ks[j].job].expires, ks[j].job)
  }

  predicate UploadsInOrder(at: State, ks: seq<Candidate>) {
    forall i, j | 0 <= i < j < |ks| && ks[i].UploadCandidate? && ks[j].UploadCandidate? && ks[i].upload in at.uploads && ks[j].upload in at.uploads ::
      Sooner(at.uploads[ks[i].upload].expires, ks[i].upload, at.uploads[ks[j].upload].expires, ks[j].upload)
  }

  predicate JobsFirst(ks: seq<Candidate>) {
    forall i, j | 0 <= i < j < |ks| && ks[i].UploadCandidate? :: ks[j].UploadCandidate?
  }

  // Every due job is claimed, or the limit was reached by jobs that come before it; then the same for
  // uploads in what was left of the limit.
  ghost predicate TakesJobs(at: State, ks: seq<Candidate>, now: int, limit: nat) {
    forall id | JobDue(at, id, now) ::
      || (exists k :: k in ks && k.JobCandidate? && k.job == id)
      || (|ks| == limit && forall k | k in ks ::
            k.JobCandidate? && k.job in at.jobs && Sooner(at.jobs[k.job].expires, k.job, at.jobs[id].expires, id))
  }

  ghost predicate TakesUploads(at: State, ks: seq<Candidate>, now: int, limit: nat) {
    forall u | UploadDue(at, u, now) ::
      || (exists k :: k in ks && k.UploadCandidate? && k.upload == u)
      || (|ks| == limit && forall k | k in ks && k.UploadCandidate? ::
            k.upload in at.uploads && Sooner(at.uploads[k.upload].expires, k.upload, at.uploads[u].expires, u))
  }

  lemma JobsTaken(at: State, now: int, skipped: set<JobId>, pool: map<JobId, int>, ids: seq<JobId>, limit: nat, ks: seq<Candidate>)
    requires IsJobPool(at, now, skipped, pool) && IsOldest(pool, ids, limit) && |ks| == |ids|
    requires forall i | 0 <= i < |ids| :: ks[i].JobCandidate? && ks[i].job == ids[i]
    ensures JobsInOrder(at, ks) && UploadsInOrder(at, ks) && (skipped == {} ==> TakesJobs(at, ks, now, limit))
  {
    hide Expired;
    DueIsClaimable(at, now);
    forall id | JobDue(at, id, now) && skipped == {}
      ensures (exists k :: k in ks && k.JobCandidate? && k.job == id)
              || (|ks| == limit && forall k | k in ks ::
                    k.JobCandidate? && k.job in at.jobs && Sooner(at.jobs[k.job].expires, k.job, at.jobs[id].expires, id))
    {
      assert id in pool;
      if id in ids {
        var i :| 0 <= i < |ids| && ids[i] == id;
        assert ks[i] in ks;
      } else {
        forall k | k in ks
          ensures k.JobCandidate? && k.job in at.jobs && Sooner(at.jobs[k.job].expires, k.job, at.jobs[id].expires, id)
        {
          var i :| 0 <= i < |ks| && ks[i] == k;
          assert NotAfter(pool, ids[i], id);
        }
      }
    }
  }

  lemma UploadsTaken(at: State, w: State, now: int, skipped: set<UploadId>, pool: map<UploadId, int>, ids: seq<UploadId>, limit: nat,
                     jobs: seq<Candidate>, ks: seq<Candidate>)
    requires IsUploadPool(w, now, skipped, pool) && IsOldest(pool, ids, limit) && |ks| == |ids| && w.uploads == at.uploads
    requires forall u: nat :: UploadClaimable(at, u, now) <==> UploadClaimable(w, u, now)
    requires forall i | 0 <= i < |ids| :: ks[i].UploadCandidate? && ks[i].upload == ids[i]
    requires forall k | k in jobs :: k.JobCandidate?
    ensures UploadsInOrder(at, jobs + ks) && (skipped == {} ==> TakesUploads(at, jobs + ks, now, |jobs| + limit))
  {
    hide Expired, Referenced, UploadClaimable;
    DueIsClaimable(at, now);
    var all := jobs + ks;
    assert forall i | 0 <= i < |jobs| :: jobs[i] in jobs;
    forall i, j | 0 <= i < j < |all| && all[i].UploadCandidate? && all[j].UploadCandidate?
      ensures all[i].upload in at.uploads && all[j].upload in at.uploads
              && Sooner(at.uploads[all[i].upload].expires, all[i].upload, at.uploads[all[j].upload].expires, all[j].upload)
    {
      var m, n := i - |jobs|, j - |jobs|;
      assert NotAfter(pool, ids[m], ids[n]) && ids[m] != ids[n];
    }
    forall u | UploadDue(at, u, now) && skipped == {}
      ensures (exists k :: k in all && k.UploadCandidate? && k.upload == u)
              || (|all| == |jobs| + limit && forall k | k in all && k.UploadCandidate? ::
                    k.upload in at.uploads && Sooner(at.uploads[k.upload].expires, k.upload, at.uploads[u].expires, u))
    {
      assert u in pool;
      if u in ids {
        var i :| 0 <= i < |ids| && ids[i] == u;
        assert all[|jobs| + i] == ks[i];
        assert ks[i] in all;
      } else {
        forall k | k in all && k.UploadCandidate?
          ensures k.upload in at.uploads && Sooner(at.uploads[k.upload].expires, k.upload, at.uploads[u].expires, u)
        {
          assert k in ks;
          var i :| 0 <= i < |ks| && ks[i] == k;
          assert NotAfter(pool, ids[i], u);
        }
      }
    }
  }

  lemma NoCandidates(at: State)
    ensures JobsFirst([]) && JobsInOrder(at, []) && UploadsInOrder(at, []) && DifferentRows([]) && OnlyClaimed(at, at, [])
  {}

  // When the jobs have used up the limit nothing is left for uploads.
  lemma OnlyJobs(at: State, ks: seq<Candidate>, now: int, limit: nat)
    requires forall i | 0 <= i < |ks| :: ks[i].JobCandidate?
    ensures JobsFirst(ks) && (|ks| == limit ==> TakesUploads(at, ks, now, limit))
    ensures forall k | k in ks :: k.JobCandidate?
  {}

  // The two halves together.
  lemma BothTaken(at: State, now: int, limit: nat, jobs: seq<Candidate>, ks: seq<Candidate>)
    requires JobsInOrder(at, jobs) && |jobs| < limit && TakesJobs(at, jobs, now, limit)
    requires (forall k | k in jobs :: k.JobCandidate?) && forall k | k in ks :: k.UploadCandidate?
    ensures TakesJobs(at, jobs + ks, now, limit)
  {
    forall id | JobDue(at, id, now) ensures exists k :: k in jobs + ks && k.JobCandidate? && k.job == id {
      var k :| k in jobs && k.JobCandidate? && k.job == id;
      assert k in jobs + ks;
    }
  }

  lemma OrderedTogether(at: State, jobs: seq<Candidate>, ks: seq<Candidate>)
    requires JobsInOrder(at, jobs) && (forall k | k in jobs :: k.JobCandidate?) && forall k | k in ks :: k.UploadCandidate?
    ensures JobsInOrder(at, jobs + ks) && JobsFirst(jobs + ks)
  {
    var all := jobs + ks;
    assert forall i | 0 <= i < |jobs| :: jobs[i] in jobs;
    assert forall j | 0 <= j < |ks| :: ks[j] in ks;
    assert forall i | 0 <= i < |jobs| :: all[i] == jobs[i];
    assert forall i | |jobs| <= i < |all| :: all[i] == ks[i - |jobs|];
  }

  // Nothing but these rows was claimed, and nothing else was touched.
  ghost predicate OnlyClaimed(at: State, w: State, ks: seq<Candidate>) {
    && w == at.(jobs := w.jobs, uploads := w.uploads, tokens := w.tokens) && w.jobs.Keys == at.jobs.Keys && w.uploads.Keys == at.uploads.Keys
    && (forall id | id in at.jobs && (forall k | k in ks && k.JobCandidate? :: k.job != id) :: w.jobs[id] == at.jobs[id])
    && (forall u | u in at.uploads && (forall k | k in ks && k.UploadCandidate? :: k.upload != u) :: w.uploads[u] == at.uploads[u])
  }

  lemma ClaimableKnown(w: State, ids: seq<JobId>, now: int)
    requires forall id | id in ids :: JobClaimable(w, id, now)
    ensures forall id | id in ids :: id in w.jobs && w.jobs[id].hist != []
  {}

  lemma OnlyJobsClaimed(w: State, ids: seq<JobId>, token: nat, lease: int)
    requires forall id | id in ids :: id in w.jobs && w.jobs[id].hist != []
    ensures
      var x := ClaimedJobs(w, SetOfIds(ids), token, lease);
      (forall id | id in ids :: id in x.jobs && x.jobs[id].hist != []) && OnlyClaimed(w, x, JobCandidates(x, ids, token))
  {
    hide HandedKeys;
    var x := ClaimedJobs(w, SetOfIds(ids), token, lease);
    var ks := JobCandidates(x, ids, token);
    forall i | 0 <= i < |ids| ensures ks[i] in ks && ks[i].JobCandidate? && ks[i].job == ids[i] {}
  }

  lemma OnlyUploadsClaimed(w: State, ids: seq<UploadId>, token: nat, lease: int)
    ensures OnlyClaimed(w, ClaimedUploads(w, SetOfIds(ids), token, lease), UploadCandidates(ids, token))
  {
    var ks := UploadCandidates(ids, token);
    forall i | 0 <= i < |ids| ensures ks[i] in ks && ks[i].UploadCandidate? && ks[i].upload == ids[i] {}
  }

  lemma OnlyBothClaimed(at: State, w: State, x: State, jobs: seq<Candidate>, ks: seq<Candidate>)
    requires OnlyClaimed(at, w, jobs) && OnlyClaimed(w, x, ks)
    ensures OnlyClaimed(at, x, jobs + ks)
  {
    forall id | id in at.jobs && (forall k | k in jobs + ks && k.JobCandidate? :: k.job != id) ensures x.jobs[id] == at.jobs[id] {
      assert forall k | k in jobs && k.JobCandidate? :: k in jobs + ks;
      assert forall k | k in ks && k.JobCandidate? :: k in jobs + ks;
    }
    forall u | u in at.uploads && (forall k | k in jobs + ks && k.UploadCandidate? :: k.upload != u) ensures x.uploads[u] == at.uploads[u] {
      assert forall k | k in jobs && k.UploadCandidate? :: k in jobs + ks;
      assert forall k | k in ks && k.UploadCandidate? :: k in jobs + ks;
    }
  }

  lemma DifferentTogether(jobs: seq<Candidate>, ks: seq<Candidate>)
    requires DifferentRows(jobs) && DifferentRows(ks)
    requires (forall i | 0 <= i < |jobs| :: jobs[i].JobCandidate?) && forall i | 0 <= i < |ks| :: ks[i].UploadCandidate?
    ensures DifferentRows(jobs + ks)
  {}

  // What the two halves of the transaction come to.
  lemma ClaimedTogether(at: State, w: State, x: State, now: int, limit: nat, jobs: seq<Candidate>, skippedJobs: set<JobId>,
                        skipped: set<UploadId>, pool: map<UploadId, int>, ids: seq<UploadId>, ks: seq<Candidate>)
    requires JobsInOrder(at, jobs) && |jobs| < limit && (skippedJobs == {} ==> TakesJobs(at, jobs, now, limit))
    requires IsUploadPool(w, now, skipped, pool) && IsOldest(pool, ids, limit - |jobs|) && |ks| == |ids| && w.uploads == at.uploads
    requires forall u: nat :: UploadClaimable(at, u, now) <==> UploadClaimable(w, u, now)
    requires forall i | 0 <= i < |ids| :: ks[i].UploadCandidate? && ks[i].upload == ids[i]
    requires forall k | k in jobs :: k.JobCandidate?
    requires DifferentRows(jobs) && DifferentRows(ks) && OnlyClaimed(at, w, jobs) && OnlyClaimed(w, x, ks)
    ensures DifferentRows(jobs + ks) && JobsFirst(jobs + ks) && JobsInOrder(at, jobs + ks) && UploadsInOrder(at, jobs + ks)
    ensures OnlyClaimed(at, x, jobs + ks)
    ensures skippedJobs == {} ==> TakesJobs(at, jobs + ks, now, limit)
    ensures skipped == {} ==> TakesUploads(at, jobs + ks, now, limit)
  {
    hide IsUploadPool, IsOldest, UploadClaimable, JobsInOrder, UploadsInOrder, TakesJobs, TakesUploads, JobsFirst, DifferentRows, OnlyClaimed;
    assert forall i | 0 <= i < |jobs| :: jobs[i] in jobs;
    DifferentTogether(jobs, ks);
    UploadsTaken(at, w, now, skipped, pool, ids, limit - |jobs|, jobs, ks);
    OrderedTogether(at, jobs, ks);
    OnlyBothClaimed(at, w, x, jobs, ks);
    if skippedJobs == {} { BothTaken(at, now, limit, jobs, ks); }
  }

  lemma ClaimsKnown(at: State, w: State, ks: seq<Candidate>, now: int, lease: int)
    requires forall k | k in ks :: Claim(at, w, k, now, lease)
    ensures forall k | k in ks :: Handed(w, k) && MayComplete(w, k)
  {}

  class RetentionCleanup {
    const c: Config
    const calm: bool
    var w: State
    // The objects this process has deleted, whether or not it was told so.
    ghost var erased: set<Key>
    // The objects it has tried to delete.
    ghost var tried: set<Key>
    // The candidates it has tried to defer.
    ghost var deferrals: seq<Candidate>

    constructor (c: Config, calm: bool, w: State)
      requires Inv(c, w)
      ensures Inv(c, this.w) && this.c == c && this.calm == calm && this.w == w && erased == {} && tried == {} && deferrals == []
    {
      this.c := c;
      this.calm := calm;
      this.w := w;
      erased := {};
      tried := {};
      deferrals := [];
    }

    // Any number of steps of everybody else, other cleanup processes included.
    method Interfere()
      requires Inv(c, w)
      modifies `w
      ensures Inv(c, w) && Evolves(old(w), w) && (calm ==> w == old(w))
    {}

    /**
     complete: deletes the row if this candidate still holds its claim, and says so. Only called
     once all the keys handed out with the claim have been deleted.
     */
    method Complete(k: Candidate) returns (r: Result<bool, CleanupError>)
      requires Inv(c, w) && Handed(w, k) && KeysOf(k) <= erased
      modifies `w
      ensures Inv(c, w) && Evolves(old(w), w) && Handed(w, k)
      ensures ClaimLost(old(w), k) ==> r != Ok(true)
      ensures r.Ok? && r.value ==> Gone(w, k)
      ensures r.Ok? && !r.value ==> !MayComplete(w, k)
      ensures r.Err? ==> !calm
      ensures calm ==> r == Ok(MayComplete(old(w), k)) && w == if r.value then Completion(old(w), k) else old(w)
    {
      hide Inv, Evolves, Handed, Gone, Completion, Referenced, ClaimLost;
      ghost var w0 := w;
      Interfere();
      ghost var w1 := w;
      HandedStays(c, w0, w1, k);
      var fails := MayFail(calm);
      if fails {
        return Err(Down);
      }
      var holds := Check(k);
      if !holds {
        return Ok(false);
      }
      CompletionOk(c, w, k);
      EvolvesTransitive(w0, w1, Completion(w, k));
      w := Completion(w, k);
      fails := MayFail(calm);
      r := if fails then Err(Down) else Ok(true);
    }

    // The condition of the DELETE statement.
    method Check(k: Candidate) returns (holds: bool)
      requires Inv(c, w) && Handed(w, k)
      ensures holds == MayComplete(w, k)
    {
      match k
      case JobCandidate(id, token, _) =>
        holds := w.jobs[id].row.Claimed? && w.jobs[id].row.token == token;
      case UploadCandidate(u, token) =>
        holds := w.uploads[u].row.Claimed? && w.uploads[u].row.token == token
                 && forall id | id in w.jobs :: !(!w.jobs[id].row.Deleted? && w.jobs[id].hist != [] && SpecOf(w, id).upload == u);
    }

    method Defer(k: Candidate, retryAt: int) returns (ok: bool)
      requires Inv(c, w) && Handed(w, k)
      modifies `w, `deferrals
      ensures Inv(c, w) && Evolves(old(w), w) && Handed(w, k) && deferrals == old(deferrals) + [k]
      ensures ok ==> ClaimLost(w, k) || LeasedUntil(w, k, retryAt)
      ensures calm ==> ok && w == Deferral(old(w), k, retryAt)
      ensures calm && ClaimLost(old(w), k) ==> w == old(w)
    {
      hide Inv, Evolves, Handed, ClaimLost, Deferral, LeasedUntil;
      deferrals := deferrals + [k];
      ghost var w0 := w;
      Interfere();
      ghost var w1 := w;
      HandedStays(c, w0, w1, k);
      var fails := MayFail(calm);
      if fails {
        return false;
      }
      DeferralOk(c, w, k, retryAt);
      if ClaimLost(w, k) { StaleDeferral(w, k, retryAt); }
      EvolvesTransitive(w0, w1, Deferral(w, k, retryAt));
      w := Deferral(w, k, retryAt);
      HandedStays(c, w1, w, k);
      DeferredUntil(w1, k, retryAt);
      fails := MayFail(calm);
      ok := !fails;
    }

    method DeleteObject(ghost k: Candidate, key: Key) returns (ok: bool)
      requires Inv(c, w) && Handed(w, k) && key in KeysOf(k)
      modifies `w, `erased, `tried
      ensures Inv(c, w) && Evolves(old(w), w) && Handed(w, k)
      ensures old(erased) <= erased <= old(erased) + {key} && (ok ==> key in erased && key !in w.objects)
      ensures calm ==> ok && w == Erased(old(w), key)
      ensures tried == old(tried) + {key}
    {
      hide Inv, Evolves, Handed, KeysOf, ClaimLost;
      tried := tried + {key};
      ghost var w0 := w;
      Interfere();
      ghost var w1 := w;
      HandedStays(c, w0, w1, k);
      var fails := MayFail(calm);
      if fails {
        return false;
      }
      KeyErasable(w, k, key);
      EraseOk(c, w, key);
      EvolvesTransitive(w0, w1, Erased(w, key));
      w := Erased(w, key);
      erased := erased + {key};
      HandedStays(c, w1, w, k);
      fails := MayFail(calm);
      ok := !fails;
    }

    // _delete_objects: every deletion is tried; one failure fails the candidate.
    method DeleteObjects(k: Candidate) returns (r: Result<nat, CleanupError>)
      requires Inv(c, w) && Handed(w, k)
      modifies `w, `erased, `tried
      ensures Inv(c, w) && Evolves(old(w), w) && Handed(w, k)
      ensures old(erased) <= erased <= old(erased) + KeysOf(k) && (r.Ok? ==> KeysOf(k) <= erased && r.value == |KeysOf(k)|)
      ensures calm ==> r.Ok? && w == old(w).(objects := old(w).objects - KeysOf(k))
      ensures tried == old(tried) + KeysOf(k)
    {
      hide Inv, Evolves, Handed, ClaimLost;
      ghost var w0 := w;
      EvolvesReflexive(w0);
      var keys := KeysOf(k);
      var rest := keys;
      var failed := false;
      while rest != {}
        invariant Inv(c, w) && Evolves(w0, w) && Handed(w, k) && rest <= keys
        invariant old(erased) <= erased <= old(erased) + keys && (!failed ==> keys - rest <= erased)
        invariant calm ==> !failed && w == w0.(objects := w0.objects - (keys - rest))
        invariant tried == old(tried) + (keys - rest)
        decreases rest
      {
        ghost var w1 := w;
        var key :| key in rest;
        var ok := DeleteObject(k, key);
        EvolvesTransitive(w0, w1, w);
        failed := failed || !ok;
        rest := rest - {key};
        assert calm ==> w0.objects - (keys - (rest + {key})) - {key} == w0.objects - (keys - rest);
      }
      r := if failed then Err(Down) else Ok(|keys|);
    }

    /**
     One candidate of a batch: delete the objects, then the row; on any failure, defer. Afterwards the row
     is deleted, or the claim may not complete it any more, or a deferral was tried.
     */
    method Clean(k: Candidate, retryAt: int) returns (done: bool, deleted: nat)
      requires Inv(c, w) && Handed(w, k)
      modifies `w, `erased, `tried, `deferrals
      ensures Inv(c, w) && Evolves(old(w), w) && Handed(w, k)
      ensures old(erased) <= erased <= old(erased) + KeysOf(k)
      ensures done ==> Gone(w, k) && erased == old(erased) + KeysOf(k) && deferrals == old(deferrals)
      ensures done || !MayComplete(w, k) || deferrals == old(deferrals) + [k]
      ensures deferrals == old(deferrals) || deferrals == old(deferrals) + [k]
      ensures deleted == 0 || (deleted == |KeysOf(k)| && KeysOf(k) <= erased)
      ensures done ==> deleted == |KeysOf(k)|
      ensures calm && MayComplete(old(w), k) ==> done
      ensures calm ==> deleted == |KeysOf(k)| && deferrals == old(deferrals)
      ensures calm && done ==> w == Completion(old(w).(objects := old(w).objects - KeysOf(k)), k)
      ensures ClaimLost(old(w), k) ==> !done
    {
      hide Inv, Evolves, Handed, Gone, Completion, Referenced, ClaimLost, MayComplete;
      ghost var w0 := w;
      var gone := DeleteObjects(k);
      ghost var w1 := w;
      HandedStays(c, w0, w1, k);
      deleted := if gone.Ok? then gone.value else 0;
      var failed := gone.Err?;
      done := false;
      if gone.Ok? {
        if calm { SameClaims(w0, w1, k); }
        var completed := Complete(k);
        EvolvesTransitive(w0, w1, w);
        failed := completed.Err?;
        done := completed.Ok? && completed.value;
      }
      if failed {
        ghost var w2 := w;
        var _ := Defer(k, retryAt);
        EvolvesTransitive(w0, w2, w);
      }
    }

    // The rows to claim, with the expiry to order them by.
    method JobPool(now: int, locked: set<JobId>) returns (pool: map<JobId, int>)
      ensures IsJobPool(w, now, locked, pool)
    {
      pool := map id | id in w.jobs && JobClaimable(w, id, now) && id !in locked :: w.jobs[id].expires;
    }

    method UploadPool(now: int, locked: set<UploadId>) returns (pool: map<UploadId, int>)
      ensures IsUploadPool(w, now, locked, pool)
    {
      pool := map u | u in w.uploads && u !in locked
                      && Expired(w.uploads[u].row, w.uploads[u].expires, now)
                      && (forall id | id in w.jobs :: !(!w.jobs[id].row.Deleted? && w.jobs[id].hist != [] && SpecOf(w, id).upload == u))
                   :: w.uploads[u].expires;
    }

    // The first half of the transaction: finished, expired jobs.
    method ClaimJobs(now: int, limit: nat, lease: int) returns (ks: seq<Candidate>, ghost pool: map<JobId, int>, ghost ids: seq<JobId>,
                                                                   ghost skipped: set<JobId>)
      requires Inv(c, w)
      modifies `w
      ensures Inv(c, w) && Evolves(old(w), w) && |ks| == |ids| <= limit && DifferentRows(ks)
      ensures IsJobPool(old(w), now, skipped, pool) && (calm ==> skipped == {})
      ensures IsOldest(pool, ids, limit) && forall i | 0 <= i < |ids| :: ks[i].JobCandidate? && ks[i].job == ids[i]
      ensures forall k | k in ks :: Claim(old(w), w, k, now, lease)
      ensures OnlyClaimed(old(w), w, ks)
      ensures w.uploads == old(w).uploads && forall u: nat :: UploadClaimable(old(w), u, now) <==> UploadClaimable(w, u, now)
    {
      hide Inv, Evolves, Claim, UploadClaimable, JobClaimable, ClaimedJobs, HandedKeys;
      ghost var at := w;
      var locked: set<JobId> := *;
      if calm { locked := {}; }
      skipped := locked;
      var token := FreshId(w.tokens);
      var claimable := JobPool(now, locked);
      pool := claimable;
      var picked := PickOldest(claimable, limit);
      ids := picked;
      ClaimJobsOk(c, w, SetOfIds(picked), now, token, lease);
      JobsClaimed(c, w, now, picked, token, lease);
      ClaimableKnown(w, picked, now);
      OnlyJobsClaimed(w, picked, token, lease);
      SameUploads(w, picked, token, lease, now);
      w := ClaimedJobs(w, SetOfIds(picked), token, lease);
      ks := JobCandidates(w, picked, token);
    }

    // The second half: expired uploads that no job refers to.
    method ClaimUploads(ghost at: State, ghost jobs: seq<Candidate>, now: int, limit: nat, lease: int)
      returns (ks: seq<Candidate>, ghost pool: map<UploadId, int>, ghost ids: seq<UploadId>, ghost skipped: set<UploadId>)
      requires Inv(c, w) && w.uploads == at.uploads && at.tokens <= w.tokens
      requires forall u: nat :: UploadClaimable(at, u, now) <==> UploadClaimable(w, u, now)
      requires forall k | k in jobs :: k.JobCandidate? && Claim(at, w, k, now, lease)
      modifies `w
      ensures Inv(c, w) && Evolves(old(w), w) && |ks| == |ids| <= limit && DifferentRows(ks)
      ensures IsUploadPool(old(w), now, skipped, pool) && (calm ==> skipped == {})
      ensures IsOldest(pool, ids, limit) && forall i | 0 <= i < |ids| :: ks[i].UploadCandidate? && ks[i].upload == ids[i]
      ensures forall k | k in ks :: Claim(at, w, k, now, lease)
      ensures OnlyClaimed(old(w), w, ks)
      ensures forall k | k in jobs :: Claim(at, w, k, now, lease)
    {
      hide Inv, Evolves, Claim, UploadClaimable, ClaimedUploads;
      ghost var w0 := w;
      var locked: set<UploadId> := *;
      if calm { locked := {}; }
      skipped := locked;
      var token := FreshId(w.tokens);
      var claimable := UploadPool(now, locked);
      pool := claimable;
      var picked := PickOldest(claimable, limit);
      ids := picked;
      ClaimUploadsOk(c, w, SetOfIds(picked), now, token, lease);
      OnlyUploadsClaimed(w, picked, token, lease);
      UploadsClaimed(at, w, now, picked, token, lease);
      forall k | k in jobs ensures Claim(at, ClaimedUploads(w, SetOfIds(picked), token, lease), k, now, lease) {
        JobClaimsStay(at, w, now, SetOfIds(picked), token, lease, k);
      }
      w := ClaimedUploads(w, SetOfIds(picked), token, lease);
      ks := UploadCandidates(picked, token);
    }

    /**
     claim_expired in one transaction; rows locked by other transactions are skipped. Every
     candidate was finished and expired, and carries a token never drawn before.
     */
    method ClaimExpired(now: int, limit: nat, leaseSeconds: nat) returns (ks: seq<Candidate>, ghost at: State)
      requires Inv(c, w)
      modifies `w
      ensures Inv(c, w) && Evolves(old(w), w) && |ks| <= limit && DifferentRows(ks)
      ensures Evolves(old(w), at) && (calm ==> at == old(w))
      ensures forall k | k in ks :: Claim(at, w, k, now, now + leaseSeconds)
      ensures OnlyClaimed(at, w, ks) && JobsFirst(ks) && JobsInOrder(at, ks) && UploadsInOrder(at, ks)
      ensures calm && 0 < limit ==> TakesJobs(at, ks, now, limit) && TakesUploads(at, ks, now, limit)
    {
      hide Inv, Evolves, Claim, UploadClaimable, JobClaimable, TakesJobs, TakesUploads, JobsInOrder, UploadsInOrder, JobsFirst,
           OnlyClaimed, IsOldest, IsJobPool, IsUploadPool, DifferentRows;
      ghost var w0 := w;
      Interfere();
      at := w;
      NoCandidates(at);
      if limit < 1 {
        return [], at;
      }
      ghost var pool, ids, skipped;
      ks, pool, ids, skipped := ClaimJobs(now, limit, now + leaseSeconds);
      ghost var w1 := w;
      EvolvesTransitive(w0, at, w1);
      TokensGrow(at, w1);
      ghost var jobs := ks;
      JobsTaken(at, now, skipped, pool, ids, limit, jobs);
      OnlyJobs(at, jobs, now, limit);
      var remaining := limit - |ks|;
      if 0 < remaining {
        var more;
        ghost var uploadPool, uploadIds, skippedUploads;
        more, uploadPool, uploadIds, skippedUploads := ClaimUploads(at, jobs, now, remaining, now + leaseSeconds);
        EvolvesTransitive(w0, w1, w);
        ClaimedTogether(at, w1, w, now, limit, jobs, skipped, skippedUploads, uploadPool, uploadIds, more);
        ks := ks + more;
      }
    }

    /**
     run_batch: everything claimed is either completed or deferred. Without failures everything
     claimed is completed, with all its objects, and a batch that claimed fewer than its limit leaves
     no row that was due.
     */
    method RunBatch(limit: nat, leaseSeconds: nat, now: int, clock: int) returns (r: Result<BatchResult, CleanupError>, ghost ks: seq<Candidate>)
      requires Inv(c, w)
      modifies `w, `erased, `tried, `deferrals
      ensures Inv(c, w) && Evolves(old(w), w) && (forall k | k in ks :: Handed(w, k))
      ensures limit < 1 || leaseSeconds < 1 ==> r == Err(ValueError) && w == old(w)
      ensures r.Ok? ==> r.value.claimed == |ks| == r.value.completed + r.value.deferred <= limit
      ensures calm ==> (r.Ok? <==> 1 <= limit && 1 <= leaseSeconds)
      ensures calm && r.Ok? ==> r.value.deferred == 0 && deferrals == old(deferrals) && forall k | k in ks :: Gone(w, k)
      ensures calm && r.Ok? ==> TakesJobs(old(w), ks, now, limit) && TakesUploads(old(w), ks, now, limit)
      ensures calm && r.Ok? && r.value.claimed < limit ==>
                && (forall id | JobDue(old(w), id, now) :: id in w.jobs && w.jobs[id].row.Deleted?)
                && (forall u | UploadDue(old(w), u, now) :: u in w.uploads && w.uploads[u].row.Deleted?)
      ensures r.Ok? ==> r.value.deletedObjects <= KeyCount(ks) && (calm ==> r.value.deletedObjects == KeyCount(ks))
      ensures forall key | key in erased :: key in old(erased) || exists k :: k in ks && key in KeysOf(k)
    {
      hide Inv, Evolves, Handed, Gone, Completion, ClaimLost, MayComplete, ClaimableAt, TakesJobs, TakesUploads, JobDue, UploadDue,
           JobsFirst, JobsInOrder, UploadsInOrder, OnlyClaimed, LeasedUntil, DifferentRows, KeysOf;
      ghost var w0 := w;
      EvolvesReflexive(w0);
      if limit < 1 || leaseSeconds < 1 {
        return Err(ValueError), [];
      }
      var fails := MayFail(calm);
      if fails {
        return Err(Down), [];
      }
      var candidates;
      ghost var at;
      candidates, at := ClaimExpired(now, limit, leaseSeconds);
      ks := candidates;
      ClaimsKnown(at, w, ks, now, now + leaseSeconds);
      var completed, deferred, deletedObjects: nat := 0, 0, 0;
      for i := 0 to |candidates|
        invariant Inv(c, w) && Evolves(w0, w) && forall k | k in ks :: Handed(w, k)
        invariant completed + deferred == i && deletedObjects <= KeyCount(ks[..i]) && (calm ==> deletedObjects == KeyCount(ks[..i]))
        invariant calm ==> deferrals == old(deferrals)
        invariant forall key | key in erased :: key in old(erased) || exists k :: k in ks && key in KeysOf(k)
        invariant calm ==> deferred == 0 && (forall j | 0 <= j < i :: Gone(w, ks[j]))
                           && forall j | i <= j < |ks| :: MayComplete(w, ks[j])
      {
        ghost var w1 := w;
        assert ks[..i + 1][..i] == ks[..i];
        var done, deleted := Clean(candidates[i], clock);
        deletedObjects := deletedObjects + deleted;
        EvolvesTransitive(w0, w1, w);
        AllHandedStay(c, w1, w, ks);
        if calm {
          forall j | i < j < |ks| ensures MayComplete(w, ks[j]) {
            DifferentTargets(ks, i, j);
            OthersMayComplete(w1, ks[i], ks[j]);
          }
        }
        if done {
          completed := completed + 1;
        } else {
          deferred := deferred + 1;
        }
      }
      assert ks[..|ks|] == ks;
      if calm && |ks| < limit { NothingDueLeft(w0, w, ks, now, limit); }
      r := Ok(BatchResult(|candidates|, completed, deferred, deletedObjects));
    }
  }
}
