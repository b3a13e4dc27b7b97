/**
 Everything that survives a crash, as one value: the PostgreSQL tables, the object store, the
 Kafka partition and its committed offset. Inv is what every reachable state satisfies;
 Evolves is what any number of steps by anybody may do to a state. Evolves is used twice:
 as what each process may assume of the others at an await, and as what it must guarantee.
 */
module World {
  import opened Domain
  import opened History
  import opened EventLog

  // A job row, as retention sees it. A claimed row is hidden from reads.
  datatype Row = Live | Claimed(token: nat, lease: int) | Deleted

  // The history is never forgotten, so that statements about deleted jobs can be made.
  datatype JobRec = JobRec(hist: seq<Entry>, log: seq<Event>, row: Row, expires: int)

  datatype UploadRec = UploadRec(row: Row, expires: int, owner: nat, completed: bool)

  datatype OutboxRow = OutboxRow(id: nat, job: JobId, attempt: nat, published: bool)

  datatype Message = Message(job: JobId, attempt: nat, schema: nat)

  // One page of one attempt, for counting engine calls and backoff.
  datatype Work = Work(job: JobId, attempt: nat, number: nat)

  datatype State = State(
    jobs: map<JobId, JobRec>,
    uploads: map<UploadId, UploadRec>,
    objects: map<Key, Blob>,
    calls: map<Work, nat>,
    slept: map<Work, nat>,
    outbox: seq<OutboxRow>,
    outboxIds: map<nat, (JobId, nat)>,
    index: map<(nat, string), JobId>,
    tokens: set<nat>,
    queue: seq<Message>,
    committed: nat)

  predicate IsLive(w: State, id: JobId) {
    id in w.jobs && w.jobs[id].row.Live?
  }

  function Current(w: State, id: JobId): JobData
    requires id in w.jobs && w.jobs[id].hist != []
  {
    Last(w.jobs[id].hist)
  }

  // ---- the invariant, part by part ----

  ghost predicate RecOk(c: Config, id: JobId, r: JobRec) {
    && Chain(c, id, r.hist)
    && Mirrors(r.log, r.hist)
    && (!r.row.Live? ==> Terminal(Last(r.hist).state))
  }

  ghost predicate JobsOk(c: Config, w: State) {
    forall id | id in w.jobs :: RecOk(c, id, w.jobs[id])
  }

  // What an object under a job's key can contain, whoever wrote it.
  ghost predicate ContentOk(c: Config, spec: JobSpec, key: Key, b: Blob) {
    match key
    case PageImage(_, _, n) => b == c.render(spec.upload, n)
    case PageResult(_, _, n) => b.ResultJson? && b.number == n && b.reading == c.ReadingOf(spec, n)
    case Visualization(_, _, n) => c.ReadingOf(spec, n).visual == Some(b)
    case DocumentMarkdown(_, _) => b == MarkdownText(JoinMarkdown(c.ReadingsOf(spec, c.pageCount(spec.upload))))
    case DocumentJson(j, k) => b == StructuredJson(j, k, c.ReadingsOf(spec, c.pageCount(spec.upload)))
    case Manifest(j, k) => b.ManifestJson? && b.job == j && b.attempt == k
  }

  function SpecOf(w: State, id: JobId): JobSpec
    requires id in w.jobs && w.jobs[id].hist != []
  {
    w.jobs[id].hist[0].job.spec
  }

  ghost predicate ObjectsOk(c: Config, w: State) {
    forall key | key in w.objects ::
      key.job in w.jobs && w.jobs[key.job].hist != []
      && ContentOk(c, SpecOf(w, key.job), key, w.objects[key])
  }

  ghost predicate PageKept(c: Config, objects: map<Key, Blob>, p: PageData) {
    && p.inputKey in objects
    && (p.resultKey.Some? ==> p.resultKey.value in objects)
    && (p.visualKey.Some? ==> p.visualKey.value in objects)
    && (p.state == PageSucceeded ==>
          && p.resultKey.Some? && p.resultSha.Some?
          && (c.solo ==> p.resultSha.value == c.sha(objects[p.resultKey.value])))
  }

  ghost predicate ArtifactKept(c: Config, objects: map<Key, Blob>, id: JobId, a: Artifact) {
    && a.key in objects && a.key.job == id
    && (c.solo ==> a.sha == c.sha(objects[a.key]))
  }

  // In a finished job the manifest object lists exactly the other artifacts.
  ghost predicate ManifestKept(c: Config, objects: map<Key, Blob>, v: JobData) {
    var key := Manifest(v.id, v.attempt);
    && key in objects && objects[key].ManifestJson?
    && objects[key].artifacts == ManifestBody(c, v, v.attempt)
    && v.artifacts == SetOf(objects[key].artifacts + [Artifact(ManifestKind, key, c.sha(objects[key]), None)])
  }

  // The objects a visible job refers to are there.
  ghost predicate Kept(c: Config, objects: map<Key, Blob>, v: JobData) {
    && (forall i | 0 <= i < |v.pages| :: PageKept(c, objects, v.pages[i]))
    && (forall a | a in v.artifacts :: ArtifactKept(c, objects, v.id, a))
    && (c.solo && v.state == Succeeded ==> ManifestKept(c, objects, v))
  }

  ghost predicate KeptOk(c: Config, w: State) {
    forall id | id in w.jobs && w.jobs[id].row.Live? ::
      w.jobs[id].hist != [] && Kept(c, w.objects, Last(w.jobs[id].hist))
  }

  // Tries recorded for page n of attempt k, in the last version of that attempt.
  function Used(h: seq<Entry>, k: nat, n: nat): nat {
    if h == [] || Last(h).attempt < k then 0
    else if Last(h).attempt == k then
      (if 1 <= n <= |Last(h).pages| then Last(h).pages[n - 1].attempts else 0)
    else Used(h[..|h| - 1], k, n)
  }

  function Pow2(n: nat): nat { if n == 0 then 1 else 2 * Pow2(n - 1) }

  function Min(a: nat, b: nat): nat { if a < b then a else b }

  function Count(m: map<Work, nat>, key: Work): nat { if key in m then m[key] else 0 }

  ghost predicate CountersOk(c: Config, w: State) {
    c.solo ==>
      && (forall key | key in w.calls :: key.job in w.jobs
            && w.calls[key] <= Used(w.jobs[key.job].hist, key.attempt, key.number))
      && (forall key | key in w.slept :: key.job in w.jobs
            && w.slept[key] + 1 <= Pow2(Min(Used(w.jobs[key.job].hist, key.attempt, key.number), c.maxPageRetries)))
  }

  // Foreign key: the upload of a job that is not deleted is not deleted.
  ghost predicate UploadsOk(w: State) {
    forall id | id in w.jobs && !w.jobs[id].row.Deleted? ::
      w.jobs[id].hist != [] && SpecOf(w, id).upload in w.uploads
      && !w.uploads[SpecOf(w, id).upload].row.Deleted?
  }

  predicate HasKey(spec: JobSpec, owner: nat, key: string) {
    spec.owner == owner && spec.idempotencyKey == Some(key)
  }

  // The unique index on owner and idempotency key holds exactly the jobs that are not deleted.
  ghost predicate IndexOk(w: State) {
    && (forall k | k in w.index :: IsIndexed(w, k))
    && (forall id | id in w.jobs && !w.jobs[id].row.Deleted? && w.jobs[id].hist != [] :: HasEntry(w, id))
  }

  ghost predicate IsIndexed(w: State, k: (nat, string))
    requires k in w.index
  {
    var id := w.index[k];
    id in w.jobs && w.jobs[id].hist != [] && !w.jobs[id].row.Deleted? && HasKey(SpecOf(w, id), k.0, k.1)
  }

  ghost predicate HasEntry(w: State, id: JobId)
    requires id in w.jobs && w.jobs[id].hist != []
  {
    var spec := SpecOf(w, id);
    spec.idempotencyKey.Some? ==>
      (spec.owner, spec.idempotencyKey.value) in w.index && w.index[(spec.owner, spec.idempotencyKey.value)] == id
  }

  ghost predicate ConstraintsOk(w: State) { UploadsOk(w) && IndexOk(w) }

  // What a message has led to once it needs no further processing.
  ghost predicate Settled(w: State, m: Message) {
    && m.job in w.jobs && w.jobs[m.job].hist != []
    && (w.jobs[m.job].row.Live? ==>
          || m.attempt < Current(w, m.job).attempt
          || (m.attempt == Current(w, m.job).attempt && Terminal(Current(w, m.job).state)))
  }

  predicate HasOutboxRow(w: State, id: JobId, k: nat) {
    exists i | 0 <= i < |w.outbox| :: w.outbox[i].job == id && w.outbox[i].attempt == k
  }

  ghost predicate OutboxRowOk(w: State, r: OutboxRow) {
    && r.job in w.jobs && w.jobs[r.job].hist != [] && !w.jobs[r.job].row.Deleted?
    && 1 <= r.attempt <= Current(w, r.job).attempt
    && r.id in w.outboxIds && w.outboxIds[r.id] == (r.job, r.attempt)
    && (r.published ==> Message(r.job, r.attempt, 1) in w.queue)
  }

  predicate OutboxDistinct(rows: seq<OutboxRow>) {
    forall i, j | 0 <= i < j < |rows| ::
      rows[i].id != rows[j].id && (rows[i].job != rows[j].job || rows[i].attempt != rows[j].attempt)
  }

  ghost predicate AttemptsHaveRows(w: State) {
    forall id, k | id in w.jobs && w.jobs[id].hist != [] && !w.jobs[id].row.Deleted?
                   && 1 <= k <= Current(w, id).attempt :: HasOutboxRow(w, id, k)
  }

  ghost predicate OutboxOk(w: State) {
    && (forall i | 0 <= i < |w.outbox| :: OutboxRowOk(w, w.outbox[i]))
    && OutboxDistinct(w.outbox)
    && AttemptsHaveRows(w)
    && (forall n | n in w.outboxIds :: OnceIssued(w, w.outboxIds[n].0, w.outboxIds[n].1))
  }

  ghost predicate OnceIssued(w: State, id: JobId, k: nat) {
    id in w.jobs && w.jobs[id].hist != [] && 1 <= k <= Current(w, id).attempt
  }

  ghost predicate QueueOk(w: State) {
    && w.committed <= |w.queue|
    && (forall i | 0 <= i < |w.queue| :: OnceIssued(w, w.queue[i].job, w.queue[i].attempt) && w.queue[i].schema == 1)
    && (forall i | 0 <= i < w.committed :: Settled(w, w.queue[i]))
  }

  // Claim tokens are drawn once; tokens holds those drawn so far.
  predicate RowClaimOk(w: State, row: Row) { row.Claimed? ==> row.token in w.tokens }

  ghost predicate ClaimsOk(w: State) {
    && (forall id | id in w.jobs :: RowClaimOk(w, w.jobs[id].row))
    && (forall u | u in w.uploads :: RowClaimOk(w, w.uploads[u].row))
  }

  ghost predicate Inv(c: Config, w: State) {
    && JobsOk(c, w) && ObjectsOk(c, w) && KeptOk(c, w) && CountersOk(c, w)
    && ConstraintsOk(w) && OutboxOk(w) && QueueOk(w) && ClaimsOk(w)
  }

  // ---- what steps may do ----

  // A row once claimed is never changed again and never comes back.
  ghost predicate RecEvolves(r: JobRec, s: JobRec) {
    && r.hist <= s.hist
    && (!r.row.Live? ==> !s.row.Live? && s.hist == r.hist)
  }


  // A claim is kept, renewed, replaced by one with a new token, or ended by deletion.
  predicate RowEvolves(tokens: set<nat>, r: Row, s: Row) {
    && (!r.Live? ==> !s.Live?)
    && (r.Deleted? ==> s.Deleted?)
    && (s.Claimed? && s.token in tokens ==> r.Claimed? && r.token == s.token)
  }

  ghost predicate Evolves(w: State, x: State) {
    && (forall id | id in w.jobs :: id in x.jobs && RecEvolves(w.jobs[id], x.jobs[id])
                                    && RowEvolves(w.tokens, w.jobs[id].row, x.jobs[id].row))
    && (forall key | key in w.objects && key.job in w.jobs && IsLive(x, key.job) :: key in x.objects)
    && (forall u | u in w.uploads :: u in x.uploads && RowEvolves(w.tokens, w.uploads[u].row, x.uploads[u].row))
    && (forall n | n in w.outboxIds :: n in x.outboxIds && x.outboxIds[n] == w.outboxIds[n])
    && w.queue <= x.queue && w.tokens <= x.tokens
  }

  lemma EvolvesReflexive(w: State)
    ensures Evolves(w, w)
  {}

  lemma EvolvesTransitive(w: State, x: State, y: State)
    requires Evolves(w, x) && Evolves(x, y)
    ensures Evolves(w, y)
  {
    forall id | id in w.jobs ensures id in y.jobs && RecEvolves(w.jobs[id], y.jobs[id]) {
      assert RecEvolves(w.jobs[id], x.jobs[id]) && RecEvolves(x.jobs[id], y.jobs[id]);
    }
    forall key | key in w.objects && key.job in w.jobs && IsLive(y, key.job) ensures key in y.objects {
      assert RecEvolves(w.jobs[key.job], x.jobs[key.job]) && RecEvolves(x.jobs[key.job], y.jobs[key.job]);
      assert key in x.objects;
    }
  }

  // Whether a call fails; never in a calm run.
  method MayFail(calm: bool) returns (fails: bool)
    ensures fails ==> !calm
  {
    fails := *;
    fails := fails && !calm;
  }

  // uuid7 is taken never to repeat.
  method FreshId(used: set<nat>) returns (id: nat)
    ensures id !in used
  {
    id := 0;
    var seen := {};
    while used - seen != {}
      invariant seen <= used && forall t | t in seen :: t < id
      decreases used - seen
    {
      var t :| t in used - seen;
      seen := seen + {t};
      if id <= t { id := t + 1; }
    }
    assert forall t | t in used :: t in seen || t in used - seen;
  }
}
