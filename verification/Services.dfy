/**
 The API's writers (backend/src/contexts/ocr/application/services.py: create_job, cancel_job,
 retry_job) over the same tables, each a bounded loop around the compare-and-swap.
 */
module Services {
  import opened Domain
  import opened Aggregate
  import opened History
  import opened EventLog
  import opened World
  import opened Commits
  import opened Rely
  import opened Issuing
  import P = Platform

  datatype ApiError =
    | JobNotFound
    | Unauthorized
    | JobNotCancellable
    | JobNotRetryable
    | UploadNotFound
    | UploadNotCompleted
    | IdempotencyConflict
    | Unavailable

  datatype SaveError = Conflict | Down

  datatype InsertError = Duplicate | NotInserted

  // In every later state the attempt v is at is cancelling or cancelled.
  lemma CancelledForGood(c: Config, w: State, x: State, v: JobData, i: nat)
    requires Inv(c, x) && Evolves(w, x) && Seen(w, v) && v.state in {CancelRequested, Cancelled}
    requires v.revision <= i && v.id in x.jobs && i < |x.jobs[v.id].hist| && x.jobs[v.id].hist[i].job.attempt == v.attempt
    ensures x.jobs[v.id].hist[i].job.state in {CancelRequested, Cancelled}
  {
    hide ObjectsOk, KeptOk, CountersOk, ConstraintsOk, OutboxOk, QueueOk, Linked, Mirrors;
    HasHistory(c, x, v.id);
    assert RecEvolves(w.jobs[v.id], x.jobs[v.id]);
    CancelDominates(c, v.id, x.jobs[v.id].hist, v.revision, i);
  }

  // A copy that was current stays one that was seen.
  lemma CurrentWasSeen(c: Config, w: State, x: State, v: JobData)
    requires Inv(c, w) && ExactlyCurrent(w, v) && Evolves(w, x)
    ensures Seen(x, v)
  {
    hide ObjectsOk, KeptOk, CountersOk, ConstraintsOk, OutboxOk, QueueOk, Seen, ExactlyCurrent;
    CurrentIsSeen(c, w, v);
    SeenStable(c, w, x, v);
  }

  // A seen copy that passes the compare-and-swap is the stored version.
  lemma HitIsCurrent(c: Config, w: State, v: JobData)
    requires Inv(c, w) && Seen(w, v) && IsLive(w, v.id) && w.jobs[v.id].hist != [] && Current(w, v.id).revision == v.revision
    ensures Current(w, v.id) == v
  {
    hide ObjectsOk, KeptOk, CountersOk, ConstraintsOk, OutboxOk, QueueOk;
    HasHistory(c, w, v.id);
  }

  lemma CurrentHits(w: State, v: JobData)
    ensures ExactlyCurrent(w, v) ==> IsLive(w, v.id) && w.jobs[v.id].hist != [] && Current(w, v.id).revision == v.revision
  {}

  lemma CurrentLoaded(c: Config, x: State, y: State, z: State, id: JobId)
    requires Inv(c, x) && Inv(c, y) && Inv(c, z) && IsLive(x, id) && Evolves(x, y) && Evolves(y, z)
    ensures x.jobs[id].hist != [] && LoadedCopy(x, y, z, id).id == id && Seen(z, LoadedCopy(x, y, z, id))
    ensures x == y && y == z ==> LoadedCopy(x, y, z, id) == Current(x, id)
  {
    hide ObjectsOk, KeptOk, CountersOk, ConstraintsOk, OutboxOk, QueueOk, Seen;
    HasHistory(c, x, id);
    TornReadIsSeen(c, x, y, z, id);
  }

  lemma HistoryThere(c: Config, w: State, id: JobId)
    requires Inv(c, w)
    ensures id in w.jobs ==> w.jobs[id].hist != [] && Current(w, id).id == id
  {
    if id in w.jobs { HasHistory(c, w, id); }
  }

  // One version more for one job; nothing else in the store has changed.
  ghost predicate Appended(w: State, x: State, id: JobId, e: Entry) {
    && id in w.jobs && id in x.jobs && x.jobs[id].hist == w.jobs[id].hist + [e]
    && x.jobs.Keys == w.jobs.Keys && (forall j | j in w.jobs && j != id :: x.jobs[j] == w.jobs[j])
    && x.objects == w.objects && x.queue == w.queue && x.uploads == w.uploads
  }

  lemma CancelCommits(c: Config, w: State, id: JobId, request: string, expires: int)
    requires Inv(c, w) && IsLive(w, id) && w.jobs[id].hist != [] && Enabled(c, Current(w, id), RequestCancel(request))
    ensures
      var v := Apply(c, Current(w, id), RequestCancel(request));
      var x := Committed(c, w, id, RequestCancel(request), expires);
      && Inv(c, x) && Evolves(w, x) && (Current(w, id).id == id ==> ExactlyCurrent(x, v))
      && Appended(w, x, id, Entry(RequestCancel(request), v))
  {
    hide Inv, Enabled, Apply, Append;
    CommitOk(c, w, id, RequestCancel(request), expires);
    ApplyKeeps(c, Current(w, id), RequestCancel(request));
  }

  lemma RetryCommits(c: Config, w: State, id: JobId, request: string, expires: int, rowId: nat)
    requires Inv(c, w) && IsLive(w, id) && w.jobs[id].hist != [] && Enabled(c, Current(w, id), Action.Retry(request))
    requires rowId !in w.outboxIds
    ensures
      var v := Apply(c, Current(w, id), Action.Retry(request));
      var x := Retried(c, w, id, request, expires, rowId);
      && Inv(c, x) && Evolves(w, x) && (Current(w, id).id == id ==> ExactlyCurrent(x, v))
      && Appended(w, x, id, Entry(Action.Retry(request), v))
      && x.outbox == w.outbox + [OutboxRow(rowId, id, v.attempt, false)]
  {
    hide Inv, Enabled, Apply, Append;
    RetryOk(c, w, id, request, expires, rowId);
    ApplyKeeps(c, Current(w, id), Action.Retry(request));
  }

  lemma SeenLater(c: Config, w: State, x: State, v: JobData)
    requires Evolves(w, x) && Seen(w, v)
    ensures Seen(x, v)
  {
    SeenStable(c, w, x, v);
  }

  lemma CancelApplied(c: Config, v: JobData, request: string)
    requires Enabled(c, v, RequestCancel(request))
    ensures Apply(c, v, RequestCancel(request)).state == if v.state in {Queued, Retrying} then Cancelled else CancelRequested
  {}

  lemma RetryApplied(c: Config, v: JobData, request: string)
    requires Enabled(c, v, Action.Retry(request))
    ensures Apply(c, v, Action.Retry(request)).state == Retrying && Apply(c, v, Action.Retry(request)).attempt == v.attempt + 1
  {}

  // The version and the event a request adds.
  ghost predicate Answered(w: State, x: State, v: JobData, a: Action, u: JobData, kind: EventKind) {
    && v.id in w.jobs && Appended(w, x, v.id, Entry(a, u))
    && x.jobs[v.id].log == w.jobs[v.id].log + [Event(|w.jobs[v.id].log| + 1, kind, u.state, u.attempt, CompletedPages(u.pages), |u.pages|)]
  }

  // What cancel_job answers and writes when nobody interferes and nothing fails: a job not yet started is
  // cancelled at once, one being worked on is left to its worker.
  ghost predicate CancelAnswer(w: State, x: State, v: JobData, request: string, r: Result<JobData, ApiError>) {
    if v.state in {Cancelled, JobState.Succeeded, Failed} then r == Err(JobNotCancellable) && x == w
    else if v.state == CancelRequested then r == Ok(v) && x == w
    else if v.state in {Queued, Retrying} then
      && r == Ok(v.(state := Cancelled, request := request, revision := v.revision + 1))
      && Answered(w, x, v, RequestCancel(request), r.value, JobCancelled)
    else
      && r == Ok(v.(state := CancelRequested, request := request, revision := v.revision + 1))
      && Answered(w, x, v, RequestCancel(request), r.value, JobCancelRequested)
  }

  // A finished page is kept by a retry; any other starts again without tries, result or error.
  predicate PageOfRetry(p: PageData, q: PageData) {
    if p.state == PageSucceeded then q == p
    else q == PageData(p.number, p.inputKey, PagePending, 0, None, None, None, 0, "")
  }

  predicate JobOfRetry(v: JobData, request: string, u: JobData) {
    && u == v.(state := Retrying, attempt := v.attempt + 1, request := request, revision := v.revision + 1, code := 0, reason := "",
               artifacts := {}, pages := u.pages)
    && |u.pages| == |v.pages| && forall i | 0 <= i < |v.pages| :: PageOfRetry(v.pages[i], u.pages[i])
  }

  // The same for retry_job.
  ghost predicate RetryAnswer(w: State, x: State, v: JobData, request: string, r: Result<JobData, ApiError>) {
    if v.state !in {Failed, Cancelled} then r == Err(JobNotRetryable) && x == w
    else
      && r.Ok? && JobOfRetry(v, request, r.value)
      && Answered(w, x, v, Action.Retry(request), r.value, JobRetrying)
      && |x.outbox| == |w.outbox| + 1 && x.outbox[..|w.outbox|] == w.outbox
      && x.outbox[|w.outbox|].job == v.id && x.outbox[|w.outbox|].attempt == v.attempt + 1
      && !x.outbox[|w.outbox|].published
  }

  // In states of the invariant the event of an added version is the one its kind says.
  lemma AnsweredByInv(c: Config, w: State, x: State, v: JobData, a: Action, u: JobData)
    requires Inv(c, w) && Inv(c, x) && v.id in w.jobs && Appended(w, x, v.id, Entry(a, u))
    ensures Answered(w, x, v, a, u, KindOf(Entry(a, u)))
  {
    hide ObjectsOk, KeptOk, CountersOk, ConstraintsOk, OutboxOk, QueueOk, Linked, KindOf;
    assert RecOk(c, v.id, w.jobs[v.id]) && RecOk(c, v.id, x.jobs[v.id]);
    var log, more := w.jobs[v.id].log, x.jobs[v.id].log;
    assert more[..|log|] == log;
    assert more == log + [more[|log|]];
  }

  lemma CancelIs(c: Config, w: State, x: State, v: JobData, request: string, r: Result<JobData, ApiError>)
    requires Inv(c, w) && Inv(c, x) && Enabled(c, v, RequestCancel(request)) && v.id in w.jobs
    requires r == Ok(Apply(c, v, RequestCancel(request))) && Appended(w, x, v.id, Entry(RequestCancel(request), r.value))
    ensures CancelAnswer(w, x, v, request, r)
  {
    hide Inv, Appended, Answered;
    AnsweredByInv(c, w, x, v, RequestCancel(request), r.value);
  }

  // The answers that write nothing.
  lemma CancelIsNot(c: Config, w: State, v: JobData, request: string)
    ensures !Enabled(c, v, RequestCancel(request)) && v.state != CancelRequested ==> CancelAnswer(w, w, v, request, Err(JobNotCancellable))
    ensures v.state in {Cancelled, JobState.Succeeded} ==> CancelAnswer(w, w, v, request, Err(JobNotCancellable))
    ensures v.state == CancelRequested ==> CancelAnswer(w, w, v, request, Ok(v))
  {}

  lemma RetryIsNot(w: State, v: JobData, request: string)
    ensures v.state !in {Failed, Cancelled} ==> RetryAnswer(w, w, v, request, Err(JobNotRetryable))
  {}

  lemma RetryIs(c: Config, w: State, x: State, v: JobData, request: string, rowId: nat, r: Result<JobData, ApiError>)
    requires Inv(c, w) && Inv(c, x) && Enabled(c, v, Action.Retry(request)) && v.id in w.jobs
    requires r == Ok(Apply(c, v, Action.Retry(request))) && Appended(w, x, v.id, Entry(Action.Retry(request), r.value))
    requires x.outbox == w.outbox + [OutboxRow(rowId, v.id, r.value.attempt, false)]
    ensures RetryAnswer(w, x, v, request, r)
  {
    hide Inv, Appended, Answered;
    AnsweredByInv(c, w, x, v, Action.Retry(request), r.value);
  }

  // Python's truth of an optional string.
  predicate IsGiven(key: Option<string>) { key.Some? && key.value != "" }

  function NewJob(id: JobId, spec: JobSpec, request: string): JobData {
    JobData(id, spec, request, Queued, 1, 0, [], {}, 0, "")
  }

  function UploadAnswer(w: State, upload: UploadId, owner: nat): Result<(), ApiError> {
    if upload !in w.uploads || !w.uploads[upload].row.Live? then Err(UploadNotFound)
    else if w.uploads[upload].owner != owner then Err(Unauthorized)
    else if !w.uploads[upload].completed then Err(UploadNotCompleted)
    else Ok(())
  }

  // Only the unique index stands in the way of the insert.
  predicate Refused(w: State, v: JobData, rowId: nat) {
    && v.id !in w.jobs && rowId !in w.outboxIds
    && v.spec.upload in w.uploads && !w.uploads[v.spec.upload].row.Deleted?
    && v.spec.idempotencyKey.Some? && (v.spec.owner, v.spec.idempotencyKey.value) in w.index
  }

  // The job is stored exactly as it was created.
  ghost predicate IsFirst(w: State, v: JobData) {
    && IsLive(w, v.id) && w.jobs[v.id].hist == [Entry(Create, v)] && Initial(v.id, v)
    && w.jobs[v.id].log == [Event(1, JobQueued, Queued, 1, 0, 0)]
  }

  lemma FirstLog(v: JobData)
    requires Initial(v.id, v)
    ensures Append([], JobQueued, v) == [Event(1, JobQueued, Queued, 1, 0, 0)]
  {
    assert MaxSequence([]) == 0;
  }

  // What create_job answers when nobody interferes and nothing fails.
  ghost predicate CreateAnswer(w: State, x: State, upload: UploadId, owner: nat, options: string, request: string,
                               key: Option<string>, r: Result<JobData, ApiError>) {
    var checked := UploadAnswer(w, upload, owner);
    if checked.Err? then r == Err(checked.error) && x == w
    else if IsGiven(key) && (owner, key.value) in w.index then
      // the key is taken: the same job for the same request, a conflict for another, an error once it is being deleted
      && x == w
      && var id := w.index[(owner, key.value)];
         if !IsLive(w, id) || w.jobs[id].hist == [] then r == Err(Unavailable)
         else var v := Current(w, id);
           if v.spec.upload == upload && v.spec.options == options then r == Ok(v) else r == Err(IdempotencyConflict)
    else if key.Some? && (owner, key.value) in w.index then r == Err(Unavailable) && x == w
    else
      && r.Ok? && r.value.id !in w.jobs && IsFirst(x, r.value) && x.jobs.Keys == w.jobs.Keys + {r.value.id}
      && r.value == JobData(r.value.id, JobSpec(owner, upload, options, key), request, Queued, 1, 0, [], {}, 0, "")
      && |x.outbox| == |w.outbox| + 1 && x.outbox[..|w.outbox|] == w.outbox
      && x.outbox[|w.outbox|].job == r.value.id && x.outbox[|w.outbox|].attempt == 1 && !x.outbox[|w.outbox|].published
  }

  lemma EntryIsThere(c: Config, w: State, owner: nat, key: string)
    requires Inv(c, w) && (owner, key) in w.index
    ensures
      var id := w.index[(owner, key)];
      id in w.jobs && w.jobs[id].hist != [] && HasKey(SpecOf(w, id), owner, key)
  {
    hide JobsOk, ObjectsOk, KeptOk, CountersOk, OutboxOk, QueueOk;
    assert IsIndexed(w, (owner, key));
  }

  lemma SpecKept(c: Config, w: State, x: State, id: JobId)
    requires Inv(c, w) && Inv(c, x) && Evolves(w, x) && id in w.jobs && w.jobs[id].hist != []
    ensures id in x.jobs && x.jobs[id].hist != [] && SpecOf(x, id) == SpecOf(w, id)
  {
    hide ObjectsOk, KeptOk, CountersOk, ConstraintsOk, OutboxOk, QueueOk, Linked, Mirrors;
    assert RecEvolves(w.jobs[id], x.jobs[id]);
  }

  lemma FirstSpec(c: Config, w: State, x: State, v: JobData)
    requires Inv(c, w) && Inv(c, x) && Evolves(w, x) && ExactlyCurrent(w, v)
    ensures v.id in x.jobs && x.jobs[v.id].hist != [] && SpecOf(x, v.id) == v.spec
  {
    hide Inv;
    SpecKept(c, w, x, v.id);
    SpecOfCurrent(c, w, v);
  }

  lemma SpecOfCurrent(c: Config, w: State, v: JobData)
    requires Inv(c, w) && ExactlyCurrent(w, v)
    ensures SpecOf(w, v.id) == v.spec
  {
    hide ObjectsOk, KeptOk, CountersOk, ConstraintsOk, OutboxOk, QueueOk;
    HasHistory(c, w, v.id);
  }

  class JobService {
    const c: Config
    // Whether this is a run in which nothing fails and nobody else takes a step.
    const calm: bool
    var w: State
    // How many calls have failed, and how many saves have found another revision.
    ghost var faults: nat
    ghost var conflicts: nat

    constructor (c: Config, calm: bool, w: State)
      requires Inv(c, w)
      ensures Inv(c, this.w) && this.c == c && this.calm == calm && this.w == w && faults == 0 && conflicts == 0
    {
      this.c := c;
      this.calm := calm;
      this.w := w;
      faults, conflicts := 0, 0;
    }

    method Fails() returns (fails: bool)
      modifies `faults
      ensures (fails ==> !calm) && faults == old(faults) + if fails then 1 else 0
    {
      fails := MayFail(calm);
      if fails { faults := faults + 1; }
    }

    /**
     An await. The caller learns only the contract: any number of steps of workers, other requests,
     the dispatcher, the consumer and retention. (The body is the schedule in which nobody runs.)
     */
    method Interfere()
      requires Inv(c, w)
      modifies `w
      ensures Inv(c, w) && Evolves(old(w), w) && (calm ==> w == old(w))
    {}

    // A new id. Only where others write too may it have been taken by the time it is used.
    method NewId(used: set<nat>) returns (id: nat)
      ensures calm ==> id !in used
    {
      id := *;
      if calm { id := FreshId(used); }
    }

    method Get(id: JobId) returns (r: Result<Job?, ApiError>)
      requires Inv(c, w)
      modifies `w, `faults
      ensures Inv(c, w) && Evolves(old(w), w) && (calm ==> w == old(w) && r.Ok?)
      ensures r.Err? ==> r.error == Unavailable
      ensures r.Ok? && r.value == null ==> !IsLive(w, id)
      ensures calm && !IsLive(old(w), id) ==> r.value == null
      ensures r.Ok? && r.value != null ==>
                fresh(r.value) && fresh(r.value.pages) && r.value.Valid() && r.value.id == id && Seen(w, r.value.Data())
      ensures calm && IsLive(old(w), id) ==>
                w.jobs[id].hist != [] && r.value != null && r.value.Data() == Current(w, id)
      ensures old(faults) <= faults
      ensures r.Err? ==> old(faults) < faults
    {
      hide Inv, Evolves, Seen, PageRows, ArtifactRows;
      ghost var w0 := w;
      Interfere();
      ghost var w1 := w;
      var fails := Fails();
      if fails {
        return Err(Unavailable);
      }
      if !IsLive(w, id) {
        return Ok(null);
      }
      HistoryThere(c, w, id);
      var row := Current(w, id);
      Interfere();
      ghost var w2 := w;
      var pages := PageRows(w, id, row.attempt);
      Interfere();
      CurrentLoaded(c, w1, w2, w, id);
      EvolvesTransitive(w0, w1, w2);
      EvolvesTransitive(w0, w2, w);
      var artifacts := ArtifactRows(w, id, row.attempt);
      fails := Fails();
      if fails {
        return Err(Unavailable);
      }
      var pageObjects := P.MakePages(pages);
      var list := P.Enumerate(artifacts);
      var job := new Job.Load(row.(pages := pages, artifacts := artifacts), pageObjects, list);
      r := Ok(job);
    }

    // The compare-and-swap of save_with_event. base is the copy the change was made to.
    method Save(job: Job, ghost base: JobData, request: string) returns (r: Result<(), SaveError>)
      requires Inv(c, w) && job.Valid() && Seen(w, base) && job.id == base.id
      requires Enabled(c, base, RequestCancel(request))
      requires job.Data() == Apply(c, base, RequestCancel(request)).(revision := base.revision)
      modifies `w, `faults, `conflicts, job`revision
      ensures Inv(c, w) && Evolves(old(w), w)
      ensures job.Data() == old(job.Data()).(revision := job.revision)
      ensures r.Ok? ==> ExactlyCurrent(w, job.Data()) && job.Data() == Apply(c, base, RequestCancel(request))
      ensures calm && ExactlyCurrent(old(w), base) ==> r.Ok?
      ensures calm && r.Ok? ==> Appended(old(w), w, job.id, Entry(RequestCancel(request), job.Data()))
      ensures calm && r.Err? ==> w == old(w)
      ensures calm && r.Err? && ExactlyCurrent(old(w), base) ==> r.error == Down
      ensures conflicts == old(conflicts) + if r == Err(Conflict) then 1 else 0
      ensures old(faults) <= faults && (r == Err(Down) ==> old(faults) < faults)
    {
      hide ExactlyCurrent, Inv, Evolves, Seen, Enabled, Apply, KindOf, Append, Appended, PagesData, Distinct, SetOf;
      ghost var w0 := w;
      Interfere();
      ghost var w1 := w;
      SeenStable(c, w0, w1, base);
      CurrentHits(w0, base);
      var fails := Fails();
      if fails {
        return Err(Down);
      }
      HistoryThere(c, w, job.id);
      if !(IsLive(w, job.id) && Current(w, job.id).revision == job.revision) {
        conflicts := conflicts + 1;
        return Err(Conflict);
      }
      HitIsCurrent(c, w, base);
      ApplyKeeps(c, base, RequestCancel(request));
      job.Columns();
      var expires: int := *;
      var a := RequestCancel(request);
      CancelCommits(c, w, base.id, request, expires);
      EvolvesTransitive(w0, w1, Committed(c, w, base.id, a, expires));
      w := Committed(c, w, job.id, a, expires);
      job.revision := job.revision + 1;
      fails := Fails();
      if fails {
        return Err(Down);
      }
      return Ok(());
    }

    // save_with_outbox_and_event of a retry: the same, and the outbox row of the new attempt.
    method SaveRetry(job: Job, ghost base: JobData, request: string, rowId: nat) returns (r: Result<(), SaveError>)
      requires Inv(c, w) && job.Valid() && Seen(w, base) && job.id == base.id
      requires Enabled(c, base, Action.Retry(request))
      requires job.Data() == Apply(c, base, Action.Retry(request)).(revision := base.revision)
      modifies `w, `faults, `conflicts, job`revision
      ensures Inv(c, w) && Evolves(old(w), w)
      ensures job.Data() == old(job.Data()).(revision := job.revision)
      ensures r.Ok? ==> ExactlyCurrent(w, job.Data()) && job.Data() == Apply(c, base, Action.Retry(request))
      ensures calm && ExactlyCurrent(old(w), base) && rowId !in old(w).outboxIds ==> r.Ok?
      ensures calm && r.Ok? ==> Appended(old(w), w, job.id, Entry(Action.Retry(request), job.Data()))
                                && w.outbox == old(w).outbox + [OutboxRow(rowId, job.id, job.attempt, false)]
      ensures calm && r.Err? ==> w == old(w)
      ensures calm && r.Err? && ExactlyCurrent(old(w), base) ==> r.error == Down
      ensures conflicts == old(conflicts) + if r == Err(Conflict) then 1 else 0
      ensures old(faults) <= faults && (r == Err(Down) ==> old(faults) < faults)
    {
      hide ExactlyCurrent, Inv, Evolves, Seen, Enabled, Apply, KindOf, Append, Appended, PagesData, Distinct, SetOf;
      ghost var w0 := w;
      Interfere();
      ghost var w1 := w;
      SeenStable(c, w0, w1, base);
      CurrentHits(w0, base);
      var fails := Fails();
      if fails {
        return Err(Down);
      }
      HistoryThere(c, w, job.id);
      if !(IsLive(w, job.id) && Current(w, job.id).revision == job.revision) {
        conflicts := conflicts + 1;
        return Err(Conflict);
      }
      // primary key of outbox_events
      if rowId in w.outboxIds {
        faults := faults + 1;
        return Err(Down);
      }
      HitIsCurrent(c, w, base);
      ApplyKeeps(c, base, Action.Retry(request));
      job.Columns();
      var expires: int := *;
      RetryCommits(c, w, base.id, request, expires, rowId);
      EvolvesTransitive(w0, w1, Retried(c, w, base.id, request, expires, rowId));
      w := Retried(c, w, job.id, request, expires, rowId);
      job.revision := job.revision + 1;
      fails := Fails();
      if fails {
        return Err(Down);
      }
      return Ok(());
    }

    // _owned_job
    method OwnedJob(id: JobId, owner: nat) returns (r: Result<Job, ApiError>)
      requires Inv(c, w)
      modifies `w, `faults
      ensures Inv(c, w) && Evolves(old(w), w)
      ensures r.Ok? ==> fresh(r.value) && fresh(r.value.pages) && r.value.Valid() && r.value.id == id
                        && Seen(w, r.value.Data()) && r.value.spec.owner == owner
      ensures r.Err? ==> r.error in {JobNotFound, Unauthorized, Unavailable}
      ensures calm ==> w == old(w)
      ensures calm && !IsLive(old(w), id) ==> r == Err(JobNotFound)
      ensures calm && IsLive(old(w), id) ==>
                && w.jobs[id].hist != []
                && (if Current(w, id).spec.owner != owner then r == Err(Unauthorized)
                    else r.Ok? && r.value.Data() == Current(w, id))
      ensures old(faults) <= faults
      ensures r == Err(Unavailable) ==> old(faults) < faults
    {
      hide Inv, Evolves, Seen;
      var got := Get(id);
      if got.Err? {
        return Err(got.error);
      }
      if got.value == null {
        return Err(JobNotFound);
      }
      if got.value.spec.owner != owner {
        return Err(Unauthorized);
      }
      return Ok(got.value);
    }

    // _to_job_dto: reads the upload for its file name. The answer shows the job as it was saved or loaded.
    method ToDto(job: Job) returns (r: Result<JobData, ApiError>)
      requires Inv(c, w)
      modifies `w, `faults
      ensures Inv(c, w) && Evolves(old(w), w) && (calm ==> w == old(w) && r.Ok?)
      ensures r.Ok? ==> r.value == job.Data()
      ensures r.Err? ==> r.error == Unavailable
      ensures old(faults) <= faults
      ensures r.Err? ==> old(faults) < faults
    {
      Interfere();
      var fails := Fails();
      r := if fails then Err(Unavailable) else Ok(job.Data());
    }

    /**
     cancel_job: at most three tries. A normal answer shows the attempt cancelling or cancelled in a
     version that was stored, so (CancelledForGood) it never succeeds or fails afterwards.
     */
    method CancelJob(id: JobId, owner: nat, request: string) returns (r: Result<JobData, ApiError>)
      requires Inv(c, w)
      modifies `w, `faults, `conflicts
      ensures Inv(c, w) && Evolves(old(w), w)
      ensures r.Ok? ==> r.value.id == id && r.value.spec.owner == owner && r.value.state in {CancelRequested, Cancelled}
                        && Seen(w, r.value)
      ensures r.Err? ==> r.error in {JobNotFound, Unauthorized, JobNotCancellable, Unavailable}
      ensures calm && IsLive(old(w), id) && old(w).jobs[id].hist != [] && Current(old(w), id).spec.owner == owner ==>
                CancelAnswer(old(w), w, Current(old(w), id), request, r)
      ensures calm && !IsLive(old(w), id) ==> r == Err(JobNotFound) && w == old(w)
      ensures conflicts <= old(conflicts) + if r == Err(Unavailable) then 3 else 2
      ensures r == Err(Unavailable) ==> old(faults) < faults || conflicts == old(conflicts) + 3
      ensures calm && IsLive(old(w), id) && old(w).jobs[id].hist != [] && Current(old(w), id).spec.owner != owner ==>
                r == Err(Unauthorized) && w == old(w)
    {
      hide CancelAnswer, Inv, Evolves, Seen;
      ghost var w0 := w;
      var tries := 0;
      EvolvesReflexive(w);
      while true
        invariant Inv(c, w) && Evolves(w0, w) && tries <= 2 && conflicts == old(conflicts) + tries && old(faults) <= faults
        invariant calm ==> w == w0
        decreases 2 - tries
      {
        ghost var w1 := w;
        var answer := CancelOnce(id, owner, request, tries);
        EvolvesTransitive(w0, w1, w);
        if answer.Some? {
          return answer.value;
        }
        tries := tries + 1;
      }
    }

    // One turn of the loop; None is a lost race that leaves tries.
    method CancelOnce(id: JobId, owner: nat, request: string, tries: nat) returns (answer: Option<Result<JobData, ApiError>>)
      requires Inv(c, w) && tries <= 2
      modifies `w, `faults, `conflicts
      ensures Inv(c, w) && Evolves(old(w), w) && old(faults) <= faults
      ensures answer.None? ==> tries < 2 && conflicts == old(conflicts) + 1 && !calm
      ensures answer.Some? && answer.value.Ok? ==>
                var u := answer.value.value;
                u.id == id && u.spec.owner == owner && u.state in {CancelRequested, Cancelled} && Seen(w, u)
      ensures answer.Some? && answer.value.Err? ==> answer.value.error in {JobNotFound, Unauthorized, JobNotCancellable, Unavailable}
      ensures answer.Some? && conflicts != old(conflicts) ==> conflicts == old(conflicts) + 1 && tries == 2 && answer == Some(Err(Unavailable))
      ensures answer == Some(Err(Unavailable)) ==> old(faults) < faults || conflicts == old(conflicts) + 1
      ensures calm && !IsLive(old(w), id) ==> answer == Some(Err(JobNotFound)) && w == old(w)
      ensures calm && IsLive(old(w), id) && old(w).jobs[id].hist != [] ==>
                if Current(old(w), id).spec.owner != owner then answer == Some(Err(Unauthorized)) && w == old(w)
                else answer.Some? && CancelAnswer(old(w), w, Current(old(w), id), request, answer.value)
    {
      hide Inv, Evolves, Seen, Appended, CancelAnswer, Enabled, Apply, Job.Data, PagesData, Distinct, SetOf;
      ghost var w0 := w;
      var got := OwnedJob(id, owner);
      ghost var w2 := w;
      if got.Err? {
        return Some(Err(got.error));
      }
      var job := got.value;
      job.Columns();
      ghost var base := job.Data();
      CancelIsNot(c, w, base, request);
      if job.state == Cancelled || job.state == JobState.Succeeded {
        return Some(Err(JobNotCancellable));
      }
      if job.state == CancelRequested {
        var dto := ToDto(job);
        EvolvesTransitive(w0, w2, w);
        SeenLater(c, w2, w, base);
        return Some(dto);
      }
      var ok := ApplyCancel(job, request);
      if !ok {
        return Some(Err(JobNotCancellable));
      }
      job.Columns();
      answer := CommitCancel(job, base, request, tries);
      EvolvesTransitive(w0, w2, w);
    }

    // The save of a cancelled or cancelling job and the answer to it.
    method CommitCancel(job: Job, ghost base: JobData, request: string, tries: nat) returns (answer: Option<Result<JobData, ApiError>>)
      requires Inv(c, w) && tries <= 2 && job.Valid() && Seen(w, base) && job.id == base.id
      requires Enabled(c, base, RequestCancel(request))
      requires job.Data() == Apply(c, base, RequestCancel(request)).(revision := base.revision)
      modifies `w, `faults, `conflicts, job`revision
      ensures Inv(c, w) && Evolves(old(w), w) && old(faults) <= faults
      ensures answer.None? ==> tries < 2 && conflicts == old(conflicts) + 1
      ensures answer.Some? ==> answer.value.Ok? || answer.value.error == Unavailable
      ensures answer.Some? && answer.value.Ok? ==>
                var u := answer.value.value;
                u.id == base.id && u.spec == base.spec && u.state in {CancelRequested, Cancelled} && Seen(w, u) && conflicts == old(conflicts)
      ensures answer.Some? && answer.value.Err? ==>
                if tries == 2 && conflicts != old(conflicts) then conflicts == old(conflicts) + 1
                else conflicts == old(conflicts) && old(faults) < faults
      ensures calm && ExactlyCurrent(old(w), base) ==> answer.Some? && CancelAnswer(old(w), w, base, request, answer.value)
    {
      hide Enabled, Apply, CancelAnswer, Inv, Evolves, Seen, Appended, ExactlyCurrent, Job.Data, PagesData, Distinct, SetOf;
      ghost var w0 := w;
      CancelApplied(c, base, request);
      ApplyKeeps(c, base, RequestCancel(request));
      job.Columns();
      var saved := Save(job, base, request);
      job.Columns();
      ghost var w1 := w;
      if saved.Ok? {
        var dto := ToDto(job);
        EvolvesTransitive(w0, w1, w);
        CurrentWasSeen(c, w1, w, job.Data());
        if calm && ExactlyCurrent(w0, base) {
          CurrentHits(w0, base);
          CancelIs(c, w0, w, base, request, dto);
        }
        return Some(dto);
      }
      return if saved.error == Down || tries == 2 then Some(Err(Unavailable)) else None;
    }

    // The changes to the loaded job: the request id, request_cancel, and cancel at once if not started.
    method ApplyCancel(job: Job, request: string) returns (ok: bool)
      requires job.Valid()
      modifies job
      ensures job.Valid() && job.pages == old(job.pages)
      ensures ok == Enabled(c, old(job.Data()), RequestCancel(request))
      ensures ok ==> job.Data() == Apply(c, old(job.Data()), RequestCancel(request)).(revision := old(job.revision))
    {
      hide PagesData, Distinct, SetOf;
      var previous := job.state;
      job.request := request;
      ok := job.RequestCancel();
      if ok && previous in {Queued, Retrying} {
        var _ := job.Cancel();
      }
    }

    method ApplyRetry(job: Job, request: string) returns (ok: bool)
      requires job.Valid()
      modifies job, job.pages
      ensures job.Valid() && job.pages == old(job.pages)
      ensures ok == (old(job.state) in {Failed, Cancelled}) && ok == Enabled(c, old(job.Data()), Action.Retry(request))
      ensures if ok then job.Data() == Apply(c, old(job.Data()), Action.Retry(request)).(revision := old(job.revision))
              else job.Data() == old(job.Data())
    {
      hide PagesData, Distinct, SetOf;
      ok := job.Retry(request);
    }

    /**
     retry_job: at most three tries. If the job turns out to be retrying already after a lost race,
     the other request's retry is the answer.
     */
    method RetryJob(id: JobId, owner: nat, request: string) returns (r: Result<JobData, ApiError>, ghost found: Option<JobData>)
      requires Inv(c, w)
      modifies `w, `faults, `conflicts
      ensures Inv(c, w) && Evolves(old(w), w)
      ensures r.Ok? ==> r.value.id == id && r.value.spec.owner == owner && r.value.state == Retrying && Seen(w, r.value)
      ensures r.Err? ==> r.error in {JobNotFound, Unauthorized, JobNotRetryable, Unavailable}
      ensures calm && IsLive(old(w), id) && old(w).jobs[id].hist != [] && Current(old(w), id).spec.owner == owner ==>
                RetryAnswer(old(w), w, Current(old(w), id), request, r)
      ensures calm && !IsLive(old(w), id) ==> r == Err(JobNotFound) && w == old(w)
      ensures conflicts <= old(conflicts) + if r == Err(Unavailable) then 3 else 2
      ensures r == Err(Unavailable) ==> old(faults) < faults || conflicts == old(conflicts) + 3
      ensures calm && IsLive(old(w), id) && old(w).jobs[id].hist != [] && Current(old(w), id).spec.owner != owner ==>
                r == Err(Unauthorized) && w == old(w)
      ensures r == Err(JobNotRetryable) ==> found.Some? && found.value.id == id && Seen(w, found.value) && found.value.state !in {Failed, Cancelled}
      ensures r == Err(JobNotRetryable) && old(conflicts) < conflicts ==> found.value.state != Retrying
    {
      hide RetryAnswer, Inv, Evolves, Seen;
      ghost var w0 := w;
      var tries := 0;
      found := None;
      EvolvesReflexive(w);
      while true
        invariant Inv(c, w) && Evolves(w0, w) && tries <= 2 && conflicts == old(conflicts) + tries && old(faults) <= faults
        invariant calm ==> w == w0 && (IsLive(w, id) ==> tries == 0)
        decreases 2 - tries
      {
        ghost var w1 := w;
        var answer;
        answer, found := RetryOnce(id, owner, request, tries);
        EvolvesTransitive(w0, w1, w);
        if answer.Some? {
          return answer.value, found;
        }
        tries := tries + 1;
      }
    }

    // One turn of the loop; None is a lost race that leaves tries.
    method RetryOnce(id: JobId, owner: nat, request: string, tries: nat)
      returns (answer: Option<Result<JobData, ApiError>>, ghost found: Option<JobData>)
      requires Inv(c, w) && tries <= 2
      modifies `w, `faults, `conflicts
      ensures Inv(c, w) && Evolves(old(w), w) && old(faults) <= faults
      ensures answer.None? ==> tries < 2 && conflicts == old(conflicts) + 1 && (calm ==> !IsLive(old(w), id) && w == old(w))
      ensures answer.Some? && answer.value.Ok? ==>
                var u := answer.value.value;
                u.id == id && u.spec.owner == owner && u.state == Retrying && Seen(w, u)
      ensures answer.Some? && answer.value.Err? ==> answer.value.error in {JobNotFound, Unauthorized, JobNotRetryable, Unavailable}
      ensures answer.Some? && conflicts != old(conflicts) ==> conflicts == old(conflicts) + 1 && tries == 2 && answer == Some(Err(Unavailable))
      ensures answer == Some(Err(Unavailable)) ==> old(faults) < faults || conflicts == old(conflicts) + 1
      ensures calm && !IsLive(old(w), id) ==> answer == Some(Err(JobNotFound)) && w == old(w)
      ensures calm && IsLive(old(w), id) && old(w).jobs[id].hist != [] ==>
                if Current(old(w), id).spec.owner != owner then answer == Some(Err(Unauthorized)) && w == old(w)
                else answer.Some? && (tries == 0 ==> RetryAnswer(old(w), w, Current(old(w), id), request, answer.value))
      ensures answer == Some(Err(JobNotRetryable)) ==>
                && found.Some? && found.value.id == id && Seen(w, found.value) && found.value.state !in {Failed, Cancelled}
                && (0 < tries ==> found.value.state != Retrying)
    {
      hide Enabled, Apply, RetryAnswer, Inv, Evolves, Seen, Appended, Job.Data, PagesData, Distinct, SetOf;
      ghost var w0 := w;
      found := None;
      var got := OwnedJob(id, owner);
      ghost var w2 := w;
      if got.Err? {
        return Some(Err(got.error)), found;
      }
      var job := got.value;
      job.Columns();
      ghost var base := job.Data();
      found := Some(base);
      RetryIsNot(w, base, request);
      var ok := ApplyRetry(job, request);
      job.Columns();
      if !ok {
        if job.state == Retrying && tries > 0 {
          var dto := ToDto(job);
          EvolvesTransitive(w0, w2, w);
          SeenLater(c, w2, w, base);
          return Some(dto), found;
        }
        return Some(Err(JobNotRetryable)), found;
      }
      answer := CommitRetry(job, base, request, tries);
      EvolvesTransitive(w0, w2, w);
      return answer, found;
    }

    // The save of a retried job and the answer to it.
    method CommitRetry(job: Job, ghost base: JobData, request: string, tries: nat) returns (answer: Option<Result<JobData, ApiError>>)
      requires Inv(c, w) && tries <= 2 && job.Valid() && Seen(w, base) && job.id == base.id
      requires Enabled(c, base, Action.Retry(request))
      requires job.Data() == Apply(c, base, Action.Retry(request)).(revision := base.revision)
      modifies `w, `faults, `conflicts, job`revision
      ensures Inv(c, w) && Evolves(old(w), w) && old(faults) <= faults
      ensures answer.None? ==> tries < 2 && conflicts == old(conflicts) + 1
      ensures answer.Some? ==> answer.value.Ok? || answer.value.error == Unavailable
      ensures answer.Some? && answer.value.Ok? ==>
                var u := answer.value.value;
                u.id == base.id && u.spec == base.spec && u.state == Retrying && Seen(w, u) && conflicts == old(conflicts)
      ensures answer.Some? && answer.value.Err? ==>
                if tries == 2 && conflicts != old(conflicts) then conflicts == old(conflicts) + 1
                else conflicts == old(conflicts) && old(faults) < faults
      ensures calm && answer.None? ==> !ExactlyCurrent(old(w), base) && w == old(w)
      ensures calm && ExactlyCurrent(old(w), base) ==> answer.Some? && RetryAnswer(old(w), w, base, request, answer.value)
    {
      hide Enabled, Apply, RetryAnswer, Inv, Evolves, Seen, Appended, ExactlyCurrent, Job.Data, PagesData, Distinct, SetOf;
      ghost var w0 := w;
      var rowId := NewId(w.outboxIds.Keys);
      RetryApplied(c, base, request);
      ApplyKeeps(c, base, Action.Retry(request));
      job.Columns();
      var saved := SaveRetry(job, base, request, rowId);
      job.Columns();
      ghost var w1 := w;
      if saved.Ok? {
        var dto := ToDto(job);
        EvolvesTransitive(w0, w1, w);
        CurrentWasSeen(c, w1, w, job.Data());
        if calm && ExactlyCurrent(w0, base) {
          CurrentHits(w0, base);
          RetryIs(c, w0, w, base, request, rowId, dto);
        }
        return Some(dto);
      }
      return if saved.error == Down || tries == 2 then Some(Err(Unavailable)) else None;
    }

    // find_by_idempotency_key: the index entry, even of a claimed job, and then get.
    method FindByKey(owner: nat, key: string) returns (r: Result<Job?, ApiError>)
      requires Inv(c, w)
      modifies `w, `faults
      ensures Inv(c, w) && Evolves(old(w), w) && (calm ==> w == old(w) && r.Ok?)
      ensures r.Err? ==> r.error == Unavailable
      ensures r.Ok? && r.value != null ==>
                fresh(r.value) && fresh(r.value.pages) && r.value.Valid() && Seen(w, r.value.Data())
                && r.value.id in w.jobs && w.jobs[r.value.id].hist != [] && HasKey(SpecOf(w, r.value.id), owner, key)
      ensures calm ==> (r.value != null <==> (owner, key) in w.index && IsLive(w, w.index[(owner, key)]))
      ensures calm && r.value != null ==>
                r.value.id == w.index[(owner, key)] && r.value.Data() == Current(w, r.value.id)
      ensures old(faults) <= faults
    {
      hide Inv, Evolves, Seen;
      ghost var w0 := w;
      Interfere();
      ghost var w1 := w;
      var fails := Fails();
      if fails {
        return Err(Unavailable);
      }
      if (owner, key) !in w.index {
        return Ok(null);
      }
      var id := w.index[(owner, key)];
      EntryIsThere(c, w, owner, key);
      r := Get(id);
      EvolvesTransitive(w0, w1, w);
      SpecKept(c, w1, w, id);
    }

    // add_with_outbox_and_event: row, outbox row and event, or nothing.
    method Insert(v: JobData, rowId: nat) returns (r: Result<(), InsertError>)
      requires Inv(c, w) && Initial(v.id, v)
      modifies `w, `faults
      ensures Inv(c, w) && Evolves(old(w), w)
      ensures r.Ok? ==> ExactlyCurrent(w, v)
      ensures calm ==> (r.Ok? <==> Insertable(old(w), v, rowId))
      ensures calm && r.Ok? ==> IsFirst(w, v) && w.jobs.Keys == old(w).jobs.Keys + {v.id}
                                && w.outbox == old(w).outbox + [OutboxRow(rowId, v.id, 1, false)]
      ensures calm && r.Err? ==> w == old(w)
      ensures calm ==> (r == Err(Duplicate) <==> Refused(old(w), v, rowId))
      ensures r == Err(Duplicate) ==> v.spec.idempotencyKey.Some?
      ensures old(faults) <= faults
    {
      hide Inv, Evolves;
      ghost var w0 := w;
      Interfere();
      ghost var w1 := w;
      var fails := Fails();
      if fails {
        return Err(NotInserted);
      }
      if v.id in w.jobs || rowId in w.outboxIds || v.spec.upload !in w.uploads || w.uploads[v.spec.upload].row.Deleted? {
        return Err(NotInserted);
      }
      if v.spec.idempotencyKey.Some? && (v.spec.owner, v.spec.idempotencyKey.value) in w.index {
        return Err(Duplicate);
      }
      var expires: int := *;
      CreateOk(c, w, v, expires, rowId);
      EvolvesTransitive(w0, w1, Created(w, v, expires, rowId));
      FirstLog(v);
      w := Created(w, v, expires, rowId);
      fails := Fails();
      if fails {
        return Err(NotInserted);
      }
      return Ok(());
    }

    // The job a key already has, for the same request or for another one.
    method Reuse(existing: Job, upload: UploadId, options: string) returns (r: Result<JobData, ApiError>)
      requires Inv(c, w)
      modifies `w, `faults
      ensures Inv(c, w) && Evolves(old(w), w) && (calm ==> w == old(w) && (r.Ok? || r.error == IdempotencyConflict))
      ensures r.Ok? ==> r.value == existing.Data() && r.value.spec.upload == upload && r.value.spec.options == options
      ensures r == Err(IdempotencyConflict) <==> existing.spec.upload != upload || existing.spec.options != options
      ensures r.Err? ==> r.error in {IdempotencyConflict, Unavailable}
      ensures old(faults) <= faults
    {
      hide Inv, Evolves, PagesData, Distinct, SetOf;
      if existing.spec.upload != upload || existing.spec.options != options {
        EvolvesReflexive(w);
        return Err(IdempotencyConflict);
      }
      r := ToDto(existing);
    }

    // _owned_upload and the check that it is completed.
    method CompletedUpload(upload: UploadId, owner: nat) returns (r: Result<(), ApiError>)
      requires Inv(c, w)
      modifies `w, `faults
      ensures Inv(c, w) && Evolves(old(w), w) && (calm ==> w == old(w) && r == UploadAnswer(w, upload, owner))
      ensures r.Err? ==> r.error in {UploadNotFound, Unauthorized, UploadNotCompleted, Unavailable}
      ensures old(faults) <= faults
    {
      hide Inv, Evolves;
      Interfere();
      var fails := Fails();
      r := if fails then Err(Unavailable) else UploadAnswer(w, upload, owner);
    }

    /**
     create_job: check, then insert. An answer with an idempotency key is the job the unique index
     holds for it, whoever created it (CreatesCollapse), and was made for the same upload and options.
     */
    method CreateJob(upload: UploadId, owner: nat, options: string, request: string, key: Option<string>)
      returns (r: Result<JobData, ApiError>)
      requires Inv(c, w)
      modifies `w, `faults
      ensures Inv(c, w) && Evolves(old(w), w)
      ensures r.Ok? ==> Seen(w, r.value) && r.value.spec.upload == upload && r.value.spec.options == options
                        && r.value.id in w.jobs && w.jobs[r.value.id].hist != [] && SpecOf(w, r.value.id).owner == owner
      ensures r.Ok? && IsGiven(key) ==> HasKey(SpecOf(w, r.value.id), owner, key.value)
      ensures calm ==> CreateAnswer(old(w), w, upload, owner, options, request, key, r)
      ensures old(faults) <= faults
      ensures calm ==>
                if upload !in old(w).uploads || !old(w).uploads[upload].row.Live? then r == Err(UploadNotFound)
                else if old(w).uploads[upload].owner != owner then r == Err(Unauthorized)
                else !old(w).uploads[upload].completed ==> r == Err(UploadNotCompleted)
    {
      hide Inv, Evolves, Seen, PagesData, Distinct, SetOf;
      ghost var w0 := w;
      var checked := CompletedUpload(upload, owner);
      ghost var w1 := w;
      if checked.Err? {
        return Err(checked.error);
      }
      if IsGiven(key) {
        var found := FindByKey(owner, key.value);
        EvolvesTransitive(w0, w1, w);
        if found.Err? {
          return Err(found.error);
        }
        if found.value != null {
          ghost var w2 := w;
          r := Reuse(found.value, upload, options);
          EvolvesTransitive(w0, w2, w);
          SeenLater(c, w2, w, found.value.Data());
          SpecKept(c, w2, w, found.value.id);
          return;
        }
      }
      ghost var w3 := w;
      r := InsertJob(upload, owner, options, request, key);
      EvolvesTransitive(w0, w3, w);
    }

    method InsertJob(upload: UploadId, owner: nat, options: string, request: string, key: Option<string>)
      returns (r: Result<JobData, ApiError>)
      requires Inv(c, w)
      modifies `w, `faults
      ensures Inv(c, w) && Evolves(old(w), w)
      ensures r.Ok? ==> Seen(w, r.value) && r.value.spec.upload == upload && r.value.spec.options == options
                        && r.value.id in w.jobs && w.jobs[r.value.id].hist != [] && SpecOf(w, r.value.id).owner == owner
      ensures r.Ok? && IsGiven(key) ==> HasKey(SpecOf(w, r.value.id), owner, key.value)
      ensures r.Err? ==> r.error in {Unavailable, IdempotencyConflict}
      ensures calm && r.Ok? && (IsGiven(key) ==> (owner, key.value) !in old(w).index) ==>
                r.value.id !in old(w).jobs && IsFirst(w, r.value)
                && w.jobs.Keys == old(w).jobs.Keys + {r.value.id} && r.value == NewJob(r.value.id, JobSpec(owner, upload, options, key), request)
                && |w.outbox| == |old(w).outbox| + 1 && w.outbox[..|old(w).outbox|] == old(w).outbox
                && w.outbox[|old(w).outbox|].job == r.value.id && w.outbox[|old(w).outbox|].attempt == 1
                && !w.outbox[|old(w).outbox|].published
      ensures calm && (r.Err? || (IsGiven(key) && (owner, key.value) in old(w).index)) ==> w == old(w)
      ensures calm && (key.Some? ==> (owner, key.value) !in old(w).index) && upload in old(w).uploads && !old(w).uploads[upload].row.Deleted? ==>
                r.Ok?
      ensures calm && key.Some? && !IsGiven(key) && (owner, key.value) in old(w).index ==> r == Err(Unavailable)
      ensures calm && IsGiven(key) && (owner, key.value) in old(w).index && !IsLive(old(w), old(w).index[(owner, key.value)]) ==>
                r == Err(Unavailable)
      ensures calm && r == Err(IdempotencyConflict) ==> IsGiven(key) && (owner, key.value) in old(w).index
      ensures old(faults) <= faults
    {
      hide Inv, Evolves, Seen, PagesData, Distinct, SetOf;
      ghost var w0 := w;
      var id := NewId(w.jobs.Keys);
      var rowId := NewId(w.outboxIds.Keys);
      var v := NewJob(id, JobSpec(owner, upload, options, key), request);
      var inserted := Insert(v, rowId);
      ghost var w1 := w;
      if inserted.Err? {
        if inserted.error == NotInserted || !IsGiven(key) {
          return Err(Unavailable);
        }
        var found := FindByKey(owner, key.value);
        ghost var w2 := w;
        EvolvesTransitive(w0, w1, w2);
        if found.Err? {
          return Err(found.error);
        }
        if found.value == null {
          return Err(Unavailable);
        }
        r := Reuse(found.value, upload, options);
        EvolvesTransitive(w0, w2, w);
        SeenLater(c, w2, w, found.value.Data());
        SpecKept(c, w2, w, found.value.id);
        return;
      }
      Interfere();
      EvolvesTransitive(w0, w1, w);
      CurrentWasSeen(c, w1, w, v);
      FirstSpec(c, w1, w, v);
      var fails := Fails();
      r := if fails then Err(Unavailable) else Ok(v);
    }
  }
}
