/**
 The steps that write an outbox row: a new job and a retry; and the steps of the API seen from a
 worker: they are among the steps a worker allows the others (Others), so each process keeps
 what the other relies on.
 */
module Issuing {
  import opened Domain
  import opened History
  import opened EventLog
  import opened World
  import opened Commits
  import opened Rely

  // A new job, its first event, its outbox row and its entry in the unique index, in one transaction.
  function Created(w: State, v: JobData, expires: int, rowId: nat): State {
    w.(jobs := w.jobs[v.id := JobRec([Entry(Create, v)], Append([], JobQueued, v), Live, expires)],
       outbox := w.outbox + [OutboxRow(rowId, v.id, v.attempt, false)],
       outboxIds := w.outboxIds[rowId := (v.id, v.attempt)],
       index := match v.spec.idempotencyKey
                case None => w.index
                case Some(key) => w.index[(v.spec.owner, key) := v.id])
  }

  // What the constraints of the tables demand of the insert.
  predicate Insertable(w: State, v: JobData, rowId: nat) {
    && v.id !in w.jobs && rowId !in w.outboxIds
    && v.spec.upload in w.uploads && !w.uploads[v.spec.upload].row.Deleted?
    && (v.spec.idempotencyKey.Some? ==> (v.spec.owner, v.spec.idempotencyKey.value) !in w.index)
  }

  lemma FirstEvent(c: Config, v: JobData)
    requires Initial(v.id, v)
    ensures Chain(c, v.id, [Entry(Create, v)]) && Mirrors(Append([], JobQueued, v), [Entry(Create, v)])
  {
    assert MaxSequence([]) == 0;
  }

  lemma CreatedJobs(c: Config, w: State, v: JobData, expires: int, rowId: nat)
    requires JobsOk(c, w) && Initial(v.id, v) && Insertable(w, v, rowId)
    ensures JobsOk(c, Created(w, v, expires, rowId))
    ensures forall id | id in w.jobs :: w.jobs[id].hist != []
  {
    hide Chain, Mirrors, Append;
    FirstEvent(c, v);
    forall id | id in w.jobs ensures w.jobs[id].hist != [] { HasHistory(c, w, id); }
  }

  lemma CreatedStore(c: Config, w: State, v: JobData, expires: int, rowId: nat)
    requires ObjectsOk(c, w) && KeptOk(c, w) && CountersOk(c, w) && Initial(v.id, v) && Insertable(w, v, rowId)
    ensures
      var x := Created(w, v, expires, rowId);
      ObjectsOk(c, x) && KeptOk(c, x) && CountersOk(c, x)
  {
    hide Append, ContentOk, Pow2, Used, PageKept, ArtifactKept, ManifestKept;
  }

  lemma CreatedIssues(c: Config, w: State, v: JobData, expires: int, rowId: nat)
    requires Initial(v.id, v) && Insertable(w, v, rowId) && forall id | id in w.jobs :: w.jobs[id].hist != []
    ensures Issues(w, Created(w, v, expires, rowId), v.id, 1, rowId)
  {
    hide Append;
  }

  lemma CreatedEvolves(w: State, v: JobData, expires: int, rowId: nat)
    requires Insertable(w, v, rowId)
    ensures Evolves(w, Created(w, v, expires, rowId))
  {
    hide Append;
  }

  /** Inserting a new job keeps the invariant; it gets exactly one outbox row and one queued event. */
  lemma CreateOk(c: Config, w: State, v: JobData, expires: int, rowId: nat)
    requires Inv(c, w) && Initial(v.id, v) && Insertable(w, v, rowId)
    ensures
      var x := Created(w, v, expires, rowId);
      Inv(c, x) && Evolves(w, x)
  {
    hide JobsOk, ObjectsOk, KeptOk, CountersOk, OutboxOk, ConstraintsOk, Issues, OnceIssued, Settled, Append, Evolves, Insertable,
         Initial;
    var x := Created(w, v, expires, rowId);
    CreatedJobs(c, w, v, expires, rowId);
    CreatedStore(c, w, v, expires, rowId);
    CreatedIssues(c, w, v, expires, rowId);
    IssuesKeeps(w, x, v.id, 1, rowId);
    CreatedEvolves(w, v, expires, rowId);
    forall i | 0 <= i < |w.queue| ensures OnceIssued(x, x.queue[i].job, x.queue[i].attempt) {
      IssuesOnce(w, x, v.id, 1, rowId, w.queue[i].job, w.queue[i].attempt);
    }
    forall i | 0 <= i < w.committed ensures Settled(x, x.queue[i]) { SettledStable(c, w, x, w.queue[i]); }
  }

  // ---- the API's steps are allowed by every worker ----

  lemma CreateIsAllowed(c: Config, w: State, v: JobData, expires: int, rowId: nat, j: JobId)
    requires Insertable(w, v, rowId)
    ensures Others(c, j, w, Created(w, v, expires, rowId))
  {
    CreatedEvolves(w, v, expires, rowId);
  }

  lemma ApiSaveIsAllowed(c: Config, w: State, id: JobId, a: Action, expires: int, j: JobId)
    requires IsLive(w, id) && w.jobs[id].hist != [] && Enabled(c, Current(w, id), a) && ByApi(a)
    ensures Others(c, j, w, Committed(c, w, id, a, expires))
  {
    hide Enabled, Apply, Append;
    CommittedEvolves(c, w, id, a, expires);
  }

  lemma RetryIsAllowed(c: Config, w: State, id: JobId, request: string, expires: int, rowId: nat, j: JobId)
    requires IsLive(w, id) && w.jobs[id].hist != [] && Enabled(c, Current(w, id), Action.Retry(request))
    requires rowId !in w.outboxIds
    ensures Others(c, j, w, Retried(c, w, id, request, expires, rowId))
  {
    hide Enabled, Apply, Append;
    CommittedEvolves(c, w, id, Action.Retry(request), expires);
  }

  /** A worker's save on its own job is allowed by the workers of all other jobs. */
  lemma WorkerSaveIsAllowed(c: Config, w: State, id: JobId, a: Action, expires: int, j: JobId)
    requires IsLive(w, id) && w.jobs[id].hist != [] && Enabled(c, Current(w, id), a) && j != id
    ensures Others(c, j, w, Committed(c, w, id, a, expires)) && Untouched(j, w, Committed(c, w, id, a, expires))
  {
    hide Enabled, Apply, Append;
    CommittedEvolves(c, w, id, a, expires);
  }

  // ---- concurrent requests ----

  /** Two stored jobs never share an owner and an idempotency key. */
  lemma OneJobPerKey(c: Config, w: State, id: JobId, other: JobId, owner: nat, key: string)
    requires Inv(c, w) && id in w.jobs && other in w.jobs && !w.jobs[id].row.Deleted? && !w.jobs[other].row.Deleted?
    requires w.jobs[id].hist != [] && w.jobs[other].hist != []
    requires HasKey(SpecOf(w, id), owner, key) && HasKey(SpecOf(w, other), owner, key)
    ensures id == other
  {
    hide JobsOk, ObjectsOk, KeptOk, CountersOk, OutboxOk, QueueOk;
    assert HasEntry(w, id) && HasEntry(w, other);
  }

  /** Whatever creates ran in between, a job that is still there is the one every later create for its key ends with. */
  lemma CreatesCollapse(c: Config, w: State, x: State, id: JobId, other: JobId, owner: nat, key: string)
    requires Inv(c, w) && Inv(c, x) && Evolves(w, x) && id in w.jobs && other in x.jobs
    requires w.jobs[id].hist != [] && HasKey(SpecOf(w, id), owner, key)
    requires x.jobs[other].hist != [] && HasKey(SpecOf(x, other), owner, key)
    requires !x.jobs[id].row.Deleted? && !x.jobs[other].row.Deleted?
    ensures id == other
  {
    hide ObjectsOk, KeptOk, CountersOk, OutboxOk, QueueOk, ConstraintsOk;
    assert RecEvolves(w.jobs[id], x.jobs[id]);
    OneJobPerKey(c, x, id, other, owner, key);
  }

  // The retries committed out of attempt k.
  function RetriesOutOf(h: seq<Entry>, k: nat): nat {
    if |h| <= 1 then 0
    else RetriesOutOf(h[..|h| - 1], k) + if Last(h).attempt == k + 1 && h[|h| - 1].act.Retry? then 1 else 0
  }

  /**
   However many retries run concurrently, and whatever else is committed in between: out of each attempt
   exactly one is committed if a later attempt was ever reached, and none otherwise.
   */
  lemma {:induction false} RetriesCollapse(c: Config, id: JobId, h: seq<Entry>, k: nat)
    requires Chain(c, id, h) && 1 <= k
    ensures RetriesOutOf(h, k) == if k < Last(h).attempt then 1 else 0
  {
    if |h| > 1 {
      var short := h[..|h| - 1];
      assert Chain(c, id, short) by {
        forall i | 0 < i < |short| ensures Linked(c, short, i) { assert Linked(c, h, i); }
      }
      RetriesCollapse(c, id, short, k);
      assert Linked(c, h, |h| - 1);
    }
  }

  /** Each later attempt was started by exactly one retry. */
  lemma OneRetryPerAttempt(c: Config, id: JobId, h: seq<Entry>, i: nat, j: nat)
    requires Chain(c, id, h) && i < j < |h| && h[i].act.Retry? && h[j].act.Retry?
    ensures h[i].job.attempt < h[j].job.attempt
  {
    AttemptsGrow(c, id, h, i, j - 1);
    assert Linked(c, h, j);
  }
}
