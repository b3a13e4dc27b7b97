/**
 The whole system as a step system: every write any process makes, in any order, any number of
 times, from empty tables. A crash is the absence of a process's next steps, a redelivery or a
 duplicate publish is a step taken again. The processes of the other files only take these steps.
 */
module Interleaving {
  import opened Domain
  import opened History
  import opened EventLog
  import opened World
  import opened Commits
  import opened Rely
  import opened Awaits
  import opened Issuing
  import opened Messaging
  import opened Retention
  import Consumer
  import Safety

  datatype Step =
    | AddUpload(upload: UploadId, owner: nat, expires: int)
    | FinishUpload(upload: UploadId)
    | CreateJob(v: JobData, expires: int, rowId: nat)
    | Save(job: JobId, act: Action, expires: int)
    | RetryJob(job: JobId, request: string, expires: int, rowId: nat)
    | PutObject(holder: JobData, key: Key, blob: Blob)
    | CallEngine(holder: JobData, page: nat)
    | PauseWork(holder: JobData, page: nat, units: nat)
    | Publish(row: OutboxRow)
    | MarkPublished(row: OutboxRow)
    | CommitOffset(position: nat)
    | ClaimJobs(jobs: set<JobId>, now: int, token: nat, lease: int)
    | ClaimUploads(uploads: set<UploadId>, now: int, token: nat, lease: int)
    | EraseObject(key: Key)
    | DeleteJob(job: JobId)
    | DeleteUpload(upload: UploadId)
    | DeferJob(job: JobId, token: nat, lease: int)
    | DeferUpload(upload: UploadId, token: nat, lease: int)

  // What holds before the write: checked by the code, enforced by the tables, or established by the
  // worker that holds the job.
  ghost predicate Can(c: Config, w: State, s: Step) {
    match s
    case AddUpload(u, _, _) => u !in w.uploads
    case FinishUpload(u) => u in w.uploads
    case CreateJob(v, _, rowId) => Initial(v.id, v) && Insertable(w, v, rowId)
    case Save(id, a, _) =>
      IsLive(w, id) && w.jobs[id].hist != [] && !a.Retry? && Enabled(c, Current(w, id), a) && Backed(c, w, Current(w, id), a)
    case RetryJob(id, request, _, rowId) =>
      IsLive(w, id) && w.jobs[id].hist != [] && Enabled(c, Current(w, id), Action.Retry(request)) && rowId !in w.outboxIds
    case PutObject(v, key, b) => Writable(c, w, v, key, b)
    case CallEngine(v, i) => v.id in w.jobs && Held(c, w, v) && Charged(c, w, v, i) && Rested(c, w, v, i)
    case PauseWork(v, i, units) =>
      && v.id in w.jobs && Held(c, w, v) && Rested(c, w, v, i)
      && (c.solo ==> i < |v.pages| && 1 <= v.pages[i].attempts <= c.maxPageRetries && units <= Pow2(v.pages[i].attempts - 1))
    case Publish(r) => Issued(w, r)
    case MarkPublished(r) => Issued(w, r) && MessageOf(r) in w.queue
    case CommitOffset(position) => Consumer.Passed(w, position)
    case ClaimJobs(ids, now, token, _) => token !in w.tokens && forall id | id in ids :: JobClaimable(w, id, now)
    case ClaimUploads(ids, now, token, _) => token !in w.tokens && forall u | u in ids :: UploadClaimable(w, u, now)
    case EraseObject(key) =>
      key.job in w.jobs && !IsLive(w, key.job) && w.jobs[key.job].hist != [] && key in HandedKeys(w.jobs[key.job].hist, key.job)
    case DeleteJob(id) => id in w.jobs && w.jobs[id].row.Claimed?
    case DeleteUpload(u) => u in w.uploads && w.uploads[u].row.Claimed? && !Referenced(w, u)
    case DeferJob(_, _, _) => true
    case DeferUpload(_, _, _) => true
  }

  ghost function After(c: Config, w: State, s: Step): State
    requires Can(c, w, s)
  {
    match s
    case AddUpload(u, owner, expires) => w.(uploads := w.uploads[u := UploadRec(Live, expires, owner, false)])
    case FinishUpload(u) => w.(uploads := w.uploads[u := w.uploads[u].(completed := true)])
    case CreateJob(v, expires, rowId) => Created(w, v, expires, rowId)
    case Save(id, a, expires) => Committed(c, w, id, a, expires)
    case RetryJob(id, request, expires, rowId) => Retried(c, w, id, request, expires, rowId)
    case PutObject(_, key, b) => Put(w, key, b)
    case CallEngine(v, i) => Called(w, Work(v.id, v.attempt, i + 1))
    case PauseWork(v, i, units) => Paused(w, Work(v.id, v.attempt, i + 1), units)
    case Publish(r) => Published(w, MessageOf(r))
    case MarkPublished(r) => Marked(w, r.id)
    case CommitOffset(position) => Consumer.OffsetCommitted(w, position)
    case ClaimJobs(ids, _, token, lease) => ClaimedJobs(w, ids, token, lease)
    case ClaimUploads(ids, _, token, lease) => ClaimedUploads(w, ids, token, lease)
    case EraseObject(key) => Erased(w, key)
    case DeleteJob(id) => CompletedJob(w, id)
    case DeleteUpload(u) => CompletedUpload(w, u)
    case DeferJob(id, token, lease) => DeferredJob(w, id, token, lease)
    case DeferUpload(u, token, lease) => DeferredUpload(w, u, token, lease)
  }

  lemma UploadSteps(c: Config, w: State, s: Step)
    requires Inv(c, w) && Can(c, w, s) && (s.AddUpload? || s.FinishUpload?)
    ensures Inv(c, After(c, w, s)) && Evolves(w, After(c, w, s))
  {
    hide JobsOk, ObjectsOk, KeptOk, CountersOk, ConstraintsOk, OutboxOk, QueueOk, Evolves, Referenced;
    UploadsChanged(c, w, After(c, w, s));
  }

  lemma CounterSteps(c: Config, w: State, s: Step)
    requires Inv(c, w) && Can(c, w, s) && (s.CallEngine? || s.PauseWork?)
    ensures Inv(c, After(c, w, s)) && Evolves(w, After(c, w, s))
  {
    hide Inv, Evolves, Held, Charged, Rested, CarriesSeen, Called, Paused, Pow2;
    match s
    case CallEngine(v, i) => CallOk(c, w, v, i);
    case PauseWork(v, i, units) => PauseOk(c, w, v, i, units);
  }

  lemma RetentionSteps(c: Config, w: State, s: Step)
    requires Inv(c, w) && Can(c, w, s)
    requires s.ClaimJobs? || s.ClaimUploads? || s.EraseObject? || s.DeleteJob? || s.DeleteUpload? || s.DeferJob? || s.DeferUpload?
    ensures Inv(c, After(c, w, s)) && Evolves(w, After(c, w, s))
  {
    hide Inv, Evolves, JobClaimable, UploadClaimable, Referenced, ClaimedJobs, ClaimedUploads, CompletedJob, CompletedUpload,
         DeferredJob, DeferredUpload, Erased;
    match s
    case ClaimJobs(ids, now, token, lease) => ClaimJobsOk(c, w, ids, now, token, lease);
    case ClaimUploads(ids, now, token, lease) => ClaimUploadsOk(c, w, ids, now, token, lease);
    case EraseObject(key) => EraseOk(c, w, key);
    case DeleteJob(id) => CompleteJobOk(c, w, id);
    case DeleteUpload(u) => CompleteUploadOk(c, w, u);
    case DeferJob(id, token, lease) => DeferJobOk(c, w, id, token, lease);
    case DeferUpload(u, token, lease) => DeferUploadOk(c, w, u, token, lease);
  }

  lemma WritingSteps(c: Config, w: State, s: Step)
    requires Inv(c, w) && Can(c, w, s)
    requires s.CreateJob? || s.Save? || s.RetryJob? || s.PutObject? || s.Publish? || s.MarkPublished? || s.CommitOffset?
    ensures Inv(c, After(c, w, s)) && Evolves(w, After(c, w, s))
  {
    hide Inv, Evolves, Enabled, Backed, Writable, Insertable, Initial, Issued, Consumer.Passed, Committed, Created, Put, Marked, Published,
         Consumer.OffsetCommitted, Retried;
    match s
    case CreateJob(v, expires, rowId) => CreateOk(c, w, v, expires, rowId);
    case Save(id, a, expires) => CommitOk(c, w, id, a, expires);
    case RetryJob(id, request, expires, rowId) => RetryOk(c, w, id, request, expires, rowId);
    case PutObject(v, key, b) => PutOk(c, w, v, key, b);
    case Publish(r) => PublishOk(c, w, r);
    case MarkPublished(r) => MarkOk(c, w, r);
    case CommitOffset(position) => Consumer.OffsetOk(c, w, position);
  }

  /** Every step of every process keeps the invariant. */
  lemma StepKeeps(c: Config, w: State, s: Step)
    requires Inv(c, w) && Can(c, w, s)
    ensures Inv(c, After(c, w, s)) && Evolves(w, After(c, w, s))
  {
    hide Inv, Evolves, Can, After;
    match s
    case AddUpload(_, _, _) => UploadSteps(c, w, s);
    case FinishUpload(_) => UploadSteps(c, w, s);
    case CallEngine(_, _) => CounterSteps(c, w, s);
    case PauseWork(_, _, _) => CounterSteps(c, w, s);
    case CreateJob(_, _, _) => WritingSteps(c, w, s);
    case Save(_, _, _) => WritingSteps(c, w, s);
    case RetryJob(_, _, _, _) => WritingSteps(c, w, s);
    case PutObject(_, _, _) => WritingSteps(c, w, s);
    case Publish(_) => WritingSteps(c, w, s);
    case MarkPublished(_) => WritingSteps(c, w, s);
    case CommitOffset(_) => WritingSteps(c, w, s);
    case _ => RetentionSteps(c, w, s);
  }

  // ---- rely and guarantee ----

  // The steps only the worker of job j takes.
  predicate ByWorkerOf(s: Step, j: JobId) {
    match s
    case Save(id, a, _) => id == j && !ByApi(a)
    case PutObject(_, key, _) => key.job == j
    case CallEngine(v, _) => v.id == j
    case PauseWork(v, _, _) => v.id == j
    case _ => false
  }

  lemma SaveAllowed(c: Config, w: State, s: Step, j: JobId)
    requires Can(c, w, s) && !ByWorkerOf(s, j) && (s.Save? || s.RetryJob? || s.CreateJob?)
    ensures Others(c, j, w, After(c, w, s))
  {
    hide Enabled, Backed, Insertable, Initial, Others, Committed, Retried, Created, Untouched;
    match s
    case CreateJob(v, expires, rowId) => CreateIsAllowed(c, w, v, expires, rowId, j);
    case RetryJob(id, request, expires, rowId) => RetryIsAllowed(c, w, id, request, expires, rowId, j);
    case Save(id, a, expires) =>
      if id == j {
        ApiSaveIsAllowed(c, w, id, a, expires, j);
      } else {
        WorkerSaveIsAllowed(c, w, id, a, expires, j);
      }
  }

  lemma StoreAllowed(c: Config, w: State, s: Step, j: JobId)
    requires Inv(c, w) && Can(c, w, s) && !ByWorkerOf(s, j) && (s.PutObject? || s.CallEngine? || s.PauseWork?)
    ensures Others(c, j, w, After(c, w, s))
  {
    hide Inv, Held, Charged, Rested, Writable, Pow2;
    StepEvolves(c, w, s);
  }

  lemma StepEvolves(c: Config, w: State, s: Step)
    requires Inv(c, w) && Can(c, w, s)
    ensures Evolves(w, After(c, w, s))
  {
    hide Inv, Evolves, Can, After;
    StepKeeps(c, w, s);
  }

  predicate OnUploads(s: Step) { s.AddUpload? || s.FinishUpload? || s.ClaimUploads? || s.DeleteUpload? || s.DeferUpload? }

  lemma UploadsAllowed(c: Config, w: State, s: Step, j: JobId)
    requires Inv(c, w) && Can(c, w, s) && OnUploads(s)
    ensures Others(c, j, w, After(c, w, s))
  {
    hide Inv, Evolves, Others, UploadClaimable, Referenced;
    StepEvolves(c, w, s);
    RetentionIsAllowed(c, w, After(c, w, s), j);
  }

  lemma RetentionAllowed(c: Config, w: State, s: Step, j: JobId)
    requires Inv(c, w) && Can(c, w, s) && (s.ClaimJobs? || s.EraseObject?)
    ensures Others(c, j, w, After(c, w, s))
  {
    hide Inv, Evolves, Others, JobClaimable;
    StepEvolves(c, w, s);
    RetentionIsAllowed(c, w, After(c, w, s), j);
  }

  lemma ClaimedRowAllowed(c: Config, w: State, s: Step, j: JobId)
    requires Inv(c, w) && Can(c, w, s) && (s.DeleteJob? || s.DeferJob?)
    ensures Others(c, j, w, After(c, w, s))
  {
    hide Inv, Evolves, Others, Without, WithLease;
    StepEvolves(c, w, s);
    if s.DeferJob? { LeaseOnly(w, s.job, s.token, s.lease); }
    RetentionIsAllowed(c, w, After(c, w, s), j);
  }

  lemma LeaseOnly(w: State, id: JobId, token: nat, lease: int)
    ensures
      var x := DeferredJob(w, id, token, lease);
      && x.objects == w.objects && x.calls == w.calls && x.slept == w.slept && x.jobs.Keys == w.jobs.Keys
      && forall j | j in w.jobs :: x.jobs[j].hist == w.jobs[j].hist && x.jobs[j].row.Live? == w.jobs[j].row.Live?
  {
    hide WithLease, RowEvolves;
    if id in w.jobs { LeaseChanged(w.tokens, w.jobs[id].row, token, lease); }
  }

  lemma DispatchAllowed(c: Config, w: State, s: Step, j: JobId)
    requires Inv(c, w) && Can(c, w, s) && (s.Publish? || s.MarkPublished? || s.CommitOffset?)
    ensures Others(c, j, w, After(c, w, s))
  {
    hide Inv, Others, Issued, Consumer.Passed, Untouched;
    match s
    case Publish(r) => DispatchIsAllowed(c, w, r, j);
    case MarkPublished(r) => DispatchIsAllowed(c, w, r, j);
    case CommitOffset(position) => Consumer.OffsetIsAllowed(c, w, position, j);
  }

  /** Every step that is not of the worker of job j is one that worker allows: each process keeps what the others rely on. */
  lemma StepAllowed(c: Config, w: State, s: Step, j: JobId)
    requires Inv(c, w) && Can(c, w, s) && !ByWorkerOf(s, j)
    ensures Others(c, j, w, After(c, w, s))
  {
    hide Inv, Others, Can, After, ByWorkerOf;
    match s
    case CreateJob(_, _, _) => SaveAllowed(c, w, s, j);
    case Save(_, _, _) => SaveAllowed(c, w, s, j);
    case RetryJob(_, _, _, _) => SaveAllowed(c, w, s, j);
    case PutObject(_, _, _) => StoreAllowed(c, w, s, j);
    case CallEngine(_, _) => StoreAllowed(c, w, s, j);
    case PauseWork(_, _, _) => StoreAllowed(c, w, s, j);
    case Publish(_) => DispatchAllowed(c, w, s, j);
    case MarkPublished(_) => DispatchAllowed(c, w, s, j);
    case CommitOffset(_) => DispatchAllowed(c, w, s, j);
    case ClaimJobs(_, _, _, _) => RetentionAllowed(c, w, s, j);
    case EraseObject(_) => RetentionAllowed(c, w, s, j);
    case DeleteJob(_) => ClaimedRowAllowed(c, w, s, j);
    case DeferJob(_, _, _) => ClaimedRowAllowed(c, w, s, j);
    case _ => UploadsAllowed(c, w, s, j);
  }

  // ---- runs ----

  function Empty(): State { State(map[], map[], map[], map[], map[], [], map[], map[], {}, [], 0) }

  lemma EmptyOk(c: Config)
    ensures Inv(c, Empty())
  {}

  ghost predicate Steps(c: Config, w: State, s: Step, x: State) { Can(c, w, s) && x == After(c, w, s) }

  ghost predicate IsRun(c: Config, states: seq<State>, steps: seq<Step>) {
    && |states| == |steps| + 1 && states[0] == Empty()
    && forall i | 0 <= i < |steps| :: Steps(c, states[i], steps[i], states[i + 1])
  }

  /** The invariant holds in every state of every run. */
  lemma {:induction false} RunKeeps(c: Config, states: seq<State>, steps: seq<Step>, i: nat)
    requires IsRun(c, states, steps) && i < |states|
    ensures Inv(c, states[i])
  {
    hide Inv, Can, After;
    if i == 0 {
      EmptyOk(c);
    } else {
      RunKeeps(c, states, steps, i - 1);
      assert Steps(c, states[i - 1], steps[i - 1], states[i]);
      StepKeeps(c, states[i - 1], steps[i - 1]);
    }
  }

  lemma {:induction false} RunEvolves(c: Config, states: seq<State>, steps: seq<Step>, i: nat, j: nat)
    requires IsRun(c, states, steps) && i <= j < |states|
    ensures Evolves(states[i], states[j])
  {
    hide Inv, Evolves, Can, After;
    if i == j {
      EvolvesReflexive(states[i]);
    } else {
      RunEvolves(c, states, steps, i, j - 1);
      RunKeeps(c, states, steps, j - 1);
      assert Steps(c, states[j - 1], steps[j - 1], states[j]);
      StepKeeps(c, states[j - 1], steps[j - 1]);
      EvolvesTransitive(states[i], states[j - 1], states[j]);
    }
  }

  lemma StepBetween(c: Config, states: seq<State>, steps: seq<Step>, n: nat)
    requires IsRun(c, states, steps) && n < |steps|
    ensures Inv(c, states[n]) && Can(c, states[n], steps[n]) && states[n + 1] == After(c, states[n], steps[n])
  {
    hide Inv, Can, After;
    RunKeeps(c, states, steps, n);
    assert Steps(c, states[n], steps[n], states[n + 1]);
  }

  lemma {:induction false} SegmentAllowed(c: Config, states: seq<State>, steps: seq<Step>, i: nat, j: nat, id: JobId)
    requires IsRun(c, states, steps) && i <= j < |states| && id in states[i].jobs
    requires forall n | i <= n < j :: !ByWorkerOf(steps[n], id)
    ensures Others(c, id, states[i], states[j])
  {
    hide Inv, Steps, ByWorkerOf, Others;
    if i == j {
      OthersReflexive(c, id, states[i]);
    } else {
      SegmentAllowed(c, states, steps, i, j - 1, id);
      StepBetween(c, states, steps, j - 1);
      StepAllowed(c, states[j - 1], steps[j - 1], id);
      OthersTransitive(c, id, states[i], states[j - 1], states[j]);
    }
  }

  /**
   What an await promises, derived from the steps: between any two states of a run with no step of
   the worker of job id in between, exactly what that worker is proved against has happened.
   */
  lemma SegmentIsQuiet(c: Config, states: seq<State>, steps: seq<Step>, i: nat, j: nat, id: JobId)
    requires IsRun(c, states, steps) && i <= j < |states| && id in states[i].jobs
    requires forall n | i <= n < j :: !ByWorkerOf(steps[n], id)
    ensures Quiet(c, id, states[i], states[j]) && id in states[j].jobs
  {
    hide JobsOk, ObjectsOk, KeptOk, CountersOk, ConstraintsOk, OutboxOk, QueueOk, ClaimsOk, ByWorkerOf, IsRun, Others, CarriesSeen,
         CarriesHeld, Evolves;
    SegmentAllowed(c, states, steps, i, j, id);
    RunKeeps(c, states, steps, i);
    RunKeeps(c, states, steps, j);
    EvolvesFromOthers(c, id, states[i], states[j]);
    Carry(c, id, states[i], states[j]);
    CarryHeld(c, id, states[i], states[j]);
    StillThere(states[i], states[j], id);
  }

  /** The save of a worker's copy that finds its revision is a step of the system. */
  lemma SaveIsStep(c: Config, w: State, v: JobData, a: Action, expires: int)
    requires Inv(c, w) && CanSave(c, w, v, a) && AtRevision(w, v) && !a.Retry?
    ensures Can(c, w, Step.Save(v.id, a, expires))
    ensures After(c, w, Step.Save(v.id, a, expires)) == Saved(w, v.(revision := v.revision + 1), KindOf(Entry(a, v)), a, expires)
  {
    hide RecOk, ObjectsOk, KeptOk, CountersOk, ConstraintsOk, OutboxOk, QueueOk, ClaimsOk, Enabled, Apply, Append, Backed;
    HasHistory(c, w, v.id);
  }

  lemma OnlyErasureRemoves(c: Config, w: State, s: Step, key: Key)
    requires Can(c, w, s) && key in w.objects && key !in After(c, w, s).objects
    ensures s == EraseObject(key)
  {
    hide Enabled, Apply, Append, Backed, Insertable, Initial, Writable, Held, Charged, Rested, Pow2, JobClaimable, UploadClaimable,
         Referenced, Without, WithLease, Issued, Consumer.Passed, HandedKeys;
  }

  /**
   An object under a claimed or deleted job's prefix that no attempt's last rows name stays in the
   store for good: no claim is ever handed its key.
   */
  lemma {:induction false} RunOrphanObjectStays(c: Config, states: seq<State>, steps: seq<Step>, i: nat, j: nat, key: Key)
    requires IsRun(c, states, steps) && i <= j < |states|
    requires key.job in states[i].jobs && !IsLive(states[i], key.job) && states[i].jobs[key.job].hist != []
    requires key in states[i].objects && key !in HandedKeys(states[i].jobs[key.job].hist, key.job)
    ensures key in states[j].objects && key.job in states[j].jobs && !IsLive(states[j], key.job)
    ensures states[j].jobs[key.job].hist == states[i].jobs[key.job].hist
  {
    hide Inv, Steps, HandedKeys, Evolves;
    if i < j {
      RunOrphanObjectStays(c, states, steps, i, j - 1, key);
      StepBetween(c, states, steps, j - 1);
      StepKeeps(c, states[j - 1], steps[j - 1]);
      SameKeysForEveryClaim(c, states[j - 1], states[j], key.job);
      if key !in states[j].objects {
        OnlyErasureRemoves(c, states[j - 1], steps[j - 1], key);
        ErasedIsHanded(c, states[j - 1], key);
      }
    }
  }

  lemma ErasedIsHanded(c: Config, w: State, key: Key)
    requires Can(c, w, EraseObject(key))
    ensures key.job in w.jobs && w.jobs[key.job].hist != [] && key in HandedKeys(w.jobs[key.job].hist, key.job)
  {}

  /** No orphaned work, in every state of every run. */
  lemma RunNoOrphan(c: Config, states: seq<State>, steps: seq<Step>, i: nat, id: JobId)
    requires IsRun(c, states, steps) && i < |states|
    ensures
      var w := states[i];
      id in w.jobs && !w.jobs[id].row.Deleted? ==>
        && w.jobs[id].hist != []
        && (Terminal(Current(w, id).state)
            || (exists n | 0 <= n < |w.outbox| ::
                  w.outbox[n].job == id && w.outbox[n].attempt == Current(w, id).attempt && !w.outbox[n].published)
            || Safety.IsQueued(w, id, Current(w, id).attempt))
  {
    hide Inv, Steps;
    var w := states[i];
    RunKeeps(c, states, steps, i);
    if id in w.jobs && !w.jobs[id].row.Deleted? {
      GetHistory(c, w, id);
      if !Terminal(Current(w, id).state) { Safety.NoOrphan(c, w, id); }
    }
  }

  /** Along every run, an attempt that is cancelling or cancelled never succeeds or fails. */
  lemma RunCancelIsFinal(c: Config, states: seq<State>, steps: seq<Step>, i: nat, j: nat, id: JobId)
    requires IsRun(c, states, steps) && i <= j < |states| && id in states[i].jobs
    ensures
      var w, x := states[i], states[j];
      && w.jobs[id].hist != [] && id in x.jobs && x.jobs[id].hist != []
      && (Current(w, id).state in {CancelRequested, Cancelled} && Current(x, id).attempt == Current(w, id).attempt ==>
            Current(x, id).state in {CancelRequested, Cancelled})
  {
    hide Inv, Steps;
    var w, x := states[i], states[j];
    RunKeeps(c, states, steps, i);
    RunKeeps(c, states, steps, j);
    RunEvolves(c, states, steps, i, j);
    GetHistory(c, w, id);
    SpecStable(c, id, w, x);
    if Current(w, id).state in {CancelRequested, Cancelled} { Safety.CancelIsFinal(c, w, x, id); }
  }

  /** Along every run, a message once settled stays settled. */
  lemma RunSettledStays(c: Config, states: seq<State>, steps: seq<Step>, i: nat, j: nat, m: Message)
    requires IsRun(c, states, steps) && i <= j < |states| && Settled(states[i], m)
    ensures Settled(states[j], m)
  {
    hide Steps, Settled, Evolves;
    RunKeeps(c, states, steps, i);
    RunKeeps(c, states, steps, j);
    RunEvolves(c, states, steps, i, j);
    SettledStable(c, states[i], states[j], m);
  }
}
