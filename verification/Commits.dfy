/**
 The guarantee: what a successful save does to the state, and that it keeps the invariant.
 */
module Commits {
  import opened Domain
  import opened History
  import opened EventLog
  import opened World

  // A save appends one version and its event to the job's record, in one transaction.
  function Committed(c: Config, w: State, id: JobId, a: Action, expires: int): State
    requires IsLive(w, id) && w.jobs[id].hist != [] && Enabled(c, Current(w, id), a)
  {
    var r := w.jobs[id];
    var e := Entry(a, Apply(c, Last(r.hist), a));
    w.(jobs := w.jobs[id := JobRec(r.hist + [e], Append(r.log, KindOf(e), e.job), Live, expires)])
  }

  // The objects an action refers to exist (and, for a single live worker, are the ones just written).
  ghost predicate Backed(c: Config, w: State, v: JobData, a: Action) {
    match a
    case PreparePages =>
      forall n | 1 <= n <= c.pageCount(v.spec.upload) :: PageImage(v.id, v.attempt, n) in w.objects
    case SucceedPage(i, k, sha) =>
      && i < |v.pages|
      && var n := v.pages[i].number;
      && PageResult(v.id, k, n) in w.objects
      && (c.solo ==> sha == c.sha(w.objects[PageResult(v.id, k, n)]))
      && (c.ReadingOf(v.spec, n).visual.Some? ==> Visualization(v.id, k, n) in w.objects)
    case Succeed(k, body, stamp) =>
      && (forall a | a in body :: ArtifactKept(c, w.objects, v.id, a))
      && Manifest(v.id, k) in w.objects
      && (c.solo ==> w.objects[Manifest(v.id, k)] == ManifestJson(v.id, k, body, stamp))
    case _ => true
  }

  lemma HasHistory(c: Config, w: State, id: JobId)
    requires JobsOk(c, w) && id in w.jobs
    ensures w.jobs[id].hist != [] && Chain(c, id, w.jobs[id].hist) && Current(w, id).id == id
    ensures Current(w, id).revision == |w.jobs[id].hist| - 1 && Current(w, id).spec == SpecOf(w, id)
  {
    assert RecOk(c, id, w.jobs[id]);
    Versions(c, id, w.jobs[id].hist, |w.jobs[id].hist| - 1);
  }

  lemma CommittedJobs(c: Config, w: State, id: JobId, a: Action, expires: int)
    requires JobsOk(c, w) && IsLive(w, id) && Enabled(c, Current(w, id), a)
    ensures JobsOk(c, Committed(c, w, id, a, expires))
  {
    hide Enabled, Apply, KindOf, Append, Mirrors;
    var r := w.jobs[id];
    ChainExtends(c, id, r.hist, a);
    SaveWritesItsEvent(c, id, r.log, r.hist, a);
  }

  lemma CommittedSpec(c: Config, w: State, id: JobId, a: Action, expires: int, other: JobId)
    requires JobsOk(c, w) && IsLive(w, id) && Enabled(c, Current(w, id), a) && other in w.jobs
    ensures var x := Committed(c, w, id, a, expires); x.jobs[other].hist != [] && SpecOf(x, other) == SpecOf(w, other)
  {}

  lemma CommittedObjects(c: Config, w: State, id: JobId, a: Action, expires: int)
    requires JobsOk(c, w) && ObjectsOk(c, w) && IsLive(w, id) && Enabled(c, Current(w, id), a)
    ensures ObjectsOk(c, Committed(c, w, id, a, expires))
  {
    hide Enabled, Apply, ContentOk;
    var x := Committed(c, w, id, a, expires);
    forall key | key in x.objects
      ensures key.job in x.jobs && x.jobs[key.job].hist != [] && ContentOk(c, SpecOf(x, key.job), key, x.objects[key])
    {
      CommittedSpec(c, w, id, a, expires, key.job);
    }
  }

  // ---- kept objects ----

  lemma KeptAfterPageChange(c: Config, objects: map<Key, Blob>, v: JobData, i: nat, p: PageData, revision: nat)
    requires Kept(c, objects, v) && i < |v.pages| && PageKept(c, objects, p)
    requires c.solo ==> v.state != Succeeded
    ensures Kept(c, objects, WithPage(v.(revision := revision), i, p))
  {
    var x := WithPage(v.(revision := revision), i, p);
    forall j | 0 <= j < |x.pages| ensures PageKept(c, objects, x.pages[j]) {
      if j != i { assert PageKept(c, objects, v.pages[j]); }
    }
  }

  lemma AppliedKept(c: Config, w: State, v: JobData, a: Action)
    requires Kept(c, w.objects, v) && Enabled(c, v, a) && Backed(c, w, v, a) && Numbered(c, v.id, v)
    ensures Kept(c, w.objects, Apply(c, v, a))
  {
    hide Kept, PageKept;
    match a
    case BeginPreprocessing => StateOnlyKept(c, w, v, a);
    case BeginRunning => StateOnlyKept(c, w, v, a);
    case BeginAssembling => StateOnlyKept(c, w, v, a);
    case Fail(_, _) => StateOnlyKept(c, w, v, a);
    case Cancel => StateOnlyKept(c, w, v, a);
    case RequestCancel(_) => StateOnlyKept(c, w, v, a);
    case PreparePages => PreparedKept(c, w, v);
    case StartPage(i) => PageActionKept(c, w, v, a, i);
    case ScheduleRetry(i, _, _) => PageActionKept(c, w, v, a, i);
    case SucceedPage(i, _, _) => PageActionKept(c, w, v, a, i);
    case FailPage(i, _, _) => PageActionKept(c, w, v, a, i);
    case Succeed(k, body, stamp) => SucceededKept(c, w, v, k, body, stamp);
    case Retry(_) => RetriedKept(c, w, v, a);
  }

  lemma StateOnlyKept(c: Config, w: State, v: JobData, a: Action)
    requires Kept(c, w.objects, v) && Enabled(c, v, a)
    requires a.BeginPreprocessing? || a.BeginRunning? || a.BeginAssembling? || a.Fail? || a.Cancel? || a.RequestCancel?
    ensures Kept(c, w.objects, Apply(c, v, a))
  {}

  lemma PreparedKept(c: Config, w: State, v: JobData)
    requires Kept(c, w.objects, v) && Enabled(c, v, PreparePages) && Backed(c, w, v, PreparePages)
    ensures Kept(c, w.objects, Apply(c, v, PreparePages))
  {
    var x := Apply(c, v, PreparePages);
    forall i | 0 <= i < |x.pages| ensures PageKept(c, w.objects, x.pages[i]) {
      assert PageImage(v.id, v.attempt, i + 1) in w.objects;
    }
  }

  lemma PageActionKept(c: Config, w: State, v: JobData, a: Action, i: nat)
    requires Kept(c, w.objects, v) && Enabled(c, v, a) && Backed(c, w, v, a) && Numbered(c, v.id, v)
    requires (a.StartPage? || a.ScheduleRetry? || a.SucceedPage? || a.FailPage?) && a.page == i
    ensures Kept(c, w.objects, Apply(c, v, a))
  {
    assert PageKept(c, w.objects, v.pages[i]);
    var x := Apply(c, v, a);
    assert x == WithPage(v.(revision := v.revision + 1), i, x.pages[i]);
    KeptAfterPageChange(c, w.objects, v, i, x.pages[i], v.revision + 1);
  }

  lemma SucceededKept(c: Config, w: State, v: JobData, k: nat, body: seq<Artifact>, stamp: nat)
    requires Kept(c, w.objects, v)
    requires Enabled(c, v, Action.Succeed(k, body, stamp)) && Backed(c, w, v, Action.Succeed(k, body, stamp))
    ensures Kept(c, w.objects, Apply(c, v, Action.Succeed(k, body, stamp)))
  {
    var x := Apply(c, v, Action.Succeed(k, body, stamp));
    var m := ManifestArtifact(c, v, k, body, stamp);
    forall a | a in x.artifacts ensures ArtifactKept(c, w.objects, v.id, a) {
      assert a in body || a == m;
    }
    forall i | 0 <= i < |x.pages| ensures PageKept(c, w.objects, x.pages[i]) {
      assert PageKept(c, w.objects, v.pages[i]);
    }
    if c.solo {
      assert ManifestBody(c, x, k) == ManifestBody(c, v, k);
    }
  }

  lemma RetriedKept(c: Config, w: State, v: JobData, a: Action)
    requires Kept(c, w.objects, v) && Enabled(c, v, a) && a.Retry?
    ensures Kept(c, w.objects, Apply(c, v, a))
  {
    var x := Apply(c, v, a);
    forall i | 0 <= i < |x.pages| ensures PageKept(c, w.objects, x.pages[i]) {
      assert PageKept(c, w.objects, v.pages[i]);
    }
  }

  lemma CommittedKept(c: Config, w: State, id: JobId, a: Action, expires: int)
    requires JobsOk(c, w) && KeptOk(c, w) && IsLive(w, id) && Enabled(c, Current(w, id), a)
    requires Backed(c, w, Current(w, id), a)
    ensures KeptOk(c, Committed(c, w, id, a, expires))
  {
    hide Enabled, Apply, Kept, Backed, Numbered;
    var h := w.jobs[id].hist;
    PagesAreNumbered(c, id, h, |h| - 1);
    Versions(c, id, h, |h| - 1);
    AppliedKept(c, w, Current(w, id), a);
  }

  // ---- counters ----

  lemma UsedGrows(c: Config, id: JobId, h: seq<Entry>, a: Action, k: nat, n: nat)
    requires Chain(c, id, h) && Enabled(c, Last(h), a)
    ensures Used(h, k, n) <= Used(h + [Entry(a, Apply(c, Last(h), a))], k, n)
  {
    var g := h + [Entry(a, Apply(c, Last(h), a))];
    assert g[..|g| - 1] == h;
    Versions(c, id, h, |h| - 1);
    PagesAreNumbered(c, id, h, |h| - 1);
  }

  lemma {:induction false} Pow2Monotone(a: nat, b: nat)
    requires a <= b
    ensures Pow2(a) <= Pow2(b)
  {
    if a < b { Pow2Monotone(a, b - 1); }
  }

  lemma CommittedCounters(c: Config, w: State, id: JobId, a: Action, expires: int)
    requires JobsOk(c, w) && CountersOk(c, w) && IsLive(w, id) && Enabled(c, Current(w, id), a)
    ensures CountersOk(c, Committed(c, w, id, a, expires))
  {
    hide Enabled, Apply, Used, Append, Pow2, Linked, Mirrors;
    var x := Committed(c, w, id, a, expires);
    var h := w.jobs[id].hist;
    if c.solo {
      forall key | key in w.calls && key.job == id
        ensures w.calls[key] <= Used(x.jobs[id].hist, key.attempt, key.number)
      {
        UsedGrows(c, id, h, a, key.attempt, key.number);
      }
      forall key | key in w.slept && key.job == id
        ensures w.slept[key] + 1 <= Pow2(Min(Used(x.jobs[id].hist, key.attempt, key.number), c.maxPageRetries))
      {
        UsedGrows(c, id, h, a, key.attempt, key.number);
        Pow2Monotone(Min(Used(h, key.attempt, key.number), c.maxPageRetries),
                     Min(Used(x.jobs[id].hist, key.attempt, key.number), c.maxPageRetries));
      }
    }
  }

  // ---- messages ----

  /** A settled message stays settled, whatever is committed afterwards. */
  lemma SettledStable(c: Config, w: State, x: State, m: Message)
    requires JobsOk(c, w) && JobsOk(c, x) && Evolves(w, x) && Settled(w, m)
    ensures Settled(x, m)
  {
    hide Enabled, Apply, Mirrors, Linked;
    assert RecEvolves(w.jobs[m.job], x.jobs[m.job]);
    var h, g := w.jobs[m.job].hist, x.jobs[m.job].hist;
    assert Last(h) == g[|h| - 1].job;
    if x.jobs[m.job].row.Live? {
      AttemptsGrow(c, m.job, g, |h| - 1, |g| - 1);
      if m.attempt == Last(h).attempt && Terminal(Last(h).state) {
        OutcomeIsFinal(c, m.job, g, |h| - 1, |g| - 1);
      }
    }
  }

  lemma CommittedEvolves(c: Config, w: State, id: JobId, a: Action, expires: int)
    requires IsLive(w, id) && w.jobs[id].hist != [] && Enabled(c, Current(w, id), a)
    ensures Evolves(w, Committed(c, w, id, a, expires))
  {
    hide Enabled, Apply, Append;
  }

  // Nothing a message or an outbox row depends on has changed.
  ghost predicate SameWork(w: State, x: State) {
    && x.outbox == w.outbox && x.outboxIds == w.outboxIds && x.uploads == w.uploads && x.index == w.index
    && x.queue == w.queue && x.committed == w.committed
    && x.jobs.Keys == w.jobs.Keys
    && (forall id | id in w.jobs :: x.jobs[id].row.Deleted? == w.jobs[id].row.Deleted?)
    && (forall id | id in w.jobs && w.jobs[id].hist != [] ::
          x.jobs[id].hist != [] && SpecOf(x, id) == SpecOf(w, id) && Current(x, id).attempt == Current(w, id).attempt)
  }

  lemma SameWorkKeeps(w: State, x: State)
    requires SameWork(w, x) && OutboxOk(w) && ConstraintsOk(w)
    requires forall id | id in w.jobs :: w.jobs[id].hist != []
    ensures OutboxOk(x) && ConstraintsOk(x)
    ensures forall id, k | OnceIssued(w, id, k) :: OnceIssued(x, id, k)
  {
    hide SpecOf, Current;
    forall id, k | id in x.jobs && x.jobs[id].hist != [] && !x.jobs[id].row.Deleted? && 1 <= k <= Current(x, id).attempt
      ensures HasOutboxRow(x, id, k)
    {
      assert HasOutboxRow(w, id, k);
    }
    forall n | n in x.outboxIds ensures OnceIssued(x, x.outboxIds[n].0, x.outboxIds[n].1) {
      assert OnceIssued(w, w.outboxIds[n].0, w.outboxIds[n].1);
    }
  }

  lemma ApplyKeeps(c: Config, v: JobData, a: Action)
    requires Enabled(c, v, a)
    ensures Apply(c, v, a).id == v.id && Apply(c, v, a).spec == v.spec && Apply(c, v, a).revision == v.revision + 1
    ensures Apply(c, v, a).attempt == if a.Retry? then v.attempt + 1 else v.attempt
  {}

  lemma CommittedSameWork(c: Config, w: State, id: JobId, a: Action, expires: int)
    requires JobsOk(c, w) && IsLive(w, id) && Enabled(c, Current(w, id), a) && !a.Retry?
    ensures SameWork(w, Committed(c, w, id, a, expires))
  {
    hide Append, Linked, Mirrors, Enabled, Apply;
    ApplyKeeps(c, Current(w, id), a);
  }

  lemma CommittedMessages(c: Config, w: State, id: JobId, a: Action, expires: int)
    requires JobsOk(c, w) && OutboxOk(w) && QueueOk(w) && ConstraintsOk(w)
    requires IsLive(w, id) && Enabled(c, Current(w, id), a) && !a.Retry?
    ensures var x := Committed(c, w, id, a, expires); OutboxOk(x) && QueueOk(x) && ConstraintsOk(x)
  {
    hide Enabled, Apply, Append, Linked, SameWork, OutboxOk, ConstraintsOk, OnceIssued, Settled, Evolves;
    var x := Committed(c, w, id, a, expires);
    CommittedSameWork(c, w, id, a, expires);
    SameWorkKeeps(w, x);
    CommittedJobs(c, w, id, a, expires);
    CommittedEvolves(c, w, id, a, expires);
    forall i | 0 <= i < w.committed ensures Settled(x, x.queue[i]) {
      SettledStable(c, w, x, w.queue[i]);
    }
  }

  lemma CommittedClaims(c: Config, w: State, id: JobId, a: Action, expires: int)
    requires ClaimsOk(w) && IsLive(w, id) && w.jobs[id].hist != [] && Enabled(c, Current(w, id), a)
    ensures ClaimsOk(Committed(c, w, id, a, expires))
  {
    hide Enabled, Apply, Append;
  }

  /** Every save of an enabled, backed action keeps the invariant and is a step the others allow. */
  lemma CommitOk(c: Config, w: State, id: JobId, a: Action, expires: int)
    requires Inv(c, w) && IsLive(w, id) && Enabled(c, Current(w, id), a) && !a.Retry?
    requires Backed(c, w, Current(w, id), a)
    ensures Inv(c, Committed(c, w, id, a, expires)) && Evolves(w, Committed(c, w, id, a, expires))
  {
    hide JobsOk, ObjectsOk, KeptOk, CountersOk, ConstraintsOk, OutboxOk, QueueOk, Evolves, Enabled, Committed, Backed;
    HasHistory(c, w, id);
    CommittedJobs(c, w, id, a, expires);
    CommittedObjects(c, w, id, a, expires);
    CommittedKept(c, w, id, a, expires);
    CommittedCounters(c, w, id, a, expires);
    CommittedMessages(c, w, id, a, expires);
    CommittedEvolves(c, w, id, a, expires);
    CommittedClaims(c, w, id, a, expires);
  }

  // ---- retry: the only save that also writes an outbox row ----

  function Retried(c: Config, w: State, id: JobId, request: string, expires: int, rowId: nat): State
    requires IsLive(w, id) && w.jobs[id].hist != [] && Enabled(c, Current(w, id), Action.Retry(request))
  {
    var x := Committed(c, w, id, Action.Retry(request), expires);
    x.(outbox := w.outbox + [OutboxRow(rowId, id, Current(x, id).attempt, false)],
       outboxIds := w.outboxIds[rowId := (id, Current(x, id).attempt)])
  }

  // A new job is entered in the unique index, which refuses an owner's key that is already there.
  ghost predicate Indexed(w: State, x: State, id: JobId)
    requires id in x.jobs && x.jobs[id].hist != []
  {
    var spec := SpecOf(x, id);
    match spec.idempotencyKey
    case None => x.index == w.index
    case Some(key) => (spec.owner, key) !in w.index && x.index == w.index[(spec.owner, key) := id]
  }

  // Job id starts attempt k and gets the outbox row for it; nothing else changes for messages.
  ghost predicate Issues(w: State, x: State, id: JobId, k: nat, rowId: nat) {
    && x.outbox == w.outbox + [OutboxRow(rowId, id, k, false)]
    && x.outboxIds == w.outboxIds[rowId := (id, k)] && rowId !in w.outboxIds
    && x.uploads == w.uploads && x.queue == w.queue
    && (forall j | j in w.jobs :: j in x.jobs && w.jobs[j].hist != [] && (j != id ==> x.jobs[j] == w.jobs[j]))
    && (forall j | j in x.jobs :: j in w.jobs || j == id)
    && id in x.jobs && x.jobs[id].hist != [] && x.jobs[id].row.Live? && Current(x, id).attempt == k
    && SpecOf(x, id).upload in x.uploads && !x.uploads[SpecOf(x, id).upload].row.Deleted?
    && 1 <= k
    && (if id in w.jobs then Current(w, id).attempt == k - 1 && w.jobs[id].row.Live? else k == 1)
    && (if id in w.jobs then x.index == w.index && SpecOf(x, id) == SpecOf(w, id) else Indexed(w, x, id))
  }

  lemma IssuesOnce(w: State, x: State, id: JobId, k: nat, rowId: nat, j: JobId, n: nat)
    requires Issues(w, x, id, k, rowId) && OnceIssued(w, j, n)
    ensures OnceIssued(x, j, n)
  {}

  lemma IssuesHasRow(w: State, x: State, id: JobId, k: nat, rowId: nat, j: JobId, n: nat)
    requires Issues(w, x, id, k, rowId) && OutboxOk(w)
    requires j in x.jobs && x.jobs[j].hist != [] && !x.jobs[j].row.Deleted? && 1 <= n <= Current(x, j).attempt
    ensures HasOutboxRow(x, j, n)
  {
    if j == id && n == k {
      assert x.outbox[|w.outbox|].job == id && x.outbox[|w.outbox|].attempt == k;
    } else {
      assert HasOutboxRow(w, j, n);
      var i :| 0 <= i < |w.outbox| && w.outbox[i].job == j && w.outbox[i].attempt == n;
      assert x.outbox[i] == w.outbox[i];
    }
  }

  lemma IssuesRows(w: State, x: State, id: JobId, k: nat, rowId: nat)
    requires Issues(w, x, id, k, rowId) && OutboxOk(w)
    ensures forall i | 0 <= i < |x.outbox| :: OutboxRowOk(x, x.outbox[i])
  {
    hide AttemptsHaveRows, OutboxDistinct;
    forall i | 0 <= i < |x.outbox| ensures OutboxRowOk(x, x.outbox[i]) {
      if i < |w.outbox| { assert OutboxRowOk(w, w.outbox[i]); }
    }
  }

  lemma IssuesDistinct(w: State, x: State, id: JobId, k: nat, rowId: nat)
    requires Issues(w, x, id, k, rowId) && OutboxOk(w)
    ensures OutboxDistinct(x.outbox)
  {
    hide AttemptsHaveRows;
    forall i | 0 <= i < |w.outbox| ensures w.outbox[i].id != rowId && (w.outbox[i].job != id || w.outbox[i].attempt != k) {
      assert OutboxRowOk(w, w.outbox[i]);
    }
  }

  lemma IssuesConstraints(w: State, x: State, id: JobId, k: nat, rowId: nat)
    requires Issues(w, x, id, k, rowId) && ConstraintsOk(w)
    ensures ConstraintsOk(x)
  {
    forall e | e in x.index ensures IsIndexed(x, e) {
      if e in w.index && w.index[e] == x.index[e] { assert IsIndexed(w, e); }
    }
    forall j | j in x.jobs && !x.jobs[j].row.Deleted? && x.jobs[j].hist != [] ensures HasEntry(x, j) {
      if j in w.jobs { assert HasEntry(w, j); }
    }
  }

  lemma IssuesKeeps(w: State, x: State, id: JobId, k: nat, rowId: nat)
    requires Issues(w, x, id, k, rowId) && OutboxOk(w) && ConstraintsOk(w)
    ensures OutboxOk(x) && ConstraintsOk(x)
  {
    hide HasOutboxRow, OutboxRowOk, OutboxDistinct, ConstraintsOk, Issues, OnceIssued, SpecOf;
    IssuesConstraints(w, x, id, k, rowId);
    IssuesRows(w, x, id, k, rowId);
    IssuesDistinct(w, x, id, k, rowId);
    forall j, n | j in x.jobs && x.jobs[j].hist != [] && !x.jobs[j].row.Deleted? && 1 <= n <= Current(x, j).attempt
      ensures HasOutboxRow(x, j, n)
    {
      IssuesHasRow(w, x, id, k, rowId, j, n);
    }
    forall n | n in x.outboxIds ensures OnceIssued(x, x.outboxIds[n].0, x.outboxIds[n].1) {
      IssuesIds(w, x, id, k, rowId, n);
    }
  }

  lemma IssuesIds(w: State, x: State, id: JobId, k: nat, rowId: nat, n: nat)
    requires Issues(w, x, id, k, rowId) && OutboxOk(w) && n in x.outboxIds
    ensures OnceIssued(x, x.outboxIds[n].0, x.outboxIds[n].1)
  {
    if n != rowId { IssuesOnce(w, x, id, k, rowId, w.outboxIds[n].0, w.outboxIds[n].1); }
  }

  lemma RetriedIssues(c: Config, w: State, id: JobId, request: string, expires: int, rowId: nat)
    requires JobsOk(c, w) && ConstraintsOk(w)
    requires IsLive(w, id) && Enabled(c, Current(w, id), Action.Retry(request)) && rowId !in w.outboxIds
    ensures Issues(w, Retried(c, w, id, request, expires, rowId), id, Current(w, id).attempt + 1, rowId)
  {
    hide Enabled, Apply, Append, Linked, Mirrors;
    ApplyKeeps(c, Current(w, id), Action.Retry(request));
  }

  /** A retry writes the next version and exactly one outbox row for the new attempt. */
  lemma RetryOk(c: Config, w: State, id: JobId, request: string, expires: int, rowId: nat)
    requires Inv(c, w) && IsLive(w, id) && Enabled(c, Current(w, id), Action.Retry(request)) && rowId !in w.outboxIds
    ensures
      var x := Retried(c, w, id, request, expires, rowId);
      Inv(c, x) && Evolves(w, x)
  {
    hide ObjectsOk, KeptOk, CountersOk, OutboxOk, ConstraintsOk, Issues, Enabled, Apply, RecOk, Append, OnceIssued, Settled, Linked;
    var a := Action.Retry(request);
    HasHistory(c, w, id);
    var y := Committed(c, w, id, a, expires);
    var x := Retried(c, w, id, request, expires, rowId);
    CommittedJobs(c, w, id, a, expires);
    CommittedObjects(c, w, id, a, expires);
    CommittedKept(c, w, id, a, expires);
    CommittedCounters(c, w, id, a, expires);
    SameStore(c, y, x);
    RetriedIssues(c, w, id, request, expires, rowId);
    IssuesKeeps(w, x, id, Current(w, id).attempt + 1, rowId);
    CommittedEvolves(c, w, id, a, expires);
    forall i | 0 <= i < |w.queue| ensures OnceIssued(x, x.queue[i].job, x.queue[i].attempt) {
      IssuesOnce(w, x, id, Current(w, id).attempt + 1, rowId, w.queue[i].job, w.queue[i].attempt);
    }
    forall i | 0 <= i < w.committed ensures Settled(x, x.queue[i]) {
      SettledStable(c, w, x, w.queue[i]);
    }
  }

  // The parts of the invariant that do not look at outbox and queue.
  lemma SameStore(c: Config, w: State, x: State)
    requires x.jobs == w.jobs && x.objects == w.objects && x.calls == w.calls && x.slept == w.slept
    requires JobsOk(c, w) && ObjectsOk(c, w) && KeptOk(c, w) && CountersOk(c, w)
    ensures JobsOk(c, x) && ObjectsOk(c, x) && KeptOk(c, x) && CountersOk(c, x)
  {}
}
