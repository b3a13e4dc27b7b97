/**
 The worker's knowledge: what it may conclude from its copies of a job, one lemma per save.
 */
module WorkerFacts {
  import opened Domain
  import opened Aggregate
  import opened History
  import opened EventLog
  import opened World
  import opened Commits
  import opened Rely
  import opened Awaits

  // A copy of a job as loaded or as last saved, not changed since.
  ghost predicate Sound(c: Config, w: State, v: JobData) {
    Seen(w, v) && Numbered(c, v.id, v) && (Owned(v.state) ==> Held(c, w, v))
  }

  // The attempt v describes is over, and v is what is stored.
  ghost predicate Ended(w: State, v: JobData) {
    ExactlyCurrent(w, v) && Terminal(v.state)
  }

  // A copy that may have been changed in memory; if so, its job is gone and it cannot be saved.
  ghost predicate Stale(w: State, v: JobData) {
    v.id in w.jobs && v.revision < |w.jobs[v.id].hist| && !IsLive(w, v.id)
  }

  lemma SavedIsSound(c: Config, w: State, v: JobData, a: Action)
    requires Inv(c, w) && SavedAs(c, w, v, a)
    ensures Sound(c, w, v) && Reached(w, v.id, v.attempt) && ExactlyCurrent(w, v)
    ensures Terminal(v.state) ==> Ended(w, v)
  {
    hide SavedAs, Inv, ExactlyCurrent, Numbered, Seen;
    SavedKnows(c, w, v, a);
    CurrentIsSound(c, w, v);
    CurrentIsLive(w, v);
  }

  lemma CurrentIsSound(c: Config, w: State, v: JobData)
    requires Inv(c, w) && ExactlyCurrent(w, v)
    ensures Sound(c, w, v) && Reached(w, v.id, v.attempt)
  {
    hide ObjectsOk, KeptOk, CountersOk, ConstraintsOk, OutboxOk, QueueOk, Linked, Mirrors, Numbered, Seen;
    HasHistory(c, w, v.id);
    CurrentIsSeen(c, w, v);
    PagesAreNumbered(c, v.id, w.jobs[v.id].hist, |w.jobs[v.id].hist| - 1);
  }

  lemma SavedKnows(c: Config, w: State, v: JobData, a: Action)
    requires SavedAs(c, w, v, a)
    ensures ExactlyCurrent(w, v)
  {}

  lemma SoundCarried(c: Config, w: State, x: State, v: JobData)
    requires Quiet(c, v.id, w, x) && Sound(c, w, v)
    ensures Sound(c, x, v) && Inv(c, x)
  {}

  lemma SoundKnows(c: Config, w: State, v: JobData)
    requires Inv(c, w) && Sound(c, w, v)
    ensures Seen(w, v) && Numbered(c, v.id, v) && v.id in w.jobs && v.revision < |w.jobs[v.id].hist|
    ensures Owned(v.state) ==> Held(c, w, v)
    ensures Reached(w, v.id, v.attempt)
  {
    hide Inv, Held;
    SeenIsReached(c, w, v);
  }

  lemma SeenIsReached(c: Config, w: State, v: JobData)
    requires Inv(c, w) && Seen(w, v)
    ensures Reached(w, v.id, v.attempt)
  {
    SeenReached(c, w, v);
  }

  lemma LoadedSound(c: Config, w: State, v: JobData)
    requires Seen(w, v) && Numbered(c, v.id, v) && (Owned(v.state) ==> Held(c, w, v))
    ensures Sound(c, w, v)
  {}

  lemma StaleSave(c: Config, w: State, v: JobData, a: Action)
    requires Stale(w, v)
    ensures CanSave(c, w, v, a)
  {}

  // A copy can be saved as the result of an action if it could be were it still current.
  lemma ReadySave(c: Config, w: State, base: JobData, v: JobData, a: Action)
    requires Inv(c, w) && Seen(w, base) && v.id == base.id && v.revision == base.revision
    requires ExactlyCurrent(w, base) ==>
               Enabled(c, base, a) && Apply(c, base, a) == v.(revision := base.revision + 1) && Backed(c, w, base, a)
    ensures CanSave(c, w, v, a)
  {
    hide Enabled, Apply, Backed, RecOk, ObjectsOk, KeptOk, CountersOk, ConstraintsOk, OutboxOk, QueueOk;
    HasHistory(c, w, v.id);
  }

  // ---- one lemma per save of the worker ----

  lemma CancelSave(c: Config, w: State, base: JobData, v: JobData)
    requires Inv(c, w) && Sound(c, w, base) && base.state == CancelRequested && v == base.(state := Cancelled)
    ensures CanSave(c, w, v, Action.Cancel) && KindOf(Entry(Action.Cancel, v)) == JobCancelled
  {
    hide Inv;
    ReadySave(c, w, base, v, Action.Cancel);
  }

  lemma FailSave(c: Config, w: State, base: JobData, v: JobData, code: int, reason: string)
    requires Inv(c, w) && Sound(c, w, base) && base.state in {Queued, Preprocessing, Running, Assembling, Retrying}
    requires v == base.(state := Failed, code := code, reason := reason)
    ensures CanSave(c, w, v, Action.Fail(code, reason))
    ensures KindOf(Entry(Action.Fail(code, reason), v)) == JobFailed
  {
    hide Inv;
    ReadySave(c, w, base, v, Action.Fail(code, reason));
  }

  lemma PreprocessingSave(c: Config, w: State, base: JobData, v: JobData)
    requires Inv(c, w) && Sound(c, w, base) && base.state in {Queued, Retrying} && v == base.(state := Preprocessing)
    ensures CanSave(c, w, v, Action.BeginPreprocessing)
    ensures KindOf(Entry(Action.BeginPreprocessing, v)) == JobPreprocessing
  {
    hide Inv;
    ReadySave(c, w, base, v, Action.BeginPreprocessing);
  }

  lemma PagesSave(c: Config, w: State, base: JobData, v: JobData)
    requires Inv(c, w) && Sound(c, w, base) && base.state == Preprocessing && base.pages == []
    requires 0 < c.pageCount(base.spec.upload) && v == base.(pages := PreparedPages(c, base))
    requires ImagesStored(w, base.id, base.attempt, c.pageCount(base.spec.upload))
    ensures CanSave(c, w, v, PreparePages) && KindOf(Entry(PreparePages, v)) == JobPagesPrepared
  {
    hide Inv;
    ReadySave(c, w, base, v, PreparePages);
  }

  lemma RunningSave(c: Config, w: State, base: JobData, v: JobData)
    requires Inv(c, w) && Sound(c, w, base) && base.state == Preprocessing && base.pages != []
    requires v == base.(state := Running)
    ensures CanSave(c, w, v, Action.BeginRunning) && KindOf(Entry(Action.BeginRunning, v)) == JobRunning
  {
    hide Inv;
    ReadySave(c, w, base, v, Action.BeginRunning);
  }

  lemma AssemblingSave(c: Config, w: State, base: JobData, v: JobData)
    requires Inv(c, w) && Sound(c, w, base) && base.state == Running && v == base.(state := Assembling)
    ensures CanSave(c, w, v, Action.BeginAssembling)
    ensures KindOf(Entry(Action.BeginAssembling, v)) == JobAssembling
  {
    hide Inv;
    ReadySave(c, w, base, v, Action.BeginAssembling);
  }

  // The worker works on page i: with one live worker, the job is running (or being cancelled) and the page open.
  ghost predicate Working(c: Config, w: State, v: JobData, i: nat) {
    c.solo ==> Held(c, w, v) && v.state in {Running, CancelRequested} && i < |v.pages| && v.pages[i].state != PageSucceeded
  }

  lemma StartSave(c: Config, w: State, base: JobData, v: JobData, i: nat)
    requires Inv(c, w) && Sound(c, w, base) && base.state != CancelRequested && Working(c, w, base, i)
    requires i < |base.pages| && base.pages[i].attempts < c.Budget()
    requires v == WithPage(base, i, StartedPage(base.pages[i]))
    ensures CanSave(c, w, v, StartPage(i)) && KindOf(Entry(StartPage(i), v)) == PageStarted
  {
    hide Inv, Held;
    ReadySave(c, w, base, v, StartPage(i));
  }

  lemma RetrySave(c: Config, w: State, base: JobData, v: JobData, i: nat, code: int, reason: string)
    requires Inv(c, w) && Sound(c, w, base) && base.state != CancelRequested && Working(c, w, base, i)
    requires i < |base.pages| && v == WithPage(base, i, NotedPage(base.pages[i], code, reason))
    ensures CanSave(c, w, v, ScheduleRetry(i, code, reason))
    ensures KindOf(Entry(ScheduleRetry(i, code, reason), v)) == PageRetryScheduled
  {
    hide Inv, Held;
    ReadySave(c, w, base, v, ScheduleRetry(i, code, reason));
  }

  lemma PageDoneSave(c: Config, w: State, base: JobData, v: JobData, i: nat, k: nat, sha: Digest)
    requires Inv(c, w) && Sound(c, w, base) && base.state != CancelRequested && Working(c, w, base, i)
    requires i < |base.pages| && Reached(w, base.id, k) && (c.solo ==> k == base.attempt)
    requires IsLive(w, base.id) ==> Backed(c, w, base, SucceedPage(i, k, sha))
    requires v == WithPage(base, i, SucceededPage(base.pages[i], PageResult(base.id, k, i + 1), sha,
                    if c.ReadingOf(base.spec, i + 1).visual.Some? then Some(Visualization(base.id, k, i + 1)) else None))
    ensures CanSave(c, w, v, SucceedPage(i, k, sha)) && KindOf(Entry(SucceedPage(i, k, sha), v)) == PageDone
  {
    hide Inv, Held, Backed;
    ReadySave(c, w, base, v, SucceedPage(i, k, sha));
  }

  lemma PageFailSave(c: Config, w: State, base: JobData, v: JobData, i: nat, code: int, reason: string)
    requires Inv(c, w) && Sound(c, w, base) && i < |base.pages|
    requires c.solo ==> base.state in {Running, CancelRequested} && base.pages[i].state != PageSucceeded
    requires v == WithPage(base, i, FailedPage(base.pages[i], code, reason))
    ensures CanSave(c, w, v, FailPage(i, code, reason)) && KindOf(Entry(FailPage(i, code, reason), v)) == PageGaveUp
  {
    hide Inv, Held;
    ReadySave(c, w, base, v, FailPage(i, code, reason));
  }

  lemma SucceedSave(c: Config, w: State, base: JobData, v: JobData, k: nat, body: seq<Artifact>, stamp: nat)
    requires Inv(c, w) && Sound(c, w, base) && base.state == Assembling && base.pages != [] && AllSucceeded(base.pages)
    requires Reached(w, base.id, k) && BodyOk(c, base, k, body)
    requires c.solo ==> k == base.attempt && body == ManifestBody(c, base, k)
    requires IsLive(w, base.id) ==> Backed(c, w, base, Action.Succeed(k, body, stamp))
    requires v == base.(state := JobState.Succeeded, code := 0, reason := "",
                        artifacts := SetOf(body + [ManifestArtifact(c, base, k, body, stamp)]))
    ensures CanSave(c, w, v, Action.Succeed(k, body, stamp))
    ensures KindOf(Entry(Action.Succeed(k, body, stamp), v)) == JobSucceeded
  {
    hide Inv, Held, Backed, BodyOk;
    ReadySave(c, w, base, v, Action.Succeed(k, body, stamp));
  }

  // ---- settling a message ----

  lemma EndedSettles(c: Config, w: State, v: JobData, m: Message)
    requires Inv(c, w) && Ended(w, v) && v.id == m.job && Reached(w, m.job, m.attempt)
    ensures Settled(w, m)
  {
    SettledNow(c, w, v, m);
  }

  lemma SoundSettles(c: Config, w: State, v: JobData, m: Message)
    requires Inv(c, w) && Sound(c, w, v) && v.id == m.job
    requires m.attempt < v.attempt || (m.attempt == v.attempt && Terminal(v.state))
    ensures Settled(w, m)
  {
    SeenTerminalSettles(c, w, v, m);
  }

  lemma MissingSettles(c: Config, w: State, m: Message)
    requires Inv(c, w) && m.job in w.jobs && !IsLive(w, m.job)
    ensures Settled(w, m)
  {
    GoneSettles(c, w, m);
  }

  lemma HistoryKnown(c: Config, w: State, id: JobId)
    requires Inv(c, w) && id in w.jobs
    ensures w.jobs[id].hist != []
  {
    HasHistory(c, w, id);
  }

  lemma EndedIsCurrent(w: State, v: JobData)
    requires Ended(w, v)
    ensures ExactlyCurrent(w, v)
  {}

  lemma StaleIsGone(w: State, v: JobData)
    ensures Stale(w, v) ==> !IsLive(w, v.id)
  {}

  lemma StaleChanged(w: State, v: JobData, u: JobData)
    requires Stale(w, v) && u.id == v.id && u.revision == v.revision
    ensures Stale(w, u)
  {}

  lemma EndKind(v: JobData, kind: EventKind, a: Action)
    requires (kind == JobCancelled && a.Cancel?) || (kind == JobFailed && a.Fail?)
    ensures kind == KindOf(Entry(a, v))
  {}

  // ---- which attempt the worker is on ----

  // With one live worker: the job is still at attempt k, and its worker's.
  ghost predicate StillOn(c: Config, w: State, id: JobId, k: nat) {
    c.solo ==> IsLive(w, id) && w.jobs[id].hist != [] && Current(w, id).attempt == k && Owned(Current(w, id).state)
  }

  lemma HeldStillOn(c: Config, w: State, v: JobData)
    requires Held(c, w, v)
    ensures StillOn(c, w, v.id, v.attempt)
  {}

  lemma SoundStillOn(c: Config, w: State, v: JobData)
    requires Sound(c, w, v) && Owned(v.state)
    ensures StillOn(c, w, v.id, v.attempt)
  {
    hide Held;
    HeldStillOn(c, w, v);
  }

  lemma StillOnHeld(c: Config, w: State, id: JobId, k: nat)
    requires StillOn(c, w, id, k) && c.solo && id in w.jobs && w.jobs[id].hist != [] && Current(w, id).id == id
    ensures Held(c, w, Current(w, id)) && Current(w, id).attempt == k
  {}

  lemma NotAlone(c: Config, w: State, id: JobId, k: nat)
    requires !c.solo
    ensures StillOn(c, w, id, k)
  {}

  lemma SameStillOn(c: Config, w: State, id: JobId, k: nat, n: nat)
    requires StillOn(c, w, id, k) && (c.solo ==> k == n)
    ensures StillOn(c, w, id, n)
  {}

  // A reload while page i is worked on.
  lemma ReloadOpen(c: Config, w: State, base: JobData, found: JobData, i: nat)
    requires Working(c, w, base, i) && (c.solo ==> SameButCancel(found, base))
    ensures c.solo ==> i < |found.pages| && !Terminal(found.state) && found.attempt == base.attempt
  {}

  lemma SameAttempt(c: Config, v: JobData, u: JobData)
    requires c.solo ==> SameButCancel(u, v)
    ensures c.solo ==> u.attempt == v.attempt
  {}

  // ---- one page ----

  // The job after its page i was worked on and saved.
  ghost predicate PageOutcome(c: Config, w: State, was: JobData, v: JobData, i: nat) {
    && ExactlyCurrent(w, v) && Sound(c, w, v)
    && (v.state in {Failed, Cancelled}
        || (i < |v.pages| && v.pages[i].state == PageSucceeded
            && (c.solo ==> v.state == Running && v.attempt == was.attempt && |v.pages| == |was.pages|
                           && forall j | 0 <= j < |v.pages| && j != i :: v.pages[j] == was.pages[j])))
  }

  lemma EndedIsOutcome(c: Config, w: State, was: JobData, v: JobData, i: nat)
    requires Inv(c, w) && Ended(w, v) && v.state in {Failed, Cancelled}
    ensures PageOutcome(c, w, was, v, i)
  {
    hide Inv, ExactlyCurrent, Sound;
    CurrentIsSound(c, w, v);
  }

  lemma DoneIsOutcome(c: Config, w: State, was: JobData, base: JobData, v: JobData, i: nat, a: Action)
    requires Inv(c, w) && SavedAs(c, w, v, a) && i < |v.pages| == |base.pages|
    requires v.state == base.state && v.attempt == base.attempt
    requires v.pages[i].state == PageSucceeded && forall j | 0 <= j < |v.pages| && j != i :: v.pages[j] == base.pages[j]
    requires c.solo ==> base.state == Running && base.attempt == was.attempt && |base.pages| == |was.pages|
                        && forall j | 0 <= j < |base.pages| && j != i :: base.pages[j] == was.pages[j]
    ensures PageOutcome(c, w, was, v, i)
  {
    hide Inv, SavedAs, Sound;
    SavedIsSound(c, w, v, a);
  }

  // A page result as read back: what the engine says about that page.
  lemma ImageReading(c: Config, w: State, v: JobData, i: nat, image: Blob)
    requires Inv(c, w) && Sound(c, w, v) && i < |v.pages| && v.pages[i].inputKey in w.objects
    requires image == w.objects[v.pages[i].inputKey]
    ensures c.read(image, i + 1, v.spec.options) == c.ReadingOf(v.spec, i + 1)
  {
    SeenSpec(c, w, v);
    assert ContentOk(c, SpecOf(w, v.id), v.pages[i].inputKey, image);
  }

  lemma VisualWritable(c: Config, w: State, k: nat, v: JobData, i: nat, b: Blob)
    requires Inv(c, w) && Sound(c, w, v) && Working(c, w, v, i)
    requires c.ReadingOf(v.spec, i + 1).visual == Some(b)
    ensures Writable(c, w, v, Visualization(v.id, k, i + 1), b)
  {
    SeenSpec(c, w, v);
  }

  lemma ResultWritable(c: Config, w: State, k: nat, v: JobData, i: nat, meta: nat)
    requires Inv(c, w) && Sound(c, w, v) && Working(c, w, v, i)
    ensures Writable(c, w, v, PageResult(v.id, k, i + 1), ResultJson(i + 1, c.ReadingOf(v.spec, i + 1), meta))
  {
    SeenSpec(c, w, v);
  }

  lemma StoredSound(c: Config, w: State, x: State, key: Key, v: JobData)
    requires Stored(c, v.id, key, w, x) && Sound(c, w, v)
    ensures Sound(c, x, v) && Inv(c, x) && Wrote(c, v.id, w, x)
  {}

  lemma StoredWorking(c: Config, w: State, x: State, key: Key, v: JobData, i: nat)
    requires Stored(c, v.id, key, w, x) && Working(c, w, v, i)
    ensures Working(c, x, v, i)
  {}

  lemma WroteSound(c: Config, w: State, x: State, v: JobData)
    requires Wrote(c, v.id, w, x) && Sound(c, w, v) && (Owned(v.state) ==> Held(c, x, v))
    ensures Sound(c, x, v) && Inv(c, x)
  {}

  lemma WroteSeen(c: Config, w: State, x: State, v: JobData)
    requires Wrote(c, v.id, w, x) && Seen(w, v)
    ensures Seen(x, v)
  {}

  lemma WroteReached(c: Config, w: State, x: State, id: JobId, k: nat)
    requires Wrote(c, id, w, x) && Reached(w, id, k)
    ensures Reached(x, id, k)
  {}

  lemma SoundNumber(c: Config, w: State, v: JobData, i: nat)
    requires Sound(c, w, v) && i < |v.pages|
    ensures v.pages[i].number == i + 1 && v.pages[i].inputKey.job == v.id
  {}

  lemma WorkingCarried(c: Config, w: State, x: State, v: JobData, i: nat)
    requires Quiet(c, v.id, w, x) && Working(c, w, v, i)
    ensures Working(c, x, v, i)
  {}

  lemma WorkingHeld(c: Config, w: State, v: JobData, i: nat)
    requires Working(c, w, v, i)
    ensures Held(c, w, v)
  {}

  // What a reload in the middle of the work on page i is good for.
  lemma BaseWorking(c: Config, w: State, was: JobData, base: JobData, i: nat, same: bool)
    requires Inv(c, w) && Working(c, w, was, i) && Sound(c, w, base) && base.state != CancelRequested && base.id == was.id
    requires if same then base == was && !IsLive(w, was.id) else (c.solo ==> SameButCancel(base, was))
    requires i < |base.pages|
    ensures Working(c, w, base, i) && base.pages[i].number == i + 1 && base.pages[i].inputKey.job == base.id
    ensures c.solo ==> base == was
  {}

  function VisualKey(c: Config, v: JobData, i: nat, k: nat): Option<Key> {
    if c.ReadingOf(v.spec, i + 1).visual.Some? then Some(Visualization(v.id, k, i + 1)) else None
  }

  // The result object of page i is stored and has this digest; its visualization is stored too.
  ghost predicate ResultStored(c: Config, w: State, v: JobData, i: nat, k: nat, sha: Digest) {
    IsLive(w, v.id) ==>
      && PageResult(v.id, k, i + 1) in w.objects && sha == c.sha(w.objects[PageResult(v.id, k, i + 1)])
      && (VisualKey(c, v, i, k).Some? ==> VisualKey(c, v, i, k).value in w.objects)
  }

  lemma ResultIsStored(c: Config, w: State, x: State, v: JobData, i: nat, k: nat, sha: Digest)
    requires Stored(c, v.id, PageResult(v.id, k, i + 1), w, x) && v.id in w.jobs
    requires PageResult(v.id, k, i + 1) in x.objects && sha == c.sha(x.objects[PageResult(v.id, k, i + 1)])
    requires VisualKey(c, v, i, k).Some? && IsLive(w, v.id) ==> VisualKey(c, v, i, k).value in w.objects
    ensures ResultStored(c, x, v, i, k, sha)
  {
    assert RecEvolves(w.jobs[v.id], x.jobs[v.id]);
  }

  lemma PageDoneReady(c: Config, w: State, base: JobData, v: JobData, i: nat, k: nat, sha: Digest)
    requires Inv(c, w) && Sound(c, w, base) && base.state != CancelRequested && Working(c, w, base, i)
    requires i < |base.pages| && Reached(w, base.id, k) && (c.solo ==> k == base.attempt)
    requires ResultStored(c, w, base, i, k, sha)
    requires v == WithPage(base, i, SucceededPage(base.pages[i], PageResult(base.id, k, i + 1), sha, VisualKey(c, base, i, k)))
    ensures CanSave(c, w, v, SucceedPage(i, k, sha)) && KindOf(Entry(SucceedPage(i, k, sha), v)) == PageDone
  {
    hide Inv, Held;
    PageDoneSave(c, w, base, v, i, k, sha);
  }

  lemma SoundReached(c: Config, w: State, x: State, v: JobData)
    requires Inv(c, w) && Sound(c, w, v) && Wrote(c, v.id, w, x)
    ensures Reached(x, v.id, v.attempt)
  {
    SeenIsReached(c, w, v);
  }

  // The first copy after a write made while holding the reloaded one.
  lemma SoundWorking(c: Config, w: State, x: State, was: JobData, base: JobData, i: nat)
    requires Inv(c, w) && Wrote(c, was.id, w, x) && Sound(c, w, was) && Working(c, w, was, i)
    requires Sound(c, x, base) && Working(c, x, base, i) && (c.solo ==> base == was)
    ensures Sound(c, x, was) && Working(c, x, was, i)
  {}

  lemma StartedTries(c: Config, w: State, v: JobData, i: nat)
    requires c.solo && Working(c, w, v, i)
    ensures i < |v.pages| && StartedPage(v.pages[i]).attempts == v.pages[i].attempts + 1
  {}

  lemma WorkingKnows(c: Config, w: State, v: JobData, i: nat)
    requires Working(c, w, v, i)
    ensures c.solo ==> v.state in {Running, CancelRequested} && i < |v.pages| && v.pages[i].state != PageSucceeded
  {}

  lemma SameSpec(c: Config, w: State, v: JobData, u: JobData)
    requires Inv(c, w) && Sound(c, w, v) && Sound(c, w, u) && v.id == u.id
    ensures v.spec == u.spec
  {
    SeenSpec(c, w, v);
    SeenSpec(c, w, u);
  }

  // The reloaded copy u, next to the copy v held before; page i may be worked on in either.
  ghost predicate Reloaded(c: Config, w: State, v: JobData, u: JobData, i: nat) {
    && u.id == v.id && u.spec == v.spec && Inv(c, w)
    && Sound(c, w, v) && Working(c, w, v, i) && Sound(c, w, u) && u.state != CancelRequested
    && (c.solo ==> u == v)
    && (i < |u.pages| ==> Working(c, w, u, i) && u.pages[i].number == i + 1 && u.pages[i].inputKey.job == u.id)
  }

  lemma IsReloaded(c: Config, w: State, v: JobData, u: JobData, i: nat, same: bool)
    requires Inv(c, w) && Sound(c, w, v) && Working(c, w, v, i) && Sound(c, w, u) && u.state != CancelRequested
    requires u.id == v.id
    requires if same then u == v && !IsLive(w, v.id) else (c.solo ==> SameButCancel(u, v))
    ensures Reloaded(c, w, v, u, i)
  {
    hide Inv, Sound, Working;
    SameSpec(c, w, v, u);
    WorkingNow(c, w, v, i);
    if i < |u.pages| { BaseWorking(c, w, v, u, i, same); }
  }

  lemma WorkingNow(c: Config, w: State, v: JobData, i: nat)
    requires Working(c, w, v, i)
    ensures c.solo ==> IsLive(w, v.id) && i < |v.pages|
  {}

  lemma ReloadedKnows(c: Config, w: State, v: JobData, u: JobData, i: nat)
    requires Reloaded(c, w, v, u, i)
    ensures u.id == v.id && u.spec == v.spec && Inv(c, w) && Sound(c, w, v) && Working(c, w, v, i) && Sound(c, w, u)
    ensures u.state != CancelRequested && (c.solo ==> u == v)
    ensures i < |u.pages| ==> Working(c, w, u, i) && u.pages[i].number == i + 1
  {}

  lemma ReloadedHasPage(c: Config, w: State, v: JobData, u: JobData, i: nat)
    ensures Reloaded(c, w, v, u, i) && c.solo ==> i < |u.pages|
  {}

  lemma CurrentIsLive(w: State, v: JobData)
    ensures ExactlyCurrent(w, v) ==> IsLive(w, v.id) && w.jobs[v.id].hist != [] && Current(w, v.id) == v
  {}

  lemma BothCurrent(w: State, x: State, v: JobData, u: JobData)
    ensures ExactlyCurrent(w, v) && ExactlyCurrent(x, u) && v.id in x.jobs && x.jobs[v.id] == w.jobs[v.id] && u.id == v.id ==> u == v
  {}

  lemma CurrentAtRevision(w: State, base: JobData, v: JobData)
    requires v.id == base.id && v.revision == base.revision
    ensures ExactlyCurrent(w, base) ==> AtRevision(w, v)
  {}

  lemma StaysCurrent(w: State, x: State, v: JobData)
    ensures ExactlyCurrent(w, v) && v.id in x.jobs && x.jobs[v.id] == w.jobs[v.id] ==> ExactlyCurrent(x, v)
  {}

  // The copy a round worked from; the object in hand may carry an unsaved note on page i.
  ghost predicate RoundBase(c: Config, w: State, base: JobData, v: JobData, i: nat) {
    && Inv(c, w) && Sound(c, w, base) && Working(c, w, base, i)
    && v.id == base.id && v.revision == base.revision && |v.pages| == |base.pages| && v.attempt == base.attempt
    && v.state == base.state
  }

  lemma IsRoundBase(c: Config, w: State, base: JobData, v: JobData, i: nat)
    requires Inv(c, w) && Sound(c, w, base) && Working(c, w, base, i)
    requires v.id == base.id && v.revision == base.revision && |v.pages| == |base.pages| && v.attempt == base.attempt
    requires v.state == base.state
    ensures RoundBase(c, w, base, v, i)
  {}

  // After a save that leaves the page open, the worker is still on it.
  lemma SavedIsWorking(c: Config, w: State, base: JobData, v: JobData, i: nat, a: Action)
    requires SavedAs(c, w, v, a) && v.state == base.state && i < |v.pages|
    requires c.solo ==> base.state == Running && v.pages[i].state != PageSucceeded
    ensures Working(c, w, v, i)
  {}

  lemma RestedKnows(c: Config, w: State, v: JobData, i: nat)
    requires Rested(c, w, v, i)
    ensures c.solo ==> i < |v.pages| && 1 <= v.pages[i].attempts
  {}

  lemma WorkingHeldNow(c: Config, w: State, x: State, v: JobData, i: nat)
    requires Working(c, w, v, i) && Held(c, x, v)
    ensures Working(c, x, v, i)
  {}

  lemma RoundBaseKnows(c: Config, w: State, base: JobData, v: JobData, i: nat)
    requires RoundBase(c, w, base, v, i)
    ensures Inv(c, w) && Sound(c, w, base) && Working(c, w, base, i)
    ensures v.id == base.id && v.revision == base.revision && |v.pages| == |base.pages| && v.attempt == base.attempt
  {}

  lemma SavedIsCharged(c: Config, w: State, v: JobData, i: nat)
    requires SavedAs(c, w, v, StartPage(i))
    ensures Charged(c, w, v, i) && Rested(c, w, v, i)
  {}

  // What a round starts from.
  lemma OpenKnows(c: Config, w: State, v: JobData, u: JobData, i: nat)
    requires Reloaded(c, w, v, u, i)
    ensures u.id == v.id && u.spec == v.spec && u.state != CancelRequested && (c.solo ==> u == v) && Sound(c, w, u)
    ensures i < |u.pages| ==> Working(c, w, u, i) && RoundBase(c, w, u, u, i)
  {
    hide Inv, Sound, Working;
  }

  lemma OutcomeSame(c: Config, w: State, start: JobData, was: JobData, v: JobData, i: nat)
    requires PageOutcome(c, w, start, v, i) && (c.solo ==> start == was)
    ensures PageOutcome(c, w, was, v, i)
  {}

  // ---- the retry loop on page i ----

  // With one live worker the rounds of the loop touch no other page and stay in the attempt.
  ghost predicate SamePagesBut(c: Config, was: JobData, v: JobData, i: nat) {
    c.solo ==> v.attempt == was.attempt && i < |v.pages| == |was.pages|
               && forall j | 0 <= j < |v.pages| && j != i :: v.pages[j] == was.pages[j]
  }

  lemma SamePagesReflexive(c: Config, v: JobData, i: nat)
    requires i < |v.pages|
    ensures SamePagesBut(c, v, v, i)
  {}

  lemma SamePagesTransitive(c: Config, was: JobData, mid: JobData, v: JobData, i: nat)
    requires SamePagesBut(c, was, mid, i) && SamePagesBut(c, mid, v, i)
    ensures SamePagesBut(c, was, v, i)
  {}

  lemma SamePagesFrom(c: Config, was: JobData, start: JobData, v: JobData, i: nat)
    requires (c.solo ==> start == was) && SamePagesBut(c, start, v, i)
    ensures SamePagesBut(c, was, v, i)
  {}

  lemma SamePagesChanged(c: Config, was: JobData, v: JobData, i: nat, p: PageData)
    requires i < |was.pages| && v == WithPage(was, i, p).(revision := v.revision)
    ensures SamePagesBut(c, was, v, i)
  {}

  lemma OutcomeRelative(c: Config, w: State, was: JobData, mid: JobData, v: JobData, i: nat)
    requires PageOutcome(c, w, mid, v, i) && SamePagesBut(c, was, mid, i)
    ensures PageOutcome(c, w, was, v, i)
  {
    hide ExactlyCurrent, Sound;
  }

  // Tries page i still has.
  function TriesLeft(c: Config, v: JobData, i: nat): nat {
    if i < |v.pages| && v.pages[i].attempts < c.Budget() then c.Budget() - v.pages[i].attempts else 0
  }

  lemma CurrentHasImage(c: Config, w: State, v: JobData, i: nat)
    requires Inv(c, w) && i < |v.pages|
    ensures ExactlyCurrent(w, v) ==> v.pages[i].inputKey in w.objects
  {
    hide JobsOk, ObjectsOk, CountersOk, ConstraintsOk, OutboxOk, QueueOk;
    if ExactlyCurrent(w, v) {
      assert Kept(c, w.objects, v);
      assert PageKept(c, w.objects, v.pages[i]);
    }
  }

  lemma GoneCopyIsStale(c: Config, w: State, base: JobData, v: JobData)
    requires Inv(c, w) && Sound(c, w, base) && !IsLive(w, base.id) && v.id == base.id && v.revision == base.revision
    ensures Stale(w, v)
  {
    hide Inv, Held, Numbered;
  }

  // What giving up on page i may be saved as: found is the reload, or the copy in hand if the job is gone.
  // A reloaded copy in which page i may be failed.
  ghost predicate Failable(c: Config, w: State, found: JobData, i: nat) {
    || Stale(w, found)
    || (Sound(c, w, found)
        && (c.solo ==> found.state in {Running, CancelRequested} && i < |found.pages| && found.pages[i].state != PageSucceeded))
  }

  lemma IsFailable(c: Config, w: State, x: State, base: JobData, found: JobData, i: nat, gone: bool)
    requires Working(c, w, base, i)
    requires if gone then Stale(x, found) else Sound(c, x, found) && (c.solo ==> SameButCancel(found, base))
    ensures Failable(c, x, found, i)
  {}

  lemma FailPageReady(c: Config, w: State, found: JobData, v: JobData, i: nat, code: int, reason: string)
    requires Inv(c, w) && Failable(c, w, found, i)
    requires i < |found.pages| && v == WithPage(found, i, FailedPage(found.pages[i], code, reason))
    ensures CanSave(c, w, v, FailPage(i, code, reason)) && KindOf(Entry(FailPage(i, code, reason), v)) == PageGaveUp
    ensures c.solo ==> Stale(w, found) || !Terminal(found.state)
  {
    hide Inv, Sound, Held, CanSave;
    if Stale(w, found) {
      StaleChanged(w, found, v);
      StaleSave(c, w, v, FailPage(i, code, reason));
    } else {
      PageFailSave(c, w, found, v, i, code, reason);
    }
  }

  // A run in which nothing fails and nobody interferes, with a try left for page i.
  ghost predicate Smooth(c: Config, calm: bool, w: State, v: JobData, i: nat) {
    calm && c.solo && ExactlyCurrent(w, v) && v.state == Running && 0 < TriesLeft(c, v, i)
  }

  lemma FewerLeft(c: Config, v: JobData, u: JobData, i: nat)
    requires i < |v.pages| && i < |u.pages| && u.pages[i].attempts == v.pages[i].attempts + 1 <= c.Budget()
    ensures TriesLeft(c, u, i) < TriesLeft(c, v, i)
  {}

  lemma SmoothKnows(c: Config, calm: bool, w: State, v: JobData, i: nat)
    requires Smooth(c, calm, w, v, i)
    ensures calm && c.solo && ExactlyCurrent(w, v) && v.state == Running && i < |v.pages| && v.pages[i].attempts < c.Budget()
  {}

  lemma StaysSmooth(c: Config, calm: bool, w: State, x: State, v: JobData, i: nat)
    requires Smooth(c, calm, w, v, i) && (ExactlyCurrent(w, v) ==> ExactlyCurrent(x, v))
    ensures Smooth(c, calm, x, v, i)
  {}
}
