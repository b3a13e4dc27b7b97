/**
 What a process may keep believing across an await: facts about its local copy of a job that
 survive every step the others can take.
 */
module Rely {
  import opened Domain
  import opened History
  import opened EventLog
  import opened World
  import opened Commits

  // The columns read by the first of the queries that load a job.
  function RowOf(v: JobData): JobData { v.(pages := [], artifacts := {}) }

  /**
   A loaded copy. Its row is the row of one committed version; its pages and artifacts were read
   by later queries and may come from other versions. But if that version is still current, the
   copy is exactly it: a torn copy can never pass the compare-and-swap.
   */
  ghost predicate Seen(w: State, v: JobData) {
    && v.id in w.jobs && v.revision < |w.jobs[v.id].hist|
    && RowOf(w.jobs[v.id].hist[v.revision].job) == RowOf(v)
    && (IsLive(w, v.id) && v.revision == |w.jobs[v.id].hist| - 1 ==> w.jobs[v.id].hist[v.revision].job == v)
  }

  ghost predicate ExactlyCurrent(w: State, v: JobData) {
    IsLive(w, v.id) && w.jobs[v.id].hist != [] && Current(w, v.id) == v
  }

  predicate Owned(s: JobState) { Active(s) || s == CancelRequested }

  /**
   With one live worker per job, what its worker last loaded or saved is what is stored, except
   that the API may have asked for cancellation.
   */
  ghost predicate Held(c: Config, w: State, v: JobData) {
    c.solo ==>
      && Owned(v.state) && IsLive(w, v.id) && w.jobs[v.id].hist != []
      && SameButCancel(Current(w, v.id), v)
  }

  predicate SameButCancel(a: JobData, v: JobData) {
    || a == v
    || (Active(v.state) && a.state == CancelRequested && a.attempt == v.attempt && a.pages == v.pages
        && a.spec == v.spec && a.id == v.id && a.artifacts == v.artifacts)
  }

  // If the copy is still current, the action may be committed, and the object in hand is its result.
  ghost predicate CanSave(c: Config, w: State, v: JobData, a: Action) {
    && v.id in w.jobs && v.revision < |w.jobs[v.id].hist|
    && (IsLive(w, v.id) && Current(w, v.id).revision == v.revision ==>
          && Enabled(c, Current(w, v.id), a)
          && Apply(c, Current(w, v.id), a) == v.(revision := v.revision + 1)
          && Backed(c, w, Current(w, v.id), a))
  }

  ghost predicate Reached(w: State, id: JobId, k: nat) {
    id in w.jobs && w.jobs[id].hist != [] && k <= Current(w, id).attempt
  }

  // What the others leave alone in storage and in the counters.
  ghost predicate StoreQuiet(c: Config, id: JobId, w: State, x: State) {
    c.solo ==>
      && (forall key: Work | key.job == id ::
            Count(x.calls, key) == Count(w.calls, key) && Count(x.slept, key) == Count(w.slept, key))
      && (IsLive(x, id) ==>
            forall key | key in w.objects && key.job == id :: key in x.objects && x.objects[key] == w.objects[key])
  }

  // With one live worker per job, the others only cancel or retry.
  ghost predicate OnlyApi(c: Config, id: JobId, w: State, x: State) {
    c.solo && id in w.jobs && id in x.jobs ==>
      forall i | |w.jobs[id].hist| <= i < |x.jobs[id].hist| :: ByApi(x.jobs[id].hist[i].act)
  }

  ghost predicate Others(c: Config, id: JobId, w: State, x: State) {
    Evolves(w, x) && OnlyApi(c, id, w, x) && StoreQuiet(c, id, w, x)
  }

  // Nobody touched the job at all.
  ghost predicate Untouched(id: JobId, w: State, x: State) {
    && (id in w.jobs ==> id in x.jobs && x.jobs[id] == w.jobs[id])
    && (forall key | key in w.objects && key.job == id :: key in x.objects && x.objects[key] == w.objects[key])
    && (forall u | u in w.uploads && w.uploads[u].row.Live? :: u in x.uploads && x.uploads[u].row.Live?)
  }

  lemma SeenStable(c: Config, w: State, x: State, v: JobData)
    requires Evolves(w, x) && Seen(w, v)
    ensures Seen(x, v)
  {
    assert RecEvolves(w.jobs[v.id], x.jobs[v.id]);
  }

  lemma CurrentIsSeen(c: Config, w: State, v: JobData)
    requires JobsOk(c, w) && ExactlyCurrent(w, v)
    ensures Seen(w, v) && Reached(w, v.id, v.attempt)
  {
    HasHistory(c, w, v.id);
  }

  // Attempts only grow, so a version seen at attempt k means the job has reached k.
  lemma SeenReached(c: Config, w: State, v: JobData)
    requires JobsOk(c, w) && Seen(w, v)
    ensures Reached(w, v.id, v.attempt)
  {
    HasHistory(c, w, v.id);
    var h := w.jobs[v.id].hist;
    AttemptsGrow(c, v.id, h, v.revision, |h| - 1);
  }

  lemma ReachedStable(c: Config, w: State, x: State, id: JobId, k: nat)
    requires JobsOk(c, x) && Evolves(w, x) && Reached(w, id, k)
    ensures Reached(x, id, k)
  {
    hide Linked, Mirrors;
    HasHistory(c, x, id);
    var h, g := w.jobs[id].hist, x.jobs[id].hist;
    assert RecEvolves(w.jobs[id], x.jobs[id]);
    assert Last(h) == g[|h| - 1].job;
    AttemptsGrow(c, id, g, |h| - 1, |g| - 1);
  }

  // A copy whose row says the attempt is over settles the message for that attempt.
  lemma SeenTerminalSettles(c: Config, w: State, v: JobData, m: Message)
    requires JobsOk(c, w) && Seen(w, v) && m.job == v.id
    requires m.attempt < v.attempt || (m.attempt == v.attempt && Terminal(v.state))
    ensures Settled(w, m)
  {
    HasHistory(c, w, v.id);
    var h := w.jobs[v.id].hist;
    AttemptsGrow(c, v.id, h, v.revision, |h| - 1);
    if Terminal(v.state) {
      OutcomeIsFinal(c, v.id, h, v.revision, |h| - 1);
    }
  }

  lemma SettledNow(c: Config, w: State, v: JobData, m: Message)
    requires JobsOk(c, w) && ExactlyCurrent(w, v) && m.job == v.id && m.attempt <= v.attempt && Terminal(v.state)
    ensures Settled(w, m)
  {}

  lemma GoneSettles(c: Config, w: State, m: Message)
    requires JobsOk(c, w) && m.job in w.jobs && !IsLive(w, m.job)
    ensures Settled(w, m)
  {
    HasHistory(c, w, m.job);
  }

  // Same revision, same version: nothing has been committed in between.
  lemma SameRevisionSameVersion(c: Config, w: State, x: State, id: JobId)
    requires JobsOk(c, w) && JobsOk(c, x) && Evolves(w, x) && id in w.jobs && IsLive(x, id)
    requires Current(w, id).revision == Current(x, id).revision
    ensures IsLive(w, id) && Current(w, id) == Current(x, id) && x.jobs[id].hist == w.jobs[id].hist
  {
    HasHistory(c, w, id);
    HasHistory(c, x, id);
    assert RecEvolves(w.jobs[id], x.jobs[id]);
  }

  lemma RevisionGrows(c: Config, w: State, x: State, id: JobId)
    requires JobsOk(c, w) && JobsOk(c, x) && Evolves(w, x) && id in w.jobs
    ensures id in x.jobs && Current(w, id).revision <= Current(x, id).revision
  {
    HasHistory(c, w, id);
    HasHistory(c, x, id);
    assert RecEvolves(w.jobs[id], x.jobs[id]);
  }

  lemma BackedStable(c: Config, w: State, x: State, v: JobData, a: Action)
    requires Evolves(w, x) && StoreQuiet(c, v.id, w, x) && IsLive(x, v.id) && v.id in w.jobs
    requires Backed(c, w, v, a)
    ensures Backed(c, x, v, a)
  {
    match a
    case PreparePages =>
      forall n | 1 <= n <= c.pageCount(v.spec.upload) ensures PageImage(v.id, v.attempt, n) in x.objects {
        assert PageImage(v.id, v.attempt, n) in w.objects;
      }
    case SucceedPage(i, k, sha) =>
    case Succeed(k, body, stamp) =>
      forall a | a in body ensures ArtifactKept(c, x.objects, v.id, a) {
        assert ArtifactKept(c, w.objects, v.id, a);
      }
    case _ =>
  }

  lemma CanSaveStable(c: Config, w: State, x: State, v: JobData, a: Action)
    requires JobsOk(c, w) && JobsOk(c, x) && Others(c, v.id, w, x) && CanSave(c, w, v, a)
    ensures CanSave(c, x, v, a)
  {
    hide Enabled, Apply, Backed, RecOk;
    HasHistory(c, w, v.id);
    RevisionGrows(c, w, x, v.id);
    HasHistory(c, x, v.id);
    if IsLive(x, v.id) && Current(x, v.id).revision == v.revision {
      SameRevisionSameVersion(c, w, x, v.id);
      BackedStable(c, w, x, Current(w, v.id), a);
    }
  }

  // From an owned version the API can only move the job to cancel_requested, once.
  lemma {:induction false} Drift(c: Config, id: JobId, h: seq<Entry>, n: nat, j: nat)
    requires Chain(c, id, h) && 0 < n <= j + 1 <= |h| && Owned(h[n - 1].job.state)
    requires forall i | n <= i < |h| :: ByApi(h[i].act)
    ensures SameButCancel(h[j].job, h[n - 1].job)
  {
    if n <= j {
      Drift(c, id, h, n, j - 1);
      assert Linked(c, h, j);
    }
  }

  lemma DriftFrom(c: Config, id: JobId, h: seq<Entry>, g: seq<Entry>, v: JobData)
    requires Chain(c, id, g) && h != [] && h <= g && Owned(v.state) && SameButCancel(Last(h), v)
    requires forall i | |h| <= i < |g| :: ByApi(g[i].act)
    ensures SameButCancel(Last(g), v) && !Terminal(Last(g).state)
  {
    hide Linked;
    assert g[|h| - 1].job == Last(h);
    Drift(c, id, g, |h|, |g| - 1);
  }

  lemma HeldStable(c: Config, w: State, x: State, v: JobData)
    requires JobsOk(c, w) && JobsOk(c, x) && Others(c, v.id, w, x) && Held(c, w, v)
    ensures Held(c, x, v)
  {
    hide Chain, Mirrors, StoreQuiet, RowEvolves, SameButCancel;
    if c.solo {
      HasHistory(c, w, v.id);
      HasHistory(c, x, v.id);
      assert RecEvolves(w.jobs[v.id], x.jobs[v.id]);
      assert RecOk(c, v.id, x.jobs[v.id]);
      DriftFrom(c, v.id, w.jobs[v.id].hist, x.jobs[v.id].hist, v);
    }
  }

  function PagesOfAttempt(h: seq<Entry>, k: nat): seq<PageData> {
    if h == [] then []
    else if Last(h).attempt == k then Last(h).pages
    else PagesOfAttempt(h[..|h| - 1], k)
  }

  function ArtifactsOfAttempt(h: seq<Entry>, k: nat): set<Artifact> {
    if h == [] then {}
    else if Last(h).attempt == k then Last(h).artifacts
    else ArtifactsOfAttempt(h[..|h| - 1], k)
  }

  // The rows the second and third query return; they are gone once the job is deleted.
  function PageRows(w: State, id: JobId, k: nat): seq<PageData> {
    if id in w.jobs && !w.jobs[id].row.Deleted? then PagesOfAttempt(w.jobs[id].hist, k) else []
  }

  function ArtifactRows(w: State, id: JobId, k: nat): set<Artifact> {
    if id in w.jobs && !w.jobs[id].row.Deleted? then ArtifactsOfAttempt(w.jobs[id].hist, k) else {}
  }

  /** Reading a job with three queries at three different moments still yields a copy that is Seen. */
  lemma TornReadIsSeen(c: Config, w: State, x: State, y: State, id: JobId)
    requires JobsOk(c, w) && JobsOk(c, x) && JobsOk(c, y) && IsLive(w, id) && Evolves(w, x) && Evolves(x, y)
    ensures
      var v := Current(w, id);
      Seen(y, v.(pages := PageRows(x, id, v.attempt), artifacts := ArtifactRows(y, id, v.attempt)))
  {
    hide Linked, Mirrors;
    HasHistory(c, w, id);
    HasHistory(c, x, id);
    HasHistory(c, y, id);
    assert RecEvolves(w.jobs[id], x.jobs[id]) && RecEvolves(x.jobs[id], y.jobs[id]);
    var h, g := w.jobs[id].hist, y.jobs[id].hist;
    assert g[|h| - 1].job == Last(h);
    if IsLive(y, id) && |g| == |h| {
      assert x.jobs[id].hist == h && g == h;
    }
  }

  /** With one live worker per job, a copy of a job its worker owns is not torn. */
  lemma OwnedReadIsExact(c: Config, w: State, x: State, y: State, id: JobId)
    requires JobsOk(c, w) && JobsOk(c, x) && JobsOk(c, y) && IsLive(w, id) && c.solo
    requires Others(c, id, w, x) && Others(c, id, x, y) && Owned(Current(w, id).state)
    ensures
      var v := Current(w, id);
      && v == v.(pages := PageRows(x, id, v.attempt), artifacts := ArtifactRows(y, id, v.attempt))
      && Held(c, y, v)
  {
    hide Linked, Mirrors;
    HasHistory(c, w, id);
    HasHistory(c, x, id);
    HasHistory(c, y, id);
    HeldStable(c, w, x, Current(w, id));
    HeldStable(c, x, y, Current(w, id));
  }

  lemma OthersTransitive(c: Config, id: JobId, w: State, x: State, y: State)
    requires Others(c, id, w, x) && Others(c, id, x, y) && id in w.jobs
    ensures Others(c, id, w, y)
  {
    EvolvesTransitive(w, x, y);
    assert RecEvolves(w.jobs[id], x.jobs[id]) && RecEvolves(x.jobs[id], y.jobs[id]);
  }

  lemma OthersReflexive(c: Config, id: JobId, w: State)
    ensures Others(c, id, w, w) && Untouched(id, w, w)
  {}

  lemma {:induction false} PagesOfAttemptNumbered(c: Config, id: JobId, h: seq<Entry>, n: nat, k: nat)
    requires Chain(c, id, h) && n <= |h|
    ensures PagesOfAttempt(h[..n], k) != [] ==>
              exists i :: 0 <= i < n && PagesOfAttempt(h[..n], k) == h[i].job.pages
  {
    if n > 0 {
      assert h[..n][..n - 1] == h[..n - 1];
      PagesOfAttemptNumbered(c, id, h, n - 1, k);
    }
  }

  // Even a torn copy has the pages of some version.
  lemma TornReadIsNumbered(c: Config, id: JobId, x: State, y: State, z: State)
    requires JobsOk(c, x) && JobsOk(c, y) && JobsOk(c, z) && Evolves(x, y) && Evolves(y, z) && id in x.jobs && IsLive(x, id)
    ensures x.jobs[id].hist != [] && Numbered(c, id, LoadedCopy(x, y, z, id))
  {
    hide Linked, Mirrors, Numbered, ArtifactRows;
    HasHistory(c, x, id);
    HasHistory(c, y, id);
    assert RecEvolves(x.jobs[id], y.jobs[id]);
    var h, k := y.jobs[id].hist, Current(x, id).attempt;
    var v := LoadedCopy(x, y, z, id);
    PagesOfAttemptNumbered(c, id, h, |h|, k);
    assert h[..|h|] == h;
    NoPagesNumbered(c, id, v);
    if v.pages != [] {
      var i :| 0 <= i < |h| && PagesOfAttempt(h, k) == h[i].job.pages;
      PagesAreNumbered(c, id, h, i);
      Versions(c, id, h, i);
      SamePagesNumbered(c, id, h[i].job, v);
    }
  }

  lemma NoPagesNumbered(c: Config, id: JobId, v: JobData)
    ensures v.pages == [] ==> Numbered(c, id, v)
  {}

  lemma SamePagesNumbered(c: Config, id: JobId, u: JobData, v: JobData)
    requires Numbered(c, id, u) && v.pages == u.pages && v.spec == u.spec
    ensures Numbered(c, id, v)
  {}

  // The copy put together from a row read at x, pages read at y and artifacts read at z.
  function LoadedCopy(x: State, y: State, z: State, id: JobId): JobData
    requires id in x.jobs && x.jobs[id].hist != []
  {
    var row := Current(x, id);
    row.(pages := PageRows(y, id, row.attempt), artifacts := ArtifactRows(z, id, row.attempt))
  }

  lemma LoadedIsHeld(c: Config, id: JobId, w: State, x: State, y: State, z: State, v: JobData)
    requires JobsOk(c, w) && JobsOk(c, x) && JobsOk(c, y) && JobsOk(c, z)
    requires Others(c, id, w, x) && Others(c, id, x, y) && Others(c, id, y, z)
    requires c.solo && v.id == id && Held(c, w, v)
    ensures IsLive(x, id) && x.jobs[id].hist != [] && SameButCancel(LoadedCopy(x, y, z, id), v)
  {
    hide RecOk, Others, PageRows, ArtifactRows;
    HeldStable(c, w, x, v);
    OwnedReadIsExact(c, x, y, z, id);
  }

  lemma LoadedIsSeen(c: Config, id: JobId, w: State, x: State, y: State, z: State)
    requires JobsOk(c, w) && JobsOk(c, x) && JobsOk(c, y) && JobsOk(c, z)
    requires Others(c, id, w, x) && Others(c, id, x, y) && Others(c, id, y, z) && id in w.jobs && IsLive(x, id)
    ensures x.jobs[id].hist != []
    ensures
      var v := LoadedCopy(x, y, z, id);
      && v.id == id && Seen(z, v) && Current(w, id).revision <= v.revision && Numbered(c, id, v)
      && (Owned(v.state) ==> Held(c, z, v))
  {
    hide RecOk, OnlyApi, StoreQuiet, Seen, Held, PageRows, ArtifactRows, Numbered;
    HasHistory(c, x, id);
    TornReadIsSeen(c, x, y, z, id);
    TornReadIsNumbered(c, id, x, y, z);
    RevisionGrows(c, w, x, id);
    if Owned(Current(x, id).state) {
      if c.solo {
        OwnedReadIsExact(c, x, y, z, id);
      } else {
        NothingHeld(c, z, LoadedCopy(x, y, z, id));
      }
    }
  }

  lemma NothingHeld(c: Config, w: State, v: JobData)
    requires !c.solo
    ensures Held(c, w, v)
  {}

  lemma UntouchedIsExact(c: Config, id: JobId, w: State, x: State, y: State, z: State)
    requires JobsOk(c, w) && IsLive(w, id) && Untouched(id, w, x) && Untouched(id, x, y) && Untouched(id, y, z)
    ensures IsLive(x, id) && x.jobs[id].hist != [] && ExactlyCurrent(z, LoadedCopy(x, y, z, id))
    ensures z.jobs[id] == w.jobs[id] && Untouched(id, w, z)
  {
    HasHistory(c, w, id);
  }
}
