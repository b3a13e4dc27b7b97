/**
 What holds in every reachable state: consequences of the invariant, over all interleavings,
 crashes, redeliveries and retries.
 */
module Safety {
  import opened Domain
  import opened History
  import opened EventLog
  import opened World
  import opened Pauses
  import opened Commits
  import opened Rely

  // ---- no orphaned work ----

  predicate IsQueued(w: State, id: JobId, k: nat) {
    exists i | w.committed <= i < |w.queue| :: w.queue[i].job == id && w.queue[i].attempt == k
  }

  /** Each attempt of a job that is not deleted has exactly one outbox row. */
  lemma OneRowPerAttempt(c: Config, w: State, id: JobId, k: nat)
    requires Inv(c, w) && id in w.jobs && !w.jobs[id].row.Deleted?
    requires 1 <= k && w.jobs[id].hist != [] && k <= Current(w, id).attempt
    ensures exists i | 0 <= i < |w.outbox| ::
              && w.outbox[i].job == id && w.outbox[i].attempt == k
              && forall j | 0 <= j < |w.outbox| && w.outbox[j].job == id && w.outbox[j].attempt == k :: j == i
  {
    hide JobsOk, ObjectsOk, KeptOk, CountersOk, ConstraintsOk, QueueOk;
    assert HasOutboxRow(w, id, k);
    var i :| 0 <= i < |w.outbox| && w.outbox[i].job == id && w.outbox[i].attempt == k;
    forall j | 0 <= j < |w.outbox| && w.outbox[j].job == id && w.outbox[j].attempt == k ensures j == i {}
  }

  /** A stored job that is not finished has, for its attempt, an unpublished row or a message still to be passed. */
  lemma NoOrphan(c: Config, w: State, id: JobId)
    requires Inv(c, w) && id in w.jobs && w.jobs[id].hist != [] && !w.jobs[id].row.Deleted?
    requires !Terminal(Current(w, id).state)
    ensures
      var k := Current(w, id).attempt;
      || (exists i | 0 <= i < |w.outbox| :: w.outbox[i].job == id && w.outbox[i].attempt == k && !w.outbox[i].published)
      || IsQueued(w, id, k)
  {
    hide ObjectsOk, KeptOk, CountersOk, ConstraintsOk, Mirrors;
    HasHistory(c, w, id);
    Versions(c, id, w.jobs[id].hist, |w.jobs[id].hist| - 1);
    var k := Current(w, id).attempt;
    assert RecOk(c, id, w.jobs[id]);
    assert HasOutboxRow(w, id, k);
    var i :| 0 <= i < |w.outbox| && w.outbox[i].job == id && w.outbox[i].attempt == k;
    if w.outbox[i].published {
      assert OutboxRowOk(w, w.outbox[i]);
      var n :| 0 <= n < |w.queue| && w.queue[n] == Message(id, k, 1);
      assert n < w.committed ==> Settled(w, w.queue[n]);
    }
  }

  // ---- lost updates ----

  /**
   A copy put together from a row, pages and artifacts read at three moments passes a later
   compare-and-swap only if it is exactly the stored version, and nothing was committed since its row
   was read: a torn copy is never saved.
   */
  lemma TornNeverSaved(c: Config, x: State, y: State, z: State, w: State, id: JobId)
    requires Inv(c, x) && Inv(c, y) && Inv(c, z) && Inv(c, w) && id in x.jobs && IsLive(x, id)
    requires Evolves(x, y) && Evolves(y, z) && Evolves(z, w)
    ensures x.jobs[id].hist != [] && id in w.jobs && w.jobs[id].hist != []
    ensures
      var v := LoadedCopy(x, y, z, id);
      IsLive(w, id) && Current(w, id).revision == v.revision ==> v == Current(w, id) && w.jobs[id].hist == x.jobs[id].hist
  {
    hide ObjectsOk, KeptOk, CountersOk, ConstraintsOk, OutboxOk, QueueOk, Linked, Mirrors, Evolves, PageRows, ArtifactRows;
    HasHistory(c, x, id);
    TornReadIsSeen(c, x, y, z, id);
    SeenStable(c, z, w, LoadedCopy(x, y, z, id));
    EvolvesTransitive(x, y, z);
    EvolvesTransitive(x, z, w);
    HasHistory(c, w, id);
    if IsLive(w, id) && Current(w, id).revision == Current(x, id).revision { SameRevisionSameVersion(c, x, w, id); }
  }

  /** Of two copies of the same version only one can ever be saved: the first save moves the revision on. */
  lemma SecondSaveFails(c: Config, w: State, x: State, v: JobData, a: Action)
    requires Inv(c, w) && Inv(c, x) && Evolves(w, x) && Seen(w, v) && v.id in w.jobs
    requires |w.jobs[v.id].hist| < |x.jobs[v.id].hist|
    ensures IsLive(x, v.id) ==> Current(x, v.id).revision != v.revision
  {
    HasHistory(c, x, v.id);
  }

  // ---- cancellation ----

  /** Once a cancellation is stored, every later state has the attempt cancelling or cancelled. */
  lemma CancelIsFinal(c: Config, w: State, x: State, id: JobId)
    requires Inv(c, w) && Inv(c, x) && Evolves(w, x) && id in w.jobs && w.jobs[id].hist != []
    requires Current(w, id).state in {CancelRequested, Cancelled}
    ensures x.jobs[id].hist != []
    ensures Current(x, id).attempt == Current(w, id).attempt ==> Current(x, id).state in {CancelRequested, Cancelled}
    ensures forall i | |w.jobs[id].hist| <= i < |x.jobs[id].hist| && x.jobs[id].hist[i].job.attempt == Current(w, id).attempt ::
              x.jobs[id].hist[i].job.state in {CancelRequested, Cancelled}
  {
    hide ObjectsOk, KeptOk, CountersOk, ConstraintsOk, OutboxOk, QueueOk, Mirrors, Linked;
    HasHistory(c, x, id);
    assert RecEvolves(w.jobs[id], x.jobs[id]);
    var h, g := w.jobs[id].hist, x.jobs[id].hist;
    assert g[|h| - 1].job == Last(h);
    forall i | |h| - 1 <= i < |g| && g[i].job.attempt == Last(h).attempt
      ensures g[i].job.state in {CancelRequested, Cancelled}
    {
      CancelDominates(c, id, g, |h| - 1, i);
    }
  }

  // ---- results ----

  /** A finished page's result object is stored, is the engine's reading of that page, and has the recorded digest. */
  lemma FinishedPageIsStored(c: Config, w: State, id: JobId, i: nat)
    requires Inv(c, w) && IsLive(w, id) && w.jobs[id].hist != [] && i < |Current(w, id).pages|
    requires Current(w, id).pages[i].state == PageSucceeded
    ensures
      var p := Current(w, id).pages[i];
      && p.number == i + 1 && p.resultKey.Some? && p.resultSha.Some?
      && p.resultKey.value in w.objects
      && var b := w.objects[p.resultKey.value];
      && b.ResultJson? && b.number == i + 1 && b.reading == c.ReadingOf(Current(w, id).spec, i + 1)
      && (c.solo ==> c.sha(b) == p.resultSha.value)
  {
    hide CountersOk, ConstraintsOk, OutboxOk, QueueOk, Linked, Mirrors;
    HasHistory(c, w, id);
    PagesAreNumbered(c, id, w.jobs[id].hist, |w.jobs[id].hist| - 1);
    var v := Current(w, id);
    assert Kept(c, w.objects, v);
    assert PageKept(c, w.objects, v.pages[i]);
    var key := v.pages[i].resultKey.value;
    assert ContentOk(c, SpecOf(w, key.job), key, w.objects[key]);
  }

  /** The artifacts of a succeeded version are those of one assembly: its documents and the listed images, manifest last. */
  lemma {:induction false} SucceededArtifacts(c: Config, id: JobId, h: seq<Entry>, i: nat)
    returns (k: nat, body: seq<Artifact>, stamp: nat)
    requires Chain(c, id, h) && i < |h| && h[i].job.state == JobState.Succeeded
    ensures k <= h[i].job.attempt && BodyOk(c, h[i].job, k, body) && h[i].job.pages != []
    ensures c.solo ==> k == h[i].job.attempt && body == ManifestBody(c, h[i].job, k)
    ensures h[i].job.artifacts == SetOf(body + [ManifestArtifact(c, h[i].job, k, body, stamp)])
  {
    assert Linked(c, h, i);
    if h[i].act.Succeed? {
      k, body, stamp := h[i].act.attempt, h[i].act.body, h[i].act.stamp;
      SameBody(c, h[i - 1].job, h[i].job, k);
    } else {
      k, body, stamp := SucceededArtifacts(c, id, h, i - 1);
      StaysSucceeded(c, h[i - 1].job, h[i].act);
    }
  }

  /**
   Every listed page image and visualization carries the page number of its key, and nothing else
   carries one, for any number of workers.
   */
  lemma ListedPageNumbers(c: Config, id: JobId, h: seq<Entry>, i: nat, a: Artifact)
    requires Chain(c, id, h) && i < |h| && h[i].job.state == JobState.Succeeded && a in h[i].job.artifacts
    ensures match a.kind
            case PageImageKind => a.key.PageImage? && a.key.job == id && a.page == Some(a.key.number)
            case VisualizationKind => a.key.Visualization? && a.key.job == id && a.page == Some(a.key.number)
            case MarkdownKind => a.key.DocumentMarkdown? && a.page == None
            case JsonKind => a.key.DocumentJson? && a.page == None
            case ManifestKind => a.key.Manifest? && a.page == None
  {
    var k, body, stamp := SucceededArtifacts(c, id, h, i);
    Versions(c, id, h, i);
    var m := ManifestArtifact(c, h[i].job, k, body, stamp);
    assert a in body + [m];
    if a != m {
      var j :| 0 <= j < |body| && body[j] == a;
    }
  }

  /** The page part of a list holds each page's image, and its visualization if it has one. */
  lemma {:induction false} PagesListed(c: Config, spec: JobSpec, pages: seq<PageData>, p: nat)
    requires p < |pages|
    ensures exists a | a in PageArtifacts(c, spec, pages) :: a.kind == PageImageKind && a.key == pages[p].inputKey
    ensures pages[p].visualKey.Some? ==>
              exists a | a in PageArtifacts(c, spec, pages) :: a.kind == VisualizationKind && a.key == pages[p].visualKey.value
  {
    var short, last := pages[..|pages| - 1], pages[|pages| - 1];
    var image := Artifact(PageImageKind, last.inputKey, c.sha(c.render(spec.upload, last.number)), Some(last.number));
    if p < |short| {
      PagesListed(c, spec, short, p);
      var a :| a in PageArtifacts(c, spec, short) && a.kind == PageImageKind && a.key == pages[p].inputKey;
      assert a in PageArtifacts(c, spec, pages);
      if pages[p].visualKey.Some? {
        var b :| b in PageArtifacts(c, spec, short) && b.kind == VisualizationKind && b.key == pages[p].visualKey.value;
        assert b in PageArtifacts(c, spec, pages);
      }
    } else {
      assert image in PageArtifacts(c, spec, pages);
      if last.visualKey.Some? {
        var visual := Artifact(VisualizationKind, last.visualKey.value, c.sha(VisualOf(c, spec, last.number)), Some(last.number));
        assert visual in PageArtifacts(c, spec, pages);
      }
    }
  }

  function Visuals(pages: seq<PageData>): nat {
    if pages == [] then 0
    else Visuals(pages[..|pages| - 1]) + if pages[|pages| - 1].visualKey.Some? then 1 else 0
  }

  /** And nothing else: its length is that of the images and visualizations, and it is ordered by page. */
  lemma {:induction false} PagesListedInOrder(c: Config, spec: JobSpec, pages: seq<PageData>)
    requires forall i | 0 <= i < |pages| :: pages[i].number == i + 1
    ensures var list := PageArtifacts(c, spec, pages);
      && |list| == |pages| + Visuals(pages)
      && (forall i | 0 <= i < |list| :: list[i].page.Some? && 1 <= list[i].page.value <= |pages|)
      && (forall i, j | 0 <= i < j < |list| :: list[i].page.value < list[j].page.value
            || (list[i].page == list[j].page && list[i].kind == PageImageKind && list[j].kind == VisualizationKind))
  {
    if pages != [] { PagesListedInOrder(c, spec, pages[..|pages| - 1]); }
  }

  lemma SameBody(c: Config, u: JobData, v: JobData, k: nat)
    requires u.id == v.id && u.spec == v.spec && u.pages == v.pages
    ensures ManifestBody(c, u, k) == ManifestBody(c, v, k)
    ensures MarkdownArtifact(c, u, k) == MarkdownArtifact(c, v, k) && JsonArtifact(c, u, k) == JsonArtifact(c, v, k)
  {}

  // With several workers a late page checkpoint may still land on a succeeded job; with one, nothing does.
  lemma StaysSucceeded(c: Config, v: JobData, a: Action)
    requires Enabled(c, v, a) && !a.Succeed? && Apply(c, v, a).state == JobState.Succeeded
    ensures var u := Apply(c, v, a);
      !c.solo && u.id == v.id && u.spec == v.spec && |u.pages| == |v.pages| && u.artifacts == v.artifacts && u.attempt == v.attempt
      && v.state == JobState.Succeeded
  {}

  /**
   The document of a succeeded job: the stored markdown artifact is the join of the engine's
   readings of pages 1..n in page order, whatever crashes, redeliveries and retries led there.
   */
  lemma SucceededDocument(c: Config, w: State, id: JobId) returns (k: nat)
    requires Inv(c, w) && IsLive(w, id) && w.jobs[id].hist != [] && Current(w, id).state == JobState.Succeeded
    ensures
      var v := Current(w, id);
      && (c.solo ==> k == v.attempt)
      && DocumentMarkdown(id, k) in w.objects
      && w.objects[DocumentMarkdown(id, k)] == MarkdownText(JoinMarkdown(c.ReadingsOf(v.spec, |v.pages|)))
      && |v.pages| == c.pageCount(v.spec.upload) && 0 < |v.pages|
      && MarkdownArtifact(c, v, k) in v.artifacts
  {
    hide CountersOk, ConstraintsOk, OutboxOk, QueueOk, Linked, Mirrors, PageKept, ManifestKept, ManifestBody;
    HasHistory(c, w, id);
    var h := w.jobs[id].hist;
    var v := Current(w, id);
    PagesAreNumbered(c, id, h, |h| - 1);
    var body, stamp;
    k, body, stamp := SucceededArtifacts(c, id, h, |h| - 1);
    assert Kept(c, w.objects, v);
    assert body[0] in body + [ManifestArtifact(c, v, k, body, stamp)];
    assert ArtifactKept(c, w.objects, id, MarkdownArtifact(c, v, k));
    assert ContentOk(c, SpecOf(w, id), DocumentMarkdown(id, k), w.objects[DocumentMarkdown(id, k)]);
  }

  /** With one live worker the manifest of a succeeded job lists exactly its other artifacts, each stored with the digest listed. */
  lemma SucceededManifest(c: Config, w: State, id: JobId)
    requires Inv(c, w) && IsLive(w, id) && w.jobs[id].hist != [] && Current(w, id).state == JobState.Succeeded && c.solo
    ensures
      var v := Current(w, id);
      var key := Manifest(id, v.attempt);
      && key in w.objects && w.objects[key].ManifestJson?
      && w.objects[key].artifacts == ManifestBody(c, v, v.attempt)
      && v.artifacts == SetOf(w.objects[key].artifacts + [Artifact(ManifestKind, key, c.sha(w.objects[key]), None)])
      && forall a | a in v.artifacts :: a.key in w.objects && a.sha == c.sha(w.objects[a.key])
  {
    hide ObjectsOk, CountersOk, ConstraintsOk, OutboxOk, QueueOk, Linked, Mirrors, PageKept, ManifestBody;
    HasHistory(c, w, id);
    var v := Current(w, id);
    assert Kept(c, w.objects, v);
    forall a | a in v.artifacts ensures a.key in w.objects && a.sha == c.sha(w.objects[a.key]) {
      assert ArtifactKept(c, w.objects, id, a);
    }
  }

  /** Joining is concatenation with one separator between neighbours, wherever the list is cut. */
  lemma {:induction false} JoinSplits(a: seq<Reading>, b: seq<Reading>)
    requires a != [] && b != []
    ensures JoinMarkdown(a + b) == JoinMarkdown(a) + "\n\n" + JoinMarkdown(b)
    ensures |a| == 1 ==> JoinMarkdown(a) == a[0].markdown
  {
    var last := b[|b| - 1];
    assert (a + b)[..|a + b| - 1] == a + b[..|b| - 1];
    if |b| == 1 {
      assert a + b[..0] == a;
    } else {
      JoinSplits(a, b[..|b| - 1]);
      assert JoinMarkdown(a) + "\n\n" + JoinMarkdown(b[..|b| - 1]) + "\n\n" + last.markdown
          == JoinMarkdown(a) + "\n\n" + (JoinMarkdown(b[..|b| - 1]) + "\n\n" + last.markdown);
    }
  }

  // ---- retry budget ----

  lemma {:induction false} UsedWithinBudget(c: Config, id: JobId, h: seq<Entry>, n: nat, k: nat, page: nat)
    requires Chain(c, id, h) && n <= |h|
    ensures Used(h[..n], k, page) <= c.Budget()
  {
    if n > 0 {
      assert h[..n][..n - 1] == h[..n - 1];
      UsedWithinBudget(c, id, h, n - 1, k, page);
      var v := h[n - 1].job;
      if 1 <= page <= |v.pages| { BudgetHolds(c, id, h, n - 1, page - 1); }
    }
  }

  /**
   With one live worker per job, over all restarts: at most R+1 engine calls for one page of one
   attempt, and at most the sum of R pauses, the first of one unit and each twice the one before.
   */
  lemma CallsAndBackoffBounded(c: Config, w: State, key: Work)
    requires Inv(c, w) && c.solo
    ensures Count(w.calls, key) <= c.maxPageRetries + 1
    ensures Count(w.slept, key) <= Pow2(c.maxPageRetries) - 1
    ensures forall s | FromOne(s) && |s| == c.maxPageRetries :: Count(w.slept, key) <= Sum(s)
  {
    hide ObjectsOk, KeptOk, ConstraintsOk, OutboxOk, QueueOk, Linked, Mirrors, Used;
    if key in w.calls {
      HasHistory(c, w, key.job);
      var h := w.jobs[key.job].hist;
      UsedWithinBudget(c, key.job, h, |h|, key.attempt, key.number);
      assert h[..|h|] == h;
    }
    if key in w.slept {
      HasHistory(c, w, key.job);
      var used := Used(w.jobs[key.job].hist, key.attempt, key.number);
      Pow2Monotone(Min(used, c.maxPageRetries), c.maxPageRetries);
    }
    Pow2Monotone(0, c.maxPageRetries);
    forall s | FromOne(s) && |s| == c.maxPageRetries ensures Count(w.slept, key) <= Sum(s) { PowerIsSum(s); }
  }

  // ---- the event log ----

  /** In every state the log of a job mirrors its row. */
  lemma StoredLogMirrors(c: Config, w: State, id: JobId)
    requires Inv(c, w) && id in w.jobs
    ensures
      var log := w.jobs[id].log;
      && w.jobs[id].hist != [] && log != []
      && (forall i | 0 <= i < |log| :: log[i].sequence == i + 1)
      && log[|log| - 1].state == Current(w, id).state && log[|log| - 1].attempt == Current(w, id).attempt
      && log[|log| - 1].sequence == Current(w, id).revision + 1
      && (Terminal(Current(w, id).state) ==>
            exists j | 0 <= j < |log| ::
              && log[j].kind == KindOfState(Current(w, id).state) && log[j].attempt == Current(w, id).attempt
              && forall m | 0 <= m < |log| && TerminalKind(log[m].kind) && log[m].attempt == log[j].attempt :: m == j)
  {
    hide ObjectsOk, KeptOk, CountersOk, ConstraintsOk, OutboxOk, QueueOk, Linked, Mirrors;
    HasHistory(c, w, id);
    var r := w.jobs[id];
    assert RecOk(c, id, r);
    LogMirrorsRow(c, id, r.log, r.hist);
    if Terminal(Current(w, id).state) {
      OneTerminalEventPerAttempt(c, id, r.log, r.hist, |r.hist| - 1);
    }
  }

  // Progress of two events of one job, as the exact ratio of completed pages.
  predicate ProgressAtMost(a: Event, b: Event) { a.total == 0 || (b.total != 0 && a.completed * b.total <= b.completed * a.total) }

  /** With one live worker per job, progress never goes back along the event log, through failures, cancels and retries. */
  lemma LogProgressMonotone(c: Config, w: State, id: JobId, i: nat, j: nat)
    requires Inv(c, w) && c.solo && id in w.jobs && i <= j < |w.jobs[id].log|
    ensures ProgressAtMost(w.jobs[id].log[i], w.jobs[id].log[j])
  {
    hide ObjectsOk, KeptOk, CountersOk, ConstraintsOk, OutboxOk, QueueOk, Linked;
    HasHistory(c, w, id);
    var r := w.jobs[id];
    assert RecOk(c, id, r);
    ProgressIsMonotone(c, id, r.hist, i, j);
  }
}
