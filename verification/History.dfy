/**
 The committed history of one job: every version is derived from the one before it by one
 action. Enabled says which actions the code can commit (in any interleaving of workers and
 API calls), Apply what they do. The theorems are about every chain of enabled actions.
 */
module History {
  import opened Domain

  /**
   What the rest of the model is relative to.
   solo: at most one live worker per job (messages are keyed by job and a consumer handles
   one record at a time); when false, any number of workers may hold the same job.
   render, pageCount, read and sha stand for the preprocessor, the engine and SHA-256.
   */
  datatype Config = Config(
    solo: bool,
    maxPageRetries: nat,
    render: (UploadId, nat) -> Blob,
    pageCount: UploadId -> nat,
    read: (Blob, nat, string) -> Reading,
    sha: Blob -> Digest)
  {
    // Engine calls a page may use within one attempt of the job.
    function Budget(): nat { maxPageRetries + 1 }

    function ReadingOf(spec: JobSpec, number: nat): Reading {
      read(render(spec.upload, number), number, spec.options)
    }

    // The readings of pages 1..n, in page order.
    function ReadingsOf(spec: JobSpec, n: nat): (r: seq<Reading>)
      ensures |r| == n && forall i | 0 <= i < n :: r[i] == read(render(spec.upload, i + 1), i + 1, spec.options)
    {
      seq(n, i requires 0 <= i < n => ReadingOf(spec, i + 1))
    }
  }

  function JoinMarkdown(rs: seq<Reading>): string {
    if rs == [] then ""
    else if |rs| == 1 then rs[0].markdown
    else JoinMarkdown(rs[..|rs| - 1]) + "\n\n" + rs[|rs| - 1].markdown
  }

  // ---- what an assembled attempt looks like ----

  function DocumentText(c: Config, v: JobData): Blob {
    MarkdownText(JoinMarkdown(c.ReadingsOf(v.spec, |v.pages|)))
  }

  function DocumentStructure(c: Config, v: JobData, k: nat): Blob {
    StructuredJson(v.id, k, c.ReadingsOf(v.spec, |v.pages|))
  }

  function PageArtifacts(c: Config, spec: JobSpec, pages: seq<PageData>): seq<Artifact> {
    if pages == [] then []
    else
      var p := pages[|pages| - 1];
      PageArtifacts(c, spec, pages[..|pages| - 1])
      + [Artifact(PageImageKind, p.inputKey, c.sha(c.render(spec.upload, p.number)), Some(p.number))]
      + match p.visualKey
        case None => []
        case Some(key) =>
          [Artifact(VisualizationKind, key, c.sha(VisualOf(c, spec, p.number)), Some(p.number))]
  }

  function VisualOf(c: Config, spec: JobSpec, number: nat): Blob {
    match c.ReadingOf(spec, number).visual
    case None => Raw([])
    case Some(b) => b
  }

  function MarkdownArtifact(c: Config, v: JobData, k: nat): Artifact {
    Artifact(MarkdownKind, DocumentMarkdown(v.id, k), c.sha(DocumentText(c, v)), None)
  }

  function JsonArtifact(c: Config, v: JobData, k: nat): Artifact {
    Artifact(JsonKind, DocumentJson(v.id, k), c.sha(DocumentStructure(c, v, k)), None)
  }

  function ManifestArtifact(c: Config, v: JobData, k: nat, body: seq<Artifact>, stamp: nat): Artifact {
    Artifact(ManifestKind, Manifest(v.id, k), c.sha(ManifestJson(v.id, k, body, stamp)), None)
  }

  // Everything the manifest lists, in its order.
  function ManifestBody(c: Config, v: JobData, k: nat): seq<Artifact> {
    [MarkdownArtifact(c, v, k), JsonArtifact(c, v, k)] + PageArtifacts(c, v.spec, v.pages)
  }

  function PreparedPages(c: Config, v: JobData): (r: seq<PageData>)
    ensures |r| == c.pageCount(v.spec.upload)
    ensures forall i | 0 <= i < |r| :: r[i] == NewPage(i + 1, PageImage(v.id, v.attempt, i + 1))
  {
    seq(c.pageCount(v.spec.upload), i requires 0 <= i => NewPage(i + 1, PageImage(v.id, v.attempt, i + 1)))
  }

  // ---- actions ----

  datatype Action =
    | Create
    | BeginPreprocessing
    | PreparePages
    | BeginRunning
    | StartPage(page: nat)
    | ScheduleRetry(page: nat, code: int, reason: string)
    | SucceedPage(page: nat, attempt: nat, sha: Digest)
    | FailPage(page: nat, code: int, reason: string)
    | BeginAssembling
    | Succeed(attempt: nat, body: seq<Artifact>, stamp: nat)
    | Fail(code: int, reason: string)
    | Cancel
    | RequestCancel(request: string)
    | Retry(request: string)

  // The actions of the API; all others are a worker's.
  predicate ByApi(a: Action) { a.RequestCancel? || a.Retry? }

  predicate PageOpen(c: Config, v: JobData, i: nat) {
    i < |v.pages| && (c.solo ==> v.pages[i].state != PageSucceeded)
  }

  predicate Enabled(c: Config, v: JobData, a: Action) {
    match a
    case Create => false
    case BeginPreprocessing => v.state in {Queued, Retrying}
    case PreparePages => v.state == Preprocessing && v.pages == [] && 0 < c.pageCount(v.spec.upload)
    case BeginRunning => v.state == Preprocessing && v.pages != []
    case StartPage(i) =>
      && PageOpen(c, v, i) && v.state != CancelRequested && v.pages[i].attempts < c.Budget()
      && (c.solo ==> v.state == Running)
    case ScheduleRetry(i, _, _) =>
      && PageOpen(c, v, i) && v.state != CancelRequested
      && (c.solo ==> v.state == Running)
    case SucceedPage(i, k, sha) =>
      && PageOpen(c, v, i) && v.state != CancelRequested && k <= v.attempt
      && (c.solo ==> v.state == Running && k == v.attempt)
    case FailPage(i, _, _) =>
      && PageOpen(c, v, i)
      && (c.solo ==> v.state in {Running, CancelRequested})
    case BeginAssembling => v.state == Running
    case Succeed(k, body, stamp) =>
      && v.state == Assembling && v.pages != [] && AllSucceeded(v.pages)
      && k <= v.attempt && BodyOk(c, v, k, body)
      && (c.solo ==> k == v.attempt && body == ManifestBody(c, v, k))
    case Fail(_, _) => v.state in {Queued, Preprocessing, Running, Assembling, Retrying}
    case Cancel => v.state == CancelRequested
    case RequestCancel(_) => v.state in {Queued, Preprocessing, Running, Assembling, Retrying}
    case Retry(_) => v.state in {Failed, Cancelled}
  }

  // With any number of workers the list still starts with the two documents and holds
  // nothing but them, page images and visualizations of this job.
  predicate BodyOk(c: Config, v: JobData, k: nat, body: seq<Artifact>) {
    && 2 <= |body| && body[0] == MarkdownArtifact(c, v, k) && body[1] == JsonArtifact(c, v, k)
    && forall j | 2 <= j < |body| ::
         ((body[j].kind == PageImageKind && body[j].key.PageImage?)
          || (body[j].kind == VisualizationKind && body[j].key.Visualization?))
         && body[j].key.job == v.id && body[j].page == Some(body[j].key.number)
  }

  function Apply(c: Config, v: JobData, a: Action): JobData
    requires Enabled(c, v, a)
  {
    var n := v.(revision := v.revision + 1);
    match a
    case BeginPreprocessing => n.(state := Preprocessing)
    case PreparePages => n.(pages := PreparedPages(c, v))
    case BeginRunning => n.(state := Running)
    case StartPage(i) => WithPage(n, i, StartedPage(v.pages[i]))
    case ScheduleRetry(i, code, reason) => WithPage(n, i, NotedPage(v.pages[i], code, reason))
    case SucceedPage(i, k, sha) =>
      var p := v.pages[i];
      WithPage(n, i, SucceededPage(p, PageResult(v.id, k, p.number), sha,
        if c.ReadingOf(v.spec, p.number).visual.Some? then Some(Visualization(v.id, k, p.number)) else None))
    case FailPage(i, code, reason) => WithPage(n, i, FailedPage(v.pages[i], code, reason))
    case BeginAssembling => n.(state := Assembling)
    case Succeed(k, body, stamp) =>
      n.(state := Succeeded, code := 0, reason := "",
         artifacts := SetOf(body + [ManifestArtifact(c, v, k, body, stamp)]))
    case Fail(code, reason) => n.(state := Failed, code := code, reason := reason)
    case Cancel => n.(state := Cancelled)
    case RequestCancel(request) =>
      n.(request := request, state := if v.state in {Queued, Retrying} then Cancelled else CancelRequested)
    case Retry(request) =>
      n.(state := Retrying, attempt := v.attempt + 1, request := request, code := 0, reason := "",
         artifacts := {}, pages := ResetPages(v.pages))
  }

  // ---- chains ----

  datatype Entry = Entry(act: Action, job: JobData)

  predicate Initial(id: JobId, v: JobData) {
    && v.id == id && v.state == Queued && v.attempt == 1 && v.revision == 0 && v.pages == [] && v.artifacts == {}
    && v.code == 0 && v.reason == ""
  }

  predicate Linked(c: Config, h: seq<Entry>, i: nat)
    requires 0 < i < |h|
  {
    Enabled(c, h[i - 1].job, h[i].act) && h[i].job == Apply(c, h[i - 1].job, h[i].act)
  }

  predicate Chain(c: Config, id: JobId, h: seq<Entry>) {
    && h != [] && h[0].act == Create && Initial(id, h[0].job)
    && forall i | 0 < i < |h| :: Linked(c, h, i)
  }

  function Last(h: seq<Entry>): JobData
    requires h != []
  { h[|h| - 1].job }

  lemma ChainExtends(c: Config, id: JobId, h: seq<Entry>, a: Action)
    requires Chain(c, id, h) && Enabled(c, Last(h), a)
    ensures Chain(c, id, h + [Entry(a, Apply(c, Last(h), a))])
  {
    var g := h + [Entry(a, Apply(c, Last(h), a))];
    forall i | 0 < i < |g| ensures Linked(c, g, i) {
      if i < |h| { assert Linked(c, h, i); }
    }
  }

  // The revision of a version is its place in the history, and its identity never changes.
  lemma {:induction false} Versions(c: Config, id: JobId, h: seq<Entry>, i: nat)
    requires Chain(c, id, h) && i < |h|
    ensures h[i].job.revision == i && h[i].job.id == id && h[i].job.spec == h[0].job.spec
    ensures 1 <= h[i].job.attempt
  {
    if i > 0 {
      Versions(c, id, h, i - 1);
      assert Linked(c, h, i);
    }
  }

  lemma {:induction false} AttemptsGrow(c: Config, id: JobId, h: seq<Entry>, i: nat, j: nat)
    requires Chain(c, id, h) && i <= j < |h|
    ensures h[i].job.attempt <= h[j].job.attempt
  {
    if i < j {
      AttemptsGrow(c, id, h, i, j - 1);
      assert Linked(c, h, j);
    }
  }

  // A finished attempt keeps its outcome: only a retry, which starts the next attempt, leaves it.
  lemma {:induction false} OutcomeIsFinal(c: Config, id: JobId, h: seq<Entry>, i: nat, j: nat)
    requires Chain(c, id, h) && i <= j < |h| && Terminal(h[i].job.state)
    ensures h[j].job.attempt == h[i].job.attempt ==> h[j].job.state == h[i].job.state
  {
    if i < j {
      OutcomeIsFinal(c, id, h, i, j - 1);
      AttemptsGrow(c, id, h, i, j - 1);
      assert Linked(c, h, j);
    }
  }

  /** Once a cancellation is committed, the attempt can only end cancelled. */
  lemma {:induction false} CancelDominates(c: Config, id: JobId, h: seq<Entry>, i: nat, j: nat)
    requires Chain(c, id, h) && i <= j < |h|
    requires h[i].job.state in {CancelRequested, Cancelled}
    ensures h[j].job.attempt == h[i].job.attempt ==> h[j].job.state in {CancelRequested, Cancelled}
  {
    if i < j {
      CancelDominates(c, id, h, i, j - 1);
      AttemptsGrow(c, id, h, i, j - 1);
      assert Linked(c, h, j);
    }
  }

  /**
   Work on an attempt starts with preprocessing: an attempt that is being worked on, is succeeded or
   waits for its worker to cancel it was preprocessing before; so a cancel of one that was never started
   is never left waiting.
   */
  lemma {:induction false} StartedBefore(c: Config, id: JobId, h: seq<Entry>, i: nat) returns (j: nat)
    requires Chain(c, id, h) && i < |h|
    requires h[i].job.state in {Preprocessing, Running, Assembling, CancelRequested, JobState.Succeeded}
    ensures j <= i && h[j].job.attempt == h[i].job.attempt && h[j].job.state == Preprocessing
    ensures h[i].job.state != Preprocessing ==> j < i
  {
    j := i;
    if h[i].job.state != Preprocessing {
      assert Linked(c, h, i);
      j := StartedBefore(c, id, h, i - 1);
    }
  }

  /**
   A job carries an error exactly while it is failed with one: only a failure sets it, in the same
   attempt, and a retry takes it away.
   */
  lemma {:induction false} ErrorMeansFailed(c: Config, id: JobId, h: seq<Entry>, i: nat)
    requires Chain(c, id, h) && i < |h|
    ensures h[i].job.state != Failed ==> h[i].job.code == 0 && h[i].job.reason == ""
    ensures h[i].job.state == Failed ==>
              exists j | 0 < j <= i :: h[j].act == Action.Fail(h[i].job.code, h[i].job.reason) && h[j].job.attempt == h[i].job.attempt
  {
    if i > 0 {
      assert Linked(c, h, i);
      ErrorMeansFailed(c, id, h, i - 1);
    }
  }

  // Artifacts are there exactly while the attempt is succeeded.
  lemma {:induction false} ArtifactsMeanSuccess(c: Config, id: JobId, h: seq<Entry>, i: nat)
    requires Chain(c, id, h) && i < |h|
    ensures h[i].job.artifacts != {} ==> h[i].job.state == JobState.Succeeded
  {
    if i > 0 {
      ArtifactsMeanSuccess(c, id, h, i - 1);
      assert Linked(c, h, i);
    }
  }

  // ---- pages along a history ----

  // A page's result and visualization are stored under its own job and number.
  predicate OwnKeys(id: JobId, p: PageData) {
    && (p.resultKey.Some? ==> p.resultKey.value.PageResult? && p.resultKey.value.job == id
                              && p.resultKey.value.number == p.number)
    && (p.visualKey.Some? ==> p.visualKey.value.Visualization? && p.visualKey.value.job == id
                              && p.visualKey.value.number == p.number)
  }

  predicate Numbered(c: Config, id: JobId, v: JobData) {
    v.pages == [] ||
    (|v.pages| == c.pageCount(v.spec.upload) &&
     forall i | 0 <= i < |v.pages| ::
       v.pages[i].number == i + 1 && v.pages[i].inputKey.PageImage?
       && v.pages[i].inputKey.job == id && v.pages[i].inputKey.number == i + 1
       && OwnKeys(id, v.pages[i]))
  }

  lemma {:induction false} PagesAreNumbered(c: Config, id: JobId, h: seq<Entry>, i: nat)
    requires Chain(c, id, h) && i < |h|
    ensures Numbered(c, id, h[i].job)
  {
    if i > 0 {
      PagesAreNumbered(c, id, h, i - 1);
      Versions(c, id, h, i - 1);
      Versions(c, id, h, i);
      assert Linked(c, h, i);
    }
  }

  /** Prepared pages keep their count, their numbers and their input objects in every later version. */
  lemma {:induction false} PagesAreFixed(c: Config, id: JobId, h: seq<Entry>, i: nat, j: nat, p: nat)
    requires Chain(c, id, h) && i <= j < |h| && p < |h[i].job.pages|
    ensures |h[j].job.pages| == |h[i].job.pages|
    ensures h[j].job.pages[p].number == p + 1 && h[j].job.pages[p].inputKey == h[i].job.pages[p].inputKey
  {
    if i < j {
      PagesAreFixed(c, id, h, i, j - 1, p);
      assert Linked(c, h, j);
    } else {
      PagesAreNumbered(c, id, h, i);
    }
  }

  /** No page ever uses more than the retry budget, whoever works on it. */
  lemma {:induction false} BudgetHolds(c: Config, id: JobId, h: seq<Entry>, i: nat, p: nat)
    requires Chain(c, id, h) && i < |h| && p < |h[i].job.pages|
    ensures h[i].job.pages[p].attempts <= c.maxPageRetries + 1
  {
    if i > 0 {
      assert Linked(c, h, i);
      if p < |h[i - 1].job.pages| {
        BudgetHolds(c, id, h, i - 1, p);
      }
    }
  }

  // ---- what becomes of a finished page ----

  // What a finished page stands for: its state, the key and digest of its result, its visualization.
  predicate SameResult(p: PageData, q: PageData) {
    q.state == p.state && q.resultKey == p.resultKey && q.resultSha == p.resultSha && q.visualKey == p.visualKey
  }

  // An action that fails page p, or finishes it with another key or digest than those of r.
  predicate Disturbs(a: Action, id: JobId, p: nat, r: PageData) {
    match a
    case FailPage(i, _, _) => i == p
    case SucceedPage(i, k, sha) =>
      i == p && (r.resultKey != Some(PageResult(id, k, r.number)) || r.resultSha != Some(sha))
    case _ => false
  }

  // The result key of a finished page is there and decides the key of its visualization.
  predicate HasResult(c: Config, v: JobData, q: PageData) {
    q.state == PageSucceeded ==>
      && q.resultKey.Some? && q.resultKey.value.PageResult?
      && q.visualKey == if c.ReadingOf(v.spec, q.number).visual.Some?
                        then Some(Visualization(v.id, q.resultKey.value.attempt, q.number)) else None
  }

  lemma {:induction false} FinishedHasResult(c: Config, id: JobId, h: seq<Entry>, i: nat, p: nat)
    requires Chain(c, id, h) && i < |h| && p < |h[i].job.pages|
    ensures HasResult(c, h[i].job, h[i].job.pages[p])
  {
    if i > 0 {
      assert Linked(c, h, i);
      if p < |h[i - 1].job.pages| { FinishedHasResult(c, id, h, i - 1, p); }
    }
  }

  // One step keeps what a finished page stands for exactly if it does not disturb the page.
  lemma StepKeepsResult(c: Config, id: JobId, h: seq<Entry>, m: nat, p: nat)
    requires Chain(c, id, h) && 0 < m < |h| && p < |h[m - 1].job.pages| && h[m - 1].job.pages[p].state == PageSucceeded
    ensures
      var before, after := h[m - 1].job, h[m].job;
      p < |after.pages|
      && (SameResult(before.pages[p], after.pages[p]) <==> !Disturbs(h[m].act, id, p, before.pages[p]))
  {
    assert Linked(c, h, m);
    FinishedHasResult(c, id, h, m - 1, p);
    PagesAreNumbered(c, id, h, m - 1);
    Versions(c, id, h, m - 1);
  }

  lemma {:induction false} UndisturbedIsKept(c: Config, id: JobId, h: seq<Entry>, i: nat, j: nat, p: nat)
    requires Chain(c, id, h) && i <= j < |h| && p < |h[i].job.pages| && h[i].job.pages[p].state == PageSucceeded
    requires forall m | i < m <= j :: !Disturbs(h[m].act, id, p, h[i].job.pages[p])
    ensures p < |h[j].job.pages| && SameResult(h[i].job.pages[p], h[j].job.pages[p])
  {
    hide Linked, Chain;
    if i < j {
      UndisturbedIsKept(c, id, h, i, j - 1, p);
      PagesAreFixed(c, id, h, i, j - 1, p);
      PagesAreFixed(c, id, h, i, i, p);
      StepKeepsResult(c, id, h, j, p);
    }
  }

  /**
   For any number of workers: a finished page keeps its state, key, digest and visualization in every
   version from i to j exactly if nothing committed in between fails it or finishes it with another key
   or digest.
   */
  lemma FinishedPageKeptIff(c: Config, id: JobId, h: seq<Entry>, i: nat, j: nat, p: nat)
    requires Chain(c, id, h) && i <= j < |h| && p < |h[i].job.pages| && h[i].job.pages[p].state == PageSucceeded
    ensures forall m | i <= m <= j :: p < |h[m].job.pages|
    ensures (forall m | i <= m <= j :: SameResult(h[i].job.pages[p], h[m].job.pages[p]))
            <==> (forall m | i < m <= j :: !Disturbs(h[m].act, id, p, h[i].job.pages[p]))
  {
    hide Linked, Chain, Disturbs, SameResult;
    var r := h[i].job.pages[p];
    forall m | i <= m <= j ensures p < |h[m].job.pages| && h[m].job.pages[p].number == r.number {
      PagesAreFixed(c, id, h, i, m, p);
      PagesAreFixed(c, id, h, i, i, p);
    }
    if forall m | i < m <= j :: !Disturbs(h[m].act, id, p, r) {
      forall m | i <= m <= j ensures SameResult(r, h[m].job.pages[p]) { UndisturbedIsKept(c, id, h, i, m, p); }
    }
    if forall m | i <= m <= j :: SameResult(r, h[m].job.pages[p]) {
      forall m | i < m <= j ensures !Disturbs(h[m].act, id, p, r) {
        assert SameResult(r, h[m - 1].job.pages[p]) && SameResult(r, h[m].job.pages[p]);
        SameResultEverywhere(c, id, h, m, p, r);
      }
    }
  }

  lemma SameResultEverywhere(c: Config, id: JobId, h: seq<Entry>, m: nat, p: nat, r: PageData)
    requires Chain(c, id, h) && 0 < m < |h| && p < |h[m - 1].job.pages| && p < |h[m].job.pages|
    requires r.state == PageSucceeded && SameResult(r, h[m - 1].job.pages[p]) && SameResult(r, h[m].job.pages[p])
    requires h[m - 1].job.pages[p].number == r.number
    ensures !Disturbs(h[m].act, id, p, r)
  {
    hide Linked, Chain;
    StepKeepsResult(c, id, h, m, p);
  }

  // With one live worker nothing acts on a finished page.
  predicate ActsOn(a: Action, p: nat) {
    (a.StartPage? || a.ScheduleRetry? || a.SucceedPage? || a.FailPage?) && a.page == p
  }

  lemma {:induction false} AloneLeavesFinished(c: Config, id: JobId, h: seq<Entry>, i: nat, j: nat, p: nat)
    requires Chain(c, id, h) && c.solo && i <= j < |h|
    requires p < |h[i].job.pages| && h[i].job.pages[p].state == PageSucceeded
    ensures forall m | i < m <= j :: !ActsOn(h[m].act, p)
  {
    if i < j {
      AloneLeavesFinished(c, id, h, i, j - 1, p);
      FinishedPageKeptIff(c, id, h, i, j - 1, p);
      assert Linked(c, h, j);
    }
  }

  /** With one live worker per job a finished page is finished for good, through failures, cancels and retries. */
  lemma {:induction false} PageSuccessIsPermanent(c: Config, id: JobId, h: seq<Entry>, i: nat, j: nat, p: nat)
    requires Chain(c, id, h) && c.solo && i <= j < |h|
    requires p < |h[i].job.pages| && h[i].job.pages[p].state == PageSucceeded
    ensures p < |h[j].job.pages| && h[j].job.pages[p] == h[i].job.pages[p]
  {
    AloneLeavesFinished(c, id, h, i, j, p);
    FinishedPageKeptIff(c, id, h, i, j, p);
    if i < j {
      PageSuccessIsPermanent(c, id, h, i, j - 1, p);
      assert Linked(c, h, j);
    }
  }

  // ---- tries ----

  /** Starting a page uses a try exactly if the page is not finished. */
  lemma StartUsesTryIff(c: Config, v: JobData, i: nat)
    requires Enabled(c, v, StartPage(i))
    ensures i < |Apply(c, v, StartPage(i)).pages|
    ensures Apply(c, v, StartPage(i)).pages[i].attempts > v.pages[i].attempts <==> v.pages[i].state != PageSucceeded
    ensures Apply(c, v, StartPage(i)).pages[i].attempts <= v.pages[i].attempts + 1
  {}

  // How often page p was started in the versions after i up to j.
  function Starts(h: seq<Entry>, i: nat, j: nat, p: nat): nat
    requires i <= j < |h|
  {
    if i == j then 0 else Starts(h, i, j - 1, p) + if h[j].act == StartPage(p) then 1 else 0
  }

  // How often of these the page was not finished.
  function OpenStarts(h: seq<Entry>, i: nat, j: nat, p: nat): nat
    requires i <= j < |h|
  {
    if i == j then 0
    else
      var v := h[j - 1].job;
      OpenStarts(h, i, j - 1, p)
      + if h[j].act == StartPage(p) && p < |v.pages| && v.pages[p].state != PageSucceeded then 1 else 0
  }

  lemma {:induction false} SameAttemptBetween(c: Config, id: JobId, h: seq<Entry>, i: nat, m: nat, j: nat)
    requires Chain(c, id, h) && i <= m <= j < |h| && h[i].job.attempt == h[j].job.attempt
    ensures h[m].job.attempt == h[i].job.attempt
  {
    AttemptsGrow(c, id, h, i, m);
    AttemptsGrow(c, id, h, m, j);
  }

  /** Within one attempt a page uses as many tries as it was started while not finished, by whatever worker. */
  lemma {:induction false} TriesAreOpenStarts(c: Config, id: JobId, h: seq<Entry>, i: nat, j: nat, p: nat)
    requires Chain(c, id, h) && i <= j < |h| && h[i].job.attempt == h[j].job.attempt && p < |h[i].job.pages|
    ensures p < |h[j].job.pages| && h[j].job.pages[p].attempts == h[i].job.pages[p].attempts + OpenStarts(h, i, j, p)
  {
    if i < j {
      SameAttemptBetween(c, id, h, i, j - 1, j);
      TriesAreOpenStarts(c, id, h, i, j - 1, p);
      assert Linked(c, h, j);
    }
  }

  // Starts that use no try are starts of the finished page.
  lemma {:induction false} IdleStarts(h: seq<Entry>, i: nat, j: nat, p: nat)
    requires i <= j < |h| && forall m | i <= m <= j :: p < |h[m].job.pages|
    ensures OpenStarts(h, i, j, p) <= Starts(h, i, j, p)
    ensures OpenStarts(h, i, j, p) == Starts(h, i, j, p) <==>
              forall m | i < m <= j && h[m].act == StartPage(p) :: h[m - 1].job.pages[p].state != PageSucceeded
  {
    if i < j { IdleStarts(h, i, j - 1, p); }
  }

  /**
   Within one attempt the starts of a page exceed the tries they use exactly if some start found the
   page finished; with one live worker none does, so the budget bounds the starts.
   */
  lemma StartsAreTriesIff(c: Config, id: JobId, h: seq<Entry>, i: nat, j: nat, p: nat)
    requires Chain(c, id, h) && i <= j < |h| && h[i].job.attempt == h[j].job.attempt && p < |h[i].job.pages|
    ensures forall m | i <= m <= j :: p < |h[m].job.pages|
    ensures h[i].job.pages[p].attempts + Starts(h, i, j, p) == h[j].job.pages[p].attempts <==>
              forall m | i < m <= j && h[m].act == StartPage(p) :: h[m - 1].job.pages[p].state != PageSucceeded
    ensures c.solo ==> h[i].job.pages[p].attempts + Starts(h, i, j, p) == h[j].job.pages[p].attempts <= c.Budget()
  {
    hide Starts, OpenStarts;
    forall m | i <= m <= j ensures p < |h[m].job.pages| { PagesAreFixed(c, id, h, i, m, p); }
    TriesAreOpenStarts(c, id, h, i, j, p);
    IdleStarts(h, i, j, p);
    BudgetHolds(c, id, h, j, p);
    forall m | i < m <= j && h[m].act == StartPage(p) && c.solo ensures h[m - 1].job.pages[p].state != PageSucceeded {
      assert Linked(c, h, m);
    }
  }

  lemma {:induction false} CompletedPagesMonotone(a: seq<PageData>, b: seq<PageData>)
    requires |a| <= |b|
    requires forall i | 0 <= i < |a| :: a[i].state == PageSucceeded ==> b[i].state == PageSucceeded
    ensures CompletedPages(a) <= CompletedPages(b)
  {
    if b != [] {
      var short := b[..|b| - 1];
      if |a| == |b| {
        CompletedPagesMonotone(a[..|a| - 1], short);
      } else {
        CompletedPagesMonotone(a, short);
      }
    }
  }

  lemma {:induction false} CompletedAtMostAll(a: seq<PageData>)
    ensures CompletedPages(a) <= |a|
  {
    if a != [] { CompletedAtMostAll(a[..|a| - 1]); }
  }

  // Progress as the exact ratio completed/total; zero before there are pages.
  predicate NoFurther(a: seq<PageData>, b: seq<PageData>) {
    a == [] || (b != [] && CompletedPages(a) * |b| <= CompletedPages(b) * |a|)
  }

  /** With one live worker per job, reported progress never goes back. */
  lemma {:induction false} ProgressIsMonotone(c: Config, id: JobId, h: seq<Entry>, i: nat, j: nat)
    requires Chain(c, id, h) && c.solo && i <= j < |h|
    ensures NoFurther(h[i].job.pages, h[j].job.pages)
  {
    var a, b := h[i].job.pages, h[j].job.pages;
    if a != [] {
      PagesAreFixed(c, id, h, i, j, 0);
      forall p | 0 <= p < |a| && a[p].state == PageSucceeded ensures b[p].state == PageSucceeded {
        PageSuccessIsPermanent(c, id, h, i, j, p);
      }
      CompletedPagesMonotone(a, b);
      assert CompletedPages(a) * |b| <= CompletedPages(b) * |a| by {
        MulMonotone(CompletedPages(a), CompletedPages(b), |b|);
      }
    }
  }

  lemma MulMonotone(x: nat, y: nat, n: nat)
    requires x <= y
    ensures x * n <= y * n
  {}
}
