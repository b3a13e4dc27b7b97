/**
 Values of the OCR job domain: what a job row, a page row, an artifact and a stored object are.
 The mutable aggregates of backend/src/contexts/ocr/domain/models.py are the classes of
 Aggregate.dfy; the values here are what those objects look like when they are stored.
 */
module Domain {

  datatype Option<+T> = None | Some(value: T)

  type JobId = nat
  type UploadId = nat
  type Digest = nat

  datatype JobState =
    | Queued
    | Preprocessing
    | Running
    | Assembling
    | CancelRequested
    | Cancelled
    | Retrying
    | Succeeded
    | Failed

  datatype PageState = PagePending | PageRunning | PageSucceeded | PageFailed

  // Object keys. In storage they are strings "jobs/{job}/attempts/{attempt}/..."; the
  // formats are injective, so the components stand for the string.
  datatype Key =
    | PageImage(job: JobId, attempt: nat, number: nat)
    | PageResult(job: JobId, attempt: nat, number: nat)
    | Visualization(job: JobId, attempt: nat, number: nat)
    | DocumentMarkdown(job: JobId, attempt: nat)
    | DocumentJson(job: JobId, attempt: nat)
    | Manifest(job: JobId, attempt: nat)

  datatype ArtifactKind = MarkdownKind | JsonKind | PageImageKind | VisualizationKind | ManifestKind

  datatype Artifact = Artifact(kind: ArtifactKind, key: Key, sha: Digest, page: Option<nat>)

  // What the engine says about one page; the metadata it returns with it is not a
  // function of the page and lives in ResultJson.meta.
  datatype Reading = Reading(markdown: string, structured: string, visual: Option<Blob>)

  // Contents of stored objects, before encoding to bytes.
  datatype Blob =
    | Raw(bytes: seq<nat>)
    | ResultJson(number: nat, reading: Reading, meta: nat)
    | MarkdownText(text: string)
    | StructuredJson(job: JobId, attempt: nat, readings: seq<Reading>)
    | ManifestJson(job: JobId, attempt: nat, artifacts: seq<Artifact>, stamp: nat)

  datatype PageData = PageData(
    number: nat,
    inputKey: Key,
    state: PageState,
    attempts: nat,
    resultKey: Option<Key>,
    resultSha: Option<Digest>,
    visualKey: Option<Key>,
    code: int,
    reason: string)

  // The columns of a job that no operation changes.
  datatype JobSpec = JobSpec(owner: nat, upload: UploadId, options: string, idempotencyKey: Option<string>)

  datatype JobData = JobData(
    id: JobId,
    spec: JobSpec,
    request: string,
    state: JobState,
    attempt: nat,
    revision: nat,
    pages: seq<PageData>,
    artifacts: set<Artifact>,
    code: int,
    reason: string)

  const PROCESSING_FAILED := 30004

  predicate Terminal(s: JobState) { s == Cancelled || s == Succeeded || s == Failed }

  // The states a worker holds a job in between its own commits.
  predicate Active(s: JobState) { s == Preprocessing || s == Running || s == Assembling }

  function CompletedPages(pages: seq<PageData>): nat
  {
    if pages == [] then 0
    else CompletedPages(pages[..|pages| - 1]) + if pages[|pages| - 1].state == PageSucceeded then 1 else 0
  }

  predicate AllSucceeded(pages: seq<PageData>) {
    forall i | 0 <= i < |pages| :: pages[i].state == PageSucceeded
  }

  // ---- page operations as functions on stored pages ----

  function NewPage(number: nat, inputKey: Key): PageData {
    PageData(number, inputKey, PagePending, 0, None, None, None, 0, "")
  }

  function StartedPage(p: PageData): PageData {
    if p.state == PageSucceeded then p
    else p.(state := PageRunning, attempts := p.attempts + 1, code := 0, reason := "")
  }

  function SucceededPage(p: PageData, key: Key, sha: Digest, visual: Option<Key>): PageData {
    p.(state := PageSucceeded, resultKey := Some(key), resultSha := Some(sha), visualKey := visual,
       code := 0, reason := "")
  }

  function FailedPage(p: PageData, code: int, reason: string): PageData {
    p.(state := PageFailed, code := code, reason := reason)
  }

  // The in-memory note a failed engine call leaves on a page that will be tried again.
  function NotedPage(p: PageData, code: int, reason: string): PageData {
    p.(code := code, reason := reason)
  }

  function ResetPage(p: PageData): PageData {
    if p.state == PageSucceeded then p else NewPage(p.number, p.inputKey)
  }

  function ResetPages(pages: seq<PageData>): (r: seq<PageData>)
    ensures |r| == |pages|
    ensures forall i | 0 <= i < |r| :: r[i] == ResetPage(pages[i])
  {
    seq(|pages|, i requires 0 <= i < |pages| => ResetPage(pages[i]))
  }

  function WithPage(v: JobData, i: nat, p: PageData): JobData
    requires i < |v.pages|
  {
    v.(pages := v.pages[i := p])
  }

  // ---- small shared values ----

  function SetOf(list: seq<Artifact>): set<Artifact> {
    set a | a in list
  }

  datatype Result<+T, +E> = Ok(value: T) | Err(error: E)
}
