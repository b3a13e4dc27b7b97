/**
 The worker's run over the pages of a job, and what a run needs to reach success.
 */
module RunFacts {
  import opened Domain
  import opened History
  import opened EventLog
  import opened World
  import opened Commits
  import opened Rely
  import opened Awaits
  import opened WorkerFacts
  import opened P = Platform
  import opened Sorting

  // With one live worker: pages before i are done, the others are as when the loop began.
  ghost predicate Along(c: Config, start: JobData, v: JobData, i: nat) {
    c.solo ==>
      && v.state == Running && v.attempt == start.attempt && i <= |v.pages| == |start.pages|
      && (forall j | 0 <= j < i :: v.pages[j].state == PageSucceeded)
      && (forall j | i <= j < |v.pages| :: v.pages[j] == start.pages[j])
  }

  lemma AlongStart(c: Config, v: JobData)
    requires c.solo ==> v.state == Running
    ensures Along(c, v, v, 0)
  {}

  lemma AlongSkip(c: Config, start: JobData, v: JobData, i: nat)
    requires Along(c, start, v, i) && i < |start.pages| && start.pages[i].state == PageSucceeded
    ensures Along(c, start, v, i + 1)
  {}

  lemma AlongOwned(c: Config, w: State, start: JobData, v: JobData, i: nat)
    requires Along(c, start, v, i) && Sound(c, w, v)
    ensures c.solo ==> Held(c, w, v) && v.state == Running
  {}

  // The reload before page i is worked on.
  lemma AlongReload(c: Config, w: State, start: JobData, v: JobData, u: JobData, i: nat)
    requires Along(c, start, v, i) && i < |start.pages| && start.pages[i].state != PageSucceeded
    requires Sound(c, w, u) && (c.solo ==> SameButCancel(u, v))
    ensures Working(c, w, u, i) && (c.solo ==> i < |u.pages|)
  {
    hide Seen, Numbered;
  }

  lemma AlongHasPage(c: Config, start: JobData, v: JobData, u: JobData, i: nat)
    requires Along(c, start, v, i) && i < |start.pages| && (c.solo ==> SameButCancel(u, v))
    ensures c.solo ==> i < |u.pages|
  {}

  lemma AlongStep(c: Config, w: State, start: JobData, v: JobData, u: JobData, x: JobData, i: nat)
    requires Along(c, start, v, i) && i < |start.pages| && (c.solo ==> SameButCancel(u, v))
    requires PageOutcome(c, w, u, x, i) && x.state !in {Failed, Cancelled}
    ensures Along(c, start, x, i + 1) && x.pages != []
  {
    hide Sound, ExactlyCurrent;
  }

  lemma OutcomeKnows(c: Config, w: State, was: JobData, v: JobData, i: nat)
    requires PageOutcome(c, w, was, v, i)
    ensures ExactlyCurrent(w, v) && Sound(c, w, v) && (v.state in {Failed, Cancelled} ==> Ended(w, v))
  {
    hide Sound;
  }

  // ---- runs in which nothing fails ----

  // Every page from i on is done or has a try left; the pages before are done.
  predicate CanRun(c: Config, v: JobData, i: nat) {
    && v.state == Running && v.pages != []
    && forall j | 0 <= j < |v.pages| :: v.pages[j].state == PageSucceeded || (i <= j && v.pages[j].attempts < c.Budget())
  }

  ghost predicate Going(c: Config, calm: bool, w: State, v: JobData, i: nat) {
    calm && c.solo && ExactlyCurrent(w, v) && CanRun(c, v, i)
  }

  lemma GoingKnows(c: Config, calm: bool, w: State, v: JobData, i: nat)
    requires Going(c, calm, w, v, i)
    ensures calm && c.solo && ExactlyCurrent(w, v) && v.state == Running
    ensures i >= |v.pages| ==> AllSucceeded(v.pages)
  {}

  lemma GoingStays(c: Config, calm: bool, w: State, x: State, v: JobData, i: nat)
    requires Going(c, calm, w, v, i) && ExactlyCurrent(x, v)
    ensures Going(c, calm, x, v, i)
  {}

  lemma GoingSmooth(c: Config, calm: bool, w: State, start: JobData, v: JobData, i: nat)
    requires Going(c, calm, w, v, i) && Along(c, start, v, i) && i < |start.pages| && start.pages[i].state != PageSucceeded
    ensures Smooth(c, calm, w, v, i)
  {
    hide ExactlyCurrent;
  }

  lemma GoingSkip(c: Config, calm: bool, w: State, start: JobData, v: JobData, i: nat)
    requires Going(c, calm, w, v, i) && Along(c, start, v, i) && i < |start.pages| && start.pages[i].state == PageSucceeded
    ensures Going(c, calm, w, v, i + 1)
  {
    hide ExactlyCurrent;
  }

  lemma GoingStep(c: Config, calm: bool, w: State, x: State, u: JobData, v: JobData, i: nat)
    requires Going(c, calm, w, u, i) && PageOutcome(c, x, u, v, i) && v.state == Running && i < |u.pages|
    ensures Going(c, calm, x, v, i + 1)
  {
    hide ExactlyCurrent, Sound;
  }

  // A stored job that a run without failures brings to success.
  predicate CanFinish(c: Config, v: JobData) {
    && v.state in {Queued, Retrying, Preprocessing, Running, Assembling} && 0 < c.pageCount(v.spec.upload)
    && (v.pages == [] ==> v.state in {Queued, Retrying, Preprocessing})
    && (v.state == Assembling ==> AllSucceeded(v.pages))
    && forall j | 0 <= j < |v.pages| :: v.pages[j].state == PageSucceeded || v.pages[j].attempts < c.Budget()
  }

  // The same once it has pages and is being worked on.
  predicate IsReady(c: Config, v: JobData) {
    CanFinish(c, v) && v.pages != [] && v.state in {Preprocessing, Running, Assembling}
  }

  /** A new job and a retried job can always be finished by a run in which nothing fails. */
  lemma {:induction false} FreshAttemptCanFinish(c: Config, id: JobId, h: seq<Entry>, i: nat)
    requires Chain(c, id, h) && i < |h| && 0 < c.pageCount(h[0].job.spec.upload)
    requires h[i].act.Create? || h[i].act.Retry?
    ensures CanFinish(c, h[i].job)
  {
    Versions(c, id, h, i);
    if i > 0 { assert Linked(c, h, i); }
  }

  // ---- preparing the pages ----

  function NumberOf(p: PreparedPage): nat { p.number }

  predicate ByNumber(pages: seq<PreparedPage>) { Ordered(pages, NumberOf) }

  lemma {:induction false} AtLeast(pages: seq<PreparedPage>, i: nat)
    requires i < |pages| && forall j, k | 0 <= j < k < |pages| :: pages[j].number < pages[k].number
    requires forall j | 0 <= j < |pages| :: 1 <= pages[j].number
    ensures i + 1 <= pages[i].number
  {
    if i > 0 { AtLeast(pages, i - 1); }
  }

  lemma {:induction false} AtMost(pages: seq<PreparedPage>, i: nat, n: nat)
    requires i < |pages| && forall j, k | 0 <= j < k < |pages| :: pages[j].number < pages[k].number
    requires forall j | 0 <= j < |pages| :: pages[j].number <= n
    ensures pages[i].number + (|pages| - 1 - i) <= n
    decreases |pages| - i
  {
    if i < |pages| - 1 { AtMost(pages, i + 1, n); }
  }

  // Numbers and keys of a preparation, read off its multiset.
  lemma SortedFacts(c: Config, v: JobData, pages: seq<PreparedPage>, sorted: seq<PreparedPage>)
    requires IsPreparation(c, v, pages) && multiset(sorted) == multiset(pages) && ByNumber(sorted)
    ensures |sorted| == |pages|
    ensures forall i | 0 <= i < |sorted| ::
              1 <= sorted[i].number <= |pages| && sorted[i].key == PageImage(v.id, v.attempt, sorted[i].number)
    ensures forall i, j | 0 <= i < j < |sorted| :: sorted[i].number < sorted[j].number
  {
    assert |multiset(sorted)| == |multiset(pages)|;
    forall i | 0 <= i < |sorted|
      ensures 1 <= sorted[i].number <= |pages| && sorted[i].key == PageImage(v.id, v.attempt, sorted[i].number)
    {
      assert sorted[i] in multiset(pages);
    }
    forall i, j | 0 <= i < j < |sorted| ensures sorted[i].number < sorted[j].number {
      if sorted[i].number == sorted[j].number {
        assert sorted[i] == sorted[j];
        TwiceInMultiset(sorted, i, j);
        OnceInMultiset(pages, sorted[i]);
        assert false;
      }
    }
  }

  lemma TwiceInMultiset(s: seq<PreparedPage>, i: nat, j: nat)
    requires i < j < |s| && s[i] == s[j]
    ensures 2 <= multiset(s)[s[i]]
  {
    assert s == s[..j] + s[j..];
    assert s[i] in s[..j] && s[j] in s[j..];
  }

  lemma {:induction false} OnceInMultiset(s: seq<PreparedPage>, p: PreparedPage)
    requires forall i, j | 0 <= i < j < |s| :: s[i].number != s[j].number
    ensures multiset(s)[p] <= 1
  {
    if s != [] {
      var t := s[..|s| - 1];
      assert s == t + [s[|s| - 1]];
      OnceInMultiset(t, p);
      assert p == s[|s| - 1] ==> p !in t;
    }
  }

  // The new page objects, before they are objects.
  function NewPages(pages: seq<PreparedPage>): (r: seq<PageData>)
    ensures |r| == |pages| && forall i | 0 <= i < |r| :: r[i] == NewPage(pages[i].number, pages[i].key)
  {
    seq(|pages|, i requires 0 <= i < |pages| => NewPage(pages[i].number, pages[i].key))
  }

  /** Whatever order the preprocessor lists its pages in, sorting gives pages 1..n with their images. */
  lemma SortedIsPrepared(c: Config, v: JobData, pages: seq<PreparedPage>, sorted: seq<PreparedPage>)
    requires IsPreparation(c, v, pages) && multiset(sorted) == multiset(pages) && ByNumber(sorted)
    ensures NewPages(sorted) == PreparedPages(c, v)
  {
    hide IsPreparation;
    SortedFacts(c, v, pages, sorted);
    PreparationCount(c, v, pages);
    forall i | 0 <= i < |sorted| ensures sorted[i].number == i + 1 {
      AtLeast(sorted, i);
      AtMost(sorted, i, |pages|);
    }
  }

  lemma PreparationCount(c: Config, v: JobData, pages: seq<PreparedPage>)
    requires IsPreparation(c, v, pages)
    ensures |pages| == c.pageCount(v.spec.upload)
  {}

  // ---- the copy a failed run leaves behind ----

  // Some version of the job; enough to know that a save must fail once the job is gone.
  ghost predicate Known(w: State, v: JobData) {
    v.id in w.jobs && v.revision < |w.jobs[v.id].hist|
  }

  // A job found at an attempt above k that is neither finished nor being cancelled.
  predicate NewerUnfinished(found: Option<JobData>, k: nat) {
    found.Some? && found.value.attempt > k && found.value.state in {Queued, Preprocessing, Running, Assembling, Retrying}
  }

  // The one save by which the handler ends the job it found.
  lemma HandlerFails(before: Deeds, after: Deeds, k: nat, v: JobData, code: int, reason: string, ok: bool)
    requires !Terminal(v.state)
    requires (!ok && after == before)
             || SavedOne(before, after, if v.state == CancelRequested then Action.Cancel else Action.Fail(code, reason), v.attempt)
    ensures FailsAbove(before, after, k) ==> NewerUnfinished(Some(v), k)
    ensures ok && NewerUnfinished(Some(v), k) ==> FailsAbove(before, after, k)
  {
    hide SavedOne, FailsAbove;
    if after == before { NoSaveFails(before, k); }
    var a := if v.state == CancelRequested then Action.Cancel else Action.Fail(code, reason);
    if SavedOne(before, after, a, v.attempt) { OneSaveFails(before, after, a, k, v.attempt); }
  }

  lemma SoundIsKnown(c: Config, w: State, v: JobData)
    requires Sound(c, w, v)
    ensures Known(w, v)
  {}

  lemma KnownStays(w: State, x: State, v: JobData, u: JobData)
    requires Evolves(w, x) && Known(w, v) && u.id == v.id && u.revision == v.revision
    ensures Known(x, u) && (!IsLive(x, u.id) ==> Stale(x, u))
  {
    assert RecEvolves(w.jobs[v.id], x.jobs[v.id]);
  }

  lemma SameKnown(w: State, v: JobData, u: JobData)
    requires Known(w, v) && u.id == v.id && u.revision == v.revision
    ensures Known(w, u)
  {}

  // Whether or not a save went through, the object in hand has the revision of some version.
  lemma SavedIsKnown(c: Config, w: State, x: State, base: JobData, v: JobData, a: Action, ok: bool)
    requires Known(w, base) && Evolves(w, x) && Inv(c, x) && v.id == base.id
    requires if ok then SavedAs(c, x, v, a) else v.revision == base.revision
    ensures Known(x, v)
  {
    hide Inv;
    if ok {
      SavedIsSound(c, x, v, a);
      SoundIsKnown(c, x, v);
    } else {
      KnownStays(w, x, base, v);
    }
  }

  lemma ReadyKnows(c: Config, v: JobData)
    requires IsReady(c, v)
    ensures v.state in {Preprocessing, Running, Assembling} && (v.state == Assembling ==> AllSucceeded(v.pages))
  {}

  lemma ReadyIsGoing(c: Config, calm: bool, w: State, v: JobData, u: JobData)
    requires calm && c.solo && IsReady(c, v) && u.pages == v.pages && u.state == Running && ExactlyCurrent(w, u)
    ensures Going(c, calm, w, u, 0)
  {}

  lemma AlongLength(c: Config, start: JobData, v: JobData, i: nat)
    requires Along(c, start, v, i)
    ensures c.solo ==> v.state == Running && v.attempt == start.attempt && |v.pages| == |start.pages|
  {}

  // ---- runs in which nothing fails, whatever state the job is in ----

  // An exception of such a run is one of the run itself, and leaves the job visible.
  ghost predicate Survives(calm: bool, w: State, v: JobData, x: State, f: Fault) {
    calm && ExactlyCurrent(w, v) ==> f.Failure? && IsLive(x, v.id)
  }

  // ---- messages ----

  // A job loaded after it had reached attempt k is at least at attempt k.
  lemma LoadedReached(c: Config, w: State, x: State, v: JobData, k: nat)
    requires Inv(c, w) && Inv(c, x) && Evolves(w, x) && Reached(w, v.id, k) && Seen(x, v)
    requires Current(w, v.id).revision <= v.revision
    ensures k <= v.attempt
  {
    hide ObjectsOk, KeptOk, CountersOk, ConstraintsOk, OutboxOk, QueueOk, Linked, Mirrors;
    HasHistory(c, w, v.id);
    HasHistory(c, x, v.id);
    assert RecEvolves(w.jobs[v.id], x.jobs[v.id]);
    var h, g := w.jobs[v.id].hist, x.jobs[v.id].hist;
    assert g[|h| - 1].job == Last(h);
    AttemptsGrow(c, v.id, g, |h| - 1, v.revision);
  }

  // A copy loaded for a message that was settled already shows it.
  lemma LoadedSettled(c: Config, w: State, x: State, v: JobData, m: Message)
    requires Inv(c, w) && Inv(c, x) && Evolves(w, x) && Settled(w, m) && IsLive(w, m.job) && v.id == m.job && Seen(x, v)
    requires Current(w, v.id).revision <= v.revision
    ensures v.attempt == m.attempt ==> Terminal(v.state)
  {
    hide ObjectsOk, KeptOk, CountersOk, ConstraintsOk, OutboxOk, QueueOk, Linked, Mirrors;
    HasHistory(c, w, v.id);
    HasHistory(c, x, v.id);
    assert RecEvolves(w.jobs[v.id], x.jobs[v.id]);
    var h, g := w.jobs[v.id].hist, x.jobs[v.id].hist;
    assert g[|h| - 1].job == Last(h);
    AttemptsGrow(c, v.id, g, |h| - 1, v.revision);
    if v.attempt == m.attempt { OutcomeIsFinal(c, v.id, g, |h| - 1, v.revision); }
  }

  lemma IssuedReached(w: State, m: Message)
    requires OnceIssued(w, m.job, m.attempt)
    ensures Reached(w, m.job, m.attempt)
  {}

  // ---- success in a run without failures ----

  // With the upload still there.
  ghost predicate CanSucceed(c: Config, calm: bool, w: State, v: JobData) {
    && calm && c.solo && ExactlyCurrent(w, v) && CanFinish(c, v)
    && v.spec.upload in w.uploads && w.uploads[v.spec.upload].row.Live?
  }

  // The message is for the current attempt of such a job.
  ghost predicate MustSucceed(c: Config, calm: bool, w: State, m: Message) {
    && IsLive(w, m.job) && w.jobs[m.job].hist != [] && Current(w, m.job).id == m.job
    && Current(w, m.job).attempt == m.attempt
    && CanSucceed(c, calm, w, Current(w, m.job))
  }

  lemma CanSucceedKnows(c: Config, calm: bool, w: State, v: JobData)
    requires CanSucceed(c, calm, w, v)
    ensures calm && c.solo && ExactlyCurrent(w, v) && CanFinish(c, v)
    ensures v.spec.upload in w.uploads && w.uploads[v.spec.upload].row.Live?
  {}

  lemma MustSucceedKnows(c: Config, calm: bool, w: State, m: Message)
    requires MustSucceed(c, calm, w, m)
    ensures calm && c.solo && IsLive(w, m.job) && w.jobs[m.job].hist != []
  {}

  // Loading the job in such a run.
  lemma StillMustSucceed(c: Config, calm: bool, w: State, x: State, v: JobData, m: Message)
    requires MustSucceed(c, calm, w, m) && Untouched(m.job, w, x) && v.id == m.job && ExactlyCurrent(x, v)
    ensures CanSucceed(c, calm, x, v) && v.attempt == m.attempt && !Terminal(v.state)
  {}

  lemma CanFinishKnows(c: Config, v: JobData)
    requires CanFinish(c, v)
    ensures 0 < c.pageCount(v.spec.upload) && v.state in {Queued, Retrying, Preprocessing, Running, Assembling}
    ensures v.pages == [] ==> v.state in {Queued, Retrying, Preprocessing}
  {}

  lemma NowReady(c: Config, v: JobData, u: JobData, x: JobData)
    requires CanFinish(c, v) && u.pages == v.pages && x.pages != []
    requires u.state == if v.state in {Queued, Retrying} then Preprocessing else v.state
    requires x.state == u.state && x.spec == v.spec
    requires if u.pages == [] then x.pages == PreparedPages(c, u) else x == u
    ensures IsReady(c, x)
  {}

  lemma FailedIsKnown(c: Config, w: State, x: State, v: JobData, u: JobData, ok: bool)
    requires Known(w, v) && Evolves(w, x) && Inv(c, x) && u.id == v.id
    requires if ok then Ended(x, u) else u.revision == v.revision
    ensures Known(x, u)
  {
    hide Inv;
    if ok {
      CurrentIsSound(c, x, u);
      SoundIsKnown(c, x, u);
    } else {
      KnownStays(w, x, v, u);
    }
  }

  lemma RepairedCalmly(id: JobId, w: State, x: State, y: State)
    requires Untouched(id, w, x) && Untouched(id, x, y)
    ensures Untouched(id, w, y)
  {
    UntouchedTransitive(id, w, x, y);
  }

  lemma NeverIssued(c: Config, calm: bool, w: State, m: Message)
    requires m.job !in w.jobs
    ensures !OnceIssued(w, m.job, m.attempt) && !Settled(w, m) && !IsLive(w, m.job)
    ensures !MustSucceed(c, calm, w, m) && !MustCancel(calm, w, m)
  {}

  // ---- a requested cancel in a run without failures ----

  ghost predicate Cancelling(calm: bool, w: State, v: JobData) {
    calm && ExactlyCurrent(w, v) && v.state == CancelRequested
  }

  // The message is for the current attempt, and a cancel of it is pending.
  ghost predicate MustCancel(calm: bool, w: State, m: Message) {
    calm && IsLive(w, m.job) && w.jobs[m.job].hist != [] && Current(w, m.job).id == m.job
    && Current(w, m.job).attempt == m.attempt && Current(w, m.job).state == CancelRequested
  }

  lemma CancellingKnows(calm: bool, w: State, v: JobData)
    requires Cancelling(calm, w, v)
    ensures calm && ExactlyCurrent(w, v) && v.state == CancelRequested
    ensures IsLive(w, v.id) && w.jobs[v.id].hist != [] && Current(w, v.id) == v
  {}

  lemma CancellingStays(calm: bool, w: State, x: State, v: JobData)
    requires Cancelling(calm, w, v) && ExactlyCurrent(x, v)
    ensures Cancelling(calm, x, v)
  {}

  lemma MustCancelKnows(calm: bool, w: State, m: Message)
    requires MustCancel(calm, w, m)
    ensures calm && IsLive(w, m.job) && w.jobs[m.job].hist != [] && Current(w, m.job).state == CancelRequested
  {}

  // Loading the job in such a run, and a run that failed without writing.
  lemma LoadedToCancel(calm: bool, w: State, x: State, v: JobData, m: Message)
    requires MustCancel(calm, w, m) && v.id == m.job && ExactlyCurrent(x, v) && m.job in x.jobs && x.jobs[m.job] == w.jobs[m.job]
    ensures Cancelling(calm, x, v) && v.attempt == m.attempt && !Terminal(v.state)
  {}

  lemma StillToCancel(calm: bool, w: State, v: JobData, m: Message)
    requires Cancelling(calm, w, v) && v.id == m.job && v.attempt == m.attempt
    ensures MustCancel(calm, w, m)
  {}
}
