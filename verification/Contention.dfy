/**
 What several workers on one job, or a crash between two writes, can lead to: runs from empty tables
 in which the properties that need one live worker fail. Each is the input at which the exact
 conditions of History and Retention are met.
 */
module Contention {
  import opened Domain
  import opened History
  import opened World
  import opened Commits
  import opened Rely
  import opened Awaits
  import opened Issuing
  import opened Retention
  import opened Interleaving

  // ---- building runs ----

  ghost predicate Reaches(c: Config, states: seq<State>, steps: seq<Step>, w: State) {
    IsRun(c, states, steps) && states[|steps|] == w
  }

  lemma Extend(c: Config, states: seq<State>, steps: seq<Step>, w: State, s: Step)
    requires Reaches(c, states, steps, w) && Can(c, w, s)
    ensures Reaches(c, states + [After(c, w, s)], steps + [s], After(c, w, s))
  {
    hide Can, After;
    var more, all := states + [After(c, w, s)], steps + [s];
    forall i | 0 <= i < |all| ensures Steps(c, more[i], all[i], more[i + 1]) {
      if i < |steps| { assert Steps(c, states[i], steps[i], states[i + 1]); }
    }
  }

  // Job 0 is visible with this history, and these of its objects are stored.
  ghost predicate At(w: State, h: seq<Entry>, keys: set<Key>) {
    IsLive(w, 0) && w.jobs[0].hist == h && h != [] && h[0].job.id == 0 && keys <= w.objects.Keys
  }

  function Grown(c: Config, h: seq<Entry>, a: Action): seq<Entry>
    requires h != [] && Enabled(c, Last(h), a)
  {
    h + [Entry(a, Apply(c, Last(h), a))]
  }

  lemma SaveNext(c: Config, states: seq<State>, steps: seq<Step>, w: State, h: seq<Entry>, keys: set<Key>, a: Action)
    returns (more: seq<State>, all: seq<Step>, x: State)
    requires Reaches(c, states, steps, w) && At(w, h, keys) && !a.Retry? && Enabled(c, Last(h), a) && Backed(c, w, Last(h), a)
    ensures Reaches(c, more, all, x) && At(x, Grown(c, h, a), keys) && x.jobs[0].expires == 100
    ensures more == states + [x] && all == steps + [Step.Save(0, a, 100)]
    ensures x.outboxIds == w.outboxIds && x.tokens == w.tokens && x.objects == w.objects
  {
    hide Enabled, Apply, Backed;
    var s := Step.Save(0, a, 100);
    x := After(c, w, s);
    more, all := states + [x], steps + [s];
    Extend(c, states, steps, w, s);
  }

  lemma PutNext(c: Config, states: seq<State>, steps: seq<Step>, w: State, h: seq<Entry>, keys: set<Key>, key: Key, b: Blob)
    returns (more: seq<State>, all: seq<Step>, x: State)
    requires Reaches(c, states, steps, w) && At(w, h, keys) && !c.solo && Last(h).id == 0
    requires key.job == 0 && ContentOk(c, h[0].job.spec, key, b)
    ensures Reaches(c, more, all, x) && At(x, h, keys + {key}) && x.objects == w.objects[key := b]
    ensures more == states + [x] && all == steps + [PutObject(Last(h), key, b)]
    ensures x.outboxIds == w.outboxIds && x.tokens == w.tokens
  {
    hide ContentOk;
    var s := PutObject(Last(h), key, b);
    x := After(c, w, s);
    more, all := states + [x], steps + [s];
    Extend(c, states, steps, w, s);
  }

  // ---- the setting: one upload of one page, several workers ----

  // The digest of a result is taken to be what the engine returned with it.
  function Shared(): Config {
    Config(false, 3, (u: UploadId, n: nat) => Raw([]), (u: UploadId) => 1,
           (b: Blob, n: nat, options: string) => Reading("text", "", None),
           (b: Blob) => if b.ResultJson? then b.meta else 0)
  }

  const FirstJob := JobData(0, JobSpec(0, 0, "", None), "", Queued, 1, 0, [], {}, 0, "")
  const Image := PageImage(0, 1, 1)
  const ResultKey := PageResult(0, 1, 1)

  function ResultBlob(meta: nat): Blob { ResultJson(1, Reading("text", "", None), meta) }

  // The versions of job 0, by what its page and its state are.
  function Version(revision: nat, state: JobState, page: PageData): JobData {
    FirstJob.(state := state, revision := revision, pages := [page])
  }

  function Fresh(): PageData { NewPage(1, Image) }

  function Tried(n: nat): PageData { Fresh().(state := PageRunning, attempts := n) }

  function Finished(sha: Digest): PageData {
    Tried(2).(state := PageSucceeded, resultKey := Some(ResultKey), resultSha := Some(sha))
  }

  lemma ToCreated() returns (states: seq<State>, steps: seq<Step>, w: State)
    ensures Reaches(Shared(), states, steps, w) && At(w, [Entry(Create, FirstJob)], {})
    ensures w.outboxIds == map[0 := (0, 1)] && w.tokens == {} && |steps| == 2
  {
    var c := Shared();
    var s0, s1 := AddUpload(0, 0, 100), CreateJob(FirstJob, 100, 0);
    var w1 := After(c, Empty(), s0);
    w := After(c, w1, s1);
    assert Reaches(c, [Empty()], [], Empty());
    Extend(c, [Empty()], [], Empty(), s0);
    states, steps := [Empty(), w1, w], [s0, s1];
    Extend(c, [Empty()] + [w1], [] + [s0], w1, s1);
    assert [Empty()] + [w1] + [w] == states && [] + [s0] + [s1] == steps;
  }

  // A worker has prepared the page and is running.
  lemma ToRunning() returns (states: seq<State>, steps: seq<Step>, w: State, h: seq<Entry>)
    ensures Reaches(Shared(), states, steps, w) && At(w, h, {Image})
    ensures Last(h) == Version(3, Running, Fresh())
    ensures w.outboxIds == map[0 := (0, 1)] && w.tokens == {} && |h| == 4
  {
    hide After, Can, IsRun, Reaches;
    var c := Shared();
    states, steps, w := ToCreated();
    h := [Entry(Create, FirstJob)];
    states, steps, w := SaveNext(c, states, steps, w, h, {}, BeginPreprocessing);
    h := Grown(c, h, BeginPreprocessing);
    states, steps, w := PutNext(c, states, steps, w, h, {}, Image, Raw([]));
    assert {} + {Image} == {Image};
    assert PreparedPages(c, Last(h)) == [Fresh()];
    states, steps, w := SaveNext(c, states, steps, w, h, {Image}, PreparePages);
    h := Grown(c, h, PreparePages);
    states, steps, w := SaveNext(c, states, steps, w, h, {Image}, BeginRunning);
    h := Grown(c, h, BeginRunning);
  }

  // Two workers have each started a try on the page, and the first has stored its result.
  lemma ToStored() returns (states: seq<State>, steps: seq<Step>, w: State, h: seq<Entry>)
    ensures Reaches(Shared(), states, steps, w) && At(w, h, {Image, ResultKey})
    ensures Last(h) == Version(5, Running, Tried(2)) && Stores(w, ResultKey, ResultBlob(1))
    ensures w.outboxIds == map[0 := (0, 1)] && w.tokens == {} && |h| == 6
  {
    hide After, Can, IsRun, Reaches;
    var c := Shared();
    states, steps, w, h := ToRunning();
    states, steps, w := SaveNext(c, states, steps, w, h, {Image}, StartPage(0));
    h := Grown(c, h, StartPage(0));
    assert Last(h) == Version(4, Running, Tried(1));
    states, steps, w := SaveNext(c, states, steps, w, h, {Image}, StartPage(0));
    h := Grown(c, h, StartPage(0));
    assert Last(h) == Version(5, Running, Tried(2));
    states, steps, w := PutNext(c, states, steps, w, h, {Image}, ResultKey, ResultBlob(1));
    assert {Image} + {ResultKey} == {Image, ResultKey};
  }

  // The first worker's checkpoint.
  lemma ToFinished() returns (states: seq<State>, steps: seq<Step>, w: State, h: seq<Entry>)
    ensures Reaches(Shared(), states, steps, w) && At(w, h, {Image, ResultKey})
    ensures Last(h) == Version(6, Running, Finished(1)) && |h| == 7
  {
    hide After, Can, IsRun, Reaches;
    var c := Shared();
    states, steps, w, h := ToStored();
    states, steps, w := SaveNext(c, states, steps, w, h, {Image, ResultKey}, SucceedPage(0, 1, 1));
    h := Grown(c, h, SucceedPage(0, 1, 1));
    assert Last(h) == Version(6, Running, Finished(1));
  }

  // ---- two workers on one page ----

  /** The second worker's try fails for good: the page the first has finished is failed, in the same attempt. */
  lemma FinishedPageFailed() returns (states: seq<State>, steps: seq<Step>, i: nat)
    ensures IsRun(Shared(), states, steps) && i + 1 == |steps|
    ensures ShowsJob(states[i], Version(6, Running, Finished(1)))
    ensures ShowsJob(states[i + 1],
              Version(7, Running, Finished(1).(state := PageFailed, code := 30002, reason := "engine_protocol_error")))
  {
    hide After, Can;
    var c := Shared();
    var w, h;
    states, steps, w, h := ToFinished();
    i := |steps|;
    states, steps, w := SaveNext(c, states, steps, w, h, {Image, ResultKey}, FailPage(0, 30002, "engine_protocol_error"));
  }

  ghost predicate ShowsJob(w: State, v: JobData) { IsLive(w, 0) && w.jobs[0].hist != [] && Current(w, 0) == v }

  ghost predicate Stores(w: State, key: Key, b: Blob) { key in w.objects && w.objects[key] == b }

  /** The second worker stores its own result: the finished page gets another digest, in the same attempt. */
  lemma FinishedPageChanged() returns (states: seq<State>, steps: seq<Step>, i: nat)
    ensures IsRun(Shared(), states, steps) && i + 2 == |steps|
    ensures ShowsJob(states[i], Version(6, Running, Finished(1)))
    ensures ShowsJob(states[i + 2], Version(7, Running, Finished(2))) && Stores(states[i + 2], ResultKey, ResultBlob(2))
  {
    hide After, Can;
    var c := Shared();
    var w, h;
    states, steps, w, h := ToFinished();
    i := |steps|;
    states, steps, w := PutNext(c, states, steps, w, h, {Image, ResultKey}, ResultKey, ResultBlob(2));
    assert {Image, ResultKey} + {ResultKey} == {Image, ResultKey};
    states, steps, w := SaveNext(c, states, steps, w, h, {Image, ResultKey}, SucceedPage(0, 1, 2));
  }

  // ---- the retry loop of a worker whose page another has finished ----

  // The page after n rounds that found it finished.
  function Noted(n: nat): PageData {
    if n == 0 then Finished(1) else Finished(1).(code := 30002, reason := "engine_timeout")
  }

  // From a version on, starts of the page and scheduled retries alternate, n times.
  predicate IdleFrom(h: seq<Entry>, start: nat, n: nat) {
    && |h| == start + 2 * n
    && forall m | 0 <= m < n :: h[start + 2 * m].act == StartPage(0) && h[start + 2 * m + 1].act.ScheduleRetry?
  }

  lemma {:induction false} StartsOfPrefix(h: seq<Entry>, g: seq<Entry>, i: nat, j: nat, p: nat)
    requires h <= g && i <= j < |h|
    ensures Starts(g, i, j, p) == Starts(h, i, j, p)
  {
    if i < j { StartsOfPrefix(h, g, i, j - 1, p); }
  }

  // One round: the start finds the page finished, the engine times out, the next try is scheduled.
  lemma IdleRound(states0: seq<State>, steps0: seq<Step>, w0: State, g: seq<Entry>, n: nat)
    returns (states: seq<State>, steps: seq<Step>, w: State, h: seq<Entry>)
    requires Reaches(Shared(), states0, steps0, w0) && At(w0, g, {Image, ResultKey})
    requires Last(g) == Version(6 + 2 * n, Running, Noted(n))
    ensures Reaches(Shared(), states, steps, w) && At(w, h, {Image, ResultKey})
    ensures Last(h) == Version(8 + 2 * n, Running, Noted(n + 1))
    ensures |h| == |g| + 2 && g <= h && h[|g|].act == StartPage(0) && h[|g| + 1].act.ScheduleRetry?
  {
    hide After, Can, IsRun, Reaches;
    var c := Shared();
    states, steps, w := SaveNext(c, states0, steps0, w0, g, {Image, ResultKey}, StartPage(0));
    h := Grown(c, g, StartPage(0));
    assert Last(h) == Version(7 + 2 * n, Running, Noted(n));
    var a := ScheduleRetry(0, 30002, "engine_timeout");
    states, steps, w := SaveNext(c, states, steps, w, h, {Image, ResultKey}, a);
    h := Grown(c, h, a);
    assert Last(h) == Version(8 + 2 * n, Running, Noted(n + 1));
  }

  lemma {:induction false} ToIdle(n: nat) returns (states: seq<State>, steps: seq<Step>, w: State, h: seq<Entry>)
    ensures Reaches(Shared(), states, steps, w) && At(w, h, {Image, ResultKey})
    ensures IdleFrom(h, 7, n) && Starts(h, 6, |h| - 1, 0) == n
    ensures Last(h) == Version(6 + 2 * n, Running, Noted(n)) && h[6].job == Version(6, Running, Finished(1))
  {
    hide Reaches, At;
    if n == 0 {
      states, steps, w, h := ToFinished();
    } else {
      var g;
      states, steps, w, g := ToIdle(n - 1);
      states, steps, w, h := IdleRound(states, steps, w, g, n - 1);
      StartsOfPrefix(g, h, 6, |g| - 1, 0);
      forall m | 0 <= m < n ensures h[7 + 2 * m].act == StartPage(0) && h[7 + 2 * m + 1].act.ScheduleRetry? {
        if m < n - 1 { assert h[7 + 2 * m] == g[7 + 2 * m] && h[7 + 2 * m + 1] == g[7 + 2 * m + 1]; }
      }
      assert Starts(h, 6, |g|, 0) == n;
      assert Starts(h, 6, |g| + 1, 0) == n;
    }
  }

  /**
   No number bounds the rounds of a retry loop whose page another worker has finished: for every n
   there is a run with n starts and n scheduled retries of the finished page in one attempt, and the
   tries of the page are as before.
   */
  lemma IdleRounds(n: nat) returns (states: seq<State>, steps: seq<Step>, h: seq<Entry>)
    ensures IsRun(Shared(), states, steps) && IsLive(states[|steps|], 0) && states[|steps|].jobs[0].hist == h
    ensures IdleFrom(h, 7, n) && Starts(h, 6, |h| - 1, 0) == n
    ensures h[6].job.attempt == Last(h).attempt && |h[6].job.pages| == 1 && h[6].job.pages[0].state == PageSucceeded
    ensures |Last(h).pages| == 1 && Last(h).pages[0].attempts == h[6].job.pages[0].attempts < Shared().Budget()
  {
    var w;
    states, steps, w, h := ToIdle(n);
  }

  // ---- a late failure handler ----

  lemma RetryNext(c: Config, states0: seq<State>, steps0: seq<Step>, w0: State, g: seq<Entry>)
    returns (states: seq<State>, steps: seq<Step>, w: State, h: seq<Entry>)
    requires Reaches(c, states0, steps0, w0) && At(w0, g, {}) && Last(g).state == Cancelled && 1 !in w0.outboxIds
    ensures Reaches(c, states, steps, w) && At(w, h, {}) && h == Grown(c, g, Action.Retry("retry"))
  {
    hide Apply;
    var s := Step.RetryJob(0, "retry", 100, 1);
    w := After(c, w0, s);
    states, steps, h := states0 + [w], steps0 + [s], Grown(c, g, Action.Retry("retry"));
    Extend(c, states0, steps0, w0, s);
  }

  lemma RunKept(c: Config, states: seq<State>, steps: seq<Step>, w: State)
    requires Reaches(c, states, steps, w)
    ensures Inv(c, w)
  {
    RunKeeps(c, states, steps, |steps|);
  }

  /**
   While a worker is busy with attempt 1, the attempt is cancelled, carried out by another worker, and
   retried. The first worker's failure handler, which is at the message of attempt 1, reloads the job
   and fails attempt 2.
   */
  lemma NewerAttemptFailed() returns (states: seq<State>, steps: seq<Step>, i: nat)
    ensures IsRun(Shared(), states, steps) && i + 1 == |steps| && Inv(Shared(), states[i])
    ensures ShowsJob(states[i], FirstJob.(state := Retrying, attempt := 2, revision := 4, request := "retry"))
    ensures steps[i] == Step.Save(0, Action.Fail(30002, "engine_protocol_error"), 100)
    ensures ShowsJob(states[i + 1], FirstJob.(state := Failed, attempt := 2, revision := 5, request := "retry",
                                              code := 30002, reason := "engine_protocol_error"))
  {
    hide After, Can, Inv;
    var c := Shared();
    var w, h;
    states, steps, w, h := ToRetried();
    i := |steps|;
    RunKept(c, states, steps, w);
    states, steps, w := SaveNext(c, states, steps, w, h, {}, Action.Fail(30002, "engine_protocol_error"));
  }

  lemma ToRetried() returns (states: seq<State>, steps: seq<Step>, w: State, h: seq<Entry>)
    ensures Reaches(Shared(), states, steps, w) && At(w, h, {})
    ensures Last(h) == FirstJob.(state := Retrying, attempt := 2, revision := 4, request := "retry")
  {
    hide After, Can, IsRun, Reaches;
    var c := Shared();
    states, steps, w := ToCreated();
    h := [Entry(Create, FirstJob)];
    states, steps, w := SaveNext(c, states, steps, w, h, {}, BeginPreprocessing);
    h := Grown(c, h, BeginPreprocessing);
    states, steps, w := SaveNext(c, states, steps, w, h, {}, RequestCancel("cancel"));
    h := Grown(c, h, RequestCancel("cancel"));
    states, steps, w := SaveNext(c, states, steps, w, h, {}, Action.Cancel);
    h := Grown(c, h, Action.Cancel);
    states, steps, w, h := RetryNext(c, states, steps, w, h);
  }

  // ---- an object no claim is handed ----

  lemma CancelledWithResult() returns (states: seq<State>, steps: seq<Step>, w: State, h: seq<Entry>)
    ensures Reaches(Shared(), states, steps, w) && At(w, h, {Image, ResultKey}) && w.tokens == {} && w.jobs[0].expires == 100
    ensures Last(h) == Version(7, Cancelled, Tried(2)).(request := "cancel") && Stores(w, ResultKey, ResultBlob(1))
  {
    hide After, Can, IsRun, Reaches;
    var c := Shared();
    states, steps, w, h := ToStored();
    states, steps, w := SaveNext(c, states, steps, w, h, {Image, ResultKey}, RequestCancel("cancel"));
    h := Grown(c, h, RequestCancel("cancel"));
    assert Last(h) == Version(6, CancelRequested, Tried(2)).(request := "cancel");
    states, steps, w := SaveNext(c, states, steps, w, h, {Image, ResultKey}, Action.Cancel);
    h := Grown(c, h, Action.Cancel);
  }

  lemma HandedIsImage(h: seq<Entry>)
    requires Chain(Shared(), 0, h) && Last(h) == Version(7, Cancelled, Tried(2)).(request := "cancel")
    ensures HandedKeys(h, 0) == {Image}
  {
    var pages := Last(h).pages;
    assert PagesOfAttempt(h, 1) == pages && ArtifactsOfAttempt(h, 1) == {};
    assert pages == [Tried(2)] && pages[..0] == [];
    assert KeysOfPages(pages) == KeysOfPages([]) + KeysOfPage(Tried(2)) == {Image};
    assert KeysUpTo(h, 0) == {};
    assert KeysUpTo(h, 1) == {Image};
  }

  lemma HandedThere(c: Config, w: State, h: seq<Entry>)
    requires c == Shared() && Inv(c, w) && At(w, h, {}) && Last(h) == Version(7, Cancelled, Tried(2)).(request := "cancel")
    ensures HandedKeys(h, 0) == {Image}
  {
    hide ObjectsOk, KeptOk, CountersOk, ConstraintsOk, OutboxOk, QueueOk, HandedKeys, Linked;
    HasHistory(c, w, 0);
    HandedIsImage(h);
  }

  /**
   A worker stores a page result and crashes before its checkpoint; the job is cancelled, expires, is
   claimed and deleted with every key the claim was handed. The result object is still there, and by
   RunOrphanObjectStays it always will be.
   */
  lemma ResultLeftBehind() returns (states: seq<State>, steps: seq<Step>, i: nat)
    ensures IsRun(Shared(), states, steps) && i + 3 == |steps|
    ensures
      var w, x := states[i], states[i + 3];
      && Inv(Shared(), w) && IsLive(w, 0) && w.jobs[0].hist != []
      && HandedKeys(w.jobs[0].hist, 0) == {Image} && Stores(w, ResultKey, ResultBlob(1))
      && 0 in x.jobs && x.jobs[0].row.Deleted? && Image !in x.objects && Stores(x, ResultKey, ResultBlob(1))
  {
    hide Inv;
    var c := Shared();
    var w, h;
    states, steps, w, h := CancelledWithResult();
    i := |steps|;
    RunKept(c, states, steps, w);
    HandedThere(c, w, h);
    states, steps, w := Retire(c, states, steps, w, h);
  }

  // Claim, deletion of what was handed out, deletion of the row.
  lemma Retire(c: Config, states0: seq<State>, steps0: seq<Step>, w: State, h: seq<Entry>)
    returns (states: seq<State>, steps: seq<Step>, z: State)
    requires Reaches(c, states0, steps0, w) && At(w, h, {Image, ResultKey}) && w.tokens == {} && w.jobs[0].expires == 100
    requires Last(h).state == Cancelled && HandedKeys(h, 0) == {Image} && Stores(w, ResultKey, ResultBlob(1))
    ensures Reaches(c, states, steps, z) && states0 <= states && |steps| == |steps0| + 3
    ensures 0 in z.jobs && z.jobs[0].row.Deleted? && Image !in z.objects && Stores(z, ResultKey, ResultBlob(1))
  {
    hide Reaches, HandedKeys, Without;
    var claim, erase, remove := Step.ClaimJobs({0}, 200, 0, 300), EraseObject(Image), Step.DeleteJob(0);
    var x := ClaimedJobs(w, {0}, 0, 300);
    ClaimsIt(c, w, x, h);
    Extend(c, states0, steps0, w, claim);
    var y := Erased(x, Image);
    Extend(c, states0 + [x], steps0 + [claim], x, erase);
    z := CompletedJob(y, 0);
    Extend(c, states0 + [x] + [y], steps0 + [claim] + [erase], y, remove);
    states, steps := states0 + [x] + [y] + [z], steps0 + [claim] + [erase] + [remove];
  }

  lemma ClaimsIt(c: Config, w: State, x: State, h: seq<Entry>)
    requires At(w, h, {}) && w.tokens == {} && w.jobs[0].expires == 100 && Last(h).state == Cancelled
    requires x == ClaimedJobs(w, {0}, 0, 300)
    ensures Can(c, w, Step.ClaimJobs({0}, 200, 0, 300))
    ensures x.objects == w.objects && 0 in x.jobs && x.jobs[0].row == Claimed(0, 300) && x.jobs[0].hist == h
  {}
}
