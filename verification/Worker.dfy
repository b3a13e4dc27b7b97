/**
 The page-checkpointed worker (backend/src/contexts/ocr/application/worker.py). An exception is
 an Err; the except clauses of process are the branches on it. A local variable holding a job is
 an object loaded by Get or the same object after it was changed and saved.
 */
module Worker {
  import opened Domain
  import opened Aggregate
  import opened History
  import opened EventLog
  import opened World
  import opened Pauses
  import opened Commits
  import opened Rely
  import opened Awaits
  import opened P = Platform
  import opened WorkerFacts
  import opened AssemblyFacts
  import opened RunFacts
  import opened Sorting

  // How one round of the retry loop on a page ends.
  datatype Round =
    | Done(job: Job)
    | Again(error: Option<(int, string)>)
    | GiveUp(error: Option<(int, string)>)
    | Raised(fault: Fault)

  // The exceptions a database operation raises.
  predicate DatabaseFault(f: Fault) { f in {Crash, DatabaseDown, ConcurrentUpdate} }

  class OCRWorker {
    const platform: Platform

    constructor (platform: Platform)
      ensures this.platform == platform
    {
      this.platform := platform;
    }

    // latest.cancel() and the save of it.
    method FinishCancel(latest: Job) returns (r: Result<Job, Fault>)
      requires Inv(platform.c, platform.w) && latest.Valid() && latest.state == CancelRequested
      requires Sound(platform.c, platform.w, latest.Data()) || Stale(platform.w, latest.Data())
      modifies platform`w, platform`own, latest
      ensures Wrote(platform.c, latest.id, old(platform.w), platform.w)
      ensures r.Ok? ==> r.value == latest && latest.Valid() && Ended(platform.w, latest.Data()) && latest.state == Cancelled
      ensures latest.pages == old(latest.pages)
      ensures r.Err? ==> DatabaseFault(r.error)
      ensures platform.calm && ExactlyCurrent(old(platform.w), old(latest.Data())) ==> r.Ok?
      ensures (!r.Ok? && platform.own == old(platform.own))
              || SavedOne(old(platform.own), platform.own, Action.Cancel, old(latest.attempt))
      ensures !IsLive(old(platform.w), latest.id) ==> platform.own == old(platform.own)
      ensures platform.own.pauses == old(platform.own.pauses)
      ensures latest.attempt == old(latest.attempt)
    {
      hide WithSave, SavedOne, Evolves, ExactlyCurrent, Inv, Sound, Stale, CanSave, KindOf, Quiet, Wrote, StoreQuiet, SavedAs, AtRevision, Ended, Seen;
      ghost var base := latest.Data();
      var _ := latest.Cancel();
      if Sound(platform.c, platform.w, base) {
        CancelSave(platform.c, platform.w, base, latest.Data());
      } else {
        StaleChanged(platform.w, base, latest.Data());
        StaleSave(platform.c, platform.w, latest.Data(), Action.Cancel);
      }
      EndKind(latest.Data(), JobCancelled, Action.Cancel);
      CurrentAtRevision(platform.w, base, latest.Data());
      WithSaveIsOne(platform.own, Action.Cancel, latest.Data());
      var saved := platform.SaveWithEvent(latest, JobCancelled, Action.Cancel);
      if saved.Err? {
        return Err(saved.error);
      }
      WroteKnows(platform.c, latest.id, old(platform.w), platform.w);
      SavedIsSound(platform.c, platform.w, latest.Data(), Action.Cancel);
      return Ok(latest);
    }

    method CancelIfRequested(id: JobId) returns (r: Result<Job?, Fault>)
      requires Inv(platform.c, platform.w) && id in platform.w.jobs
      modifies platform`w, platform`own
      ensures Wrote(platform.c, id, old(platform.w), platform.w)
      ensures r.Ok? && r.value == null ==> Quiet(platform.c, id, old(platform.w), platform.w)
      ensures r.Ok? && r.value != null ==>
                fresh(r.value) && fresh(r.value.pages) && r.value.Valid() && r.value.id == id
                && Ended(platform.w, r.value.Data()) && r.value.state == Cancelled
      ensures r.Err? ==> DatabaseFault(r.error)
      ensures platform.calm && IsLive(old(platform.w), id)
              && Current(old(platform.w), id).state != CancelRequested ==>
                r == Ok(null) && platform.w.jobs[id] == old(platform.w).jobs[id]
      ensures platform.calm && IsLive(old(platform.w), id) && Current(old(platform.w), id).state == CancelRequested ==>
                r.Ok? && r.value != null
      ensures platform.own.pauses == old(platform.own.pauses)
    {
      hide Evolves, Inv, Sound, CanSave, KindOf, Wrote, StoreQuiet, SavedAs, AtRevision, Ended, Seen, Quiet, Held, SameButCancel, Numbered;
      ghost var w0 := platform.w;
      HistoryKnown(platform.c, platform.w, id);
      var got := platform.Get(id);
      QuietWrote(platform.c, id, w0, platform.w);
      if got.Err? {
        return Err(got.error);
      }
      var latest := got.value;
      if latest != null && latest.state == CancelRequested {
        LoadedSound(platform.c, platform.w, latest.Data());
        ghost var w1 := platform.w;
        var ended := FinishCancel(latest);
        WroteTransitive(platform.c, id, w0, w1, platform.w);
        if ended.Err? {
          return Err(ended.error);
        }
        return Ok(latest);
      }
      return Ok(null);
    }

    method FailJob(job: Job, reason: string, code: int) returns (r: Result<Job, Fault>)
      requires Inv(platform.c, platform.w) && job.Valid()
      requires Sound(platform.c, platform.w, job.Data()) || Stale(platform.w, job.Data())
      modifies platform`w, platform`own, job
      ensures Wrote(platform.c, job.id, old(platform.w), platform.w)
      ensures r.Ok? ==> r.value == job && job.Valid() && Ended(platform.w, job.Data())
                        && job.state == if old(job.state) == CancelRequested then Cancelled else Failed
      ensures platform.calm && ExactlyCurrent(old(platform.w), old(job.Data())) && !Terminal(old(job.state)) ==> r.Ok?
      ensures r.Err? ==> DatabaseFault(r.error) || (r.error.Failure? && Terminal(old(job.state)) && platform.w == old(platform.w))
      ensures job.pages == old(job.pages) && job.Valid() && (r.Err? ==> job.revision == old(job.revision))
      ensures r.Err? && r.error.Failure? ==> job.Data() == old(job.Data())
      ensures (!r.Ok? && platform.own == old(platform.own))
              || SavedOne(old(platform.own), platform.own, if old(job.state) == CancelRequested then Action.Cancel else Action.Fail(code, reason),
                          old(job.attempt))
      ensures !IsLive(old(platform.w), job.id) ==> platform.own == old(platform.own)
      ensures platform.own.pauses == old(platform.own.pauses)
      ensures r.Ok? && job.state == Failed ==> job.code == code && job.reason == reason
      ensures r.Ok? ==> job.Data().pages == old(job.Data()).pages
      ensures Terminal(old(job.state)) ==> r.Err? && r.error.Failure?
      ensures job.attempt == old(job.attempt)
    {
      hide WithSave, SavedOne, Job.Data, PagesData, Distinct, SetOf, ExactlyCurrent, Evolves, Inv, Sound, Stale, CanSave, KindOf, Quiet, Wrote, StoreQuiet, SavedAs, AtRevision, Ended, Seen;
      ghost var w0 := platform.w;
      ghost var base := job.Data();
      job.Columns();
      if Terminal(job.state) {
        var _ := job.Fail(reason, code);
        job.Columns();
        WroteReflexive(platform.c, job.id, platform.w);
        return Err(Failure(30004, "value_error"));
      }
      var kind, action := EndInMemory(job, reason, code);
      job.Columns();
      WithSaveIsOne(platform.own, action, job.Data());
      CurrentAtRevision(w0, base, job.Data());
      var saved := platform.SaveWithEvent(job, kind, action);
      job.Columns();
      job.ErrorColumns();
      if saved.Err? {
        return Err(saved.error);
      }
      WroteKnows(platform.c, job.id, w0, platform.w);
      SavedIsSound(platform.c, platform.w, job.Data(), action);
      return Ok(job);
    }

    // cancel() or fail() on the object in hand, ready to be saved.
    method EndInMemory(job: Job, reason: string, code: int) returns (kind: EventKind, action: Action)
      requires Inv(platform.c, platform.w) && job.Valid() && !Terminal(job.state)
      requires Sound(platform.c, platform.w, job.Data()) || Stale(platform.w, job.Data())
      modifies job
      ensures job.Valid() && job.pages == old(job.pages) && CanSave(platform.c, platform.w, job.Data(), action)
      ensures action == if old(job.state) == CancelRequested then Action.Cancel else Action.Fail(code, reason)
      ensures kind == KindOf(Entry(action, job.Data()))
      ensures job.Data() == if old(job.state) == CancelRequested then old(job.Data()).(state := Cancelled)
                            else old(job.Data()).(state := Failed, code := code, reason := reason)
    {
      hide Inv, Sound, Stale, CanSave, KindOf, Job.Data, PagesData, Distinct, SetOf;
      ghost var c := platform.c;
      ghost var base := job.Data();
      job.Columns();
      if job.state == CancelRequested {
        var _ := job.Cancel();
        kind, action := JobCancelled, Action.Cancel;
        if Sound(c, platform.w, base) { CancelSave(c, platform.w, base, job.Data()); }
      } else {
        var _ := job.Fail(reason, code);
        kind, action := JobFailed, Action.Fail(code, reason);
        if Sound(c, platform.w, base) { FailSave(c, platform.w, base, job.Data(), code, reason); }
      }
      job.Columns();
      if Stale(platform.w, base) {
        StaleChanged(platform.w, base, job.Data());
        StaleSave(c, platform.w, job.Data(), action);
      }
      EndKind(job.Data(), kind, action);
    }

    // Stores the visualization and the result of page i of latest under attempt k.
    method WriteResult(latest: Job, k: nat, i: nat, result: Recognition) returns (r: Result<(Digest, Option<Key>), Fault>)
      requires Inv(platform.c, platform.w) && latest.Valid() && Sound(platform.c, platform.w, latest.Data())
      requires Working(platform.c, platform.w, latest.Data(), i) && i < |latest.pages| && latest.pages[i].number == i + 1
      requires result.reading == platform.c.ReadingOf(latest.spec, i + 1)
      modifies platform`w, platform`own
      ensures Wrote(platform.c, latest.id, old(platform.w), platform.w)
      ensures Sound(platform.c, platform.w, latest.Data()) && Working(platform.c, platform.w, latest.Data(), i)
      ensures r.Err? ==> (r.error.Crash? || r.error.Failure?) && !platform.calm
      ensures r.Ok? ==> ResultStored(platform.c, platform.w, latest.Data(), i, k, r.value.0)
                        && r.value.1 == VisualKey(platform.c, latest.Data(), i, k)
      ensures platform.calm && latest.id in old(platform.w).jobs ==>
                latest.id in platform.w.jobs && platform.w.jobs[latest.id] == old(platform.w).jobs[latest.id]
      ensures platform.own.pauses == old(platform.own.pauses)
    {
      hide Evolves, Job.Data, Inv, Sound, Working, Wrote, Stored, Seen, Numbered, Held, Writable, ResultStored;
      ghost var c := platform.c;
      ghost var w0 := platform.w;
      ghost var v := latest.Data();
      latest.Columns();
      SoundKnows(c, platform.w, v);
      var page := latest.pages[i];
      var visualKey := None;
      WroteReflexive(c, v.id, w0);
      if result.reading.visual.Some? {
        var key := Visualization(latest.id, k, page.number);
        VisualWritable(c, platform.w, k, v, i, result.reading.visual.value);
        var put := platform.PutBytes(v, key, result.reading.visual.value);
        StoredSound(c, w0, platform.w, key, v);
        StoredWorking(c, w0, platform.w, key, v, i);
        if put.Err? {
          return Err(put.error);
        }
        visualKey := Some(key);
      }
      ghost var w1 := platform.w;
      var meta := result.meta;
      var payload := ResultJson(page.number, result.reading, meta);
      var key := PageResult(latest.id, k, page.number);
      ResultWritable(c, w1, k, v, i, meta);
      var put := platform.PutBytes(v, key, payload);
      StoredSound(c, w1, platform.w, key, v);
      StoredWorking(c, w1, platform.w, key, v, i);
      WroteTransitive(c, v.id, w0, w1, platform.w);
      if put.Err? {
        return Err(put.error);
      }
      SoundKnows(c, w1, v);
      ResultIsStored(c, w1, platform.w, v, i, k, put.value);
      r := Ok((put.value, visualKey));
    }

    // page.succeed and the save that makes it the checkpoint.
    method CheckpointPage(ghost was: JobData, latest: Job, k: nat, i: nat, sha: Digest, visualKey: Option<Key>)
      returns (r: Result<Job, Fault>)
      requires Inv(platform.c, platform.w) && latest.Valid() && i < |latest.pages|
      requires Sound(platform.c, platform.w, latest.Data()) && Working(platform.c, platform.w, latest.Data(), i)
      requires latest.state != CancelRequested && Reached(platform.w, latest.id, k)
      requires ResultStored(platform.c, platform.w, latest.Data(), i, k, sha)
      requires visualKey == VisualKey(platform.c, latest.Data(), i, k)
      requires platform.c.solo ==> latest.Data() == was && k == was.attempt
      modifies platform`w, platform`own, latest, latest.pages
      ensures Wrote(platform.c, latest.id, old(platform.w), platform.w)
      ensures r.Ok? ==> r.value == latest && latest.Valid()
                        && PageOutcome(platform.c, platform.w, was, latest.Data(), i)
                        && latest.state == old(latest.state) && ExactlyCurrent(platform.w, latest.Data())
      ensures r.Err? ==> DatabaseFault(r.error)
      ensures latest.pages == old(latest.pages)
      ensures platform.calm && ExactlyCurrent(old(platform.w), old(latest.Data())) ==> r.Ok?
      ensures platform.own.pauses == old(platform.own.pauses)
    {
      hide Evolves, Inv, Sound, Working, CanSave, KindOf, Wrote, StoreQuiet, SavedAs, AtRevision, ResultStored, PageOutcome, Reached,
           Quiet, VisualKey, ExactlyCurrent, PagesData, Distinct, SetOf;
      ghost var c := platform.c;
      ghost var w0 := platform.w;
      ghost var base := latest.Data();
      WorkingKnows(c, w0, base, i);
      latest.SucceedPage(i, PageResult(latest.id, k, i + 1), sha, visualKey);
      PageDoneReady(c, w0, base, latest.Data(), i, k, sha);
      CurrentAtRevision(w0, base, latest.Data());
      var saved := platform.SaveWithEvent(latest, PageDone, Action.SucceedPage(i, k, sha));
      if saved.Err? {
        return Err(saved.error);
      }
      WroteKnows(c, latest.id, w0, platform.w);
      DoneIsOutcome(c, platform.w, was, base, latest.Data(), i, Action.SucceedPage(i, k, sha));
      SavedKnows(c, platform.w, latest.Data(), Action.SucceedPage(i, k, sha));
      return Ok(latest);
    }

    // The writes for a page result, once the job has been reloaded and is not being cancelled.
    method StoreReloaded(ghost was: JobData, latest: Job, k: nat, i: nat, result: Recognition) returns (o: Round)
      requires Inv(platform.c, platform.w) && latest.Valid() && i < |latest.pages| && latest.pages[i].number == i + 1
      requires Sound(platform.c, platform.w, latest.Data()) && Working(platform.c, platform.w, latest.Data(), i)
      requires latest.state != CancelRequested && Reached(platform.w, latest.id, k)
      requires result.reading == platform.c.ReadingOf(latest.spec, i + 1)
      requires platform.c.solo ==> latest.Data() == was && k == was.attempt
      modifies platform`w, platform`own, latest, latest.pages
      ensures Wrote(platform.c, latest.id, old(platform.w), platform.w)
      ensures o.Done? || o.GiveUp? || o.Raised?
      ensures o.Done? ==> o.job == latest && latest.Valid() && PageOutcome(platform.c, platform.w, was, latest.Data(), i)
      ensures o.GiveUp? ==> latest.Data() == old(latest.Data()) && latest.Valid()
                            && Sound(platform.c, platform.w, latest.Data()) && Working(platform.c, platform.w, latest.Data(), i)
      ensures o.Raised? ==> DatabaseFault(o.fault)
      ensures latest.pages == old(latest.pages)
      ensures platform.calm && ExactlyCurrent(old(platform.w), old(latest.Data())) ==>
                o.Done? && o.job.state == old(latest.state) && ExactlyCurrent(platform.w, latest.Data())
      ensures platform.own.pauses == old(platform.own.pauses)
      ensures platform.calm && ExactlyCurrent(old(platform.w), old(latest.Data())) ==> o.Done?
    {
      hide Evolves, Inv, Sound, Working, Wrote, PageOutcome, Reached, ResultStored, VisualKey, ExactlyCurrent, PagesData, Distinct, SetOf;
      ghost var c := platform.c;
      ghost var w0 := platform.w;
      SoundKnows(c, w0, latest.Data());
      var written := WriteResult(latest, k, i, result);
      ghost var w1 := platform.w;
      WroteKnows(c, latest.id, w0, w1);
      if written.Err? {
        return if written.error.Crash? then Raised(Crash) else GiveUp(Some((written.error.code, written.error.reason)));
      }
      WroteReached(c, w0, w1, latest.id, k);
      StaysCurrent(w0, w1, latest.Data());
      var saved := CheckpointPage(was, latest, k, i, written.value.0, written.value.1);
      WroteTransitive(c, latest.id, w0, w1, platform.w);
      return if saved.Err? then Raised(saved.error) else Done(latest);
    }

    // The reload at the top of a round and after an engine call: the current job, or the copy in
    // hand when the job is gone (nothing else uses that object again, so it is copied here to
    // keep the two names apart); a requested cancellation is carried out.
    method ReloadForPage(job: Job, i: nat) returns (r: Result<(Job, bool), Fault>)
      requires Inv(platform.c, platform.w) && job.Valid() && Sound(platform.c, platform.w, job.Data())
      requires Working(platform.c, platform.w, job.Data(), i)
      modifies platform`w, platform`own
      ensures Wrote(platform.c, job.id, old(platform.w), platform.w)
      ensures r.Err? ==> DatabaseFault(r.error)
      ensures r.Ok? ==> var latest := r.value.0;
                && fresh(latest) && fresh(latest.pages) && latest.Valid() && latest.id == job.id
                && (if r.value.1 then PageOutcome(platform.c, platform.w, job.Data(), latest.Data(), i)
                    else Reloaded(platform.c, platform.w, job.Data(), latest.Data(), i))
      ensures platform.calm && ExactlyCurrent(old(platform.w), job.Data())
              && job.state != CancelRequested ==>
                r.Ok? && !r.value.1 && r.value.0.Data() == job.Data() && ExactlyCurrent(platform.w, r.value.0.Data())
      ensures platform.own.pauses == old(platform.own.pauses)
      ensures platform.calm && ExactlyCurrent(old(platform.w), job.Data()) ==> r.Ok?
      ensures platform.calm && ExactlyCurrent(old(platform.w), job.Data()) && r.Ok? && !r.value.1 ==>
                r.value.0.Data() == job.Data() && ExactlyCurrent(platform.w, r.value.0.Data())
    {
      hide Reached, Stale, Evolves, Job.Data, Inv, Sound, Working, Quiet, Wrote, Ended, Seen, Numbered, Held, PageOutcome, SameButCancel, Reloaded,
           ExactlyCurrent, PagesData, Distinct, SetOf;
      ghost var c := platform.c;
      ghost var w0 := platform.w;
      ghost var was := job.Data();
      job.Columns();
      SoundKnows(c, w0, was);
      WorkingHeld(c, w0, was, i);
      CurrentIsLive(w0, was);
      var got := platform.Get(job.id);
      ghost var w1 := platform.w;
      QuietWrote(c, job.id, w0, w1);
      SoundCarried(c, w0, w1, was);
      WorkingCarried(c, w0, w1, was, i);
      if got.Err? {
        return Err(got.error);
      }
      var latest: Job;
      if got.value != null {
        latest := got.value;
        latest.Columns();
        LoadedSound(c, w1, latest.Data());
      } else {
        latest := CopyOf(job);
      }
      latest.Columns();
      BothCurrent(w0, w1, was, latest.Data());
      if latest.state == CancelRequested {
        var ended := FinishCancel(latest);
        WroteTransitive(c, job.id, w0, w1, platform.w);
        if ended.Err? {
          return Err(ended.error);
        }
        WroteKnows(c, job.id, w1, platform.w);
        latest.Columns();
        EndedIsOutcome(c, platform.w, was, latest.Data(), i);
        return Ok((latest, true));
      }
      IsReloaded(c, w1, was, latest.Data(), i, got.value == null);
      return Ok((latest, false));
    }

    // From a reading to the saved page: the result object first, then the checkpoint that names it.
    method StorePage(job: Job, i: nat, result: Recognition) returns (o: Round)
      requires Inv(platform.c, platform.w) && job.Valid() && Sound(platform.c, platform.w, job.Data())
      requires Working(platform.c, platform.w, job.Data(), i)
      requires result.reading == platform.c.ReadingOf(job.spec, i + 1)
      modifies platform`w, platform`own
      ensures Wrote(platform.c, job.id, old(platform.w), platform.w)
      ensures o.Done? || o.GiveUp? || o.Raised?
      ensures o.Done? ==> fresh(o.job) && fresh(o.job.pages) && o.job.Valid() && o.job.id == job.id
                          && PageOutcome(platform.c, platform.w, job.Data(), o.job.Data(), i)
      ensures o.GiveUp? ==> Sound(platform.c, platform.w, job.Data()) && Working(platform.c, platform.w, job.Data(), i)
      ensures o.Raised? ==> DatabaseFault(o.fault)
      ensures platform.calm && i < |job.pages|
              && ExactlyCurrent(old(platform.w), job.Data()) && job.state != CancelRequested ==>
                o.Done? && o.job.state == job.state && ExactlyCurrent(platform.w, o.job.Data())
      ensures platform.own.pauses == old(platform.own.pauses)
    {
      hide Evolves, Job.Data, Inv, Sound, Working, Wrote, PageOutcome, Reached, Reloaded, ExactlyCurrent, PagesData, Distinct, SetOf;
      ghost var c := platform.c;
      ghost var w0 := platform.w;
      ghost var was := job.Data();
      job.Columns();
      SoundKnows(c, w0, was);
      WorkingKnows(c, w0, was, i);
      var k := job.attempt;
      var again := ReloadForPage(job, i);
      ghost var w1 := platform.w;
      if again.Err? {
        return Raised(again.error);
      }
      var latest := again.value.0;
      if again.value.1 {
        return Done(latest);
      }
      latest.Columns();
      ReloadedKnows(c, w1, was, latest.Data(), i);
      if i >= |latest.pages| {
        return GiveUp(Some((30004, "index")));
      }
      WroteKnows(c, job.id, w0, w1);
      SoundKnows(c, w1, was);
      latest.PageColumns(i);
      ghost var base := latest.Data();
      o := StoreReloaded(was, latest, k, i, result);
      WroteTransitive(c, job.id, w0, w1, platform.w);
      if o.GiveUp? {
        SoundWorking(c, w1, platform.w, was, base, i);
      }
    }

    // The exponential pause before the next try of page i.
    method Backoff(job: Job, i: nat) returns (r: Result<(), Fault>)
      requires Inv(platform.c, platform.w) && job.Valid() && Sound(platform.c, platform.w, job.Data())
      requires Working(platform.c, platform.w, job.Data(), i) && i < |job.pages|
      requires Rested(platform.c, platform.w, job.Data(), i) && job.Data().pages[i].attempts < platform.c.Budget()
      modifies platform`w, platform`own
      ensures Wrote(platform.c, job.id, old(platform.w), platform.w)
      ensures r.Err? ==> r.error == Crash
      ensures Sound(platform.c, platform.w, job.Data()) && Working(platform.c, platform.w, job.Data(), i)
      ensures PausedAfter(old(platform.own.pauses), platform.own.pauses, job.Data().pages[i].attempts)
    {
      hide Evolves, Inv, Sound, Working, Wrote, PagesData, Distinct, SetOf, Rested, Held, Pow2;
      ghost var w0 := platform.w;
      ghost var v := job.Data();
      SoundKnows(platform.c, w0, v);
      WorkingHeld(platform.c, w0, v, i);
      RestedKnows(platform.c, w0, v, i);
      var tries := job.pages[i].attempts;
      var units := UnitsAfter(tries);
      r := platform.Sleep(v, Work(job.id, job.attempt, i + 1), units);
      WroteSound(platform.c, w0, platform.w, v);
      WorkingHeldNow(platform.c, w0, platform.w, v, i);
    }

    // Saving the note of a failed try, and the pause.
    method ScheduleAgain(ghost base: JobData, job: Job, i: nat, code: int, reason: string) returns (r: Result<(), Fault>)
      requires job.Valid() && i < |job.pages| && RoundBase(platform.c, platform.w, base, job.Data(), i)
      requires job.Data() == WithPage(base, i, NotedPage(base.pages[i], code, reason)) && base.state != CancelRequested
      requires Rested(platform.c, platform.w, base, i) && job.Data().pages[i].attempts < platform.c.Budget()
      modifies platform`w, platform`own, job`revision
      ensures Wrote(platform.c, job.id, old(platform.w), platform.w)
      ensures r.Err? ==> DatabaseFault(r.error)
      ensures r.Ok? ==> Sound(platform.c, platform.w, job.Data()) && Working(platform.c, platform.w, job.Data(), i)
      ensures job.Data() == old(job.Data()).(revision := job.revision)
      ensures if r.Ok? then PausedAfter(old(platform.own.pauses), platform.own.pauses, old(job.Data()).pages[i].attempts) else MayPause(old(platform.own.pauses), platform.own.pauses, old(job.Data()).pages[i].attempts)
    {
      hide PausedAfter, Evolves, ExactlyCurrent, Seen, Numbered, Held, Charged, Pow2, Job.Data, Inv, Sound, Working, CanSave, KindOf, Wrote, StoreQuiet, SavedAs, AtRevision, Quiet, PagesData, Distinct, SetOf, Rested,
           RoundBase;
      ghost var c := platform.c;
      ghost var w0 := platform.w;
      job.Columns();
      RoundBaseKnows(c, w0, base, job.Data(), i);
      WorkingKnows(c, w0, base, i);
      RetrySave(c, w0, base, job.Data(), i, code, reason);
      var saved := platform.SaveWithEvent(job, PageRetryScheduled, ScheduleRetry(i, code, reason));
      ghost var w1 := platform.w;
      WroteKnows(c, job.id, w0, w1);
      if saved.Err? {
        return Err(saved.error);
      }
      job.Columns();
      SavedIsSound(c, w1, job.Data(), ScheduleRetry(i, code, reason));
      SavedIsWorking(c, w1, base, job.Data(), i, ScheduleRetry(i, code, reason));
      StillRested(c, w0, w1, base, job.Data(), i);
      SoundKnows(c, w0, base);
      r := Backoff(job, i);
      WroteTransitive(c, job.id, w0, w1, platform.w);
    }

    // What a failed engine call does to the round.
    method EngineFailed(job: Job, i: nat, transient: bool, code: int, reason: string) returns (o: Round, ghost base: JobData)
      requires Inv(platform.c, platform.w) && job.Valid() && Sound(platform.c, platform.w, job.Data())
      requires Working(platform.c, platform.w, job.Data(), i) && i < |job.pages| && job.state != CancelRequested
      requires Rested(platform.c, platform.w, job.Data(), i)
      modifies platform`w, platform`own, job, job.pages
      ensures Wrote(platform.c, job.id, old(platform.w), platform.w)
      ensures o.Again? || o.GiveUp? || o.Raised?
      ensures o.GiveUp? <==> !transient || old(job.Data()).pages[i].attempts >= platform.c.maxPageRetries + 1
      ensures o.Again? ==> transient && o.error == Some((code, reason))
      ensures o.Raised? ==> DatabaseFault(o.fault)
      ensures job.pages == old(job.pages) && job.Valid()
      ensures !o.Raised? ==> RoundBase(platform.c, platform.w, base, job.Data(), i)
      ensures o.Again? ==> base == job.Data() && job.Data().pages[i].attempts == old(job.Data().pages[i].attempts)
                           && job.Data().pages[i].attempts < platform.c.Budget()
                           && SamePagesBut(platform.c, old(job.Data()), job.Data(), i)
      ensures if o.Again? then PausedAfter(old(platform.own.pauses), platform.own.pauses, old(job.Data()).pages[i].attempts) else MayPause(old(platform.own.pauses), platform.own.pauses, old(job.Data()).pages[i].attempts)
      ensures o.GiveUp? ==> platform.own.pauses == old(platform.own.pauses)
      ensures job.Data().pages[i].code == code && job.Data().pages[i].reason == reason
    {
      hide PausedAfter, Evolves, SamePagesBut, Inv, Sound, Working, Wrote, PagesData, Distinct, SetOf, Rested, RoundBase;
      ghost var c := platform.c;
      base := job.Data();
      SoundKnows(c, platform.w, base);
      WroteReflexive(c, job.id, platform.w);
      job.NotePage(i, reason, code);
      IsRoundBase(c, platform.w, base, job.Data(), i);
      if !transient || job.pages[i].attempts >= platform.c.Budget() {
        return GiveUp(Some((code, reason))), base;
      }
      ghost var w0 := platform.w;
      var scheduled := ScheduleAgain(base, job, i, code, reason);
      if scheduled.Err? {
        return Raised(scheduled.error), base;
      }
      WroteKnows(c, job.id, w0, platform.w);
      SamePagesChanged(c, base, job.Data(), i, NotedPage(base.pages[i], code, reason));
      base := job.Data();
      IsRoundBase(c, platform.w, base, job.Data(), i);
      return Again(Some((code, reason))), base;
    }

    // The engine call for the try that was just committed, and what becomes of it.
    method TryEngine(job: Job, i: nat, image: Blob) returns (o: Round, ghost base: JobData)
      requires Inv(platform.c, platform.w) && job.Valid() && Sound(platform.c, platform.w, job.Data())
      requires Working(platform.c, platform.w, job.Data(), i) && i < |job.pages| && job.state != CancelRequested
      requires Charged(platform.c, platform.w, job.Data(), i) && Rested(platform.c, platform.w, job.Data(), i)
      requires platform.c.read(image, i + 1, job.spec.options) == platform.c.ReadingOf(job.spec, i + 1)
      modifies platform`w, platform`outages, platform`own, job, job.pages
      ensures Wrote(platform.c, job.id, old(platform.w), platform.w)
      ensures platform.outages <= old(platform.outages)
      ensures o.Done? ==> fresh(o.job) && fresh(o.job.pages) && o.job.Valid() && o.job.id == job.id
                          && PageOutcome(platform.c, platform.w, old(job.Data()), o.job.Data(), i)
      ensures o.Raised? ==> DatabaseFault(o.fault)
      ensures job.Valid() && job.pages == old(job.pages)
      ensures o.GiveUp? || o.Again? ==> RoundBase(platform.c, platform.w, base, job.Data(), i)
      ensures o.Again? ==> base == job.Data() && job.Data().pages[i].attempts == old(job.Data().pages[i].attempts)
                           && job.Data().pages[i].attempts < platform.c.Budget()
                           && SamePagesBut(platform.c, old(job.Data()), job.Data(), i)
                           && (!platform.c.solo ==> platform.outages < old(platform.outages))
      ensures platform.calm && ExactlyCurrent(old(platform.w), old(job.Data())) ==>
                o.Done? && o.job.state == old(job.state) && ExactlyCurrent(platform.w, o.job.Data())
      ensures if o.Again? then PausedAfter(old(platform.own.pauses), platform.own.pauses, old(job.Data()).pages[i].attempts) else MayPause(old(platform.own.pauses), platform.own.pauses, old(job.Data()).pages[i].attempts)
      ensures o.Done? || o.GiveUp? ==> platform.own.pauses == old(platform.own.pauses)
    {
      hide PausedAfter, Evolves, SamePagesBut, Job.Data, Inv, Sound, Working, Wrote, PagesData, Distinct, SetOf, Rested, Charged, RoundBase, Held, PageOutcome, ExactlyCurrent, Seen,
           Numbered;
      ghost var c := platform.c;
      ghost var w0 := platform.w;
      ghost var v := job.Data();
      job.Columns();
      job.PageColumns(i);
      base := v;
      SoundKnows(c, w0, v);
      WorkingHeld(c, w0, v, i);
      SoundNumber(c, w0, v, i);
      var page := job.pages[i];
      var result := platform.Recognize(v, Work(job.id, job.attempt, i + 1), image, page.number, job.spec.options);
      ghost var w1 := platform.w;
      WroteKnows(c, job.id, w0, w1);
      WroteSound(c, w0, w1, v);
      WorkingHeldNow(c, w0, w1, v, i);
      StaysCurrent(w0, w1, v);
      if result.Ok? {
        o := StorePage(job, i, result.value);
        WroteTransitive(c, job.id, w0, w1, platform.w);
        if o.GiveUp? {
          WroteKnows(c, job.id, w1, platform.w);
          IsRoundBase(c, platform.w, v, v, i);
        }
      } else if result.error.Crash? {
        o := Raised(Crash);
      } else {
        o, base := EngineFailed(job, i, result.error.TransientEngine?, result.error.code, result.error.reason);
        WroteTransitive(c, job.id, w0, w1, platform.w);
      }
    }

    // page.start, its save, and the try it pays for.
    method StartAndTry(job: Job, i: nat, image: Blob) returns (o: Round, ghost base: JobData)
      requires Inv(platform.c, platform.w) && job.Valid() && Sound(platform.c, platform.w, job.Data())
      requires Working(platform.c, platform.w, job.Data(), i) && i < |job.pages| && job.state != CancelRequested
      requires job.Data().pages[i].attempts < platform.c.Budget()
      requires platform.c.read(image, i + 1, job.spec.options) == platform.c.ReadingOf(job.spec, i + 1)
      modifies platform`w, platform`outages, platform`own, job, job.pages
      ensures Wrote(platform.c, job.id, old(platform.w), platform.w)
      ensures platform.outages <= old(platform.outages)
      ensures o.Done? ==> fresh(o.job) && fresh(o.job.pages) && o.job.Valid() && o.job.id == job.id
                          && PageOutcome(platform.c, platform.w, old(job.Data()), o.job.Data(), i)
      ensures o.Raised? ==> DatabaseFault(o.fault)
      ensures job.Valid() && job.pages == old(job.pages)
      ensures o.GiveUp? || o.Again? ==> RoundBase(platform.c, platform.w, base, job.Data(), i)
      ensures o.Again? ==> base == job.Data() && job.Data().pages[i].attempts < platform.c.Budget()
                           && SamePagesBut(platform.c, old(job.Data()), job.Data(), i)
                           && (if platform.c.solo then old(job.Data()).pages[i].attempts < job.Data().pages[i].attempts
                               else platform.outages < old(platform.outages))
      ensures platform.calm && ExactlyCurrent(old(platform.w), old(job.Data())) ==>
                o.Done? && o.job.state == old(job.state) && ExactlyCurrent(platform.w, o.job.Data())
      ensures if o.Again? then PausedAfter(old(platform.own.pauses), platform.own.pauses, StartedPage(old(job.Data()).pages[i]).attempts) && job.Data().pages[i].attempts == StartedPage(old(job.Data()).pages[i]).attempts
              else MayPause(old(platform.own.pauses), platform.own.pauses, StartedPage(old(job.Data()).pages[i]).attempts)
      ensures o.Done? || o.GiveUp? ==> platform.own.pauses == old(platform.own.pauses)
    {
      hide PausedAfter, Evolves, SamePagesBut, Job.Data, Inv, Sound, Working, Wrote, PagesData, Distinct, SetOf, Rested, Charged, RoundBase, PageOutcome, ExactlyCurrent,
           CanSave, KindOf, SavedAs, AtRevision, StoreQuiet, Quiet;
      ghost var c := platform.c;
      ghost var w0 := platform.w;
      ghost var was := job.Data();
      job.Columns();
      WorkingKnows(c, w0, was, i);
      SoundKnows(c, w0, was);
      job.StartPage(i);
      StartSave(c, w0, was, job.Data(), i);
      CurrentAtRevision(w0, was, job.Data());
      var saved := platform.SaveWithEvent(job, PageStarted, Action.StartPage(i));
      ghost var w1 := platform.w;
      WroteKnows(c, job.id, w0, w1);
      base := job.Data();
      job.Columns();
      if saved.Err? {
        return Raised(saved.error), base;
      }
      SavedIsSound(c, w1, base, Action.StartPage(i));
      SavedIsWorking(c, w1, was, base, i, Action.StartPage(i));
      SavedIsCharged(c, w1, base, i);
      ghost var started := base;
      SamePagesChanged(c, was, started, i, StartedPage(was.pages[i]));
      o, base := TryEngine(job, i, image);
      WroteTransitive(c, job.id, w0, w1, platform.w);
      if o.Done? {
        OutcomeRelative(c, platform.w, was, started, o.job.Data(), i);
      } else if o.Again? {
        SamePagesTransitive(c, was, started, job.Data(), i);
      }
    }

    // The checks before a try: reload, cancellation, page still there, budget left.
    method OpenRound(job0: Job, i: nat) returns (o: Option<Round>, job: Job)
      requires Inv(platform.c, platform.w) && job0.Valid() && Sound(platform.c, platform.w, job0.Data())
      requires Working(platform.c, platform.w, job0.Data(), i)
      modifies platform`w, platform`own
      ensures Wrote(platform.c, job0.id, old(platform.w), platform.w)
      ensures job.Valid() && (o.None? || o.value.GiveUp? ==>
                fresh(job) && fresh(job.pages) && i < |job.pages|
                && job.id == job0.id && job.spec == job0.spec && (platform.c.solo ==> job.Data() == job0.Data())
                && Sound(platform.c, platform.w, job.Data()) && Working(platform.c, platform.w, job.Data(), i)
                && job.state != CancelRequested && RoundBase(platform.c, platform.w, job.Data(), job.Data(), i))
      ensures o.None? ==> job.Data().pages[i].attempts < platform.c.Budget()
      ensures o.Some? ==> !o.value.Again?
      ensures o.Some? && o.value.Done? ==>
                var done := o.value.job;
                && fresh(done) && fresh(done.pages) && done.Valid() && done.id == job0.id
                && PageOutcome(platform.c, platform.w, job0.Data(), done.Data(), i)
      ensures platform.calm && ExactlyCurrent(old(platform.w), job0.Data())
              && job0.state != CancelRequested && i < |job0.pages|
              && job0.Data().pages[i].attempts < platform.c.Budget() ==>
                o.None? && job.Data() == job0.Data() && ExactlyCurrent(platform.w, job.Data())
      ensures o.Some? && o.value.Raised? ==> DatabaseFault(o.value.fault) || !platform.c.solo
      ensures platform.own.pauses == old(platform.own.pauses)
      ensures o.Some? && o.value.Raised? ==> Survives(platform.calm, old(platform.w), job0.Data(), platform.w, o.value.fault)
      ensures platform.calm && ExactlyCurrent(old(platform.w), job0.Data()) && (o.None? || o.value.GiveUp?) ==>
                job.Data() == job0.Data() && ExactlyCurrent(platform.w, job.Data())
      ensures platform.calm && ExactlyCurrent(old(platform.w), job0.Data()) && job0.state != CancelRequested && i < |job0.pages| ==>
                (o.Some? <==> platform.c.maxPageRetries + 1 <= job0.Data().pages[i].attempts)
    {
      hide RoundBase, Evolves, Inv, Sound, Working, Wrote, PagesData, Distinct, SetOf, PageOutcome, ExactlyCurrent, Reloaded;
      job := job0;
      var again := ReloadForPage(job0, i);
      if again.Err? {
        o := Some(Raised(again.error));
      } else if again.value.1 {
        o := Some(Done(again.value.0));
      } else {
        job := again.value.0;
        CurrentIsLive(platform.w, job.Data());
        ReloadedHasPage(platform.c, platform.w, job0.Data(), job.Data(), i);
        OpenKnows(platform.c, platform.w, job0.Data(), job.Data(), i);
        job.Columns();
        job0.Columns();
        if i >= |job.pages| {
          o := Some(Raised(Failure(30004, "index")));
        } else if job.pages[i].attempts >= platform.c.Budget() {
          o := Some(GiveUp(None));
        } else {
          o := None;
        }
      }
    }

    // One turn of the retry loop.
    method PageRound(job0: Job, i: nat, image: Blob) returns (o: Round, job: Job, ghost base: JobData)
      requires Inv(platform.c, platform.w) && job0.Valid() && Sound(platform.c, platform.w, job0.Data())
      requires Working(platform.c, platform.w, job0.Data(), i)
      requires platform.c.read(image, i + 1, job0.spec.options) == platform.c.ReadingOf(job0.spec, i + 1)
      modifies platform`w, platform`outages, platform`own
      ensures Wrote(platform.c, job0.id, old(platform.w), platform.w)
      ensures platform.outages <= old(platform.outages)
      ensures o.Done? ==> fresh(o.job) && fresh(o.job.pages) && o.job.Valid() && o.job.id == job0.id
                          && PageOutcome(platform.c, platform.w, job0.Data(), o.job.Data(), i)
      ensures o.GiveUp? || o.Again? ==>
                && RoundBase(platform.c, platform.w, base, job.Data(), i)
                && job.Valid() && job.id == job0.id && job.spec == job0.spec && fresh(job) && fresh(job.pages)
      ensures o.Again? ==> base == job.Data() && i < |job.pages| && job.Data().pages[i].attempts < platform.c.Budget()
                           && SamePagesBut(platform.c, job0.Data(), job.Data(), i)
                           && (!platform.c.solo ==> platform.outages < old(platform.outages))
      ensures Smooth(platform.c, platform.calm, old(platform.w), job0.Data(), i) ==>
                o.Done? && o.job.state == Running && ExactlyCurrent(platform.w, o.job.Data())
      ensures o.Raised? ==> DatabaseFault(o.fault) || !platform.c.solo
      ensures o.Done? || o.GiveUp? ==> platform.own.pauses == old(platform.own.pauses)
      ensures platform.c.solo && i < |job0.Data().pages| ==>
                var tries := job0.Data().pages[i].attempts + 1;
                if o.Again? then PausedAfter(old(platform.own.pauses), platform.own.pauses, tries) && job.Data().pages[i].attempts == tries
                else MayPause(old(platform.own.pauses), platform.own.pauses, tries)
      ensures o.Raised? ==> Survives(platform.calm, old(platform.w), job0.Data(), platform.w, o.fault)
      ensures platform.calm && ExactlyCurrent(old(platform.w), job0.Data()) ==> !o.Again? && (o.GiveUp? ==> ExactlyCurrent(platform.w, base))
    {
      hide PausedAfter, MayPause, StartedPage, Evolves, Held, Seen, Numbered, Reached, SamePagesBut, Job.Data, Inv, Sound, Working, Wrote, PagesData, Distinct, SetOf, RoundBase, PageOutcome, ExactlyCurrent;
      ghost var c := platform.c;
      ghost var w0 := platform.w;
      ghost var was := job0.Data();
      base := was;
      job0.Columns();
      SoundKnows(c, w0, was);
      if Smooth(c, platform.calm, w0, was, i) {
        SmoothKnows(c, platform.calm, w0, was, i);
      }
      var stop;
      stop, job := OpenRound(job0, i);
      ghost var w1 := platform.w;
      job.Columns();
      WroteKnows(c, job0.id, w0, w1);
      if stop.Some? {
        o := stop.value;
        if i < |was.pages| { SamePause(platform.own.pauses, was.pages[i].attempts + 1); }
        if o.GiveUp? {
          base := job.Data();
        }
      } else {
        if c.solo { StartedTries(c, w1, was, i); }
        o, base := StartFrom(was, job, i, image);
        WroteTransitive(c, job0.id, w0, w1, platform.w);
        job.Columns();
        if o.Done? { o.job.Columns(); }
      }
    }

    // The try itself, seen from the copy the round began with.
    method StartFrom(ghost was: JobData, job: Job, i: nat, image: Blob) returns (o: Round, ghost base: JobData)
      requires Inv(platform.c, platform.w) && job.Valid() && Sound(platform.c, platform.w, job.Data())
      requires Working(platform.c, platform.w, job.Data(), i) && i < |job.pages| && job.state != CancelRequested
      requires job.Data().pages[i].attempts < platform.c.Budget() && (platform.c.solo ==> job.Data() == was)
      requires platform.c.read(image, i + 1, job.spec.options) == platform.c.ReadingOf(job.spec, i + 1)
      modifies platform`w, platform`outages, platform`own, job, job.pages
      ensures Wrote(platform.c, job.id, old(platform.w), platform.w)
      ensures platform.outages <= old(platform.outages)
      ensures o.Done? ==> fresh(o.job) && fresh(o.job.pages) && o.job.Valid() && o.job.id == job.id
                          && PageOutcome(platform.c, platform.w, was, o.job.Data(), i)
      ensures o.Raised? ==> DatabaseFault(o.fault)
      ensures job.Valid() && job.pages == old(job.pages)
      ensures o.GiveUp? || o.Again? ==> RoundBase(platform.c, platform.w, base, job.Data(), i)
      ensures o.Again? ==> base == job.Data() && job.Data().pages[i].attempts < platform.c.Budget() && SamePagesBut(platform.c, was, job.Data(), i)
                           && (!platform.c.solo ==> platform.outages < old(platform.outages))
      ensures o.Done? || o.GiveUp? ==> platform.own.pauses == old(platform.own.pauses)
      ensures platform.c.solo && i < |was.pages| ==>
                var tries := StartedPage(was.pages[i]).attempts;
                if o.Again? then PausedAfter(old(platform.own.pauses), platform.own.pauses, tries) && job.Data().pages[i].attempts == tries
                else MayPause(old(platform.own.pauses), platform.own.pauses, tries)
      ensures platform.calm && ExactlyCurrent(old(platform.w), old(job.Data())) ==>
                o.Done? && o.job.state == old(job.state) && ExactlyCurrent(platform.w, o.job.Data())
    {
      hide PausedAfter, MayPause, StartedPage, Evolves, Held, Seen, Numbered, Reached, SamePagesBut, Job.Data, Inv, Sound, Working, Wrote, PagesData,
           Distinct, SetOf, RoundBase, PageOutcome, ExactlyCurrent;
      ghost var start := job.Data();
      o, base := StartAndTry(job, i, image);
      if o.Done? {
        OutcomeSame(platform.c, platform.w, start, was, o.job.Data(), i);
      } else if o.Again? {
        SamePagesFrom(platform.c, was, start, job.Data(), i);
      }
    }

    // The part of _process_page after the loop: the page failed for good, and so has the job.
    method FailPage(job: Job, ghost base: JobData, i: nat, lastError: Option<(int, string)>) returns (r: Result<Job, Fault>)
      requires job.Valid() && RoundBase(platform.c, platform.w, base, job.Data(), i)
      modifies platform`w, platform`own
      ensures Wrote(platform.c, job.id, old(platform.w), platform.w)
      ensures r.Ok? ==> fresh(r.value) && fresh(r.value.pages) && r.value.Valid() && r.value.id == job.id
                        && Ended(platform.w, r.value.Data()) && r.value.state in {Failed, Cancelled}
      ensures r.Err? ==> DatabaseFault(r.error) || !platform.c.solo
      ensures platform.own.pauses == old(platform.own.pauses)
      ensures r.Err? ==> Survives(platform.calm, old(platform.w), base, platform.w, r.error)
    {
      hide Evolves, ExactlyCurrent, Job.Data, Inv, Sound, Working, Quiet, Wrote, Ended, Seen, Numbered, Held, Reached, SameButCancel, RoundBase, Stale,
           CanSave, KindOf, StoreQuiet, SavedAs, AtRevision, PagesData, Distinct, SetOf;
      ghost var c := platform.c;
      ghost var w0 := platform.w;
      job.Columns();
      RoundBaseKnows(c, w0, base, job.Data(), i);
      SoundKnows(c, w0, base);
      WorkingHeld(c, w0, base, i);
      var got := platform.Get(job.id);
      ghost var w1 := platform.w;
      QuietWrote(c, job.id, w0, w1);
      if got.Err? {
        return Err(got.error);
      }
      var latest: Job;
      if got.value != null {
        latest := got.value;
        latest.Columns();
        LoadedSound(c, w1, latest.Data());
      } else {
        latest := CopyOf(job);
        latest.Columns();
        SoundCarried(c, w0, w1, base);
        GoneCopyIsStale(c, w1, base, latest.Data());
      }
      if got.value != null { ReloadOpen(c, w0, base, latest.Data(), i); }
      CurrentIsLive(w0, base);
      CurrentIsLive(w1, latest.Data());
      BothCurrent(w0, w1, base, latest.Data());
      if i >= |latest.pages| {
        return Err(Failure(30004, "index"));
      }
      var code, reason := LastError(latest, i, lastError);
      IsFailable(c, w0, w1, base, latest.Data(), i, got.value == null);
      r := FailFound(latest, i, code, reason);
      WroteTransitive(c, job.id, w0, w1, platform.w);
    }

    // The found page is failed and saved, and the job with it.
    method FailFound(latest: Job, i: nat, code: int, reason: string) returns (r: Result<Job, Fault>)
      requires Inv(platform.c, platform.w) && latest.Valid() && i < |latest.pages| && Failable(platform.c, platform.w, latest.Data(), i)
      modifies platform`w, platform`own, latest, latest.pages
      ensures Wrote(platform.c, latest.id, old(platform.w), platform.w)
      ensures r.Ok? ==> r.value == latest && latest.Valid() && Ended(platform.w, latest.Data()) && latest.pages == old(latest.pages)
      ensures r.Ok? ==> latest.state == if old(latest.state) == CancelRequested then Cancelled else Failed
      ensures r.Ok? && latest.state == Failed ==> latest.code == code && latest.reason == reason
      ensures r.Ok? ==>
                latest.Data().pages == old(latest.Data()).pages[i := old(latest.Data()).pages[i].(state := PageFailed, code := code, reason := reason)]
      ensures r.Err? ==> DatabaseFault(r.error) || Terminal(old(latest.state))
      ensures r.Err? && platform.c.solo ==> DatabaseFault(r.error)
      ensures r.Err? ==> Survives(platform.calm, old(platform.w), old(latest.Data()), platform.w, r.error)
      ensures platform.own.pauses == old(platform.own.pauses)
    {
      hide Evolves, ExactlyCurrent, Job.Data, Inv, Sound, Wrote, Ended, Stale, Failable, CanSave, KindOf, StoreQuiet, SavedAs, AtRevision, PagesData,
           Distinct, SetOf, Quiet;
      ghost var c := platform.c;
      ghost var w0 := platform.w;
      ghost var found := latest.Data();
      latest.Columns();
      StaleIsGone(w0, found);
      latest.FailPage(i, reason, code);
      latest.Columns();
      FailPageReady(c, w0, found, latest.Data(), i, code, reason);
      CurrentAtRevision(w0, found, latest.Data());
      var saved := platform.SaveWithEvent(latest, PageGaveUp, Action.FailPage(i, code, reason));
      ghost var w1 := platform.w;
      WroteKnows(c, latest.id, w0, w1);
      latest.Columns();
      if saved.Err? {
        return Err(saved.error);
      }
      SavedIsSound(c, w1, latest.Data(), Action.FailPage(i, code, reason));
      CurrentIsLive(w1, latest.Data());
      r := FailJob(latest, reason, code);
      latest.Columns();
      WroteTransitive(c, latest.id, w0, w1, platform.w);
    }

    // The code and reason a page fails with: those of the last exception, or those noted on the page.
    method LastError(job: Job, i: nat, lastError: Option<(int, string)>) returns (code: int, reason: string)
      requires i < |job.pages|
      ensures lastError.Some? ==> (code, reason) == lastError.value
      ensures lastError.None? ==> code == PROCESSING_FAILED
      ensures lastError.None? ==> reason == if job.pages[i].reason == "" then "engine_retry_budget_exhausted" else job.pages[i].reason
    {
      if lastError.Some? {
        code, reason := lastError.value.0, lastError.value.1;
      } else {
        code := PROCESSING_FAILED;
        reason := if job.pages[i].reason != "" then job.pages[i].reason else "engine_retry_budget_exhausted";
      }
    }

    // _process_page: the input image, the retry loop, and giving up.
    method ProcessPage(job0: Job, i: nat) returns (r: Result<Job, Fault>)
      requires Inv(platform.c, platform.w) && job0.Valid() && Sound(platform.c, platform.w, job0.Data())
      requires Working(platform.c, platform.w, job0.Data(), i) && i < |job0.pages|
      modifies platform`w, platform`outages, platform`own
      ensures Wrote(platform.c, job0.id, old(platform.w), platform.w)
      ensures r.Ok? ==> fresh(r.value) && fresh(r.value.pages) && r.value.Valid() && r.value.id == job0.id
                        && PageOutcome(platform.c, platform.w, job0.Data(), r.value.Data(), i)
      ensures Smooth(platform.c, platform.calm, old(platform.w), job0.Data(), i) ==>
                r.Ok? && r.value.state == Running && ExactlyCurrent(platform.w, r.value.Data())
      ensures r.Err? && !DatabaseFault(r.error) ==> StillOn(platform.c, platform.w, job0.id, job0.attempt)
      ensures platform.c.solo ==> Climbs(old(platform.own.pauses), platform.own.pauses, old(job0.Data()).pages[i].attempts)
      ensures r.Err? ==> Survives(platform.calm, old(platform.w), job0.Data(), platform.w, r.error)
    {
      hide Climbs, StillOn, Evolves, SamePagesBut, Smooth, TriesLeft, Job.Data, Inv, Sound, Working, Quiet, Wrote, PageOutcome, RoundBase, ExactlyCurrent, Ended,
           PagesData, Distinct, SetOf;
      ghost var c := platform.c;
      ghost var w0 := platform.w;
      ghost var was := job0.Data();
      job0.Columns();
      job0.PageColumns(i);
      SoundKnows(c, w0, was);
      WorkingKnows(c, w0, was, i);
      SoundNumber(c, w0, was, i);
      CurrentHasImage(c, w0, was, i);
      var image := platform.GetBytes(job0.id, job0.pages[i].inputKey);
      ghost var w1 := platform.w;
      QuietWrote(c, job0.id, w0, w1);
      SoundCarried(c, w0, w1, was);
      WorkingCarried(c, w0, w1, was, i);
      UntouchedJob(job0.id, w0, w1);
      StaysCurrent(w0, w1, was);
      if Smooth(c, platform.calm, w0, was, i) {
        SmoothKnows(c, platform.calm, w0, was, i);
        StaysSmooth(c, platform.calm, w0, w1, was, i);
      }
      WorkingHeld(c, w1, was, i);
      HeldStillOn(c, w1, was);
      NoRung(platform.own.pauses, was.pages[i].attempts);
      CurrentIsLive(w1, was);
      if image.Err? {
        return Err(image.error);
      }
      ImageReading(c, w1, was, i, image.value);
      r := RetryLoop(job0, i, image.value);
      WroteTransitive(c, job0.id, w0, w1, platform.w);
      if !c.solo { NotAlone(c, platform.w, job0.id, job0.attempt); }
    }

    // while True in _process_page. With one live worker the page budget bounds it; with several it
    // ends when the engine stops failing transiently.
    method RetryLoop(job0: Job, i: nat, image: Blob) returns (r: Result<Job, Fault>)
      requires Inv(platform.c, platform.w) && job0.Valid() && Sound(platform.c, platform.w, job0.Data())
      requires Working(platform.c, platform.w, job0.Data(), i) && i < |job0.pages|
      requires platform.c.read(image, i + 1, job0.spec.options) == platform.c.ReadingOf(job0.spec, i + 1)
      modifies platform`w, platform`outages, platform`own
      ensures Wrote(platform.c, job0.id, old(platform.w), platform.w)
      ensures r.Ok? ==> fresh(r.value) && fresh(r.value.pages) && r.value.Valid() && r.value.id == job0.id
                        && PageOutcome(platform.c, platform.w, job0.Data(), r.value.Data(), i)
      ensures Smooth(platform.c, platform.calm, old(platform.w), job0.Data(), i) ==>
                r.Ok? && r.value.state == Running && ExactlyCurrent(platform.w, r.value.Data())
      ensures r.Err? ==> DatabaseFault(r.error) || !platform.c.solo
      ensures platform.c.solo ==> Climbs(old(platform.own.pauses), platform.own.pauses, old(job0.Data()).pages[i].attempts)
      ensures r.Err? ==> Survives(platform.calm, old(platform.w), job0.Data(), platform.w, r.error)
    {
      hide Climbs, PausedAfter, MayPause, Evolves, Held, Seen, Numbered, Reached, SamePagesBut, Smooth, TriesLeft, Job.Data, Inv, Sound, Working, Quiet, Wrote, PageOutcome, RoundBase, ExactlyCurrent, Ended,
           PagesData, Distinct, SetOf;
      ghost var c := platform.c;
      ghost var w0 := platform.w;
      ghost var was := job0.Data();
      job0.Columns();
      var job := job0;
      var lastError := None;
      WroteReflexive(c, job0.id, w0);
      WorkingKnows(c, w0, was, i);
      SoundKnows(c, w0, was);
      SamePagesReflexive(c, was, i);
      ghost var p0 := platform.own.pauses;
      ghost var a0 := was.pages[i].attempts;
      ghost var k: nat := 0;
      NoRung(p0, a0);
      while true
        invariant Wrote(c, job0.id, w0, platform.w) && Inv(c, platform.w)
        invariant job.Valid() && job.id == job0.id && job.spec == job0.spec
        invariant Sound(c, platform.w, job.Data()) && Working(c, platform.w, job.Data(), i)
        invariant SamePagesBut(c, was, job.Data(), i)
        invariant Smooth(c, platform.calm, w0, was, i) ==> Smooth(c, platform.calm, platform.w, job.Data(), i)
        invariant c.solo ==> platform.own.pauses == p0 + Ladder(a0, k) && i < |job.Data().pages| && job.Data().pages[i].attempts == a0 + k
        invariant platform.calm && ExactlyCurrent(w0, was) ==> ExactlyCurrent(platform.w, job.Data())
        decreases if c.solo then 0 else platform.outages, TriesLeft(c, job.Data(), i)
      {
        ghost var w1 := platform.w;
        ghost var v1 := job.Data();
        job.Columns();
        WorkingKnows(c, w1, v1, i);
        var o, next;
        ghost var base;
        o, next, base := PageRound(job, i, image);
        ghost var w2 := platform.w;
        WroteTransitive(c, job0.id, w0, w1, w2);
        WroteKnows(c, job0.id, w1, w2);
        if c.solo { StepOnLadder(p0, platform.own.pauses, a0, k, o.Again?, o.Raised?); }
        match o {
          case Done(done) =>
            OutcomeRelative(c, w2, was, v1, done.Data(), i);
            return Ok(done);
          case Raised(fault) =>
            return Err(fault);
          case GiveUp(error) =>
            next.Columns();
            RoundBaseKnows(c, w2, base, next.Data(), i);
            lastError := if error.Some? then error else lastError;
            r := FailPage(next, base, i, lastError);
            WroteTransitive(c, job0.id, w0, w2, platform.w);
            WroteKnows(c, job0.id, w2, platform.w);
            if r.Ok? {
              r.value.Columns();
              EndedIsOutcome(c, platform.w, was, r.value.Data(), i);
            }
            return;
          case Again(error) =>
            next.Columns();
            RoundBaseKnows(c, w2, base, next.Data(), i);
            lastError := error;
            if c.solo { FewerLeft(c, v1, next.Data(), i); }
            SamePagesTransitive(c, was, v1, next.Data(), i);
            job := next;
            k := k + 1;
        }
      }
    }

    // ---- assembling ----

    method LoadPageResult(job: Job, i: nat) returns (r: Result<Reading, Fault>)
      requires Inv(platform.c, platform.w) && job.Valid() && Sound(platform.c, platform.w, job.Data()) && i < |job.pages|
      modifies platform`w
      ensures Wrote(platform.c, job.id, old(platform.w), platform.w) && Sound(platform.c, platform.w, job.Data())
      ensures r.Ok? ==> r.value == platform.c.ReadingOf(job.spec, i + 1)
      ensures r.Err? ==> r.error.Crash? || r.error.Failure?
      ensures platform.calm && ExactlyCurrent(old(platform.w), job.Data()) ==>
                ExactlyCurrent(platform.w, job.Data()) && (job.pages[i].state == PageSucceeded ==> r.Ok?)
      ensures platform.calm && r.Err? ==> r.error.Failure?
    {
      hide Evolves, Job.Data, Inv, Sound, Quiet, Wrote, ExactlyCurrent, PagesData, Distinct, SetOf;
      ghost var c := platform.c;
      ghost var w0 := platform.w;
      ghost var v := job.Data();
      job.Columns();
      job.PageColumns(i);
      SoundKnows(c, w0, v);
      PageKeys(c, w0, v, i);
      if job.pages[i].resultKey.None? {
        WroteReflexive(c, job.id, w0);
        if ExactlyCurrent(w0, v) { CurrentKept(c, w0, v, i); }
        return Err(Failure(PROCESSING_FAILED, "runtime"));
      }
      var key := job.pages[i].resultKey.value;
      var got := platform.GetBytes(job.id, key);
      QuietWrote(c, job.id, w0, platform.w);
      SoundCarried(c, w0, platform.w, v);
      UntouchedJob(job.id, w0, platform.w);
      StaysCurrent(w0, platform.w, v);
      if ExactlyCurrent(w0, v) { CurrentKept(c, w0, v, i); }
      if got.Err? {
        return Err(got.error);
      }
      ResultContent(c, platform.w, v, i, got.value);
      return Ok(got.value.reading);
    }

    method LoadResults(job: Job) returns (r: Result<seq<Reading>, Fault>)
      requires Inv(platform.c, platform.w) && job.Valid() && Sound(platform.c, platform.w, job.Data())
      modifies platform`w
      ensures Wrote(platform.c, job.id, old(platform.w), platform.w) && Sound(platform.c, platform.w, job.Data())
      ensures r.Ok? ==> r.value == platform.c.ReadingsOf(job.spec, |job.pages|)
      ensures r.Err? ==> r.error.Crash? || r.error.Failure?
      ensures platform.calm && ExactlyCurrent(old(platform.w), job.Data()) ==>
                ExactlyCurrent(platform.w, job.Data()) && (AllSucceeded(job.Data().pages) ==> r.Ok?)
      ensures platform.calm && r.Err? ==> r.error.Failure?
    {
      hide Evolves, Job.Data, Inv, Sound, Quiet, Wrote, ExactlyCurrent, PagesData, Distinct, SetOf;
      ghost var c := platform.c;
      ghost var w0 := platform.w;
      job.Columns();
      SoundKnows(c, w0, job.Data());
      WroteReflexive(c, job.id, w0);
      var readings := [];
      for i := 0 to |job.pages|
        invariant Wrote(c, job.id, w0, platform.w) && Inv(c, platform.w) && Sound(c, platform.w, job.Data())
        invariant readings == c.ReadingsOf(job.spec, i)
        invariant platform.calm && ExactlyCurrent(w0, job.Data()) ==> ExactlyCurrent(platform.w, job.Data())
      {
        ghost var w1 := platform.w;
        job.PageColumns(i);
        var got := LoadPageResult(job, i);
        WroteTransitive(c, job.id, w0, w1, platform.w);
        WroteKnows(c, job.id, w1, platform.w);
        if got.Err? {
          return Err(got.error);
        }
        readings := readings + [got.value];
      }
      return Ok(readings);
    }

    // One of the two documents.
    method PutDocument(job: Job, k: nat, key: Key, text: Blob, kind: ArtifactKind) returns (r: Result<Artifact, Fault>)
      requires Inv(platform.c, platform.w) && job.Valid() && Sound(platform.c, platform.w, job.Data())
      requires job.state == Assembling && job.pages != []
      requires (key, text, kind) in {(DocumentMarkdown(job.id, k), DocumentText(platform.c, job.Data()), MarkdownKind),
                                     (DocumentJson(job.id, k), DocumentStructure(platform.c, job.Data(), k), JsonKind)}
      modifies platform`w, platform`own
      ensures Wrote(platform.c, job.id, old(platform.w), platform.w) && Sound(platform.c, platform.w, job.Data())
      ensures r.Ok? ==> r.value == Artifact(kind, key, platform.c.sha(text), None) && key in platform.w.objects
      ensures r.Err? ==> (r.error.Crash? || r.error.Failure?) && !platform.calm
      ensures platform.calm && ExactlyCurrent(old(platform.w), job.Data()) ==> ExactlyCurrent(platform.w, job.Data())
    {
      hide Evolves, Job.Data, Inv, Sound, Stored, Wrote, ExactlyCurrent, Writable, DocumentText, DocumentStructure, PagesData, Distinct, SetOf;
      ghost var c := platform.c;
      ghost var w0 := platform.w;
      ghost var v := job.Data();
      job.Columns();
      SoundKnows(c, w0, v);
      DocumentWritable(c, w0, v, k, key, text);
      var put := platform.PutBytes(v, key, text);
      StoredSound(c, w0, platform.w, key, v);
      StaysCurrent(w0, platform.w, v);
      if put.Err? {
        return Err(put.error);
      }
      return Ok(Artifact(kind, key, put.value, None));
    }

    // stat, and the digest from the object itself when its metadata lacks one.
    method ListObject(job: Job, i: nat, key: Key, kind: ArtifactKind) returns (r: Result<Option<Artifact>, Fault>)
      requires Inv(platform.c, platform.w) && job.Valid() && Sound(platform.c, platform.w, job.Data()) && i < |job.pages|
      requires key == job.pages[i].inputKey || Some(key) == job.pages[i].visualKey
      modifies platform`w
      ensures Wrote(platform.c, job.id, old(platform.w), platform.w) && Sound(platform.c, platform.w, job.Data())
      ensures r.Ok? && r.value.Some? ==>
                && r.value.value == Artifact(kind, key, platform.c.sha(ContentOf(platform.c, job.spec, key)), Some(job.pages[i].number))
                && (IsLive(platform.w, job.id) ==> key in platform.w.objects)
      ensures r.Ok? && platform.c.solo && Owned(job.state) ==> r.value.Some?
      ensures r.Err? ==> r.error.Crash? || r.error.Failure?
      ensures platform.calm && ExactlyCurrent(old(platform.w), job.Data()) ==> r.Ok? && ExactlyCurrent(platform.w, job.Data())
    {
      hide Evolves, Seen, Numbered, Job.Data, Inv, Sound, Quiet, Wrote, ExactlyCurrent, ContentOf, PagesData, Distinct, SetOf, Held, PageKept;
      ghost var c := platform.c;
      ghost var w0 := platform.w;
      ghost var v := job.Data();
      job.Columns();
      job.PageColumns(i);
      SoundKnows(c, w0, v);
      PageKeys(c, w0, v, i);
      var info := platform.Stat(job.id, key);
      ghost var w1 := platform.w;
      QuietWrote(c, job.id, w0, w1);
      SoundCarried(c, w0, w1, v);
      UntouchedJob(job.id, w0, w1);
      StaysCurrent(w0, w1, v);
      if info.Err? {
        return Err(info.error);
      }
      if info.value.None? {
        ListedIsThere(c, w1, v, i, key);
        return Ok(None);
      }
      ListedContent(c, w1, v, key);
      if info.value.value.Some? {
        return Ok(Some(Artifact(kind, key, info.value.value.value, Some(job.pages[i].number))));
      }
      var got := platform.GetBytes(job.id, key);
      ghost var w2 := platform.w;
      QuietWrote(c, job.id, w1, w2);
      WroteTransitive(c, job.id, w0, w1, w2);
      SoundCarried(c, w1, w2, v);
      UntouchedJob(job.id, w1, w2);
      StaysCurrent(w1, w2, v);
      if got.Err? {
        return Err(got.error);
      }
      ListedContent(c, w2, v, key);
      return Ok(Some(Artifact(kind, key, platform.c.sha(got.value), Some(job.pages[i].number))));
    }

    // What page i adds to the artifact list.
    method ListPage(job: Job, i: nat) returns (r: Result<seq<Artifact>, Fault>)
      requires Inv(platform.c, platform.w) && job.Valid() && Sound(platform.c, platform.w, job.Data()) && i < |job.pages|
      requires job.state == Assembling
      modifies platform`w
      ensures Wrote(platform.c, job.id, old(platform.w), platform.w) && Sound(platform.c, platform.w, job.Data())
      ensures r.Ok? ==> PageListed(platform.c, platform.w, job.Data(), i, r.value)
      ensures r.Err? ==> r.error.Crash? || r.error.Failure?
      ensures platform.calm && ExactlyCurrent(old(platform.w), job.Data()) ==> r.Ok? && ExactlyCurrent(platform.w, job.Data())
    {
      hide Evolves, Seen, Numbered, Held, Job.Data, Inv, Sound, Quiet, Wrote, ExactlyCurrent, ContentOf, PagesData, Distinct, SetOf;
      ghost var c := platform.c;
      ghost var w0 := platform.w;
      ghost var v := job.Data();
      job.Columns();
      job.PageColumns(i);
      SoundKnows(c, w0, v);
      PageKeys(c, w0, v, i);
      var image := ListObject(job, i, job.pages[i].inputKey, PageImageKind);
      ghost var w1 := platform.w;
      WroteKnows(c, job.id, w0, w1);
      if image.Err? {
        return Err(image.error);
      }
      var more := if image.value.Some? then [image.value.value] else [];
      if job.pages[i].visualKey.Some? {
        var visual := ListObject(job, i, job.pages[i].visualKey.value, VisualizationKind);
        WroteTransitive(c, job.id, w0, w1, platform.w);
        WroteKnows(c, job.id, w1, platform.w);
        if image.value.Some? { KeyStays(w1, platform.w, job.id, job.pages[i].inputKey); }
        if visual.Err? {
          return Err(visual.error);
        }
        more := more + if visual.value.Some? then [visual.value.value] else [];
      }
      return Ok(more);
    }

    // _assemble: the page results, the two documents, what the pages add, and the manifest last.
    method Assemble(job: Job) returns (r: Result<seq<Artifact>, Fault>, body: seq<Artifact>, stamp: nat)
      requires Inv(platform.c, platform.w) && job.Valid() && Sound(platform.c, platform.w, job.Data())
      requires job.state == Assembling && job.pages != []
      modifies platform`w, platform`own
      ensures Wrote(platform.c, job.id, old(platform.w), platform.w) && Sound(platform.c, platform.w, job.Data())
      ensures r.Ok? ==> Assembled(platform.c, platform.w, job.Data(), job.attempt, body, stamp)
                        && r.value == body + [ManifestArtifact(platform.c, job.Data(), job.attempt, body, stamp)]
      ensures r.Err? ==> r.error.Crash? || r.error.Failure?
      ensures platform.calm && ExactlyCurrent(old(platform.w), job.Data()) ==>
                ExactlyCurrent(platform.w, job.Data()) && (AllSucceeded(job.Data().pages) ==> r.Ok?)
      ensures platform.calm && ExactlyCurrent(old(platform.w), job.Data()) && r.Err? ==> r.error.Failure?
    {
      hide Evolves, Seen, Numbered, Held, PageArtifacts, BodyOk, Inv, Sound, Wrote, ExactlyCurrent, Collected, Assembled, Listed, DocumentText, DocumentStructure, ManifestArtifact,
           Distinct, SetOf;
      ghost var c := platform.c;
      ghost var w0 := platform.w;
      ghost var v := job.Data();
      body, stamp := [], 0;
      var loaded := LoadResults(job);
      ghost var w1 := platform.w;
      WroteKnows(c, job.id, w0, w1);
      SoundKnows(c, w0, v);
      if loaded.Err? {
        return Err(loaded.error), body, stamp;
      }
      var documents := WriteDocuments(job, loaded.value);
      ghost var w2 := platform.w;
      WroteTransitive(c, job.id, w0, w1, w2);
      WroteKnows(c, job.id, w1, w2);
      if documents.Err? {
        return Err(documents.error), body, stamp;
      }
      r, body, stamp := WriteManifest(job, documents.value);
      WroteTransitive(c, job.id, w0, w2, platform.w);
    }

    method WriteDocuments(job: Job, readings: seq<Reading>) returns (r: Result<seq<Artifact>, Fault>)
      requires Inv(platform.c, platform.w) && job.Valid() && Sound(platform.c, platform.w, job.Data())
      requires job.state == Assembling && job.pages != []
      requires readings == platform.c.ReadingsOf(job.spec, |job.pages|)
      modifies platform`w, platform`own
      ensures Wrote(platform.c, job.id, old(platform.w), platform.w) && Sound(platform.c, platform.w, job.Data())
      ensures r.Ok? ==> Collected(platform.c, platform.w, job.Data(), job.attempt, 0, r.value)
      ensures r.Err? ==> r.error.Crash? || r.error.Failure?
      ensures platform.calm && ExactlyCurrent(old(platform.w), job.Data()) ==> r.Ok? && ExactlyCurrent(platform.w, job.Data())
    {
      hide Evolves, Job.Data, Inv, Sound, Wrote, ExactlyCurrent, Collected, PagesData, Distinct, SetOf, JoinMarkdown;
      ghost var c := platform.c;
      ghost var w0 := platform.w;
      ghost var v := job.Data();
      job.Columns();
      SoundKnows(c, w0, v);
      var k := job.attempt;
      var markdown := PutDocument(job, k, DocumentMarkdown(job.id, k), MarkdownText(JoinMarkdown(readings)), MarkdownKind);
      ghost var w1 := platform.w;
      WroteKnows(c, job.id, w0, w1);
      if markdown.Err? {
        return Err(markdown.error);
      }
      var json := PutDocument(job, k, DocumentJson(job.id, k), StructuredJson(job.id, k, readings), JsonKind);
      WroteTransitive(c, job.id, w0, w1, platform.w);
      WroteKnows(c, job.id, w1, platform.w);
      if json.Err? {
        return Err(json.error);
      }
      KeyStays(w1, platform.w, job.id, DocumentMarkdown(job.id, k));
      StartsCollected(c, platform.w, v, k);
      return Ok([markdown.value, json.value]);
    }

    method WriteManifest(job: Job, documents: seq<Artifact>)
      returns (r: Result<seq<Artifact>, Fault>, body: seq<Artifact>, stamp: nat)
      requires Inv(platform.c, platform.w) && job.Valid() && Sound(platform.c, platform.w, job.Data())
      requires job.state == Assembling && job.pages != []
      requires Collected(platform.c, platform.w, job.Data(), job.attempt, 0, documents)
      modifies platform`w, platform`own
      ensures Wrote(platform.c, job.id, old(platform.w), platform.w) && Sound(platform.c, platform.w, job.Data())
      ensures r.Ok? ==> Assembled(platform.c, platform.w, job.Data(), job.attempt, body, stamp)
                        && r.value == body + [ManifestArtifact(platform.c, job.Data(), job.attempt, body, stamp)]
      ensures r.Err? ==> r.error.Crash? || r.error.Failure?
      ensures platform.calm && ExactlyCurrent(old(platform.w), job.Data()) ==> r.Ok? && ExactlyCurrent(platform.w, job.Data())
    {
      hide Evolves, Job.Data, Inv, Sound, Stored, Wrote, ExactlyCurrent, Collected, Assembled, Writable, PageListed, PagesData, Distinct, SetOf;
      ghost var c := platform.c;
      ghost var w0 := platform.w;
      ghost var v := job.Data();
      job.Columns();
      SoundKnows(c, w0, v);
      WroteReflexive(c, job.id, w0);
      var list := documents;
      for i := 0 to |job.pages|
        invariant Wrote(c, job.id, w0, platform.w) && Inv(c, platform.w) && Sound(c, platform.w, v)
        invariant Collected(c, platform.w, v, job.attempt, i, list)
        invariant platform.calm && ExactlyCurrent(w0, v) ==> ExactlyCurrent(platform.w, v)
      {
        ghost var w1 := platform.w;
        var more := ListPage(job, i);
        WroteTransitive(c, job.id, w0, w1, platform.w);
        WroteKnows(c, job.id, w1, platform.w);
        CollectedCarried(c, w1, platform.w, v, job.attempt, i, list);
        if more.Err? {
          return Err(more.error), [], 0;
        }
        CollectedPage(c, platform.w, v, job.attempt, i, list, more.value);
        list := list + more.value;
      }
      ghost var w2 := platform.w;
      var generatedAt: nat := *;
      var key := Manifest(job.id, job.attempt);
      ManifestWritable(c, w2, v, job.attempt, list, generatedAt);
      var put := platform.PutBytes(v, key, ManifestJson(job.id, job.attempt, list, generatedAt));
      StoredSound(c, w2, platform.w, key, v);
      StaysCurrent(w2, platform.w, v);
      SoundReached(c, w2, platform.w, v);
      WroteTransitive(c, job.id, w0, w2, platform.w);
      WroteKnows(c, job.id, w2, platform.w);
      if put.Err? {
        return Err(put.error), [], 0;
      }
      CollectedCarried(c, w2, platform.w, v, job.attempt, |job.pages|, list);
      AllCollected(c, platform.w, v, job.attempt, list, generatedAt);
      return Ok(list + [Artifact(ManifestKind, key, put.value, None)]), list, generatedAt;
    }

    // From ASSEMBLING to the end: assemble, look for a cancellation, reload, succeed, save.
    method FinishAssembly(job: Job) returns (r: Result<Job, Fault>)
      requires Inv(platform.c, platform.w) && job.Valid() && Sound(platform.c, platform.w, job.Data())
      requires job.state == Assembling && job.pages != []
      modifies platform`w, platform`own
      ensures Wrote(platform.c, job.id, old(platform.w), platform.w)
      ensures r.Ok? ==> fresh(r.value) && fresh(r.value.pages) && r.value.Valid() && r.value.id == job.id
                        && Ended(platform.w, r.value.Data())
      ensures platform.calm && ExactlyCurrent(old(platform.w), job.Data()) && AllSucceeded(job.Data().pages) ==>
                r.Ok? && r.value.state == JobState.Succeeded
      ensures r.Err? && !DatabaseFault(r.error) ==> StillOn(platform.c, platform.w, job.id, job.attempt)
      ensures r.Err? ==> Survives(platform.calm, old(platform.w), old(job.Data()), platform.w, r.error)
    {
      hide StillOn, Evolves, Job.Data, Inv, Sound, Wrote, Quiet, ExactlyCurrent, Assembled, Ended, AllSucceeded, Distinct, PagesData, SetOf,
           ManifestArtifact;
      ghost var c := platform.c;
      ghost var w0 := platform.w;
      ghost var v := job.Data();
      job.Columns();
      SoundKnows(c, w0, v);
      var list, body, stamp;
      list, body, stamp := Assemble(job);
      ghost var w1 := platform.w;
      WroteKnows(c, job.id, w0, w1);
      SoundStillOn(c, w1, v);
      CurrentIsLive(w1, v);
      if list.Err? {
        return Err(list.error);
      }
      CurrentIsLive(w1, v);
      var refreshed := CancelIfRequested(job.id);
      ghost var w2 := platform.w;
      WroteTransitive(c, job.id, w0, w1, w2);
      if refreshed.Err? {
        return Err(refreshed.error);
      }
      if refreshed.value != null {
        return Ok(refreshed.value);
      }
      StaysCurrent(w1, w2, v);
      SoundCarried(c, w1, w2, v);
      AssembledCarried(c, w1, w2, v, job.attempt, body, stamp);
      r := SucceedJob(job, list.value, body, stamp);
      WroteTransitive(c, job.id, w0, w2, platform.w);
    }

    method SucceedJob(job: Job, list: seq<Artifact>, body: seq<Artifact>, stamp: nat) returns (r: Result<Job, Fault>)
      requires Inv(platform.c, platform.w) && job.Valid() && Sound(platform.c, platform.w, job.Data())
      requires job.state == Assembling && job.id in platform.w.jobs
      requires Assembled(platform.c, platform.w, job.Data(), job.attempt, body, stamp)
      requires list == body + [ManifestArtifact(platform.c, job.Data(), job.attempt, body, stamp)]
      modifies platform`w, platform`own
      ensures Wrote(platform.c, job.id, old(platform.w), platform.w)
      ensures r.Ok? ==> fresh(r.value) && fresh(r.value.pages) && r.value.Valid() && r.value.id == job.id
                        && Ended(platform.w, r.value.Data()) && r.value.state == JobState.Succeeded
      ensures platform.calm && ExactlyCurrent(old(platform.w), job.Data()) && AllSucceeded(job.Data().pages) ==> r.Ok?
      ensures r.Err? && !DatabaseFault(r.error) ==> StillOn(platform.c, platform.w, job.id, job.attempt)
      ensures r.Err? ==> Survives(platform.calm, old(platform.w), old(job.Data()), platform.w, r.error)
    {
      hide StillOn, Evolves, Reached, ManifestBody, BodyOk, Job.Data, Inv, Sound, Wrote, Quiet, ExactlyCurrent, Assembled, Ended, AllSucceeded, Distinct, PagesData, SetOf,
           ManifestArtifact, Seen, Numbered, Held, SameButCancel, Stale, CanSave, KindOf, StoreQuiet, SavedAs, AtRevision;
      ghost var c := platform.c;
      ghost var w0 := platform.w;
      ghost var v := job.Data();
      job.Columns();
      SoundKnows(c, w0, v);
      CurrentIsLive(w0, v);
      var got := platform.Get(job.id);
      ghost var w1 := platform.w;
      QuietWrote(c, job.id, w0, w1);
      SoundCarried(c, w0, w1, v);
      AssembledCarried(c, w0, w1, v, job.attempt, body, stamp);
      if got.Err? {
        return Err(got.error);
      }
      var latest: Job;
      if got.value != null {
        latest := got.value;
        latest.Columns();
        LoadedSound(c, w1, latest.Data());
      } else {
        latest := CopyOf(job);
        latest.Columns();
        GoneCopyIsStale(c, w1, v, latest.Data());
      }
      ghost var base := latest.Data();
      BothCurrent(w0, w1, v, base);
      var ok := latest.Succeed(list);
      AssembledPages(c, w1, v, job.attempt, body, stamp);
      SoundStillOn(c, w1, v);
      CurrentIsLive(w1, base);
      if !ok {
        return Err(Failure(PROCESSING_FAILED, "value_error"));
      }
      latest.Columns();
      SucceedOrStale(c, w1, v, base, latest.Data(), job.attempt, body, stamp, got.value == null);
      CurrentAtRevision(w1, base, latest.Data());
      var saved := platform.SaveWithEvent(latest, JobSucceeded, Action.Succeed(job.attempt, body, stamp));
      WroteKnows(c, job.id, w1, platform.w);
      WroteTransitive(c, job.id, w0, w1, platform.w);
      if saved.Err? {
        return Err(saved.error);
      }
      latest.Columns();
      SavedIsSound(c, platform.w, latest.Data(), Action.Succeed(job.attempt, body, stamp));
      return Ok(latest);
    }

    // ---- the run ----

    // The cancel check and the reload before a page. The second result says that the job was cancelled.
    method ReloadForLoop(ghost start: JobData, job0: Job, i: nat) returns (r: Result<(Job, bool), Fault>)
      requires Inv(platform.c, platform.w) && job0.Valid() && Sound(platform.c, platform.w, job0.Data())
      requires Along(platform.c, start, job0.Data(), i) && i < |start.pages| && start.pages[i].state != PageSucceeded
      modifies platform`w, platform`own
      ensures Wrote(platform.c, job0.id, old(platform.w), platform.w)
      ensures r.Ok? ==> var job := r.value.0;
                && job.Valid() && job.id == job0.id && (job == job0 || (fresh(job) && fresh(job.pages)))
                && (if r.value.1 then fresh(job) && fresh(job.pages) && job.state == Cancelled && Ended(platform.w, job.Data())
                    else Sound(platform.c, platform.w, job.Data()) && Working(platform.c, platform.w, job.Data(), i)
                         && (platform.c.solo ==> SameButCancel(job.Data(), job0.Data())))
      ensures platform.calm && ExactlyCurrent(old(platform.w), job0.Data()) && job0.state != CancelRequested ==>
                r.Ok? && !r.value.1 && r.value.0.Data() == job0.Data() && ExactlyCurrent(platform.w, job0.Data())
      ensures r.Err? ==> DatabaseFault(r.error)
      ensures platform.calm && ExactlyCurrent(old(platform.w), job0.Data()) ==> r.Ok?
      ensures platform.calm && ExactlyCurrent(old(platform.w), job0.Data()) ==> ExactlyCurrent(platform.w, r.value.0.Data())
    {
      hide Evolves, Job.Data, Inv, Sound, Working, Quiet, Wrote, ExactlyCurrent, Ended, Along, Seen, Numbered, Held, SameButCancel, PagesData,
           Distinct, SetOf;
      ghost var c := platform.c;
      ghost var w0 := platform.w;
      ghost var v := job0.Data();
      job0.Columns();
      SoundKnows(c, w0, v);
      CurrentIsLive(w0, v);
      var refreshed := CancelIfRequested(job0.id);
      ghost var w1 := platform.w;
      if refreshed.Err? {
        return Err(refreshed.error);
      }
      if refreshed.value != null {
        EndedIsCurrent(w1, refreshed.value.Data());
        return Ok((refreshed.value, true));
      }
      SoundCarried(c, w0, w1, v);
      StaysCurrent(w0, w1, v);
      SoundKnows(c, w1, v);
      CurrentIsLive(w1, v);
      var got := platform.Get(job0.id);
      ghost var w2 := platform.w;
      QuietWrote(c, job0.id, w1, w2);
      WroteTransitive(c, job0.id, w0, w1, w2);
      SoundCarried(c, w1, w2, v);
      if got.Err? {
        return Err(got.error);
      }
      var job := if got.value != null then got.value else job0;
      job.Columns();
      if got.value != null { LoadedSound(c, w2, job.Data()); }
      AlongOwned(c, w1, start, v, i);
      AlongReload(c, w2, start, v, job.Data(), i);
      BothCurrent(w1, w2, v, job.Data());
      return Ok((job, false));
    }

    // The loop body of process for a page that was not done when the loop began.
    method OnePage(ghost start: JobData, job0: Job, i: nat) returns (r: Result<Job, Fault>)
      requires Inv(platform.c, platform.w) && job0.Valid() && Sound(platform.c, platform.w, job0.Data())
      requires Along(platform.c, start, job0.Data(), i) && i < |start.pages| && start.pages[i].state != PageSucceeded
      modifies platform`w, platform`outages, platform`own
      ensures Wrote(platform.c, job0.id, old(platform.w), platform.w)
      ensures r.Ok? ==> fresh(r.value) && fresh(r.value.pages) && r.value.Valid() && r.value.id == job0.id
      ensures r.Ok? && r.value.state in {Failed, Cancelled} ==> Ended(platform.w, r.value.Data())
      ensures r.Ok? && r.value.state !in {Failed, Cancelled} ==>
                Sound(platform.c, platform.w, r.value.Data()) && Along(platform.c, start, r.value.Data(), i + 1) && r.value.pages != []
      ensures Going(platform.c, platform.calm, old(platform.w), job0.Data(), i) ==>
                r.Ok? && r.value.state == Running && Going(platform.c, platform.calm, platform.w, r.value.Data(), i + 1)
      ensures r.Err? && !DatabaseFault(r.error) ==> StillOn(platform.c, platform.w, job0.id, job0.attempt)
      ensures r.Err? ==> Survives(platform.calm, old(platform.w), job0.Data(), platform.w, r.error)
      ensures platform.calm && ExactlyCurrent(old(platform.w), job0.Data()) && r.Ok? ==> ExactlyCurrent(platform.w, r.value.Data())
    {
      hide StillOn, Evolves, Job.Data, Inv, Sound, Working, Wrote, PageOutcome, ExactlyCurrent, Ended, Along, Going, Smooth, SameButCancel, PagesData,
           Distinct, SetOf;
      ghost var c := platform.c;
      ghost var w0 := platform.w;
      ghost var v := job0.Data();
      job0.Columns();
      SoundKnows(c, w0, v);
      if Going(c, platform.calm, w0, v, i) { GoingKnows(c, platform.calm, w0, v, i); }
      var again := ReloadForLoop(start, job0, i);
      ghost var w1 := platform.w;
      WroteKnows(c, job0.id, w0, w1);
      if again.Err? {
        return Err(again.error);
      }
      var job := again.value.0;
      if again.value.1 {
        return Ok(job);
      }
      job.Columns();
      ghost var u := job.Data();
      CurrentIsLive(w1, u);
      if i >= |job.pages| {
        AlongHasPage(c, start, v, u, i);
        NotAlone(c, w1, job0.id, job0.attempt);
        return Err(Failure(PROCESSING_FAILED, "index"));
      }
      if Going(c, platform.calm, w0, v, i) {
        GoingStays(c, platform.calm, w0, w1, v, i);
        GoingSmooth(c, platform.calm, w1, start, v, i);
      }
      r := ProcessPage(job, i);
      WroteTransitive(c, job0.id, w0, w1, platform.w);
      SameAttempt(c, v, u);
      if r.Err? && !DatabaseFault(r.error) { SameStillOn(c, platform.w, job0.id, u.attempt, v.attempt); }
      if r.Ok? {
        ghost var x := r.value.Data();
        r.value.Columns();
        OutcomeKnows(c, platform.w, u, x, i);
        if r.value.state !in {Failed, Cancelled} { AlongStep(c, platform.w, start, v, u, x, i); }
        if Going(c, platform.calm, w0, v, i) { GoingStep(c, platform.calm, w1, platform.w, u, x, i); }
      }
    }

    // The page loop. It runs over the pages as they were when it began.
    method RunPages(start: Job) returns (r: Result<Job, Fault>)
      requires Inv(platform.c, platform.w) && start.Valid() && Sound(platform.c, platform.w, start.Data())
      requires start.state == Running && start.pages != []
      modifies platform`w, platform`outages, platform`own
      ensures Wrote(platform.c, start.id, old(platform.w), platform.w)
      ensures r.Ok? ==> r.value.Valid() && r.value.id == start.id && (r.value == start || fresh(r.value))
      ensures r.Ok? && r.value.state in {Failed, Cancelled} ==> Ended(platform.w, r.value.Data())
      ensures r.Ok? && r.value.state !in {Failed, Cancelled} ==>
                && Sound(platform.c, platform.w, r.value.Data()) && r.value.pages != []
                && Along(platform.c, start.Data(), r.value.Data(), |start.pages|)
      ensures Going(platform.c, platform.calm, old(platform.w), start.Data(), 0) ==>
                r.Ok? && r.value.state == Running && Going(platform.c, platform.calm, platform.w, r.value.Data(), |start.pages|)
      ensures r.Err? && !DatabaseFault(r.error) ==> StillOn(platform.c, platform.w, start.id, start.attempt)
      ensures r.Err? ==> Survives(platform.calm, old(platform.w), start.Data(), platform.w, r.error)
      ensures platform.calm && ExactlyCurrent(old(platform.w), start.Data()) && r.Ok? ==> ExactlyCurrent(platform.w, r.value.Data())
    {
      hide StillOn, Evolves, Job.Data, Inv, Sound, Wrote, Ended, Along, Going, PagesData, Distinct, SetOf;
      ghost var c := platform.c;
      ghost var w0 := platform.w;
      ghost var v0 := start.Data();
      start.Columns();
      SoundKnows(c, w0, v0);
      WroteReflexive(c, start.id, w0);
      AlongStart(c, v0);
      var job := start;
      for i := 0 to |start.pages|
        invariant Wrote(c, start.id, w0, platform.w) && Inv(c, platform.w)
        invariant job.Valid() && job.id == start.id && (job == start || fresh(job)) && job.pages != []
        invariant job.state !in {Failed, Cancelled}
        invariant platform.calm && ExactlyCurrent(w0, v0) ==> ExactlyCurrent(platform.w, job.Data())
        invariant Sound(c, platform.w, job.Data()) && Along(c, v0, job.Data(), i)
        invariant Going(c, platform.calm, w0, v0, 0) ==> job.state == Running && Going(c, platform.calm, platform.w, job.Data(), i)
      {
        start.PageColumns(i);
        if start.pages[i].state == PageSucceeded {
          AlongSkip(c, v0, job.Data(), i);
          if Going(c, platform.calm, platform.w, job.Data(), i) { GoingSkip(c, platform.calm, platform.w, v0, job.Data(), i); }
        } else {
          ghost var w1 := platform.w;
          ghost var k := job.attempt;
          job.Columns();
          AlongLength(c, v0, job.Data(), i);
          var completed := OnePage(v0, job, i);
          if completed.Err? && !DatabaseFault(completed.error) { SameStillOn(c, platform.w, start.id, k, v0.attempt); }
          WroteTransitive(c, start.id, w0, w1, platform.w);
          WroteKnows(c, start.id, w1, platform.w);
          if completed.Err? || completed.value.state in {Failed, Cancelled} {
            return completed;
          }
          job := completed.value;
        }
      }
      return Ok(job);
    }

    // After the page loop: begin_assembling, its save, and the rest.
    method FinishRun(job: Job) returns (r: Result<Job, Fault>)
      requires Inv(platform.c, platform.w) && job.Valid() && Sound(platform.c, platform.w, job.Data()) && job.pages != []
      requires platform.c.solo ==> job.state == Running
      modifies platform`w, platform`own, job
      ensures Wrote(platform.c, job.id, old(platform.w), platform.w)
      ensures r.Ok? ==> r.value.Valid() && r.value.id == job.id && Ended(platform.w, r.value.Data())
      ensures job.Valid() && Known(platform.w, job.Data())
      ensures platform.calm && ExactlyCurrent(old(platform.w), old(job.Data())) && old(job.state) == Running
              && AllSucceeded(old(job.Data()).pages) ==>
                r.Ok? && r.value.state == JobState.Succeeded
      ensures r.Err? && !DatabaseFault(r.error) ==> StillOn(platform.c, platform.w, job.id, old(job.attempt))
      ensures r.Err? ==> Survives(platform.calm, old(platform.w), old(job.Data()), platform.w, r.error)
    {
      hide StillOn, Evolves, Held, Seen, Numbered, Job.Data, Inv, Sound, Wrote, ExactlyCurrent, Ended, Known, AllSucceeded, CanSave, KindOf, StoreQuiet, SavedAs, AtRevision,
           Quiet, PagesData, Distinct, SetOf;
      ghost var c := platform.c;
      ghost var w0 := platform.w;
      ghost var base := job.Data();
      job.Columns();
      SoundKnows(c, w0, base);
      SoundIsKnown(c, w0, base);
      CurrentIsLive(w0, base);
      var ok := job.BeginAssembling();
      job.Columns();
      WroteReflexive(c, job.id, w0);
      SameKnown(w0, base, job.Data());
      if !ok {
        NotAlone(c, w0, job.id, base.attempt);
        return Err(Failure(PROCESSING_FAILED, "value_error"));
      }
      AssemblingSave(c, w0, base, job.Data());
      CurrentAtRevision(w0, base, job.Data());
      var saved := platform.SaveWithEvent(job, JobAssembling, Action.BeginAssembling);
      ghost var w1 := platform.w;
      job.Columns();
      WroteKnows(c, job.id, w0, w1);
      SavedIsKnown(c, w0, w1, base, job.Data(), Action.BeginAssembling, saved.Ok?);
      if saved.Err? {
        return Err(saved.error);
      }
      SavedIsSound(c, w1, job.Data(), Action.BeginAssembling);
      r := FinishAssembly(job);
      WroteTransitive(c, job.id, w0, w1, platform.w);
      WroteKnows(c, job.id, w1, platform.w);
      KnownStays(w1, platform.w, job.Data(), job.Data());
    }

    // From prepared pages to the end: where to go on depends on the state the job was left in.
    method Advance(job: Job) returns (r: Result<Job, Fault>)
      requires Inv(platform.c, platform.w) && job.Valid() && Sound(platform.c, platform.w, job.Data()) && job.pages != []
      requires Owned(job.state)
      modifies platform`w, platform`outages, platform`own, job
      ensures Wrote(platform.c, job.id, old(platform.w), platform.w)
      ensures r.Ok? ==> r.value.Valid() && r.value.id == job.id && Ended(platform.w, r.value.Data())
      ensures job.Valid() && Known(platform.w, job.Data())
      ensures platform.calm && platform.c.solo && ExactlyCurrent(old(platform.w), old(job.Data())) && IsReady(platform.c, old(job.Data())) ==>
                r.Ok? && r.value.state == JobState.Succeeded
      ensures Cancelling(platform.calm, old(platform.w), old(job.Data())) ==> r.Ok? && r.value.state == Cancelled
      ensures r.Err? && !DatabaseFault(r.error) ==> StillOn(platform.c, platform.w, job.id, old(job.attempt))
      ensures r.Err? ==> Survives(platform.calm, old(platform.w), old(job.Data()), platform.w, r.error)
    {
      hide StillOn, Cancelling, Evolves, Job.Data, Inv, Sound, Wrote, Quiet, ExactlyCurrent, Ended, Known, AllSucceeded, CanFinish, PagesData, Distinct, SetOf;
      ghost var c := platform.c;
      ghost var w0 := platform.w;
      ghost var v := job.Data();
      job.Columns();
      SoundKnows(c, w0, v);
      CurrentIsLive(w0, v);
      SoundIsKnown(c, w0, v);
      if Cancelling(platform.calm, w0, v) { CancellingKnows(platform.calm, w0, v); }
      var refreshed := CancelIfRequested(job.id);
      ghost var w1 := platform.w;
      WroteKnows(c, job.id, w0, w1);
      KnownStays(w0, w1, v, v);
      if refreshed.Err? {
        return Err(refreshed.error);
      }
      if refreshed.value != null {
        return Ok(refreshed.value);
      }
      SoundCarried(c, w0, w1, v);
      StaysCurrent(w0, w1, v);
      r := GoOn(job);
      WroteTransitive(c, job.id, w0, w1, platform.w);
    }

    method GoOn(job: Job) returns (r: Result<Job, Fault>)
      requires Inv(platform.c, platform.w) && job.Valid() && Sound(platform.c, platform.w, job.Data()) && job.pages != []
      requires Owned(job.state)
      modifies platform`w, platform`outages, platform`own, job
      ensures Wrote(platform.c, job.id, old(platform.w), platform.w)
      ensures r.Ok? ==> r.value.Valid() && r.value.id == job.id && Ended(platform.w, r.value.Data())
      ensures job.Valid() && Known(platform.w, job.Data())
      ensures platform.calm && platform.c.solo && ExactlyCurrent(old(platform.w), old(job.Data())) && IsReady(platform.c, old(job.Data())) ==>
                r.Ok? && r.value.state == JobState.Succeeded
      ensures r.Err? && !DatabaseFault(r.error) ==> StillOn(platform.c, platform.w, job.id, old(job.attempt))
      ensures r.Err? ==> Survives(platform.calm, old(platform.w), old(job.Data()), platform.w, r.error)
    {
      hide StillOn, Evolves, Job.Data, Inv, Sound, Wrote, ExactlyCurrent, Ended, Known, AllSucceeded, IsReady, CanSave, KindOf, StoreQuiet, SavedAs,
           AtRevision, Quiet, Going, PagesData, Distinct, SetOf;
      ghost var c := platform.c;
      ghost var w0 := platform.w;
      ghost var v := job.Data();
      job.Columns();
      SoundKnows(c, w0, v);
      SoundIsKnown(c, w0, v);
      CurrentIsLive(w0, v);
      if IsReady(c, v) { ReadyKnows(c, v); }
      if job.state == Preprocessing {
        var _ := job.BeginRunning();
        job.Columns();
        RunningSave(c, w0, v, job.Data());
        CurrentAtRevision(w0, v, job.Data());
        var saved := platform.SaveWithEvent(job, JobRunning, Action.BeginRunning);
        job.Columns();
        WroteKnows(c, job.id, w0, platform.w);
        SavedIsKnown(c, w0, platform.w, v, job.Data(), Action.BeginRunning, saved.Ok?);
        if saved.Err? {
          return Err(saved.error);
        }
        SavedIsSound(c, platform.w, job.Data(), Action.BeginRunning);
      } else if job.state == Assembling {
        r := FinishAssembly(job);
        WroteKnows(c, job.id, w0, platform.w);
        KnownStays(w0, platform.w, v, v);
        return;
      } else if job.state != Running {
        WroteReflexive(c, job.id, w0);
        SoundStillOn(c, w0, v);
        return Err(Failure(PROCESSING_FAILED, "runtime"));
      } else {
        WroteReflexive(c, job.id, w0);
      }
      ghost var w1 := platform.w;
      ghost var u := job.Data();
      if platform.calm && c.solo && ExactlyCurrent(w0, v) && IsReady(c, v) {
        ReadyIsGoing(c, platform.calm, w1, v, u);
      }
      r := Run(job);
      WroteTransitive(c, job.id, w0, w1, platform.w);
    }

    // A running job: the page loop, then assembling.
    method Run(job: Job) returns (r: Result<Job, Fault>)
      requires Inv(platform.c, platform.w) && job.Valid() && Sound(platform.c, platform.w, job.Data()) && job.pages != []
      requires job.state == Running
      modifies platform`w, platform`outages, platform`own, job
      ensures Wrote(platform.c, job.id, old(platform.w), platform.w)
      ensures r.Ok? ==> r.value.Valid() && r.value.id == job.id && Ended(platform.w, r.value.Data())
      ensures job.Valid() && Known(platform.w, job.Data())
      ensures Going(platform.c, platform.calm, old(platform.w), old(job.Data()), 0) ==> r.Ok? && r.value.state == JobState.Succeeded
      ensures r.Err? && !DatabaseFault(r.error) ==> StillOn(platform.c, platform.w, job.id, old(job.attempt))
      ensures r.Err? ==> Survives(platform.calm, old(platform.w), old(job.Data()), platform.w, r.error)
    {
      hide StillOn, Evolves, Job.Data, Inv, Sound, Wrote, ExactlyCurrent, Ended, Known, AllSucceeded, Going, Along, PagesData, Distinct, SetOf;
      ghost var c := platform.c;
      ghost var w0 := platform.w;
      ghost var v := job.Data();
      job.Columns();
      SoundKnows(c, w0, v);
      SoundIsKnown(c, w0, v);
      var completed := RunPages(job);
      ghost var w1 := platform.w;
      WroteKnows(c, job.id, w0, w1);
      KnownStays(w0, w1, v, v);
      if completed.Err? || completed.value.state in {Failed, Cancelled} {
        return completed;
      }
      var last := completed.value;
      last.Columns();
      AlongLength(c, v, last.Data(), |v.pages|);
      ghost var k := last.attempt;
      if Going(c, platform.calm, w0, v, 0) {
        GoingKnows(c, platform.calm, w1, last.Data(), |v.pages|);
      }
      r := FinishRun(last);
      if r.Err? && !DatabaseFault(r.error) { SameStillOn(c, platform.w, job.id, k, v.attempt); }
      WroteTransitive(c, job.id, w0, w1, platform.w);
      WroteKnows(c, job.id, w1, platform.w);
      if last != job { KnownStays(w1, platform.w, v, v); }
    }

    // The preprocessor's pages, sorted by number, as new page objects.
    method NewPageObjects(job: Job) returns (r: Result<seq<Page>, Fault>)
      requires Inv(platform.c, platform.w) && job.Valid() && Sound(platform.c, platform.w, job.Data()) && job.state == Preprocessing
      modifies platform`w, platform`own
      ensures Wrote(platform.c, job.id, old(platform.w), platform.w)
      ensures r.Err? ==> r.error.Crash? || r.error.Failure?
      ensures r.Ok? ==> && fresh(r.value) && Distinct(r.value) && PagesData(r.value) == PreparedPages(platform.c, job.Data())
                        && Sound(platform.c, platform.w, job.Data()) && 0 < platform.c.pageCount(job.spec.upload)
                        && ImagesStored(platform.w, job.id, job.attempt, platform.c.pageCount(job.spec.upload))
      ensures platform.calm && ExactlyCurrent(old(platform.w), job.Data()) && 0 < platform.c.pageCount(job.spec.upload) ==>
                r.Ok? && ExactlyCurrent(platform.w, job.Data())
      ensures r.Err? ==> StillOn(platform.c, platform.w, job.id, job.attempt)
      ensures r.Err? ==> Survives(platform.calm, old(platform.w), old(job.Data()), platform.w, r.error)
    {
      hide StillOn, Evolves, Job.Data, Inv, Sound, Wrote, ExactlyCurrent, Seen, Held, Numbered, IsPreparation, ImagesStored, Distinct, SetOf,
           PagesData;
      ghost var c := platform.c;
      ghost var w0 := platform.w;
      ghost var v := job.Data();
      job.Columns();
      SoundKnows(c, w0, v);
      var data := job.Data();
      var prepared := platform.Prepare(data);
      StaysCurrent(w0, platform.w, v);
      HeldStillOn(c, platform.w, v);
      if prepared.Err? {
        return Err(prepared.error);
      }
      WroteSound(c, w0, platform.w, v);
      var sorted := Sort(prepared.value, NumberOf);
      SortedIsPrepared(c, v, prepared.value, sorted);
      var pages := MakePages(NewPages(sorted));
      return Ok(pages);
    }

    // Makes sure the job has pages: prepare, sort by number, save.
    method PreparePages(job: Job) returns (r: Result<(), Fault>)
      requires Inv(platform.c, platform.w) && job.Valid() && Sound(platform.c, platform.w, job.Data())
      modifies platform`w, platform`own, job
      ensures Wrote(platform.c, job.id, old(platform.w), platform.w)
      ensures job.Valid() && Known(platform.w, job.Data())
      ensures r.Ok? ==> Sound(platform.c, platform.w, job.Data()) && job.pages != []
      ensures platform.calm && ExactlyCurrent(old(platform.w), old(job.Data())) && 0 < platform.c.pageCount(job.spec.upload)
              && (old(job.pages) == [] ==> old(job.state) == Preprocessing) ==>
                r.Ok? && ExactlyCurrent(platform.w, job.Data()) && job.state == old(job.state)
                && (if old(job.pages) == [] then job.Data().pages == PreparedPages(platform.c, old(job.Data()))
                    else job.Data() == old(job.Data()))
      ensures old(job.pages) != [] || old(job.state) != Preprocessing ==>
                && platform.w == old(platform.w) && job.Data() == old(job.Data())
                && r == if old(job.pages) != [] then Ok(()) else Err(Failure(PROCESSING_FAILED, "runtime"))
      ensures r.Err? && !DatabaseFault(r.error) && Owned(old(job.state)) ==> StillOn(platform.c, platform.w, job.id, old(job.attempt))
      ensures job.attempt == old(job.attempt) && (r.Ok? ==> job.state == old(job.state))
      ensures r.Err? ==> Survives(platform.calm, old(platform.w), old(job.Data()), platform.w, r.error)
      ensures platform.calm && ExactlyCurrent(old(platform.w), old(job.Data())) && r.Ok? ==> ExactlyCurrent(platform.w, job.Data())
    {
      hide StillOn, Evolves, Job.Data, Inv, Sound, Wrote, ExactlyCurrent, Known, Seen, Held, Numbered, CanSave, KindOf, StoreQuiet, SavedAs, AtRevision,
           Quiet, ImagesStored, Distinct, SetOf, PagesData;
      ghost var c := platform.c;
      ghost var w0 := platform.w;
      ghost var v := job.Data();
      job.Columns();
      SoundKnows(c, w0, v);
      SoundIsKnown(c, w0, v);
      WroteReflexive(c, job.id, w0);
      if job.pages != [] {
        return Ok(());
      }
      CurrentIsLive(w0, v);
      if Owned(job.state) { SoundStillOn(c, w0, v); }
      if job.state != Preprocessing {
        return Err(Failure(PROCESSING_FAILED, "runtime"));
      }
      var pages := NewPageObjects(job);
      ghost var w1 := platform.w;
      WroteKnows(c, job.id, w0, w1);
      KnownStays(w0, w1, v, v);
      if pages.Err? {
        return Err(pages.error);
      }
      var added := AddPages(job, pages.value);
      WroteTransitive(c, job.id, w0, w1, platform.w);
      return added;
    }

    // The save of the prepared pages.
    method AddPages(job: Job, pages: seq<Page>) returns (r: Result<(), Fault>)
      requires Inv(platform.c, platform.w) && job.Valid() && Sound(platform.c, platform.w, job.Data()) && job.state == Preprocessing && job.pages == []
      requires Distinct(pages) && PagesData(pages) == PreparedPages(platform.c, job.Data()) && 0 < platform.c.pageCount(job.spec.upload)
      requires ImagesStored(platform.w, job.id, job.attempt, platform.c.pageCount(job.spec.upload))
      modifies platform`w, platform`own, job
      ensures Wrote(platform.c, job.id, old(platform.w), platform.w)
      ensures job.Valid() && Known(platform.w, job.Data()) && job.attempt == old(job.attempt)
      ensures r.Ok? ==> Sound(platform.c, platform.w, job.Data()) && ExactlyCurrent(platform.w, job.Data()) && job.pages != []
                        && job.state == old(job.state) && job.Data().pages == PreparedPages(platform.c, old(job.Data()))
      ensures r.Err? ==> DatabaseFault(r.error)
      ensures platform.calm && ExactlyCurrent(old(platform.w), old(job.Data())) ==> r.Ok?
    {
      hide Evolves, Job.Data, Inv, Sound, Wrote, ExactlyCurrent, Known, CanSave, KindOf, StoreQuiet, SavedAs, AtRevision, Quiet, ImagesStored,
           Distinct, SetOf, PagesData;
      ghost var c := platform.c;
      ghost var w1 := platform.w;
      ghost var v := job.Data();
      job.Columns();
      SoundKnows(c, w1, v);
      SoundIsKnown(c, w1, v);
      var _ := job.SetPages(pages);
      job.Columns();
      PagesSave(c, w1, v, job.Data());
      CurrentAtRevision(w1, v, job.Data());
      var saved := platform.SaveWithEvent(job, JobPagesPrepared, Action.PreparePages);
      job.Columns();
      WroteKnows(c, job.id, w1, platform.w);
      SavedIsKnown(c, w1, platform.w, v, job.Data(), Action.PreparePages, saved.Ok?);
      if saved.Err? {
        return Err(saved.error);
      }
      SavedIsSound(c, platform.w, job.Data(), Action.PreparePages);
      return Ok(());
    }

    // begin_preprocessing and its save, for a job that has not been started.
    method StartPreprocessing(job: Job) returns (r: Result<(), Fault>)
      requires Inv(platform.c, platform.w) && job.Valid() && Sound(platform.c, platform.w, job.Data())
      modifies platform`w, platform`own, job
      ensures Wrote(platform.c, job.id, old(platform.w), platform.w)
      ensures job.Valid() && Known(platform.w, job.Data()) && job.pages == old(job.pages)
      ensures r.Ok? ==> Sound(platform.c, platform.w, job.Data())
      ensures platform.calm && ExactlyCurrent(old(platform.w), old(job.Data())) ==>
                r.Ok? && ExactlyCurrent(platform.w, job.Data()) && job.Data().pages == old(job.Data()).pages
                && job.state == if old(job.state) in {Queued, Retrying} then Preprocessing else old(job.state)
      ensures old(job.state) !in {Queued, Retrying} ==> r.Ok? && platform.w == old(platform.w) && job.Data() == old(job.Data())
      ensures r.Err? ==> DatabaseFault(r.error)
      ensures job.attempt == old(job.attempt)
      ensures r.Ok? ==> job.state == if old(job.state) in {Queued, Retrying} then Preprocessing else old(job.state)
      ensures r.Err? ==> Survives(platform.calm, old(platform.w), old(job.Data()), platform.w, r.error)
      ensures platform.calm && ExactlyCurrent(old(platform.w), old(job.Data())) ==> r.Ok?
    {
      hide Evolves, Job.Data, Inv, Sound, Wrote, ExactlyCurrent, Known, CanSave, KindOf, StoreQuiet, SavedAs, AtRevision, Quiet,
           Distinct, SetOf, PagesData;
      ghost var c := platform.c;
      ghost var w0 := platform.w;
      ghost var v := job.Data();
      job.Columns();
      SoundKnows(c, w0, v);
      SoundIsKnown(c, w0, v);
      WroteReflexive(c, job.id, w0);
      if job.state in {Queued, Retrying} {
        var _ := job.BeginPreprocessing();
        job.Columns();
        PreprocessingSave(c, w0, v, job.Data());
        CurrentAtRevision(w0, v, job.Data());
        var saved := platform.SaveWithEvent(job, JobPreprocessing, Action.BeginPreprocessing);
        job.Columns();
        WroteKnows(c, job.id, w0, platform.w);
        SavedIsKnown(c, w0, platform.w, v, job.Data(), Action.BeginPreprocessing, saved.Ok?);
        if saved.Err? {
          return Err(saved.error);
        }
        SavedIsSound(c, platform.w, job.Data(), Action.BeginPreprocessing);
      }
      return Ok(());
    }

    // The try block of process for a job that this message is to move forward.
    method WorkOn(job: Job) returns (r: Result<Job, Fault>)
      requires Inv(platform.c, platform.w) && job.Valid() && Sound(platform.c, platform.w, job.Data())
      requires !Terminal(job.state)
      modifies platform`w, platform`outages, platform`own, job
      ensures Wrote(platform.c, job.id, old(platform.w), platform.w)
      ensures r.Ok? ==> r.value.Valid() && r.value.id == job.id && Ended(platform.w, r.value.Data())
      ensures job.Valid() && Known(platform.w, job.Data())
      ensures CanSucceed(platform.c, platform.calm, old(platform.w), old(job.Data())) ==>
                r.Ok? && r.value.state == JobState.Succeeded
      ensures Cancelling(platform.calm, old(platform.w), old(job.Data())) ==>
                || (r.Ok? && r.value.state == Cancelled)
                || (r.Err? && r.error.Failure? && Cancelling(platform.calm, platform.w, old(job.Data())))
      ensures r.Err? && !DatabaseFault(r.error) ==> StillOn(platform.c, platform.w, job.id, old(job.attempt))
      ensures r.Err? ==> Survives(platform.calm, old(platform.w), old(job.Data()), platform.w, r.error)
    {
      hide StillOn, Cancelling, Evolves, Job.Data, Inv, Sound, Wrote, ExactlyCurrent, Ended, Known, CanFinish, Quiet, CanSucceed, Distinct, SetOf, PagesData;
      ghost var c := platform.c;
      ghost var w0 := platform.w;
      ghost var v := job.Data();
      job.Columns();
      SoundKnows(c, w0, v);
      CurrentIsLive(w0, v);
      if CanSucceed(c, platform.calm, w0, v) { CanSucceedKnows(c, platform.calm, w0, v); }
      var found := platform.GetUpload(job.id, job.spec.upload);
      ghost var w1 := platform.w;
      QuietWrote(c, job.id, w0, w1);
      SoundCarried(c, w0, w1, v);
      SoundIsKnown(c, w1, v);
      UntouchedJob(job.id, w0, w1);
      StaysCurrent(w0, w1, v);
      if Cancelling(platform.calm, w0, v) {
        CancellingKnows(platform.calm, w0, v);
        CancellingStays(platform.calm, w0, w1, v);
      }
      if found.Err? {
        return Err(found.error);
      }
      if !found.value {
        r := FailJob(job, "upload_not_found", PROCESSING_FAILED);
        job.Columns();
        WroteTransitive(c, job.id, w0, w1, platform.w);
        WroteKnows(c, job.id, w1, platform.w);
        FailedIsKnown(c, w1, platform.w, v, job.Data(), r.Ok?);
        return;
      }
      r := PrepareAndRun(job);
      WroteTransitive(c, job.id, w0, w1, platform.w);
    }

    method PrepareAndRun(job: Job) returns (r: Result<Job, Fault>)
      requires Inv(platform.c, platform.w) && job.Valid() && Sound(platform.c, platform.w, job.Data())
      requires !Terminal(job.state)
      modifies platform`w, platform`outages, platform`own, job
      ensures Wrote(platform.c, job.id, old(platform.w), platform.w)
      ensures r.Ok? ==> r.value.Valid() && r.value.id == job.id && Ended(platform.w, r.value.Data())
      ensures job.Valid() && Known(platform.w, job.Data())
      ensures platform.calm && platform.c.solo && ExactlyCurrent(old(platform.w), old(job.Data())) && CanFinish(platform.c, old(job.Data())) ==>
                r.Ok? && r.value.state == JobState.Succeeded
      ensures Cancelling(platform.calm, old(platform.w), old(job.Data())) ==>
                || (r.Ok? && r.value.state == Cancelled)
                || (r.Err? && r.error.Failure? && Cancelling(platform.calm, platform.w, old(job.Data())))
      ensures r.Err? && !DatabaseFault(r.error) ==> StillOn(platform.c, platform.w, job.id, old(job.attempt))
      ensures r.Err? ==> Survives(platform.calm, old(platform.w), old(job.Data()), platform.w, r.error)
    {
      hide StillOn, Cancelling, Evolves, Job.Data, Inv, Sound, Wrote, ExactlyCurrent, Ended, Known, CanFinish, IsReady, Quiet, Distinct, SetOf, PagesData;
      ghost var c := platform.c;
      ghost var w0 := platform.w;
      ghost var v := job.Data();
      job.Columns();
      SoundKnows(c, w0, v);
      if CanFinish(c, v) { CanFinishKnows(c, v); }
      if Cancelling(platform.calm, w0, v) { CancellingKnows(platform.calm, w0, v); }
      var started := StartPreprocessing(job);
      ghost var w1 := platform.w;
      ghost var u := job.Data();
      job.Columns();
      WroteKnows(c, job.id, w0, w1);
      if started.Err? {
        return Err(started.error);
      }
      var prepared := PreparePages(job);
      ghost var w2 := platform.w;
      job.Columns();
      WroteKnows(c, job.id, w1, w2);
      WroteTransitive(c, job.id, w0, w1, w2);
      if prepared.Err? {
        return Err(prepared.error);
      }
      if platform.calm && ExactlyCurrent(w0, v) && CanFinish(c, v) { NowReady(c, v, u, job.Data()); }
      r := Advance(job);
      WroteTransitive(c, job.id, w0, w2, platform.w);
    }

    // The try block of process. The second result is the local variable job, for the except clauses.
    method Attempt(m: Message) returns (r: Result<Job?, Fault>, job: Job?)
      requires Inv(platform.c, platform.w) && m.job in platform.w.jobs
      modifies platform`w, platform`outages, platform`own
      ensures Wrote(platform.c, m.job, old(platform.w), platform.w)
      ensures r.Ok? && Reached(old(platform.w), m.job, m.attempt) ==> Settled(platform.w, m)
      ensures r.Err? && r.error !in {Crash, DatabaseDown, ConcurrentUpdate} ==>
                job != null && fresh(job) && job.Valid() && job.id == m.job && Known(platform.w, job.Data())
      ensures Settled(old(platform.w), m) ==>
                && Quiet(platform.c, m.job, old(platform.w), platform.w)
                && (platform.calm ==> r.Ok? && Untouched(m.job, old(platform.w), platform.w))
                && (r.Err? ==> r.error in {Crash, DatabaseDown})
      ensures MustSucceed(platform.c, platform.calm, old(platform.w), m) ==>
                r.Ok? && r.value != null && r.value.state == JobState.Succeeded && Ended(platform.w, r.value.Data())
      ensures MustCancel(platform.calm, old(platform.w), m) ==>
                || (r.Ok? && r.value != null && r.value.state == Cancelled && Ended(platform.w, r.value.Data()))
                || (r.Err? && r.error.Failure? && MustCancel(platform.calm, platform.w, m))
      ensures r.Err? && !DatabaseFault(r.error) ==> StillOn(platform.c, platform.w, m.job, m.attempt)
      ensures Settled(old(platform.w), m) ==> platform.own == old(platform.own)
      ensures platform.calm && r.Err? ==> r.error.Failure? && IsLive(platform.w, m.job)
    {
      hide StillOn, MustCancel, Cancelling, Evolves, Job.Data, Inv, Sound, Wrote, Quiet, Settled, Reached, ExactlyCurrent, Untouched, Ended, Known, CanFinish, CanSucceed,
           MustSucceed, Seen, Numbered, Held, SameButCancel, Distinct, SetOf, PagesData;
      ghost var c := platform.c;
      ghost var w0 := platform.w;
      HistoryKnown(c, w0, m.job);
      job := null;
      if MustCancel(platform.calm, w0, m) { MustCancelKnows(platform.calm, w0, m); }
      if MustSucceed(c, platform.calm, w0, m) { MustSucceedKnows(c, platform.calm, w0, m); }
      var got := platform.Get(m.job);
      ghost var w1 := platform.w;
      QuietWrote(c, m.job, w0, w1);
      WroteKnows(c, m.job, w0, w1);
      if got.Err? {
        return Err(got.error), job;
      }
      job := got.value;
      if job == null {
        MissingSettles(c, w1, m);
        return Ok(null), job;
      }
      job.Columns();
      ghost var v := job.Data();
      LoadedSound(c, w1, v);
      if MustSucceed(c, platform.calm, w0, m) { StillMustSucceed(c, platform.calm, w0, w1, v, m); }
      if MustCancel(platform.calm, w0, m) { LoadedToCancel(platform.calm, w0, w1, v, m); }
      if Reached(w0, m.job, m.attempt) { LoadedReached(c, w0, w1, v, m.attempt); }
      if Settled(w0, m) && IsLive(w0, m.job) { LoadedSettled(c, w0, w1, v, m); }
      if job.attempt != m.attempt {
        if Reached(w0, m.job, m.attempt) { SoundSettles(c, w1, v, m); }
        return Ok(job), job;
      }
      if Terminal(job.state) {
        var repaired := platform.RepairEvent(job, KindOfState(job.state));
        QuietTransitive(c, m.job, w0, w1, platform.w);
        QuietWrote(c, m.job, w0, platform.w);
        if platform.calm { RepairedCalmly(m.job, w0, w1, platform.w); }
        if repaired.Err? {
          return Err(repaired.error), job;
        }
        SoundCarried(c, w1, platform.w, v);
        SoundSettles(c, platform.w, v, m);
        return Ok(job), job;
      }
      var done := WorkOn(job);
      WroteTransitive(c, m.job, w0, w1, platform.w);
      WroteKnows(c, m.job, w1, platform.w);
      if Cancelling(platform.calm, platform.w, v) { StillToCancel(platform.calm, platform.w, v, m); }
      if done.Err? {
        return Err(done.error), job;
      }
      done.value.Columns();
      if Reached(w0, m.job, m.attempt) {
        WroteReached(c, w0, platform.w, m.job, m.attempt);
        done.value.Columns();
        EndedSettles(c, platform.w, done.value.Data(), m);
      }
      return Ok(done.value), job;
    }

    // except ConcurrentJobUpdateError
    method AfterConflict(m: Message) returns (r: Result<Job?, Fault>)
      requires Inv(platform.c, platform.w) && m.job in platform.w.jobs
      modifies platform`w, platform`own
      ensures Wrote(platform.c, m.job, old(platform.w), platform.w)
      ensures r.Ok? && Reached(old(platform.w), m.job, m.attempt) ==> Settled(platform.w, m)
      ensures r.Err? ==> DatabaseFault(r.error)
      ensures platform.calm && !IsLive(old(platform.w), m.job) ==> r == Ok(null)
      ensures platform.calm && IsLive(old(platform.w), m.job) ==>
                var v := Current(old(platform.w), m.job);
                && (r.Err? <==> v.attempt == m.attempt && v.state in {Queued, Preprocessing, Running, Assembling, Retrying})
                && (r.Ok? ==> r.value != null && r.value.attempt == v.attempt
                              && r.value.state == if v.state == CancelRequested then Cancelled else v.state)
    {
      hide Evolves, Job.Data, Inv, Sound, Wrote, Quiet, Settled, Reached, Ended, Seen, Numbered, Held, Stale, ExactlyCurrent, Untouched,
           SameButCancel, Distinct, SetOf, PagesData;
      ghost var c := platform.c;
      ghost var w0 := platform.w;
      HistoryKnown(c, w0, m.job);
      var got := platform.Get(m.job);
      ghost var w1 := platform.w;
      QuietWrote(c, m.job, w0, w1);
      WroteKnows(c, m.job, w0, w1);
      if got.Err? {
        return Err(got.error);
      }
      var latest := got.value;
      if latest == null {
        MissingSettles(c, w1, m);
        return Ok(null);
      }
      latest.Columns();
      CurrentIsLive(w1, latest.Data());
      LoadedSound(c, w1, latest.Data());
      if Reached(w0, m.job, m.attempt) {
        LoadedReached(c, w0, w1, latest.Data(), m.attempt);
        WroteReached(c, w0, w1, m.job, m.attempt);
      }
      if latest.state == CancelRequested {
        var ended := FinishCancel(latest);
        latest.Columns();
        WroteTransitive(c, m.job, w0, w1, platform.w);
        WroteKnows(c, m.job, w1, platform.w);
        if ended.Err? {
          return Err(ended.error);
        }
        if Reached(w1, m.job, m.attempt) {
          WroteReached(c, w1, platform.w, m.job, m.attempt);
          EndedSettles(c, platform.w, latest.Data(), m);
        }
        return Ok(latest);
      }
      if Terminal(latest.state) || latest.attempt != m.attempt {
        if Reached(w0, m.job, m.attempt) { SoundSettles(c, w1, latest.Data(), m); }
        return Ok(latest);
      }
      return Err(DatabaseDown);
    }

    // The job the handler found is cancelled if that was requested, and failed otherwise.
    method EndFailed(m: Message, latest: Job, code: int, reason: string) returns (r: Result<Job?, Fault>)
      requires m.job == latest.id && Inv(platform.c, platform.w) && latest.Valid() && !Terminal(latest.state)
      requires Sound(platform.c, platform.w, latest.Data()) || Stale(platform.w, latest.Data())
      modifies platform`w, platform`own, latest
      ensures Wrote(platform.c, latest.id, old(platform.w), platform.w)
      ensures r.Ok? ==> r.value == latest && latest.Valid() && Ended(platform.w, latest.Data())
                        && latest.state == if old(latest.state) == CancelRequested then Cancelled else Failed
      ensures latest.Valid()
      ensures platform.calm && ExactlyCurrent(old(platform.w), old(latest.Data())) ==> r.Ok?
      ensures r.Ok? && Reached(old(platform.w), m.job, m.attempt) ==> Settled(platform.w, m)
      ensures FailsAbove(old(platform.own), platform.own, m.attempt) ==> NewerUnfinished(Some(old(latest.Data())), m.attempt)
      ensures r.Ok? && NewerUnfinished(Some(old(latest.Data())), m.attempt) ==> FailsAbove(old(platform.own), platform.own, m.attempt)
      ensures !IsLive(old(platform.w), latest.id) ==> platform.own == old(platform.own)
      ensures r.Ok? && latest.state == Failed ==> latest.code == code && latest.reason == reason
      ensures r.Ok? ==> latest.attempt == old(latest.attempt)
    {
      hide Reached, Settled, FailsAbove, Job.Data, Inv, Evolves, Sound, Stale, Wrote, Ended, ExactlyCurrent, SavedOne, Distinct, SetOf, PagesData;
      latest.Columns();
      ghost var w0 := platform.w;
      ghost var own0 := platform.own;
      ghost var v := latest.Data();
      var ended;
      if latest.state == CancelRequested {
        ended := FinishCancel(latest);
      } else {
        ended := FailJob(latest, reason, code);
      }
      latest.Columns();
      HandlerFails(own0, platform.own, m.attempt, v, code, reason, ended.Ok?);
      WroteKnows(platform.c, m.job, w0, platform.w);
      if ended.Ok? && Reached(w0, m.job, m.attempt) {
        WroteReached(platform.c, w0, platform.w, m.job, m.attempt);
        EndedSettles(platform.c, platform.w, latest.Data(), m);
      }
      r := if ended.Err? then Err(ended.error) else Ok(ended.value);
    }

    /**
     except Exception, for everything but database errors. found is the reload. The attempt that is
     failed here is above the message's exactly if the reload finds such an attempt unfinished and not
     being cancelled; with one live worker it never does.
     */
    method AfterFailure(m: Message, job: Job, code: int, reason: string) returns (r: Result<Job?, Fault>, ghost found: Option<JobData>)
      requires Inv(platform.c, platform.w) && m.job in platform.w.jobs && StillOn(platform.c, platform.w, m.job, m.attempt)
      requires job.Valid() && job.id == m.job && Known(platform.w, job.Data())
      modifies platform`w, platform`own, job
      ensures Wrote(platform.c, m.job, old(platform.w), platform.w)
      ensures r.Ok? && Reached(old(platform.w), m.job, m.attempt) ==> Settled(platform.w, m)
      ensures MustCancel(platform.calm, old(platform.w), m) ==>
                r.Ok? && r.value != null && r.value.state == Cancelled && Ended(platform.w, r.value.Data())
      ensures found.Some? ==> found.value.id == m.job && Seen(platform.w, found.value)
      ensures FailsAbove(old(platform.own), platform.own, m.attempt) ==> NewerUnfinished(found, m.attempt) && !platform.c.solo
      ensures r.Ok? && NewerUnfinished(found, m.attempt) ==> FailsAbove(old(platform.own), platform.own, m.attempt)
      ensures platform.calm && IsLive(old(platform.w), m.job) ==>
                r.Ok? && found == Some(Current(old(platform.w), m.job))
      ensures platform.calm && IsLive(old(platform.w), m.job) ==>
                var v := Current(old(platform.w), m.job);
                && r.value != null && r.value.attempt == v.attempt
                && r.value.state == (if v.state == CancelRequested then Cancelled else if Terminal(v.state) then v.state else Failed)
                && (!Terminal(v.state) && v.state != CancelRequested ==> r.value.code == code && r.value.reason == reason)
    {
      hide MustCancel, Evolves, Job.Data, Inv, Sound, Wrote, Quiet, Settled, Reached, Ended, Seen, Numbered, Held, Stale, ExactlyCurrent, Untouched, Known,
           SameButCancel, Distinct, SetOf, PagesData, StillOn, FailsAbove, SavedOne;
      ghost var c := platform.c;
      ghost var w0 := platform.w;
      found := None;
      job.Columns();
      if MustCancel(platform.calm, w0, m) { MustCancelKnows(platform.calm, w0, m); }
      ghost var own0 := platform.own;
      NoSaveFails(own0, m.attempt);
      GetHistory(c, w0, m.job);
      if c.solo { StillOnHeld(c, w0, m.job, m.attempt); }
      var got := platform.Get(job.id);
      ghost var w1 := platform.w;
      QuietWrote(c, m.job, w0, w1);
      WroteKnows(c, m.job, w0, w1);
      if got.Err? {
        return Err(got.error), found;
      }
      var latest: Job := if got.value != null then got.value else job;
      latest.Columns();
      ghost var v := latest.Data();
      CurrentIsLive(w1, v);
      if got.value != null {
        found := Some(v);
        LoadedSound(c, w1, v);
        if c.solo { SameAttempt(c, Current(w0, m.job), v); }
        if Reached(w0, m.job, m.attempt) { LoadedReached(c, w0, w1, v, m.attempt); }
      } else {
        KnownStays(w0, w1, v, v);
        MissingSettles(c, w1, m);
      }
      if Terminal(latest.state) && latest.state != CancelRequested {
        if got.value != null && Reached(w0, m.job, m.attempt) { SoundSettles(c, w1, v, m); }
        return Ok(latest), found;
      }
      if Reached(w0, m.job, m.attempt) { WroteReached(c, w0, w1, m.job, m.attempt); }
      r := EndFailed(m, latest, code, reason);
      WroteTransitive(c, m.job, w0, w1, platform.w);
      if found.Some? { WroteSeen(c, w1, platform.w, v); }
    }

    /**
     process: whatever fails and whoever interferes, it ends, and a normal return for a message that
     was issued leaves nothing for that message to do. A message that was settled before is answered
     without a write or an engine call. If nothing fails, a pending cancel is carried out and, with one
     live worker, a job that can be finished succeeds.
     */
    method Process(m: Message) returns (r: Result<Job?, Fault>)
      requires Inv(platform.c, platform.w)
      modifies platform`w, platform`outages, platform`own
      ensures Inv(platform.c, platform.w) && Evolves(old(platform.w), platform.w)
      ensures m.schema != 1 || m.job !in old(platform.w).jobs ==> r == Ok(null) && platform.w == old(platform.w)
      ensures m.schema == 1 && r.Ok? && OnceIssued(old(platform.w), m.job, m.attempt) ==> Settled(platform.w, m)
      ensures m.schema == 1 && Settled(old(platform.w), m) ==>
                && Quiet(platform.c, m.job, old(platform.w), platform.w)
                && (platform.calm ==> r.Ok? && Untouched(m.job, old(platform.w), platform.w))
                && (r.Err? ==> r.error in {Crash, DatabaseDown})
      ensures m.schema == 1 && MustSucceed(platform.c, platform.calm, old(platform.w), m) ==>
                r.Ok? && r.value != null && r.value.state == JobState.Succeeded && Ended(platform.w, r.value.Data())
      ensures m.schema == 1 && MustCancel(platform.calm, old(platform.w), m) ==>
                r.Ok? && r.value != null && r.value.state == Cancelled && Ended(platform.w, r.value.Data())
      ensures m.schema != 1 || m.job !in old(platform.w).jobs || Settled(old(platform.w), m) ==>
                platform.own == old(platform.own)
      ensures platform.calm ==> r.Ok?
    {
      hide MustCancel, Job.Data, Inv, Wrote, Quiet, Settled, Reached, Untouched, Ended, Known, MustSucceed, Evolves, OnceIssued, Distinct, SetOf,
           PagesData;
      ghost var c := platform.c;
      ghost var w0 := platform.w;
      EvolvesReflexive(w0);
      if m.schema != 1 {
        return Ok(null);
      }
      if m.job !in platform.w.jobs {
        NeverIssued(c, platform.calm, w0, m);
        return Ok(null);
      }
      if OnceIssued(w0, m.job, m.attempt) { IssuedReached(w0, m); }
      var job;
      r, job := Attempt(m);
      ghost var w1 := platform.w;
      WroteKnows(c, m.job, w0, w1);
      if r.Ok? || r.error in {Crash, DatabaseDown} {
        return;
      }
      if Reached(w0, m.job, m.attempt) { WroteReached(c, w0, w1, m.job, m.attempt); }
      if r.error == ConcurrentUpdate {
        r := AfterConflict(m);
      } else {
        ghost var found;
        r, found := AfterFailure(m, job, r.error.code, r.error.reason);
      }
      WroteTransitive(c, m.job, w0, w1, platform.w);
      WroteKnows(c, m.job, w0, platform.w);
    }
  }
}
