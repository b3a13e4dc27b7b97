/**
 The services a process awaits, as one object: the job repository, the event repository, the
 object storage, the preprocessor and the engine. At every await the other processes may take
 any number of steps (Interfere), the process may crash, and the service may fail; a failed
 write may or may not have taken effect. Every operation keeps Inv and only makes steps the
 others allow (Evolves), so any interleaving of any processes built on it keeps Inv.
 */
module Platform {
  import opened Domain
  import opened Aggregate
  import opened History
  import opened EventLog
  import opened World
  import opened Pauses
  import opened Rely
  import opened Awaits

  datatype Fault =
    | Crash
    | ConcurrentUpdate
    | DatabaseDown
    | TransientEngine(code: int, reason: string)
    | Failure(code: int, reason: string)

  datatype PreparedPage = PreparedPage(number: nat, key: Key)

  datatype Recognition = Recognition(reading: Reading, meta: nat)

  // What a process has done itself: the versions it saved, the objects it put, its engine calls and pauses.
  datatype Deeds = Deeds(saves: seq<Entry>, puts: nat, calls: nat, pauses: seq<nat>)

  // One save more, of action a on attempt k.
  predicate SavedOne(before: Deeds, after: Deeds, a: Action, k: nat) {
    && |after.saves| == |before.saves| + 1 && before.saves <= after.saves
    && after.saves[|before.saves|].act == a && after.saves[|before.saves|].job.attempt == k
  }

  // Among the saves added, one fails an attempt above k.
  predicate FailsAbove(before: Deeds, after: Deeds, k: nat) {
    exists n :: |before.saves| <= n < |after.saves| && after.saves[n].act.Fail? && after.saves[n].job.attempt > k
  }

  lemma WithSaveIsOne(own: Deeds, a: Action, v: JobData)
    ensures SavedOne(own, WithSave(own, a, v), a, v.attempt) && WithSave(own, a, v).pauses == own.pauses
  {}

  lemma OneSaveFails(before: Deeds, after: Deeds, a: Action, k: nat, n: nat)
    requires SavedOne(before, after, a, n)
    ensures FailsAbove(before, after, k) <==> a.Fail? && k < n
  {
    if a.Fail? && k < n { assert after.saves[|before.saves|].act.Fail?; }
  }

  lemma NoSaveFails(own: Deeds, k: nat)
    ensures !FailsAbove(own, own, k)
  {}

  function WithSave(own: Deeds, a: Action, v: JobData): Deeds {
    own.(saves := own.saves + [Entry(a, v.(revision := v.revision + 1))])
  }

  method MakePages(ds: seq<PageData>) returns (pages: seq<Page>)
    ensures Distinct(pages) && PagesData(pages) == ds
    ensures fresh(pages)
  {
    pages := [];
    for i := 0 to |ds|
      invariant |pages| == i && Distinct(pages) && fresh(pages)
      invariant forall j | 0 <= j < i :: pages[j].Data() == ds[j]
    {
      var p := new Page(ds[i]);
      pages := pages + [p];
    }
  }

  method Enumerate(s: set<Artifact>) returns (list: seq<Artifact>)
    ensures SetOf(list) == s
  {
    list := [];
    var rest := s;
    while rest != {}
      invariant SetOf(list) + rest == s
      decreases rest
    {
      var a :| a in rest;
      rest := rest - {a};
      list := list + [a];
    }
  }

  // Another object with the same contents.
  method CopyOf(job: Job) returns (copy: Job)
    ensures fresh(copy) && fresh(copy.pages) && copy.Valid() && copy.Data() == job.Data()
  {
    var data := job.Data();
    var pageObjects := MakePages(data.pages);
    copy := new Job.Load(data, pageObjects, job.artifacts);
  }

  class Platform {
    const c: Config
    var w: State
    // Transient engine failures still to come; only limited when several workers share a job.
    var outages: nat
    // Whether this is a run in which nothing fails and nobody else touches the jobs worked on.
    const calm: bool
    // What this process has done, whether or not it was told that it took effect.
    ghost var own: Deeds

    constructor (c: Config, calm: bool)
      ensures Inv(c, w) && this.c == c && this.calm == calm && own == Deeds([], 0, 0, [])
    {
      this.c := c;
      this.calm := calm;
      w := State(map[], map[], map[], map[], map[], [], map[], map[], {}, [], 0);
      outages := 0;
      own := Deeds([], 0, 0, []);
    }

    /**
     An await. The caller learns only the contract: any number of steps of other processes.
     (The body is the schedule in which nobody else runs.)
     */
    method Interfere(id: JobId)
      requires Inv(c, w) && id in w.jobs
      modifies `w
      ensures Quiet(c, id, old(w), w) && id in w.jobs
      ensures calm ==> Untouched(id, old(w), w)
    {
      OthersReflexive(c, id, w);
      Carry(c, id, w, w);
      CarryHeld(c, id, w, w);
    }

    method MayFail() returns (fails: bool, crash: bool)
      ensures fails ==> !calm
    {
      fails, crash := *, *;
      fails := fails && !calm;
    }

    // ---- job repository ----

    method Get(id: JobId) returns (r: Result<Job?, Fault>)
      requires Inv(c, w) && id in w.jobs
      modifies `w
      ensures Quiet(c, id, old(w), w) && id in w.jobs
      ensures r.Err? ==> r.error in {Crash, DatabaseDown} && !calm
      ensures r.Ok? && r.value == null ==> !IsLive(w, id)
      ensures r.Ok? && !IsLive(old(w), id) ==> r.value == null
      ensures r.Ok? && r.value != null ==>
                var job := r.value;
                && fresh(job) && fresh(job.pages) && job.Valid() && job.id == id
                && Seen(w, job.Data()) && Numbered(c, id, job.Data()) && Current(old(w), id).revision <= job.revision
                && (Owned(job.state) ==> Held(c, w, job.Data()))
      ensures r.Ok? ==> forall v: JobData | c.solo && v.id == id && Held(c, old(w), v) ::
                          r.value != null && SameButCancel(r.value.Data(), v)
      ensures calm && IsLive(old(w), id) ==>
                r.Ok? && r.value != null && ExactlyCurrent(w, r.value.Data())
                && w.jobs[id] == old(w).jobs[id]
      ensures calm ==> Untouched(id, old(w), w)
    {
      hide Inv, Quiet, Seen, Held, Untouched, ExactlyCurrent, PageRows, ArtifactRows, SameButCancel, Numbered;
      ghost var w0 := w;
      Interfere(id);
      ghost var w1 := w;
      GoneStays(c, id, w0, w1);
      var fails, crash := MayFail();
      if fails {
        return Err(if crash then Crash else DatabaseDown);
      }
      if !IsLive(w, id) {
        GetNothing(c, id, w0, w1);
        return Ok(null);
      }
      GetHistory(c, w, id);
      var row := Current(w, id);
      Interfere(id);
      ghost var w2 := w;
      var pages := PageRows(w, id, row.attempt);
      Interfere(id);
      ghost var w3 := w;
      GetChain(c, id, w0, w1, w2, w3);
      UntouchedChain(id, w0, w1, w2, w3);
      var artifacts := ArtifactRows(w, id, row.attempt);
      fails, crash := MayFail();
      if fails {
        return Err(if crash then Crash else DatabaseDown);
      }
      var data := row.(pages := pages, artifacts := artifacts);
      var pageObjects := MakePages(pages);
      var list := Enumerate(artifacts);
      var job := new Job.Load(data, pageObjects, list);
      GetResult(c, id, w0, w1, w2, w3);
      r := Ok(job);
    }

    // The transactional save: compare-and-swap on the revision of an unclaimed row, the page and
    // artifact rows, and the event, or nothing.
    method SaveRows(v: JobData, kind: EventKind, a: Action) returns (r: Result<Event, Fault>)
      requires Inv(c, w) && CanSave(c, w, v, a) && !a.Retry? && kind == KindOf(Entry(a, v))
      modifies `w, `own
      ensures Wrote(c, v.id, old(w), w) && StoreQuiet(c, v.id, old(w), w)
      ensures own == old(own) || own == WithSave(old(own), a, v)
      ensures r.Ok? ==> own == WithSave(old(own), a, v)
      ensures r.Err? && r.error == ConcurrentUpdate ==> own == old(own)
      ensures !IsLive(old(w), v.id) ==> own == old(own)
      ensures r.Ok? ==> SavedAs(c, w, v.(revision := v.revision + 1), a)
      ensures r.Err? ==> r.error in {Crash, DatabaseDown, ConcurrentUpdate}
      ensures r.Err? && r.error != ConcurrentUpdate ==> !calm
      ensures r.Err? && r.error == ConcurrentUpdate ==> Quiet(c, v.id, old(w), w)
      ensures calm && AtRevision(old(w), v) ==> r.Ok?
    {
      hide Inv, Others, Evolves, CarriesSeen, CarriesHeld, Untouched, StoreQuiet, CanSave, Enabled, Apply, KindOf, Append,
           ExactlyCurrent, Charged, Rested, Saved, Quiet, Wrote, SavedAs;
      ghost var w0 := w;
      CanSaveKnows(c, w, v, a);
      Interfere(v.id);
      ghost var w1 := w;
      SaveStable(c, w0, w1, v, a);
      SaveNothing(c, v.id, w0, w1);
      SaveMissed(c, v, w0, w1);
      GoneStays(c, v.id, w0, w1);
      var fails, crash := MayFail();
      if fails {
        return Err(if crash then Crash else DatabaseDown);
      }
      if !AtRevision(w, v) {
        return Err(ConcurrentUpdate);
      }
      var expires: int := *;
      SaveHit(c, w0, w1, v, a, expires);
      r := Ok(EventFor(MaxSequence(w.jobs[v.id].log) + 1, kind, v));
      w := Saved(w, v.(revision := v.revision + 1), kind, a, expires);
      own := WithSave(own, a, v);
      fails, crash := MayFail();
      if fails {
        return Err(if crash then Crash else DatabaseDown);
      }
    }

    method SaveWithEvent(job: Job, kind: EventKind, a: Action) returns (r: Result<Event, Fault>)
      requires Inv(c, w) && job.Valid() && CanSave(c, w, job.Data(), a)
      requires !a.Retry? && kind == KindOf(Entry(a, job.Data()))
      modifies `w, `own, job`revision
      ensures Wrote(c, job.id, old(w), w) && StoreQuiet(c, job.id, old(w), w)
      ensures own == old(own) || own == WithSave(old(own), a, old(job.Data()))
      ensures r.Ok? ==> own == WithSave(old(own), a, old(job.Data()))
      ensures r.Err? && r.error == ConcurrentUpdate ==> own == old(own)
      ensures !IsLive(old(w), job.id) ==> own == old(own)
      ensures job.Data() == old(job.Data()).(revision := job.revision)
      ensures r.Ok? ==> job.revision == old(job.revision) + 1 && SavedAs(c, w, job.Data(), a)
      ensures r.Err? ==> r.error in {Crash, DatabaseDown, ConcurrentUpdate} && job.revision == old(job.revision)
      ensures r.Err? && r.error != ConcurrentUpdate ==> !calm
      ensures r.Err? && r.error == ConcurrentUpdate ==> Quiet(c, job.id, old(w), w)
      ensures calm && AtRevision(old(w), old(job.Data())) ==> r.Ok?
    {
      hide Inv, CanSave, KindOf, Quiet, Wrote, StoreQuiet, SavedAs, AtRevision;
      r := SaveRows(job.Data(), kind, a);
      if r.Ok? {
        job.revision := job.revision + 1;
      }
    }

    // ---- object storage ----

    method PutBytes(ghost v: JobData, key: Key, b: Blob) returns (r: Result<Digest, Fault>)
      requires Inv(c, w) && Writable(c, w, v, key, b)
      modifies `w, `own
      ensures Stored(c, key.job, key, old(w), w) && own == old(own).(puts := own.puts)
      ensures r.Ok? ==> key in w.objects && w.objects[key] == b && r.value == c.sha(b)
      ensures r.Err? ==> (r.error.Crash? || r.error.Failure?) && !calm
      ensures calm && key.job in old(w).jobs ==>
                key.job in w.jobs && w.jobs[key.job] == old(w).jobs[key.job]
    {
      hide Inv, Quiet, Writable, Stored, Untouched;
      ghost var w0 := w;
      WritableKnows(c, w, v, key, b);
      Interfere(key.job);
      WritableStable(c, w0, w, v, key, b);
      AfterPut(c, w0, w, v, key, b);
      UntouchedJob(key.job, w0, w);
      var fails, crash := MayFail();
      var fault := StorageFault(crash);
      if fails {
        return Err(fault);
      }
      w := Put(w, key, b);
      own := own.(puts := own.puts + 1);
      fails, crash := MayFail();
      if fails {
        fault := StorageFault(crash);
        return Err(fault);
      }
      r := Ok(c.sha(b));
    }

    method StorageFault(crash: bool) returns (fault: Fault)
      ensures fault.Crash? || fault.Failure?
    {
      var code: int := *;
      fault := if crash then Crash else Failure(code, "storage_unavailable");
    }

    method GetBytes(id: JobId, key: Key) returns (r: Result<Blob, Fault>)
      requires Inv(c, w) && id in w.jobs
      modifies `w
      ensures Quiet(c, id, old(w), w) && id in w.jobs
      ensures r.Ok? ==> key in w.objects && r.value == w.objects[key]
      ensures r.Err? ==> (r.error.Crash? && !calm) || r.error.Failure?
      ensures calm ==>
                Untouched(id, old(w), w) && (key in old(w).objects && key.job == id ==> r.Ok?)
    {
      hide Inv, Quiet;
      Interfere(id);
      var fails, crash := MayFail();
      if fails {
        var fault := StorageFault(crash);
        return Err(fault);
      }
      if key !in w.objects {
        return Err(Failure(30004, "file_not_found"));
      }
      r := Ok(w.objects[key]);
    }

    // A stat may come back without the digest, when the object carries no metadata.
    method Stat(id: JobId, key: Key) returns (r: Result<Option<Option<Digest>>, Fault>)
      requires Inv(c, w) && id in w.jobs
      modifies `w
      ensures Quiet(c, id, old(w), w) && id in w.jobs
      ensures r.Ok? && r.value.None? ==> key !in w.objects
      ensures r.Ok? && r.value.Some? ==> key in w.objects
      ensures r.Ok? && r.value.Some? && r.value.value.Some? ==> r.value.value.value == c.sha(w.objects[key])
      ensures r.Err? ==> (r.error.Crash? || r.error.Failure?) && !calm
      ensures calm ==> Untouched(id, old(w), w)
    {
      hide Inv, Quiet;
      Interfere(id);
      var fails, crash := MayFail();
      if fails {
        var fault := StorageFault(crash);
        return Err(fault);
      }
      if key !in w.objects {
        return Ok(None);
      }
      var hasDigest: bool := *;
      r := Ok(Some(if hasDigest then Some(c.sha(w.objects[key])) else None));
    }

    // ---- uploads and events ----

    method GetUpload(id: JobId, upload: UploadId) returns (r: Result<bool, Fault>)
      requires Inv(c, w) && id in w.jobs
      modifies `w
      ensures Quiet(c, id, old(w), w) && id in w.jobs
      ensures r.Err? ==> r.error in {Crash, DatabaseDown} && !calm
      ensures calm ==>
                Untouched(id, old(w), w)
                && (upload in old(w).uploads && old(w).uploads[upload].row.Live? ==> r == Ok(true))
    {
      hide Inv, Quiet;
      Interfere(id);
      var fails, crash := MayFail();
      if fails {
        return Err(if crash then Crash else DatabaseDown);
      }
      r := Ok(upload in w.uploads && w.uploads[upload].row.Live?);
    }

    // Appending the terminal event of a job that was read finished. Nothing of its own is written.
    method RepairEvent(job: Job, kind: EventKind) returns (r: Result<(), Fault>)
      requires Inv(c, w) && job.Valid() && Seen(w, job.Data()) && Terminal(job.state) && kind == KindOfState(job.state)
      modifies `w
      ensures Quiet(c, job.id, old(w), w)
      ensures r.Err? ==> r.error in {Crash, DatabaseDown}
      ensures calm ==> Untouched(job.id, old(w), w) && (IsLive(old(w), job.id) ==> r.Ok?)
    {
      hide Inv, Quiet, Seen, Untouched;
      ghost var w0 := w;
      SeenKnows(w, job.Data());
      Interfere(job.id);
      SeenCarried(c, w0, w, job.Data());
      UntouchedJob(job.id, w0, w);
      var fails, crash := MayFail();
      if fails {
        return Err(if crash then Crash else DatabaseDown);
      }
      if w.jobs[job.id].row.Deleted? {
        return Err(DatabaseDown);
      }
      RepairIsNoOp(c, w, job.Data());
      w := Repaired(w, job.id, kind, job.Data());
      r := Ok(());
    }

    // ---- engine, preprocessor, clock ----

    method Recognize(ghost v: JobData, work: Work, image: Blob, number: nat, options: string)
      returns (r: Result<Recognition, Fault>)
      requires Inv(c, w) && v.id in w.jobs && Held(c, w, v) && 1 <= work.number
      requires work == Work(v.id, v.attempt, work.number)
      requires Charged(c, w, v, work.number - 1) && Rested(c, w, v, work.number - 1)
      modifies `w, `outages, `own
      ensures Wrote(c, v.id, old(w), w) && Held(c, w, v) && Rested(c, w, v, work.number - 1) && v.id in w.jobs
      ensures outages <= old(outages) && own == old(own).(calls := old(own).calls + 1)
      ensures r.Ok? ==> r.value.reading == c.read(image, number, options)
      ensures r.Err? ==> (r.error.Crash? || r.error.TransientEngine? || r.error.Failure?) && !calm
      ensures r.Err? && r.error.TransientEngine? && !c.solo ==> outages < old(outages)
      ensures calm && v.id in old(w).jobs ==> w.jobs[v.id] == old(w).jobs[v.id]
    {
      hide Inv, Quiet, Wrote, Held, Charged, Rested, Untouched, Called;
      ghost var w0 := w;
      CallOk(c, w, v, work.number - 1);
      w := Called(w, work);
      own := own.(calls := own.calls + 1);
      ghost var w1 := w;
      CallSameJobs(w0, work);
      WroteKnows(c, v.id, w0, w1);
      Interfere(work.job);
      QuietWrote(c, v.id, w1, w);
      QuietHolds(c, w1, w, v, work.number - 1);
      UntouchedJob(v.id, w1, w);
      WroteTransitive(c, v.id, w0, w1, w);
      var fails, crash := MayFail();
      if fails {
        var transient, code, timeout: bool := *, *, *;
        var reason := if timeout then "engine_timeout" else "engine_unavailable";
        if crash {
          return Err(Crash);
        }
        if transient && (c.solo || 0 < outages) {
          if !c.solo { outages := outages - 1; }
          return Err(TransientEngine(if code then 30002 else 30003, reason));
        }
        return Err(Failure(30002, "engine_protocol_error"));
      }
      var meta: nat := *;
      r := Ok(Recognition(c.read(image, number, options), meta));
    }

    method Sleep(ghost v: JobData, work: Work, units: nat) returns (r: Result<(), Fault>)
      requires Inv(c, w) && v.id in w.jobs && Held(c, w, v) && 1 <= work.number <= |v.pages|
      requires work == Work(v.id, v.attempt, work.number) && Rested(c, w, v, work.number - 1)
      requires c.solo ==> 1 <= v.pages[work.number - 1].attempts <= c.maxPageRetries
                          && units == Pow2(v.pages[work.number - 1].attempts - 1)
      modifies `w, `own
      ensures Wrote(c, v.id, old(w), w) && Held(c, w, v) && v.id in w.jobs
      ensures r.Err? ==> r.error == Crash && !calm
      ensures own == old(own).(pauses := old(own).pauses + [units])
    {
      hide Inv, Quiet, Wrote, Held, Rested, Untouched, Paused;
      ghost var w0 := w;
      PauseOk(c, w, v, work.number - 1, units);
      w := Paused(w, work, units);
      own := own.(pauses := own.pauses + [units]);
      ghost var w1 := w;
      WroteKnows(c, v.id, w0, w1);
      Interfere(work.job);
      QuietWrote(c, v.id, w1, w);
      HeldCarried(c, w1, w, v);
      WroteTransitive(c, v.id, w0, w1, w);
      var fails, _ := MayFail();
      r := if fails then Err(Crash) else Ok(());
    }

    // Renders the upload and stores one image per page; it may stop half-way.
    method Prepare(v: JobData) returns (r: Result<seq<PreparedPage>, Fault>)
      requires Inv(c, w) && Seen(w, v) && Held(c, w, v)
      modifies `w, `own
      ensures Wrote(c, v.id, old(w), w) && Held(c, w, v) && v.id in w.jobs
      ensures r.Err? ==> (r.error.Crash? && !calm) || r.error.Failure?
      ensures own == old(own).(puts := own.puts)
      ensures r.Ok? ==> 0 < c.pageCount(v.spec.upload) && IsPreparation(c, v, r.value)
                        && ImagesStored(w, v.id, v.attempt, c.pageCount(v.spec.upload))
      ensures calm ==>
                (0 < c.pageCount(v.spec.upload) ==> r.Ok?) && w.jobs[v.id] == old(w).jobs[v.id]
    {
      hide Inv, Quiet, Wrote, Held, Seen, Writable, Stored, ImagesStored;
      ghost var w0 := w;
      SeenSpec(c, w, v);
      WroteReflexive(c, v.id, w);
      var fails, crash := MayFail();
      var code: int := *;
      if fails {
        return Err(if crash then Crash else Failure(code, "preprocessing"));
      }
      var n := c.pageCount(v.spec.upload);
      if n == 0 {
        return Err(Failure(30004, "preprocessing"));
      }
      var pages: seq<PreparedPage> := [];
      NoImages(w, v.id, v.attempt);
      for m := 1 to n + 1
        invariant Inv(c, w) && Wrote(c, v.id, w0, w) && Held(c, w, v)
        invariant v.id in w.jobs && w.jobs[v.id].hist != [] && SpecOf(w, v.id) == v.spec
        invariant ImagesStored(w, v.id, v.attempt, m - 1) && own == old(own).(puts := own.puts)
        invariant pages == seq(m - 1, i requires 0 <= i => PreparedPage(i + 1, PageImage(v.id, v.attempt, i + 1)))
        invariant calm ==> w.jobs[v.id] == w0.jobs[v.id]
      {
        ghost var w1 := w;
        var key := PageImage(v.id, v.attempt, m);
        ImageWritable(c, w, v, m);
        var put := PutBytes(v, key, c.render(v.spec.upload, m));
        PreparedOne(c, w0, w1, w, v, m);
        if put.Err? {
          return Err(put.error);
        }
        pages := pages + [PreparedPage(m, key)];
      }
      r := Ok(pages);
    }
  }

  // What the preprocessor promises about its list, in any order.
  ghost predicate IsPreparation(c: Config, v: JobData, pages: seq<PreparedPage>) {
    && |pages| == c.pageCount(v.spec.upload)
    && (forall i | 0 <= i < |pages| ::
          1 <= pages[i].number <= |pages| && pages[i].key == PageImage(v.id, v.attempt, pages[i].number))
    && (forall i, j | 0 <= i < j < |pages| :: pages[i].number != pages[j].number)
  }
}
