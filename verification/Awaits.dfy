/**
 What an await may change, seen from the process that awaits: the two-state predicates in the
 contracts of Platform, and the lemmas behind them.
 */
module Awaits {
  import opened Domain
  import opened History
  import opened EventLog
  import opened World
  import opened Commits
  import opened Rely

  // Facts about local copies that survive the others' steps.
  ghost predicate CarriesSeen(id: JobId, w: State, x: State) {
    && (forall v: JobData | v.id == id && Seen(w, v) :: Seen(x, v))
    && (forall k: nat | Reached(w, id, k) :: Reached(x, id, k))
    && (id in w.jobs ==> id in x.jobs && (!IsLive(w, id) ==> !IsLive(x, id)))
    && (forall m: Message | m.job == id && Settled(w, m) :: Settled(x, m))
  }

  ghost predicate CarriesHeld(c: Config, id: JobId, w: State, x: State) {
    && (forall v: JobData | v.id == id && Held(c, w, v) :: Held(c, x, v))
    && (forall v: JobData, i: nat | v.id == id && Charged(c, w, v, i) :: Charged(c, x, v, i))
    && (forall v: JobData, i: nat | v.id == id && Rested(c, w, v, i) :: Rested(c, x, v, i))
  }

  // The engine call for the try just committed on page i has not been made yet.
  ghost predicate Charged(c: Config, w: State, v: JobData, i: nat) {
    c.solo ==> i < |v.pages| && Count(w.calls, Work(v.id, v.attempt, i + 1)) + 1 <= v.pages[i].attempts
  }

  // Nor has the pause that follows it.
  ghost predicate Rested(c: Config, w: State, v: JobData, i: nat) {
    c.solo ==> i < |v.pages| && 1 <= v.pages[i].attempts
               && Count(w.slept, Work(v.id, v.attempt, i + 1)) + 1 <= Pow2(v.pages[i].attempts - 1)
  }

  // An await that changes nothing of its own.
  ghost predicate Quiet(c: Config, id: JobId, w: State, x: State) {
    Inv(c, x) && Others(c, id, w, x) && CarriesSeen(id, w, x) && CarriesHeld(c, id, w, x)
  }

  // An await that writes something of its own next to the others' steps.
  ghost predicate Wrote(c: Config, id: JobId, w: State, x: State) {
    Inv(c, x) && Evolves(w, x) && CarriesSeen(id, w, x)
  }

  lemma Carry(c: Config, id: JobId, w: State, x: State)
    requires JobsOk(c, w) && JobsOk(c, x) && Evolves(w, x) && id in w.jobs
    ensures CarriesSeen(id, w, x)
  {
    hide JobsOk, Evolves, Seen, Reached, Settled;
    forall v: JobData | v.id == id && Seen(w, v) ensures Seen(x, v) { SeenStable(c, w, x, v); }
    forall k: nat | Reached(w, id, k) ensures Reached(x, id, k) { ReachedStable(c, w, x, id, k); }
    forall m: Message | m.job == id && Settled(w, m) ensures Settled(x, m) { SettledStable(c, w, x, m); }
    StillThere(w, x, id);
  }

  lemma StillThere(w: State, x: State, id: JobId)
    requires Evolves(w, x) && id in w.jobs
    ensures id in x.jobs && (!IsLive(w, id) ==> !IsLive(x, id))
  {
    assert RecEvolves(w.jobs[id], x.jobs[id]);
  }

  lemma CarryHeld(c: Config, id: JobId, w: State, x: State)
    requires JobsOk(c, w) && JobsOk(c, x) && Others(c, id, w, x)
    ensures CarriesHeld(c, id, w, x)
  {
    hide JobsOk, Held, Evolves;
    forall v: JobData | v.id == id && Held(c, w, v) ensures Held(c, x, v) {
      HeldStable(c, w, x, v);
    }
  }

  // WHERE id = ... AND retention_claim_token IS NULL AND revision = ...
  predicate AtRevision(w: State, v: JobData) {
    IsLive(w, v.id) && w.jobs[v.id].hist != [] && Current(w, v.id).revision == v.revision
  }

  // What a caller knows after a save.
  ghost predicate SavedAs(c: Config, w: State, v: JobData, a: Action) {
    ExactlyCurrent(w, v) && (a.StartPage? ==> Charged(c, w, v, a.page) && Rested(c, w, v, a.page))
  }

  // The row, page and artifact writes of a save and its event, as one transaction.
  function Saved(w: State, v: JobData, kind: EventKind, a: Action, expires: int): State
    requires v.id in w.jobs
  {
    var rec := w.jobs[v.id];
    w.(jobs := w.jobs[v.id := JobRec(rec.hist + [Entry(a, v)], Append(rec.log, kind, v), Live, expires)])
  }

  lemma CanSaveKnows(c: Config, w: State, v: JobData, a: Action)
    requires Inv(c, w) && CanSave(c, w, v, a)
    ensures v.id in w.jobs && w.jobs[v.id].hist != []
  {}

  lemma SaveStable(c: Config, w: State, x: State, v: JobData, a: Action)
    requires Inv(c, w) && Quiet(c, v.id, w, x) && CanSave(c, w, v, a)
    ensures CanSave(c, x, v, a) && v.id in x.jobs && x.jobs[v.id].hist != []
  {
    hide RecOk, CarriesSeen, CarriesHeld, CanSave, Others;
    CanSaveStable(c, w, x, v, a);
    CanSaveKnows(c, x, v, a);
  }

  lemma SaveNothing(c: Config, id: JobId, w: State, x: State)
    requires Quiet(c, id, w, x)
    ensures Inv(c, x) && Wrote(c, id, w, x) && StoreQuiet(c, id, w, x)
  {}

  lemma SaveMissed(c: Config, v: JobData, w: State, x: State)
    requires Inv(c, w) && v.id in w.jobs
    ensures Untouched(v.id, w, x) && AtRevision(w, v) ==> AtRevision(x, v)
  {}

  lemma StartAddsOne(c: Config, v: JobData, i: nat)
    requires c.solo && Enabled(c, v, StartPage(i))
    ensures i < |v.pages| == |Apply(c, v, StartPage(i)).pages|
    ensures Apply(c, v, StartPage(i)).pages[i].attempts == v.pages[i].attempts + 1
    ensures Apply(c, v, StartPage(i)).id == v.id && Apply(c, v, StartPage(i)).attempt == v.attempt
  {}

  lemma StartIsCharged(c: Config, w: State, v: JobData, i: nat)
    requires CountersOk(c, w) && ExactlyCurrent(w, v) && Enabled(c, v, StartPage(i))
    ensures Charged(c, w, Apply(c, v, StartPage(i)), i) && Rested(c, w, Apply(c, v, StartPage(i)), i)
  {
    hide Enabled, Apply, Pow2;
    if c.solo {
      StartAddsOne(c, v, i);
      var key := Work(v.id, v.attempt, i + 1);
      var n := v.pages[i].attempts;
      assert Used(w.jobs[v.id].hist, v.attempt, i + 1) == n;
      Pow2Monotone(0, n);
      Pow2Monotone(Min(n, c.maxPageRetries), n);
      PowZero();
    }
  }

  lemma PowZero()
    ensures Pow2(0) == 1
  {}

  // What the save that finds its revision does.
  lemma SaveHit(c: Config, w: State, x: State, v: JobData, a: Action, expires: int)
    requires Inv(c, w) && Quiet(c, v.id, w, x) && v.id in w.jobs && CanSave(c, x, v, a) && !a.Retry?
    requires AtRevision(x, v)
    ensures
      var n := v.(revision := v.revision + 1);
      var y := Saved(x, n, KindOf(Entry(a, v)), a, expires);
      Wrote(c, v.id, w, y) && StoreQuiet(c, v.id, w, y) && SavedAs(c, y, n, a)
  {
    hide RecOk, ObjectsOk, KeptOk, ConstraintsOk, OutboxOk, QueueOk, Evolves, CarriesSeen, CarriesHeld, Enabled, Apply,
         Append, Backed, Used, Pow2;
    HasHistory(c, x, v.id);
    CommitOk(c, x, v.id, a, expires);
    var y := Committed(c, x, v.id, a, expires);
    EvolvesTransitive(w, x, y);
    Carry(c, v.id, w, y);
    if a.StartPage? {
      StartIsCharged(c, x, Current(x, v.id), a.page);
      SameCounts(c, x, y, v.(revision := v.revision + 1), a.page);
    }
  }

  lemma SameCounts(c: Config, w: State, x: State, v: JobData, i: nat)
    requires x.calls == w.calls && x.slept == w.slept && Charged(c, w, v, i) && Rested(c, w, v, i)
    ensures Charged(c, x, v, i) && Rested(c, x, v, i)
  {}

  lemma GetHistory(c: Config, w: State, id: JobId)
    requires Inv(c, w) && id in w.jobs
    ensures w.jobs[id].hist != [] && Current(w, id).id == id
  {
    HasHistory(c, w, id);
  }

  lemma GetNothing(c: Config, id: JobId, w: State, x: State)
    requires Inv(c, w) && Quiet(c, id, w, x) && id in w.jobs && !IsLive(x, id)
    ensures forall v: JobData | c.solo && v.id == id && Held(c, w, v) :: false
    ensures Untouched(id, w, x) ==> !IsLive(w, id)
  {
    forall v: JobData | c.solo && v.id == id && Held(c, w, v) ensures false {
      HeldStable(c, w, x, v);
    }
  }

  lemma GoneStays(c: Config, id: JobId, w: State, x: State)
    requires Quiet(c, id, w, x) && id in w.jobs
    ensures !IsLive(w, id) ==> !IsLive(x, id)
  {}

  lemma GetChain(c: Config, id: JobId, w: State, x: State, y: State, z: State)
    requires Inv(c, w) && id in w.jobs
    requires Quiet(c, id, w, x) && Quiet(c, id, x, y) && Quiet(c, id, y, z)
    ensures Inv(c, z) && Quiet(c, id, w, z)
  {
    hide JobsOk, Others, CarriesSeen, CarriesHeld;
    OthersTransitive(c, id, w, x, y);
    OthersTransitive(c, id, w, y, z);
    EvolvesFromOthers(c, id, w, z);
    Carry(c, id, w, z);
    CarryHeld(c, id, w, z);
  }

  lemma UntouchedChain(id: JobId, w: State, x: State, y: State, z: State)
    ensures Untouched(id, w, x) && Untouched(id, x, y) && Untouched(id, y, z) ==> Untouched(id, w, z)
  {}

  lemma UntouchedTransitive(id: JobId, w: State, x: State, y: State)
    requires Untouched(id, w, x) && Untouched(id, x, y)
    ensures Untouched(id, w, y)
  {}

  lemma QuietTransitive(c: Config, id: JobId, w: State, x: State, y: State)
    requires Inv(c, w) && id in w.jobs && Quiet(c, id, w, x) && Quiet(c, id, x, y)
    ensures Quiet(c, id, w, y)
  {
    hide JobsOk, Others, CarriesSeen, CarriesHeld;
    OthersTransitive(c, id, w, x, y);
    EvolvesFromOthers(c, id, w, y);
    Carry(c, id, w, y);
    CarryHeld(c, id, w, y);
  }

  lemma EvolvesFromOthers(c: Config, id: JobId, w: State, x: State)
    requires Others(c, id, w, x)
    ensures Evolves(w, x)
  {}

  lemma GetResult(c: Config, id: JobId, w: State, x: State, y: State, z: State)
    requires Inv(c, w) && id in w.jobs && IsLive(x, id)
    requires Quiet(c, id, w, x) && Quiet(c, id, x, y) && Quiet(c, id, y, z)
    ensures x.jobs[id].hist != []
    ensures
      var v := LoadedCopy(x, y, z, id);
      && v.id == id && Seen(z, v) && Numbered(c, id, v) && Current(w, id).revision <= v.revision
      && (Owned(v.state) ==> Held(c, z, v))
    ensures forall v: JobData | c.solo && v.id == id && Held(c, w, v) ::
              SameButCancel(LoadedCopy(x, y, z, id), v)
    ensures IsLive(w, id) && Untouched(id, w, x) && Untouched(id, x, y) && Untouched(id, y, z) ==>
              ExactlyCurrent(z, LoadedCopy(x, y, z, id)) && z.jobs[id] == w.jobs[id]
  {
    hide Seen, Held, SameButCancel, LoadedCopy, JobsOk, Others, Untouched, ExactlyCurrent, Numbered;
    LoadedIsSeen(c, id, w, x, y, z);
    forall v: JobData | c.solo && v.id == id && Held(c, w, v)
      ensures SameButCancel(LoadedCopy(x, y, z, id), v)
    {
      LoadedIsHeld(c, id, w, x, y, z, v);
    }
    if IsLive(w, id) && Untouched(id, w, x) && Untouched(id, x, y) && Untouched(id, y, z) {
      UntouchedIsExact(c, id, w, x, y, z);
    }
  }

  // ---- writing objects ----

  // What the others and this process's write of one object leave alone.
  ghost predicate StoreQuietBut(c: Config, id: JobId, key: Key, w: State, x: State) {
    c.solo ==>
      && (forall k: Work | k.job == id ::
            Count(x.calls, k) == Count(w.calls, k) && Count(x.slept, k) == Count(w.slept, k))
      && (IsLive(x, id) ==>
            forall k | k in w.objects && k.job == id && k != key :: k in x.objects && x.objects[k] == w.objects[k])
  }

  ghost predicate Stored(c: Config, id: JobId, key: Key, w: State, x: State) {
    Wrote(c, id, w, x) && CarriesHeld(c, id, w, x) && StoreQuietBut(c, id, key, w, x)
  }

  // The worker holding v may write this object: no finished page or attempt of v refers to it.
  ghost predicate Writable(c: Config, w: State, v: JobData, key: Key, b: Blob) {
    && v.id == key.job && v.id in w.jobs && w.jobs[v.id].hist != []
    && ContentOk(c, SpecOf(w, v.id), key, b)
    && Held(c, w, v)
    && (c.solo && key.PageResult? ==> forall i | 0 <= i < |v.pages| && v.pages[i].number == key.number :: v.pages[i].state != PageSucceeded)
  }

  function Put(w: State, key: Key, b: Blob): State { w.(objects := w.objects[key := b]) }

  lemma PutKeepsPage(c: Config, w: State, v: JobData, key: Key, b: Blob, id: JobId, i: nat)
    requires Inv(c, w) && Writable(c, w, v, key, b) && IsLive(w, id) && i < |Current(w, id).pages|
    ensures PageKept(c, w.objects[key := b], Current(w, id).pages[i])
  {
    hide Linked, Mirrors, CountersOk, OutboxOk, QueueOk, ConstraintsOk, ContentOk;
    HasHistory(c, w, id);
    var p := Current(w, id).pages[i];
    PagesAreNumbered(c, id, w.jobs[id].hist, |w.jobs[id].hist| - 1);
    assert PageKept(c, w.objects, p);
    if c.solo && p.state == PageSucceeded && p.resultKey.value == key {
      assert false;
    }
  }

  lemma PutKeepsArtifact(c: Config, w: State, v: JobData, key: Key, b: Blob, id: JobId, a: Artifact)
    requires Inv(c, w) && Writable(c, w, v, key, b) && IsLive(w, id) && a in Current(w, id).artifacts
    ensures ArtifactKept(c, w.objects[key := b], id, a)
  {
    hide Linked, Mirrors, CountersOk, OutboxOk, QueueOk, ConstraintsOk, ContentOk, PageKept;
    HasHistory(c, w, id);
    ArtifactsMeanSuccess(c, id, w.jobs[id].hist, |w.jobs[id].hist| - 1);
    assert ArtifactKept(c, w.objects, id, a);
  }

  lemma PutKeepsManifest(c: Config, w: State, v: JobData, key: Key, b: Blob, id: JobId)
    requires Inv(c, w) && Writable(c, w, v, key, b) && IsLive(w, id)
    requires c.solo && Current(w, id).state == JobState.Succeeded
    ensures ManifestKept(c, w.objects[key := b], Current(w, id))
  {
    hide Linked, Mirrors, CountersOk, OutboxOk, QueueOk, ConstraintsOk, ContentOk, PageKept, ArtifactKept, ManifestBody;
    HasHistory(c, w, id);
    assert Kept(c, w.objects, Current(w, id));
  }

  lemma PutKeepsKept(c: Config, w: State, v: JobData, key: Key, b: Blob, id: JobId)
    requires Inv(c, w) && Writable(c, w, v, key, b) && IsLive(w, id)
    ensures w.jobs[id].hist != [] && Kept(c, w.objects[key := b], Current(w, id))
  {
    hide RecOk, CountersOk, OutboxOk, QueueOk, ConstraintsOk, PageKept, ArtifactKept, ManifestKept, Writable;
    HasHistory(c, w, id);
    var u := Current(w, id);
    forall i | 0 <= i < |u.pages| ensures PageKept(c, w.objects[key := b], u.pages[i]) {
      PutKeepsPage(c, w, v, key, b, id, i);
    }
    forall a | a in u.artifacts ensures ArtifactKept(c, w.objects[key := b], u.id, a) {
      PutKeepsArtifact(c, w, v, key, b, id, a);
    }
    if c.solo && u.state == JobState.Succeeded {
      PutKeepsManifest(c, w, v, key, b, id);
    }
  }

  /** Writing an object the worker may write keeps the invariant, and is a step the others allow. */
  lemma PutOk(c: Config, w: State, v: JobData, key: Key, b: Blob)
    requires Inv(c, w) && Writable(c, w, v, key, b)
    ensures Inv(c, Put(w, key, b)) && Evolves(w, Put(w, key, b))
  {
    hide RecOk, Kept, ContentOk, Held, CountersOk, OutboxRowOk, OutboxDistinct, AttemptsHaveRows, OnceIssued, Settled;
    var x := Put(w, key, b);
    forall id | id in x.jobs && x.jobs[id].row.Live?
      ensures x.jobs[id].hist != [] && Kept(c, x.objects, Last(x.jobs[id].hist))
    {
      PutKeepsKept(c, w, v, key, b, id);
    }
    PutMessages(c, w, x);
    PutObjects(c, w, v, key, b);
  }

  lemma PutObjects(c: Config, w: State, v: JobData, key: Key, b: Blob)
    requires ObjectsOk(c, w) && Writable(c, w, v, key, b)
    ensures ObjectsOk(c, Put(w, key, b))
  {
    hide ContentOk, Held;
  }

  lemma PutMessages(c: Config, w: State, x: State)
    requires x.jobs == w.jobs && x.uploads == w.uploads && x.calls == w.calls && x.slept == w.slept
    requires x.outbox == w.outbox && x.outboxIds == w.outboxIds && x.index == w.index && x.queue == w.queue && x.committed == w.committed
    requires CountersOk(c, w) && ConstraintsOk(w) && OutboxOk(w) && QueueOk(w)
    ensures CountersOk(c, x) && ConstraintsOk(x) && OutboxOk(x) && QueueOk(x)
  {
    hide Used, Pow2;
    forall i | 0 <= i < |x.outbox| ensures OutboxRowOk(x, x.outbox[i]) { assert OutboxRowOk(w, w.outbox[i]); }
    forall id, k | id in x.jobs && x.jobs[id].hist != [] && !x.jobs[id].row.Deleted? && 1 <= k <= Current(x, id).attempt
      ensures HasOutboxRow(x, id, k)
    {
      assert HasOutboxRow(w, id, k);
    }
    forall n | n in x.outboxIds ensures OnceIssued(x, x.outboxIds[n].0, x.outboxIds[n].1) {
      assert OnceIssued(w, w.outboxIds[n].0, w.outboxIds[n].1);
    }
    forall i | 0 <= i < |x.queue| ensures OnceIssued(x, x.queue[i].job, x.queue[i].attempt) {
      assert OnceIssued(w, w.queue[i].job, w.queue[i].attempt);
    }
    forall i | 0 <= i < x.committed ensures Settled(x, x.queue[i]) {
      assert Settled(w, w.queue[i]);
    }
  }

  lemma WritableStable(c: Config, w: State, x: State, v: JobData, key: Key, b: Blob)
    requires Inv(c, w) && Quiet(c, v.id, w, x) && Writable(c, w, v, key, b)
    ensures Writable(c, x, v, key, b)
  {
    hide ContentOk, Linked, Mirrors, CarriesSeen, CarriesHeld;
    HeldStable(c, w, x, v);
    assert RecEvolves(w.jobs[v.id], x.jobs[v.id]);
  }

  lemma AfterPut(c: Config, w: State, x: State, v: JobData, key: Key, b: Blob)
    requires Inv(c, w) && Quiet(c, v.id, w, x) && Writable(c, x, v, key, b) && v.id in w.jobs
    ensures Stored(c, v.id, key, w, x) && Stored(c, v.id, key, w, Put(x, key, b))
  {
    hide RecOk, ObjectsOk, KeptOk, ConstraintsOk, CountersOk, OutboxOk, QueueOk, Writable, CarriesSeen, Held;
    var y := Put(x, key, b);
    PutOk(c, x, v, key, b);
    EvolvesTransitive(w, x, y);
    Carry(c, v.id, w, y);
    PutCarriesHeld(c, v.id, w, x, key, b);
  }

  lemma PutCarriesHeld(c: Config, id: JobId, w: State, x: State, key: Key, b: Blob)
    requires CarriesHeld(c, id, w, x)
    ensures CarriesHeld(c, id, w, Put(x, key, b))
  {
    var y := Put(x, key, b);
    forall v: JobData | v.id == id && Held(c, w, v) ensures Held(c, y, v) {
      assert Held(c, x, v);
    }
    forall v: JobData, i: nat | v.id == id && Charged(c, w, v, i) ensures Charged(c, y, v, i) {
      assert Charged(c, x, v, i);
    }
    forall v: JobData, i: nat | v.id == id && Rested(c, w, v, i) ensures Rested(c, y, v, i) {
      assert Rested(c, x, v, i);
    }
  }

  lemma WritableKnows(c: Config, w: State, v: JobData, key: Key, b: Blob)
    requires Writable(c, w, v, key, b)
    ensures key.job == v.id && v.id in w.jobs
  {}

  lemma UntouchedJob(id: JobId, w: State, x: State)
    ensures Untouched(id, w, x) && id in w.jobs ==> id in x.jobs && x.jobs[id] == w.jobs[id]
  {}

  lemma WroteTransitive(c: Config, id: JobId, w: State, x: State, y: State)
    requires Inv(c, w) && id in w.jobs && Wrote(c, id, w, x) && Wrote(c, id, x, y)
    ensures Wrote(c, id, w, y) && id in x.jobs && id in y.jobs
  {
    hide JobsOk, ObjectsOk, KeptOk, CountersOk, ConstraintsOk, OutboxOk, QueueOk, Evolves, Seen, Reached, Settled;
    EvolvesTransitive(w, x, y);
    Carry(c, id, w, y);
    StillThere(w, x, id);
  }

  lemma WroteReflexive(c: Config, id: JobId, w: State)
    requires Inv(c, w)
    ensures Wrote(c, id, w, w)
  {
    hide Inv, Seen, Reached, Settled;
  }

  // ---- counting engine calls and pauses ----

  function Called(w: State, key: Work): State { w.(calls := w.calls[key := Count(w.calls, key) + 1]) }

  function Paused(w: State, key: Work, units: nat): State { w.(slept := w.slept[key := Count(w.slept, key) + units]) }

  // The record of page i agrees with the stored one, so its tries are the ones counted.
  lemma HeldUsed(c: Config, w: State, v: JobData, i: nat)
    requires c.solo && Held(c, w, v) && i < |v.pages|
    ensures v.id in w.jobs && Used(w.jobs[v.id].hist, v.attempt, i + 1) == v.pages[i].attempts
  {}

  lemma CallOk(c: Config, w: State, v: JobData, i: nat)
    requires Inv(c, w) && v.id in w.jobs && Held(c, w, v) && Charged(c, w, v, i) && Rested(c, w, v, i)
    ensures Wrote(c, v.id, w, Called(w, Work(v.id, v.attempt, i + 1)))
    ensures Held(c, Called(w, Work(v.id, v.attempt, i + 1)), v) && Rested(c, Called(w, Work(v.id, v.attempt, i + 1)), v, i)
  {
    hide JobsOk, ObjectsOk, KeptOk, ConstraintsOk, OutboxOk, QueueOk, Evolves, CarriesSeen, Used, Pow2;
    var x := Called(w, Work(v.id, v.attempt, i + 1));
    if c.solo { HeldUsed(c, w, v, i); }
    CounterKeeps(c, w, x);
    Carry(c, v.id, w, x);
  }

  lemma PauseOk(c: Config, w: State, v: JobData, i: nat, units: nat)
    requires Inv(c, w) && v.id in w.jobs && Held(c, w, v) && Rested(c, w, v, i)
    requires c.solo ==> i < |v.pages| && 1 <= v.pages[i].attempts <= c.maxPageRetries && units <= Pow2(v.pages[i].attempts - 1)
    ensures Wrote(c, v.id, w, Paused(w, Work(v.id, v.attempt, i + 1), units))
    ensures Held(c, Paused(w, Work(v.id, v.attempt, i + 1), units), v)
  {
    hide JobsOk, ObjectsOk, KeptOk, ConstraintsOk, OutboxOk, QueueOk, Evolves, CarriesSeen, Used;
    var x := Paused(w, Work(v.id, v.attempt, i + 1), units);
    if c.solo { HeldUsed(c, w, v, i); }
    CounterKeeps(c, w, x);
    Carry(c, v.id, w, x);
  }

  lemma CounterKeeps(c: Config, w: State, x: State)
    requires Inv(c, w) && x.jobs == w.jobs && x.uploads == w.uploads && x.objects == w.objects && x.tokens == w.tokens
    requires x.outbox == w.outbox && x.outboxIds == w.outboxIds && x.index == w.index && x.queue == w.queue && x.committed == w.committed
    ensures JobsOk(c, x) && ObjectsOk(c, x) && KeptOk(c, x) && ConstraintsOk(x) && OutboxOk(x) && QueueOk(x) && Evolves(w, x)
  {
    hide RecOk, Kept, ContentOk;
    var y := x.(calls := w.calls, slept := w.slept);
    PutMessages(c, w, y);
    SameMessages(x, y);
  }

  lemma SameMessages(x: State, y: State)
    requires x.jobs == y.jobs && x.uploads == y.uploads && x.outbox == y.outbox && x.outboxIds == y.outboxIds && x.index == y.index
    requires x.queue == y.queue && x.committed == y.committed && ConstraintsOk(y) && OutboxOk(y) && QueueOk(y)
    ensures ConstraintsOk(x) && OutboxOk(x) && QueueOk(x)
  {
    forall i | 0 <= i < |x.outbox| ensures OutboxRowOk(x, x.outbox[i]) { assert OutboxRowOk(y, y.outbox[i]); }
    forall id, k | id in x.jobs && x.jobs[id].hist != [] && !x.jobs[id].row.Deleted? && 1 <= k <= Current(x, id).attempt
      ensures HasOutboxRow(x, id, k)
    {
      assert HasOutboxRow(y, id, k);
    }
    forall n | n in x.outboxIds ensures OnceIssued(x, x.outboxIds[n].0, x.outboxIds[n].1) {
      assert OnceIssued(y, y.outboxIds[n].0, y.outboxIds[n].1);
    }
    forall i | 0 <= i < |x.queue| ensures OnceIssued(x, x.queue[i].job, x.queue[i].attempt) {
      assert OnceIssued(y, y.queue[i].job, y.queue[i].attempt);
    }
    forall i | 0 <= i < x.committed ensures Settled(x, x.queue[i]) {
      assert Settled(y, y.queue[i]);
    }
  }

  // Saving a note on the page between the call and the pause does not touch the counters.
  lemma StillRested(c: Config, w: State, x: State, v: JobData, u: JobData, i: nat)
    requires StoreQuiet(c, v.id, w, x) && Rested(c, w, v, i) && u.id == v.id && u.attempt == v.attempt
    requires i < |v.pages| == |u.pages| && u.pages[i].attempts == v.pages[i].attempts
    ensures Rested(c, x, u, i)
  {}

  lemma SpecStable(c: Config, id: JobId, w: State, x: State)
    requires Inv(c, w) && Inv(c, x) && Evolves(w, x) && id in w.jobs
    ensures id in x.jobs && w.jobs[id].hist != [] && x.jobs[id].hist != [] && SpecOf(x, id) == SpecOf(w, id)
  {
    HasHistory(c, w, id);
    HasHistory(c, x, id);
    assert RecEvolves(w.jobs[id], x.jobs[id]);
  }

  lemma SeenSpec(c: Config, w: State, v: JobData)
    requires Inv(c, w) && Seen(w, v)
    ensures v.id in w.jobs && w.jobs[v.id].hist != [] && SpecOf(w, v.id) == v.spec && 1 <= v.attempt
    ensures v.attempt <= Current(w, v.id).attempt
  {
    HasHistory(c, w, v.id);
    Versions(c, v.id, w.jobs[v.id].hist, v.revision);
    AttemptsGrow(c, v.id, w.jobs[v.id].hist, v.revision, |w.jobs[v.id].hist| - 1);
  }

  // ---- page images ----

  // The images of pages 1..n of an attempt are stored, as long as the job is visible.
  ghost predicate ImagesStored(w: State, id: JobId, k: nat, n: nat) {
    IsLive(w, id) ==> forall m | 1 <= m <= n :: PageImage(id, k, m) in w.objects
  }

  lemma ImagesStable(w: State, x: State, id: JobId, k: nat, n: nat)
    requires Evolves(w, x) && id in w.jobs && ImagesStored(w, id, k, n)
    ensures ImagesStored(x, id, k, n)
  {
    assert RecEvolves(w.jobs[id], x.jobs[id]);
    if IsLive(x, id) {
      forall m | 1 <= m <= n ensures PageImage(id, k, m) in x.objects {
        assert PageImage(id, k, m) in w.objects;
      }
    }
  }

  lemma ImageWritable(c: Config, w: State, v: JobData, m: nat)
    requires Inv(c, w) && Held(c, w, v) && v.id in w.jobs && w.jobs[v.id].hist != [] && SpecOf(w, v.id) == v.spec
    ensures Writable(c, w, v, PageImage(v.id, v.attempt, m), c.render(v.spec.upload, m))
  {}

  // ---- repairing the terminal event of a finished attempt ----

  function Repaired(w: State, id: JobId, kind: EventKind, v: JobData): State
    requires id in w.jobs
  {
    w.(jobs := w.jobs[id := w.jobs[id].(log := Append(w.jobs[id].log, kind, v))])
  }

  /** For a copy that was read finished, the repair finds its event and writes nothing. */
  lemma RepairIsNoOp(c: Config, w: State, v: JobData)
    requires Inv(c, w) && Seen(w, v) && Terminal(v.state)
    ensures v.id in w.jobs && Repaired(w, v.id, KindOfState(v.state), v) == w
  {
    hide ObjectsOk, KeptOk, CountersOk, ConstraintsOk, OutboxOk, QueueOk, Append;
    HasHistory(c, w, v.id);
    var rec := w.jobs[v.id];
    assert RecOk(c, v.id, rec);
    RepairChangesNothing(c, v.id, rec.log, rec.hist, v.revision, v);
    assert rec.(log := rec.log) == rec;
  }

  // ---- the same facts in the form the methods use them ----

  lemma SeenKnows(w: State, v: JobData)
    requires Seen(w, v)
    ensures v.id in w.jobs
  {}

  lemma SeenCarried(c: Config, w: State, x: State, v: JobData)
    requires Quiet(c, v.id, w, x) && Seen(w, v)
    ensures Inv(c, x) && Seen(x, v)
  {}

  lemma CallSameJobs(w: State, key: Work)
    ensures Called(w, key).jobs == w.jobs
  {}

  lemma WroteKnows(c: Config, id: JobId, w: State, x: State)
    requires Wrote(c, id, w, x)
    ensures Inv(c, x) && Evolves(w, x)
    ensures id in w.jobs ==> id in x.jobs
  {}

  lemma QuietWrote(c: Config, id: JobId, w: State, x: State)
    requires Quiet(c, id, w, x)
    ensures Wrote(c, id, w, x) && Inv(c, x)
  {}

  lemma HeldCarried(c: Config, w: State, x: State, v: JobData)
    requires Quiet(c, v.id, w, x) && Held(c, w, v)
    ensures Held(c, x, v)
  {}

  lemma QuietHolds(c: Config, w: State, x: State, v: JobData, i: nat)
    requires Quiet(c, v.id, w, x) && Held(c, w, v) && Rested(c, w, v, i)
    ensures Held(c, x, v) && Rested(c, x, v, i)
  {}

  lemma NoImages(w: State, id: JobId, k: nat)
    ensures ImagesStored(w, id, k, 0)
  {}

  lemma StoredKnows(c: Config, id: JobId, key: Key, w: State, x: State, v: JobData)
    requires Stored(c, id, key, w, x) && v.id == id && Held(c, w, v)
    ensures Wrote(c, id, w, x) && Inv(c, x) && Held(c, x, v)
  {}

  // One image more.
  lemma PreparedOne(c: Config, w0: State, w: State, x: State, v: JobData, m: nat)
    requires Inv(c, w0) && v.id in w0.jobs && Wrote(c, v.id, w0, w) && Inv(c, w) && Held(c, w, v) && 1 <= m
    requires v.id in w.jobs && w.jobs[v.id].hist != [] && SpecOf(w, v.id) == v.spec
    requires Stored(c, v.id, PageImage(v.id, v.attempt, m), w, x) && ImagesStored(w, v.id, v.attempt, m - 1)
    ensures Wrote(c, v.id, w0, x) && Inv(c, x) && Held(c, x, v)
    ensures v.id in x.jobs && x.jobs[v.id].hist != [] && SpecOf(x, v.id) == v.spec
    ensures PageImage(v.id, v.attempt, m) in x.objects ==> ImagesStored(x, v.id, v.attempt, m)
  {
    hide JobsOk, ObjectsOk, KeptOk, CountersOk, ConstraintsOk, OutboxOk, QueueOk, CarriesSeen, Held, Stored, Evolves;
    StoredKnows(c, v.id, PageImage(v.id, v.attempt, m), w, x, v);
    WroteTransitive(c, v.id, w0, w, x);
    SpecStable(c, v.id, w, x);
    ImagesStable(w, x, v.id, v.attempt, m - 1);
  }
}
