/**
 The in-memory repositories (backend/src/infrastructure/memory.py), the simple form of the same
 store: dictionaries under a lock, compare-and-swap on the revision, rollback by putting the
 previous job back, and events numbered by the length of their list.
 */
module Memory {
  import opened Domain
  import opened EventLog

  datatype MemoryError = ValueError | DuplicateIdempotencyKey | ConcurrentJobUpdate | EventsUnavailable

  // append numbers by length; the tables number by the greatest sequence so far.
  function AppendByLength(log: seq<Event>, kind: EventKind, v: JobData): seq<Event> {
    if TerminalKind(kind) && HasTerminal(log, kind, v.attempt) then log
    else log + [EventFor(|log| + 1, kind, v)]
  }

  predicate Counted(log: seq<Event>) { forall i | 0 <= i < |log| :: log[i].sequence == i + 1 }

  lemma {:induction false} CountedMax(log: seq<Event>)
    requires Counted(log)
    ensures MaxSequence(log) == |log|
  {
    if log != [] { CountedMax(log[..|log| - 1]); }
  }

  /** On the logs that occur, the two numbering rules write the same event, and the log stays counted. */
  lemma SameAppend(log: seq<Event>, kind: EventKind, v: JobData)
    requires Counted(log)
    ensures AppendByLength(log, kind, v) == Append(log, kind, v) && Counted(AppendByLength(log, kind, v))
  {
    CountedMax(log);
  }

  lemma EventCarries(sequence: nat, kind: EventKind, v: JobData)
    ensures EventFor(sequence, kind, v).kind == kind && EventFor(sequence, kind, v).attempt == v.attempt
  {}

  predicate SameKey(a: JobData, b: JobData) {
    a.spec.idempotencyKey.Some? && a.spec.idempotencyKey.value != ""
    && a.spec.owner == b.spec.owner && a.spec.idempotencyKey == b.spec.idempotencyKey
  }

  class InMemoryJobEvents {
    var events: map<JobId, seq<Event>>

    constructor ()
      ensures events == map[]
    {
      events := map[];
    }

    function Log(id: JobId): seq<Event>
      reads this
    {
      if id in events then events[id] else []
    }

    predicate Valid()
      reads this
    {
      forall id | id in events :: Counted(events[id])
    }

    method AppendEvent(v: JobData, kind: EventKind) returns (r: Result<Event, MemoryError>)
      requires Valid()
      modifies this
      ensures Valid()
      ensures r.Err? ==> events == old(events) && r.error == EventsUnavailable
      ensures r.Ok? ==> Log(v.id) == Append(old(Log(v.id)), kind, v) && r.value in Log(v.id)
                        && r.value.kind == kind && r.value.attempt == v.attempt
      ensures forall id | id != v.id :: Log(id) == old(Log(id))
    {
      var available: bool := *;
      if !available {
        return Err(EventsUnavailable);
      }
      hide MaxSequence, Append, EventFor;
      var log := Log(v.id);
      SameAppend(log, kind, v);
      EventCarries(|log| + 1, kind, v);
      if TerminalKind(kind) {
        for i := 0 to |log|
          invariant forall j | 0 <= j < i :: !(log[j].kind == kind && log[j].attempt == v.attempt)
          invariant events == old(events)
        {
          if log[i].kind == kind && log[i].attempt == v.attempt {
            events := events[v.id := log];
            return Ok(log[i]);
          }
        }
      }
      var stored := EventFor(|log| + 1, kind, v);
      events := events[v.id := log + [stored]];
      return Ok(stored);
    }
  }

  class InMemoryJobs {
    const log: InMemoryJobEvents
    var items: map<JobId, JobData>

    // Every job under its own id, and no two with the same owner and key.
    predicate Valid()
      reads this, log
    {
      && log.Valid() && (forall id | id in items :: items[id].id == id)
      && forall a, b | a in items && b in items && a != b :: !SameKey(items[a], items[b])
    }

    constructor (log: InMemoryJobEvents)
      requires log.Valid()
      ensures Valid() && items == map[] && this.log == log
    {
      this.log := log;
      items := map[];
    }

    method Add(job: JobData) returns (r: Result<(), MemoryError>)
      requires Valid()
      modifies `items
      ensures Valid()
      ensures r == if job.id in old(items) then Err(ValueError)
                   else if exists id :: id in old(items) && SameKey(job, old(items)[id]) then Err(DuplicateIdempotencyKey)
                   else Ok(())
      ensures items == if r.Ok? then old(items)[job.id := job] else old(items)
    {
      if job.id in items {
        return Err(ValueError);
      }
      if exists id :: id in items && SameKey(job, items[id]) {
        return Err(DuplicateIdempotencyKey);
      }
      items := items[job.id := job];
      return Ok(());
    }

    // What the compare-and-swap answers for a job as it was loaded and changed.
    function Check(job: JobData): Result<(), MemoryError>
      reads this
    {
      if job.id !in items then Err(ValueError)
      else if items[job.id].revision != job.revision then Err(ConcurrentJobUpdate)
      else Ok(())
    }

    /** save_with_event: the new version and its event, or nothing; a failing event puts the previous version back. */
    method SaveWithEvent(job: JobData, kind: EventKind) returns (r: Result<Event, MemoryError>)
      requires Valid() && (job.id in items ==> items[job.id].spec == job.spec)
      modifies this`items, log
      ensures Valid()
      ensures old(Check(job)).Err? ==> r == Err(old(Check(job)).error)
      ensures r.Err? ==> items == old(items) && log.events == old(log.events)
      ensures r.Ok? ==> items == old(items)[job.id := job.(revision := job.revision + 1)]
                        && log.Log(job.id) == Append(old(log.Log(job.id)), kind, job)
    {
      if job.id !in items {
        return Err(ValueError);
      }
      var stored := items[job.id];
      if stored.revision != job.revision {
        return Err(ConcurrentJobUpdate);
      }
      var previous := stored;
      items := items[job.id := job.(revision := job.revision + 1)];
      var saved := log.AppendEvent(job, kind);
      if saved.Err? {
        items := items[job.id := previous];
        return Err(saved.error);
      }
      return Ok(saved.value);
    }
  }

  /**
   The empty idempotency key is not unique here: two jobs of one owner with that key are both stored.
   (In the tables no two stored jobs share an owner and a key, be it the empty one.)
   */
  method EmptyKeyTwice(log: InMemoryJobEvents, a: JobData, b: JobData) returns (jobs: InMemoryJobs, r: Result<(), MemoryError>)
    requires log.Valid() && a.id != b.id && a.spec.owner == b.spec.owner
    requires a.spec.idempotencyKey.Some? && b.spec.idempotencyKey == a.spec.idempotencyKey
    ensures fresh(jobs) && jobs.Valid()
    ensures r == if a.spec.idempotencyKey == Some("") then Ok(()) else Err(DuplicateIdempotencyKey)
    ensures jobs.items == if r.Ok? then map[a.id := a, b.id := b] else map[a.id := a]
  {
    jobs := new InMemoryJobs(log);
    var first := jobs.Add(a);
    assert first.Ok?;
    assert jobs.items[a.id] == a;
    r := jobs.Add(b);
  }
}
