/**
 The logging service's batcher
 (backend/services/logging-service/internal/application/logging/service.go) and the files events
 wait in while Kafka is down
 (backend/services/logging-service/internal/infrastructure/filesink/sink.go).
 */
module LogPipeline {
  import opened Domain

  datatype Level = Debug | Info | Warn | Error | Audit

  datatype LogEvent = LogEvent(id: nat, level: Level, message: string)

  predicate ErrorAndAuditOnly(e: LogEvent) { e.level == Error || e.level == Audit }

  function Flatten(batches: seq<seq<LogEvent>>): seq<LogEvent> {
    if batches == [] then [] else Flatten(batches[..|batches| - 1]) + batches[|batches| - 1]
  }

  lemma {:induction false} FlattenConcat(a: seq<seq<LogEvent>>, b: seq<seq<LogEvent>>)
    ensures Flatten(a + b) == Flatten(a) + Flatten(b)
  {
    if b == [] {
      assert a + b == a;
    } else {
      FlattenConcat(a, b[..|b| - 1]);
      assert (a + b)[..|a + b| - 1] == a + b[..|b| - 1];
    }
  }

  lemma FlattenOne(b: seq<LogEvent>)
    ensures Flatten([b]) == b
  {
    assert [b][..0] == [];
  }

  lemma FlattenFirst(q: seq<seq<LogEvent>>)
    requires q != []
    ensures Flatten(q) == q[0] + Flatten(q[1..])
  {
    FlattenConcat([q[0]], q[1..]);
    FlattenOne(q[0]);
    assert [q[0]] + q[1..] == q;
  }

  lemma FlattenLast(q: seq<seq<LogEvent>>, b: seq<LogEvent>)
    ensures Flatten(q + [b]) == Flatten(q) + b
  {
    FlattenConcat(q, [b]);
    FlattenOne(b);
  }

  // ---- the fallback files and Kafka ----

  function Chosen(events: seq<LogEvent>, errors: bool): (r: seq<LogEvent>)
    ensures forall e | e in r :: ErrorAndAuditOnly(e) == errors
  {
    if events == [] then []
    else Chosen(events[..|events| - 1], errors)
         + if ErrorAndAuditOnly(events[|events| - 1]) == errors then [events[|events| - 1]] else []
  }

  /** Errors and audit events are in the one part, all others in the other. */
  lemma ChosenLevels(events: seq<LogEvent>, errors: bool)
    ensures forall e | e in Chosen(events, errors) :: (e.level == Error || e.level == Audit) == errors
  {}

  /** Splitting a batch over the two files loses and repeats nothing. */
  lemma {:induction false} PartitionConserves(events: seq<LogEvent>)
    ensures multiset(Chosen(events, false)) + multiset(Chosen(events, true)) == multiset(events)
  {
    hide Chosen;
    if events == [] {
      NoneChosen();
    } else {
      var short, last := events[..|events| - 1], events[|events| - 1];
      PartitionConserves(short);
      ChosenNext(short, last, false);
      ChosenNext(short, last, true);
      assert events == short + [last];
    }
  }

  lemma NoneChosen()
    ensures Chosen([], false) == [] && Chosen([], true) == []
  {}

  lemma ChosenNext(events: seq<LogEvent>, e: LogEvent, errors: bool)
    ensures Chosen(events + [e], errors) == if ErrorAndAuditOnly(e) == errors then Chosen(events, errors) + [e] else Chosen(events, errors)
  {
    assert (events + [e])[..|events|] == events;
  }

  datatype Replay = Replayed | PublishFailed | FileFailed

  class KafkaFallbackStore {
    var regular: seq<LogEvent>
    var errorAudit: seq<LogEvent>
    // What Kafka has accepted. A publish is all or nothing.
    var published: seq<LogEvent>
    // How often Kafka has refused a publish, and how often writing or emptying a file has failed.
    ghost var refused: nat
    ghost var fileErrors: nat

    constructor ()
      ensures regular == [] && errorAudit == [] && published == [] && refused == 0 && fileErrors == 0
    {
      regular, errorAudit, published := [], [], [];
      refused, fileErrors := 0, 0;
    }

    // Everything that was handed over and is still somewhere.
    function Held(): multiset<LogEvent>
      reads this
    {
      multiset(published) + multiset(regular) + multiset(errorAudit)
    }

    // Each event waits in the file of its kind.
    predicate Sorted()
      reads this
    {
      (forall e | e in regular :: !ErrorAndAuditOnly(e)) && (forall e | e in errorAudit :: ErrorAndAuditOnly(e))
    }

    method Publish(events: seq<LogEvent>) returns (ok: bool)
      modifies `published, `refused
      ensures published == if ok then old(published) + events else old(published)
      ensures refused == old(refused) + if ok then 0 else 1
    {
      ok := *;
      if ok {
        published := published + events;
      } else {
        refused := refused + 1;
      }
    }

    // An append that fails may have written some of the lines.
    method Append(file: seq<LogEvent>, events: seq<LogEvent>) returns (r: seq<LogEvent>, ok: bool)
      modifies `fileErrors
      ensures file <= r <= file + events && (ok ==> r == file + events)
      ensures fileErrors == old(fileErrors) + if ok then 0 else 1
    {
      if events == [] {
        return file, true;
      }
      ok := *;
      if ok {
        return file + events, true;
      }
      fileErrors := fileErrors + 1;
      var n: nat := *;
      r := file + if 0 <= n <= |events| then events[..n] else [];
    }

    method Partition(events: seq<LogEvent>) returns (regularEvents: seq<LogEvent>, errorAuditEvents: seq<LogEvent>)
      ensures regularEvents == Chosen(events, false) && errorAuditEvents == Chosen(events, true)
    {
      regularEvents, errorAuditEvents := [], [];
      for i := 0 to |events|
        invariant regularEvents == Chosen(events[..i], false) && errorAuditEvents == Chosen(events[..i], true)
      {
        assert events[..i + 1][..i] == events[..i];
        if ErrorAndAuditOnly(events[i]) {
          errorAuditEvents := errorAuditEvents + [events[i]];
        } else {
          regularEvents := regularEvents + [events[i]];
        }
      }
      assert events[..|events|] == events;
    }

    method WriteBatch(events: seq<LogEvent>) returns (ok: bool)
      requires Sorted()
      modifies `regular, `errorAudit, `fileErrors
      ensures ok <==> fileErrors == old(fileErrors)
      ensures Sorted() && old(regular) <= regular && old(errorAudit) <= errorAudit
      ensures ok ==> regular == old(regular) + Chosen(events, false) && errorAudit == old(errorAudit) + Chosen(events, true)
      ensures ok ==> Held() == old(Held()) + multiset(events)
    {
      hide Chosen;
      var regularEvents, errorAuditEvents := Partition(events);
      PartitionConserves(events);
      ghost var before := regular;
      regular, ok := Append(regular, regularEvents);
      PrefixElements(before, regular, regularEvents);
      if !ok {
        return;
      }
      ghost var audited := errorAudit;
      errorAudit, ok := Append(errorAudit, errorAuditEvents);
      PrefixElements(audited, errorAudit, errorAuditEvents);
    }

    // replayFile: publish the whole file, then empty it.
    method ReplayFile(first: bool) returns (r: Replay)
      requires Sorted()
      modifies this
      ensures Sorted() && old(published) <= published
      ensures refused == old(refused) + (if r == PublishFailed then 1 else 0)
      ensures fileErrors == old(fileErrors) + (if r == FileFailed then 1 else 0)
      ensures r == PublishFailed ==> regular == old(regular) && errorAudit == old(errorAudit) && published == old(published)
      ensures r != FileFailed ==> Held() == old(Held())
      ensures r == Replayed ==> (if first then regular else errorAudit) == []
      ensures first ==> errorAudit == old(errorAudit)
      ensures !first ==> regular == old(regular)
      ensures (if first then regular else errorAudit) != old(if first then regular else errorAudit) ==>
                published == old(published) + old(if first then regular else errorAudit)
      ensures old(Held()) <= Held()
    {
      var events := if first then regular else errorAudit;
      if events == [] {
        return Replayed;
      }
      var sent := Publish(events);
      if !sent {
        return PublishFailed;
      }
      var emptied := Truncate(first);
      return if emptied then Replayed else FileFailed;
    }

    /**
     ReplayOnce: nothing leaves a file before Kafka has accepted it, and unless emptying a file
     failed nothing is lost or repeated.
     */
    method ReplayOnce() returns (r: Replay)
      requires Sorted()
      modifies this
      ensures Sorted() && old(published) <= published && old(Held()) <= Held()
      ensures refused == old(refused) + (if r == PublishFailed then 1 else 0)
      ensures fileErrors == old(fileErrors) + (if r == FileFailed then 1 else 0)
      ensures r != FileFailed ==> Held() == old(Held())
      ensures r == Replayed ==> regular == [] && errorAudit == [] && published == old(published) + old(regular) + old(errorAudit)
    {
      r := ReplayFile(true);
      if r == Replayed {
        r := ReplayFile(false);
      }
    }

    // Emptying a file may fail; its events are then published again by the next replay.
    method Truncate(first: bool) returns (ok: bool)
      modifies `regular, `errorAudit, `fileErrors
      ensures fileErrors == old(fileErrors) + if ok then 0 else 1
      ensures regular == if ok && first then [] else old(regular)
      ensures errorAudit == if ok && !first then [] else old(errorAudit)
    {
      ok := *;
      if ok && first { regular := []; }
      if ok && !first { errorAudit := []; }
      if !ok { fileErrors := fileErrors + 1; }
    }
  }

  lemma PrefixElements(a: seq<LogEvent>, b: seq<LogEvent>, more: seq<LogEvent>)
    requires a <= b <= a + more
    ensures forall e | e in b :: e in a || e in more
  {}

  // ---- the batcher ----

  // The events of the calls that were accepted, call after call.
  function AcceptedCalls(calls: seq<seq<LogEvent>>, answers: seq<bool>): seq<LogEvent>
    requires |calls| == |answers|
  {
    if calls == [] then []
    else
      AcceptedCalls(calls[..|calls| - 1], answers[..|calls| - 1])
      + if answers[|calls| - 1] then calls[|calls| - 1] else []
  }

  // What is accepted after these answers to the first calls.
  function AcceptedAfter(before: seq<LogEvent>, calls: seq<seq<LogEvent>>, answers: seq<bool>): seq<LogEvent>
    requires |answers| <= |calls|
  {
    before + AcceptedCalls(calls[..|answers|], answers)
  }

  lemma NoCalls(before: seq<LogEvent>, calls: seq<seq<LogEvent>>)
    ensures AcceptedAfter(before, calls, []) == before
  {}

  lemma OneCallMore(before: seq<LogEvent>, calls: seq<seq<LogEvent>>, answers: seq<bool>, ok: bool)
    requires |answers| < |calls|
    ensures AcceptedAfter(before, calls, answers + [ok])
         == AcceptedAfter(before, calls, answers) + if ok then calls[|answers|] else []
  {
    var longer, all := calls[..|answers| + 1], answers + [ok];
    assert longer[..|longer| - 1] == calls[..|answers|] && all[..|longer| - 1] == answers;
  }

  datatype IngestError = NoEvents | Invalid | ShuttingDown | Cancelled | QueueFull

  class LogService {
    const capacity: nat
    const maxBatch: nat
    const store: KafkaFallbackStore
    var queue: seq<seq<LogEvent>>
    var channelClosed: bool
    var closed: bool
    var pending: seq<LogEvent>
    // Whether run has returned.
    var done: bool
    // Everything Ingest has accepted, and the batches written so far.
    ghost var accepted: seq<LogEvent>
    ghost var flushed: seq<seq<LogEvent>>
    // Whether writing or emptying a fallback file has failed.
    var fileFailed: bool

    // Accepted events are flushed, pending or queued, in that order, at every step.
    ghost predicate Valid()
      reads this, store
    {
      && 0 < maxBatch && |pending| < maxBatch && |queue| <= capacity && channelClosed == closed
      && accepted == Flatten(flushed) + pending + Flatten(queue)
      && (done ==> closed && queue == [] && pending == [])
      && store.Sorted() && (!fileFailed ==> multiset(Flatten(flushed)) <= store.Held())
    }

    // Without file errors and repeated replays, what was flushed is exactly what Kafka and the files hold.
    ghost predicate Conserved()
      reads this, store
    {
      multiset(Flatten(flushed)) == store.Held()
    }

    constructor (queueSize: int, maxBatchSize: int, store: KafkaFallbackStore)
      requires store.regular == [] && store.errorAudit == [] && store.published == []
      ensures Valid() && Conserved() && this.store == store && accepted == [] && !closed && !done && !fileFailed
      ensures capacity == if queueSize <= 0 then 1024 else queueSize
      ensures maxBatch == if maxBatchSize <= 0 then 256 else maxBatchSize
    {
      capacity := if queueSize <= 0 then 1024 else queueSize;
      maxBatch := if maxBatchSize <= 0 then 256 else maxBatchSize;
      this.store := store;
      queue, pending, accepted, flushed := [], [], [], [];
      channelClosed, closed, done, fileFailed := false, false, false, false;
    }

    // Sending on a closed channel panics.
    method Send(events: seq<LogEvent>)
      requires !channelClosed
      modifies `queue
      ensures queue == old(queue) + [events]
    {
      queue := queue + [events];
    }

    /** Ingest accepts a whole call or none of it, never after the queue was closed and never past its size. */
    method Ingest(events: seq<LogEvent>, valid: bool, cancelled: bool) returns (r: Result<(), IngestError>)
      requires Valid()
      modifies `queue, `accepted
      ensures Valid() && (Conserved() <==> old(Conserved()))
      ensures r.Ok? ==> !closed && accepted == old(accepted) + events && queue == old(queue) + [events]
      ensures r.Err? ==> accepted == old(accepted) && queue == old(queue)
      ensures events == [] ==> r == Err(NoEvents)
      ensures closed && events != [] && valid ==> r == Err(ShuttingDown)
      ensures events != [] && valid && !closed && !cancelled ==> (r.Ok? <==> |old(queue)| < capacity)
    {
      if events == [] {
        return Err(NoEvents);
      }
      if !valid {
        return Err(Invalid);
      }
      if closed {
        return Err(ShuttingDown);
      }
      var takeSend: bool := *;
      if |queue| < capacity && (takeSend || !cancelled) {
        FlattenLast(queue, events);
        assert Flatten(flushed) + pending + (Flatten(queue) + events) == accepted + events;
        Send(events);
        accepted := accepted + events;
        return Ok(());
      }
      return Err(if cancelled then IngestError.Cancelled else QueueFull);
    }

    method CloseQueue()
      requires Valid()
      modifies `closed, `channelClosed
      ensures Valid() && closed && (Conserved() <==> old(Conserved()))
    {
      if closed {
        return;
      }
      closed := true;
      channelClosed := true;
    }

    method Flush()
      requires BatchReady()
      modifies this`pending, this`flushed, this`fileFailed, store
      ensures Valid() && pending == [] && (old(fileFailed) ==> fileFailed)
      ensures flushed == if old(pending) == [] then old(flushed) else old(flushed) + [old(pending)]
      ensures old(Conserved()) && !fileFailed ==> Conserved()
    {
      if pending == [] {
        return;
      }
      var batch := pending;
      FlattenLast(flushed, batch);
      assert accepted == Flatten(flushed + [batch]) + [] + Flatten(queue);
      pending := [];
      flushed := flushed + [batch];
      WriteBatch(batch);
    }

    // Valid, except that the pending batch may have reached its size.
    ghost predicate BatchReady()
      reads this, store
    {
      && 0 < maxBatch && |queue| <= capacity && channelClosed == closed && !done
      && accepted == Flatten(flushed) + pending + Flatten(queue)
      && store.Sorted() && (!fileFailed ==> multiset(Flatten(flushed)) <= store.Held())
    }

    // Publish; if that fails, the fallback files.
    method WriteBatch(batch: seq<LogEvent>)
      requires store.Sorted()
      modifies this`fileFailed, store
      ensures store.Sorted() && (old(fileFailed) ==> fileFailed)
      ensures !fileFailed ==> store.Held() == old(store.Held()) + multiset(batch)
      ensures store.refused == old(store.refused) || store.refused == old(store.refused) + 1
      ensures store.refused == old(store.refused) ==>
                store.published == old(store.published) + batch && store.regular == old(store.regular) && store.errorAudit == old(store.errorAudit)
      ensures store.refused != old(store.refused) ==> store.published == old(store.published)
      ensures store.refused != old(store.refused) && store.fileErrors == old(store.fileErrors) ==>
                store.regular == old(store.regular) + Chosen(batch, false) && store.errorAudit == old(store.errorAudit) + Chosen(batch, true)
      ensures fileFailed == (old(fileFailed) || store.fileErrors != old(store.fileErrors))
    {
      var published := store.Publish(batch);
      if !published {
        var written := store.WriteBatch(batch);
        fileFailed := fileFailed || !written;
      }
    }

    // case events := <-queue
    method Receive()
      requires Valid() && queue != [] && !done
      modifies this`queue, this`pending, this`flushed, this`fileFailed, store
      ensures Valid() && |queue| == |old(queue)| - 1 && accepted == old(accepted) && (old(fileFailed) ==> fileFailed)
      ensures queue == old(queue)[1..]
      ensures
        var batch := old(pending) + old(queue)[0];
        if |batch| < maxBatch then pending == batch && flushed == old(flushed) else pending == [] && flushed == old(flushed) + [batch]
      ensures old(Conserved()) && !fileFailed ==> Conserved()
      ensures old(flushed) <= flushed
    {
      FlattenFirst(queue);
      var events := queue[0];
      assert accepted == Flatten(flushed) + (pending + events) + Flatten(queue[1..]);
      queue := queue[1..];
      pending := pending + events;
      if |pending| >= maxBatch {
        Flush();
      }
    }

    // case <-ticker.C
    method Tick()
      requires Valid() && !done
      modifies this`pending, this`flushed, this`fileFailed, store
      ensures Valid() && pending == [] && accepted == old(accepted) && (old(fileFailed) ==> fileFailed)
      ensures old(Conserved()) && !fileFailed ==> Conserved()
      ensures old(flushed) <= flushed
    {
      Flush();
    }

    // case events, ok := <-queue with the queue closed and drained
    method Finish()
      requires Valid() && closed && queue == [] && !done
      modifies this`pending, this`flushed, this`fileFailed, this`done, store
      ensures Valid() && done && Flatten(flushed) == accepted == old(accepted) && (old(fileFailed) ==> fileFailed)
      ensures old(Conserved()) && !fileFailed ==> Conserved()
      ensures old(flushed) <= flushed
    {
      Flush();
      done := true;
      assert Flatten(flushed) + [] + Flatten([]) == Flatten(flushed);
    }

    // case <-ctx.Done(): close, drain, flush, return.
    method Cancel()
      requires Valid() && !done
      modifies this`queue, this`pending, this`flushed, this`fileFailed, this`done, this`closed, this`channelClosed, store
      ensures Valid() && done && Flatten(flushed) == accepted == old(accepted) && (old(fileFailed) ==> fileFailed)
      ensures old(Conserved()) && !fileFailed ==> Conserved()
      ensures old(flushed) <= flushed
    {
      CloseQueue();
      while queue != []
        invariant Valid() && closed && !done && accepted == old(accepted) && (old(fileFailed) ==> fileFailed)
        invariant old(flushed) <= flushed
        invariant old(Conserved()) && !fileFailed ==> Conserved()
        decreases |queue|
      {
        Receive();
      }
      Finish();
    }

    // The replay loop's turn, which runs beside run.
    method Replay()
      requires Valid()
      modifies this`fileFailed, store
      ensures Valid() && (old(fileFailed) ==> fileFailed)
      ensures old(Conserved()) && !fileFailed ==> Conserved()
    {
      var r := store.ReplayOnce();
      fileFailed := fileFailed || r == FileFailed;
    }

    // One turn of run's select: whichever case is ready.
    method Turn()
      requires Valid() && !done
      modifies this`queue, this`pending, this`flushed, this`fileFailed, this`done, this`closed, this`channelClosed, store
      ensures Valid() && accepted == old(accepted) && old(flushed) <= flushed
      ensures done ==> Flatten(flushed) == accepted
      ensures (old(fileFailed) ==> fileFailed) && (old(Conserved()) && !fileFailed ==> Conserved())
    {
      hide LogService.Valid, LogService.Conserved, Flatten;
      var tick, stop: bool := *, *;
      if stop {
        Cancel();
      } else if tick {
        Tick();
      } else if queue != [] {
        Receive();
      } else if closed {
        Finish();
      }
    }

    /**
     run, for a number of turns of its select with calls of Ingest, Shutdown and replays in between: whichever cases are
     ready first, when it has returned everything accepted was flushed, once and in order. answers are those
     of the calls made: accepted grows by exactly the calls that were accepted, in the order they were made.
     */
    method Run(turns: nat, calls: seq<seq<LogEvent>>) returns (answers: seq<bool>)
      requires Valid() && !done
      modifies this`queue, this`pending, this`flushed, this`fileFailed, this`done, this`closed, this`channelClosed, this`accepted, store
      ensures Valid() && (done ==> Flatten(flushed) == accepted)
      ensures old(Conserved()) && !fileFailed ==> Conserved()
      ensures |answers| <= |calls| && accepted == AcceptedAfter(old(accepted), calls, answers)
      ensures old(flushed) <= flushed
      ensures done || turns <= |answers| || |answers| == |calls|
    {
      answers := [];
      NoCalls(accepted, calls);
      hide LogService.Valid, LogService.Conserved, Flatten, AcceptedAfter;
      for i := 0 to turns
        invariant Valid() && !done && (old(Conserved()) && !fileFailed ==> Conserved())
        invariant |answers| == (if i <= |calls| then i else |calls|)
        invariant accepted == AcceptedAfter(old(accepted), calls, answers) && old(flushed) <= flushed
      {
        if i < |calls| {
          var cancelled: bool := *;
          var r := Ingest(calls[i], true, cancelled);
          OneCallMore(old(accepted), calls, answers, r.Ok?);
          answers := answers + [r.Ok?];
        }
        var shutdown: bool := *;
        if shutdown { CloseQueue(); }
        var replay: bool := *;
        if replay { Replay(); }
        Turn();
        if done {
          return;
        }
      }
    }
  }
}
