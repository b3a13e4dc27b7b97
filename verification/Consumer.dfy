/**
 The worker process (backend/src/worker_main.py, run_worker): fetch one record, process it, commit
 its offset. An exception or a crash ends the process; the next one starts at the committed offset.
 */
module Consumer {
  import opened Domain
  import opened History
  import opened World
  import opened Commits
  import opened Rely
  import opened Awaits
  import opened Safety
  import opened P = Platform
  import opened RunFacts
  import W = Worker
  import Messaging

  // Everything before the position has been settled.
  ghost predicate Passed(w: State, position: nat) {
    position <= |w.queue| && forall i | 0 <= i < position :: Settled(w, w.queue[i])
  }

  lemma PassedStays(c: Config, w: State, x: State, position: nat)
    requires Inv(c, w) && Inv(c, x) && Evolves(w, x) && Passed(w, position)
    ensures Passed(x, position)
  {
    hide JobsOk, ObjectsOk, KeptOk, CountersOk, ConstraintsOk, OutboxOk, QueueOk, Settled;
    forall i | 0 <= i < position ensures Settled(x, x.queue[i]) {
      SettledLater(c, w, x, w.queue[i]);
    }
  }

  lemma SettledLater(c: Config, w: State, x: State, m: Message)
    requires Inv(c, w) && Inv(c, x) && Evolves(w, x) && Settled(w, m)
    ensures Settled(x, m)
  {
    hide ObjectsOk, KeptOk, CountersOk, ConstraintsOk, OutboxOk, QueueOk, Settled;
    SettledStable(c, w, x, m);
  }

  lemma CommittedPassed(c: Config, w: State)
    requires Inv(c, w)
    ensures Passed(w, w.committed)
  {
    hide JobsOk, ObjectsOk, KeptOk, CountersOk, ConstraintsOk, OutboxOk, Settled;
  }

  function OffsetCommitted(w: State, position: nat): State { w.(committed := position) }

  /** Committing an offset keeps the invariant when everything before it is settled; nothing else may. */
  lemma OffsetOk(c: Config, w: State, position: nat)
    requires Inv(c, w)
    ensures Inv(c, OffsetCommitted(w, position)) <==> Passed(w, position)
    ensures Evolves(w, OffsetCommitted(w, position))
  {
    hide JobsOk, ObjectsOk, KeptOk, CountersOk, ConstraintsOk, Settled, OnceIssued, Evolves;
    var x := OffsetCommitted(w, position);
    Messaging.SameJobs(c, w, x);
    forall m: Message | Settled(x, m) ensures Settled(w, m) { SettledBack(w, x, m); }
    forall i | 0 <= i < |x.outbox| ensures OutboxRowOk(x, x.outbox[i]) { assert OutboxRowOk(w, w.outbox[i]); }
    forall id, k | id in x.jobs && x.jobs[id].hist != [] && !x.jobs[id].row.Deleted? && 1 <= k <= Current(x, id).attempt
      ensures HasOutboxRow(x, id, k)
    {
      assert HasOutboxRow(w, id, k);
    }
  }

  lemma SettledBack(w: State, x: State, m: Message)
    requires x.jobs == w.jobs && Settled(x, m)
    ensures Settled(w, m)
  {}

  lemma OffsetIsAllowed(c: Config, w: State, position: nat, j: JobId)
    ensures Others(c, j, w, OffsetCommitted(w, position)) && Untouched(j, w, OffsetCommitted(w, position))
  {}

  /**
   When the topic has been consumed to its end and the outbox published, nothing is left to do:
   every stored job is finished.
   */
  lemma Quiescent(c: Config, w: State, id: JobId)
    requires Inv(c, w) && id in w.jobs && !w.jobs[id].row.Deleted?
    requires w.committed == |w.queue| && forall r | r in w.outbox :: r.published
    ensures w.jobs[id].hist != [] && Terminal(Current(w, id).state)
  {
    hide ObjectsOk, KeptOk, CountersOk, ConstraintsOk, OutboxOk, QueueOk;
    HasHistory(c, w, id);
    assert forall i | 0 <= i < |w.outbox| :: w.outbox[i] in w.outbox;
    if !Terminal(Current(w, id).state) { NoOrphan(c, w, id); }
  }

  // What the messages in the topic are worth.
  lemma RecordIssued(c: Config, w: State, i: nat)
    requires Inv(c, w) && i < |w.queue|
    ensures OnceIssued(w, w.queue[i].job, w.queue[i].attempt) && w.queue[i].schema == 1 && w.queue[i].job in w.jobs
  {
    hide JobsOk, ObjectsOk, KeptOk, CountersOk, ConstraintsOk, OutboxOk;
  }

  class WorkerProcess {
    const platform: Platform
    const worker: W.OCRWorker
    // Where the next record is fetched from.
    var position: nat

    ghost predicate Valid()
      reads this, platform
    {
      worker.platform == platform && Inv(platform.c, platform.w) && Passed(platform.w, position)
    }

    constructor (platform: Platform)
      requires Inv(platform.c, platform.w)
      ensures Valid() && this.platform == platform && position == platform.w.committed
    {
      hide Inv, Passed;
      this.platform := platform;
      this.worker := new W.OCRWorker(platform);
      this.position := platform.w.committed;
      new;
      CommittedPassed(platform.c, platform.w);
    }

    // A new process of the consumer group: it fetches from the committed offset.
    method Restart()
      requires Valid()
      modifies `position
      ensures Valid() && position == platform.w.committed
    {
      hide Inv, Passed;
      CommittedPassed(platform.c, platform.w);
      position := platform.w.committed;
    }

    /**
     One turn of the consume loop. It ends with the record's offset committed, or with an error
     and the committed offset no further than the settled records.
     */
    method ConsumeOne() returns (r: Result<bool, Fault>)
      requires Valid()
      modifies this`position, platform`w, platform`outages, platform`own
      ensures Valid() && Evolves(old(platform.w), platform.w)
      ensures r == Ok(false) ==> position == old(position) == |platform.w.queue| && platform.w == old(platform.w)
      ensures r == Ok(true) ==> position == old(position) + 1
      ensures platform.calm ==> r == Ok(old(position) < |old(platform.w).queue|)
      ensures r == Ok(true) ==> platform.w.committed == position
    {
      hide Inv, Passed, Evolves, Settled, OnceIssued, Quiet, Untouched, MustSucceed;
      ghost var c := platform.c;
      ghost var w0 := platform.w;
      ghost var start := position;
      PositionBound(w0, position);
      if position == |platform.w.queue| {
        EvolvesReflexive(w0);
        return Ok(false);
      }
      var record := platform.w.queue[position];
      RecordIssued(c, w0, position);
      var processed := worker.Process(record);
      ghost var w1 := platform.w;
      PassedStays(c, w0, w1, position);
      if processed.Err? {
        return Err(processed.error);
      }
      OnePassed(w0, w1, position, record);
      JobStays(w0, w1, record.job);
      platform.Interfere(record.job);
      ghost var w2 := platform.w;
      QuietEvolves(c, record.job, w1, w2);
      EvolvesTransitive(w0, w1, w2);
      PassedStays(c, w1, w2, position + 1);
      position := position + 1;
      var fails, crash := platform.MayFail();
      if fails {
        return Err(if crash then Crash else DatabaseDown);
      }
      OffsetOk(c, w2, position);
      EvolvesTransitive(w0, w2, OffsetCommitted(w2, position));
      PassedSame(w2, position);
      platform.w := OffsetCommitted(platform.w, position);
      return Ok(true);
    }

    /**
     Any number of turns, each possibly ending the process and starting another: the invariant holds
     throughout. In a run in which nothing fails each turn settles and commits one record, as long as
     there are any, whatever the jobs are like.
     */
    method Serve(turns: nat)
      requires Valid()
      modifies this`position, platform`w, platform`outages, platform`own
      ensures Valid() && Evolves(old(platform.w), platform.w)
      ensures platform.calm ==>
                && (if old(position) + turns <= |old(platform.w).queue| then old(position) + turns <= position
                    else |old(platform.w).queue| <= position)
                && (old(position) < position ==> platform.w.committed == position)
    {
      hide Inv, Passed, Evolves;
      ghost var w0 := platform.w;
      EvolvesReflexive(w0);
      for i := 0 to turns
        invariant Valid() && Evolves(w0, platform.w)
        invariant platform.calm ==>
                    && old(position) <= position && (old(position) + i <= position || |w0.queue| <= position)
                    && (old(position) < position ==> platform.w.committed == position)
      {
        ghost var w1 := platform.w;
        QueueGrows(w0, w1);
        var r := ConsumeOne();
        EvolvesTransitive(w0, w1, platform.w);
        if r.Err? {
          Restart();
        }
      }
    }
  }

  lemma QueueGrows(w: State, x: State)
    requires Evolves(w, x)
    ensures |w.queue| <= |x.queue|
  {}

  lemma PositionBound(w: State, position: nat)
    requires Passed(w, position)
    ensures position <= |w.queue|
  {}

  lemma OnePassed(w: State, x: State, position: nat, m: Message)
    requires Passed(x, position) && position < |w.queue| && Evolves(w, x) && m == w.queue[position] && Settled(x, m)
    ensures Passed(x, position + 1)
  {}

  lemma JobStays(w: State, x: State, id: JobId)
    requires Evolves(w, x) && id in w.jobs
    ensures id in x.jobs
  {}

  lemma QuietEvolves(c: Config, id: JobId, w: State, x: State)
    requires Quiet(c, id, w, x)
    ensures Inv(c, x) && Evolves(w, x)
  {}

  lemma PassedSame(w: State, position: nat)
    requires Passed(w, position)
    ensures Passed(OffsetCommitted(w, position), position)
  {
    assert forall m: Message :: Settled(OffsetCommitted(w, position), m) == Settled(w, m);
  }
}
