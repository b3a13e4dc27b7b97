/**
 The outbox dispatcher (backend/src/infrastructure/messaging.py): at-least-once publishing of
 outbox rows to the job topic. A row may be read by two dispatchers at once, published twice, or
 published and never marked.
 */
module Messaging {
  import opened Domain
  import opened History
  import opened EventLog
  import opened World
  import opened Commits
  import opened Rely

  function MessageOf(r: OutboxRow): Message { Message(r.job, r.attempt, 1) }

  function Published(w: State, m: Message): State { w.(queue := w.queue + [m]) }

  function MarkedRows(rows: seq<OutboxRow>, ids: set<nat>): (r: seq<OutboxRow>)
    ensures |r| == |rows|
    ensures forall i | 0 <= i < |rows| ::
              r[i] == if rows[i].id in ids then rows[i].(published := true) else rows[i]
  {
    seq(|rows|, i requires 0 <= i < |rows| => if rows[i].id in ids then rows[i].(published := true) else rows[i])
  }

  function Marked(w: State, id: nat): State { w.(outbox := MarkedRows(w.outbox, {id})) }

  // Rows still to be published, oldest first.
  function Unpublished(rows: seq<OutboxRow>): (r: seq<OutboxRow>)
    ensures forall i | 0 <= i < |r| :: r[i] in rows && !r[i].published
    ensures forall x | x in rows && !x.published :: x in r
  {
    if rows == [] then []
    else
      var rest := Unpublished(rows[..|rows| - 1]);
      var last := rows[|rows| - 1];
      assert rows == rows[..|rows| - 1] + [last];
      if last.published then rest else rest + [last]
  }

  // at lists, in order, the places of the unpublished rows, and r holds the rows at these places.
  predicate Picks(rows: seq<OutboxRow>, at: seq<nat>, r: seq<OutboxRow>) {
    && |at| == |r|
    && (forall i | 0 <= i < |at| :: at[i] < |rows| && !rows[at[i]].published && r[i] == rows[at[i]])
    && (forall i, j | 0 <= i < j < |at| :: at[i] < at[j])
    && (forall n | 0 <= n < |rows| && !rows[n].published :: n in at)
  }

  lemma PicksOneMore(rows: seq<OutboxRow>, at: seq<nat>, r: seq<OutboxRow>, x: OutboxRow)
    requires Picks(rows, at, r)
    ensures if x.published then Picks(rows + [x], at, r) else Picks(rows + [x], at + [|rows|], r + [x])
  {
    var longer := rows + [x];
    forall n | 0 <= n < |longer| && !longer[n].published ensures n in at || n == |rows| {
      if n < |rows| { assert !rows[n].published; }
    }
  }

  /** The rows to publish are the unpublished ones, each as often as it is there and in the order of the table. */
  lemma {:induction false} UnpublishedInOrder(rows: seq<OutboxRow>) returns (at: seq<nat>)
    ensures Picks(rows, at, Unpublished(rows))
  {
    hide Picks;
    if rows == [] {
      at := [];
      PicksNothing();
    } else {
      var short, last := rows[..|rows| - 1], rows[|rows| - 1];
      at := UnpublishedInOrder(short);
      PicksOneMore(short, at, Unpublished(short), last);
      assert rows == short + [last];
      if !last.published { at := at + [|short|]; }
    }
  }

  lemma PicksNothing()
    ensures Picks([], [], [])
  {}

  // ---- what a pass does, by places in the table ----

  predicate Rising(at: seq<nat>) { forall i, j | 0 <= i < j < |at| :: at[i] < at[j] }

  // Places of unpublished rows.
  predicate InTable(rows: seq<OutboxRow>, at: seq<nat>) { forall i | 0 <= i < |at| :: at[i] < |rows| && !rows[at[i]].published }

  // Every other unpublished row stands after them.
  predicate BeforeRest(rows: seq<OutboxRow>, at: seq<nat>) {
    forall n, i | 0 <= n < |rows| && !rows[n].published && n !in at && 0 <= i < |at| :: at[i] < n
  }

  // The first unpublished rows, in table order.
  predicate Front(rows: seq<OutboxRow>, at: seq<nat>) { InTable(rows, at) && Rising(at) && BeforeRest(rows, at) }

  // The table once the rows at these places are marked.
  function MarkedAt(rows: seq<OutboxRow>, at: seq<nat>): (r: seq<OutboxRow>)
    ensures |r| == |rows|
    ensures forall n | 0 <= n < |rows| :: r[n] == if n in at then rows[n].(published := true) else rows[n]
  {
    seq(|rows|, n requires 0 <= n < |rows| => if n in at then rows[n].(published := true) else rows[n])
  }

  // What is sent for the rows at these places, in this order.
  function Sent(rows: seq<OutboxRow>, at: seq<nat>): (r: seq<Message>)
    requires InTable(rows, at)
    ensures |r| == |at| && forall i | 0 <= i < |at| :: r[i] == Message(rows[at[i]].job, rows[at[i]].attempt, 1)
  {
    seq(|at|, i requires 0 <= i < |at| => Message(rows[at[i]].job, rows[at[i]].attempt, 1))
  }

  // The backlog.
  function Waiting(rows: seq<OutboxRow>): nat {
    if rows == [] then 0 else Waiting(rows[..|rows| - 1]) + if rows[|rows| - 1].published then 0 else 1
  }

  lemma {:induction false} WaitingIsUnpublished(rows: seq<OutboxRow>)
    ensures Waiting(rows) == |Unpublished(rows)|
    ensures Waiting(rows) == 0 <==> forall n | 0 <= n < |rows| :: rows[n].published
  {
    if rows != [] {
      var short := rows[..|rows| - 1];
      WaitingIsUnpublished(short);
      assert forall n | 0 <= n < |short| :: short[n] == rows[n];
    }
  }

  // Of all places of unpublished rows, the first ones are a front.
  lemma FirstAreFront(rows: seq<OutboxRow>, all: seq<nat>, n: nat)
    requires n <= |all| && InTable(rows, all) && Rising(all) && forall m | 0 <= m < |rows| && !rows[m].published :: m in all
    ensures Front(rows, all[..n])
  {
    var at := all[..n];
    assert forall j | 0 <= j < n :: at[j] == all[j] && at[j] in at;
    forall m, i | 0 <= m < |rows| && !rows[m].published && m !in at && 0 <= i < |at| ensures at[i] < m {
      assert m in all;
      var j :| 0 <= j < |all| && all[j] == m;
    }
  }

  lemma PicksAre(rows: seq<OutboxRow>, at: seq<nat>, r: seq<OutboxRow>)
    requires Picks(rows, at, r)
    ensures |at| == |r| && InTable(rows, at) && Rising(at) && (forall m | 0 <= m < |rows| && !rows[m].published :: m in at)
    ensures forall i | 0 <= i < |at| :: r[i] == rows[at[i]]
  {}

  // The oldest rows are the front of the table.
  lemma OldestIsFront(rows: seq<OutboxRow>, limit: nat) returns (at: seq<nat>)
    ensures Front(rows, at) && |at| == |Oldest(rows, limit)| == (if Waiting(rows) <= limit then Waiting(rows) else limit)
    ensures forall i | 0 <= i < |at| :: Oldest(rows, limit)[i] == rows[at[i]]
    ensures Sent(rows, at) == Messages(Oldest(rows, limit))
  {
    hide Unpublished, Waiting, Picks, InTable, Rising, BeforeRest;
    var all := UnpublishedInOrder(rows);
    WaitingIsUnpublished(rows);
    PicksAre(rows, all, Unpublished(rows));
    at := all[..|Oldest(rows, limit)|];
    FirstAreFront(rows, all, |at|);
    SentAre(rows, at, Oldest(rows, limit));
  }

  lemma SentAre(rows: seq<OutboxRow>, at: seq<nat>, picked: seq<OutboxRow>)
    requires InTable(rows, at) && |at| == |picked| && forall i | 0 <= i < |at| :: picked[i] == rows[at[i]]
    ensures Sent(rows, at) == Messages(picked)
  {}

  // Rows have different ids, so marking by id marks just these.
  lemma MarkedByPlace(rows: seq<OutboxRow>, at: seq<nat>, picked: seq<OutboxRow>)
    requires OutboxDistinct(rows) && |picked| == |at| && InTable(rows, at)
    requires forall i | 0 <= i < |at| :: picked[i] == rows[at[i]]
    ensures MarkedRows(rows, Ids(picked)) == MarkedAt(rows, at)
  {
    forall n | 0 <= n < |rows| ensures rows[n].id in Ids(picked) <==> n in at {
      if rows[n].id in Ids(picked) {
        var r :| r in picked && r.id == rows[n].id;
        var i :| 0 <= i < |picked| && picked[i] == r;
        assert rows[at[i]].id == rows[n].id;
        assert at[i] == n;
      }
      if n in at {
        var i :| 0 <= i < |at| && at[i] == n;
        assert picked[i] in picked && picked[i].id == rows[n].id;
      }
    }
  }

  lemma {:induction false} FewerWaiting(rows: seq<OutboxRow>, at: seq<nat>)
    requires InTable(rows, at) && Rising(at)
    ensures Waiting(MarkedAt(rows, at)) + |at| == Waiting(rows)
  {
    if rows != [] {
      var short, n := rows[..|rows| - 1], |rows| - 1;
      var less := if at != [] && at[|at| - 1] == n then at[..|at| - 1] else at;
      WithoutPlace(rows, at, less);
      FewerWaiting(short, less);
      MarkedShort(rows, at, less);
    }
  }

  lemma WithoutPlace(rows: seq<OutboxRow>, at: seq<nat>, less: seq<nat>)
    requires rows != [] && InTable(rows, at) && Rising(at)
    requires less == if at != [] && at[|at| - 1] == |rows| - 1 then at[..|at| - 1] else at
    ensures InTable(rows[..|rows| - 1], less) && Rising(less)
    ensures (|rows| - 1 in at) <==> |less| < |at|
    ensures forall m | 0 <= m < |rows| - 1 :: m in less <==> m in at
  {
    forall i | 0 <= i < |less| ensures less[i] < |rows| - 1 {
      if |less| < |at| { assert at[i] < at[|at| - 1]; } else { assert at[i] <= at[|at| - 1]; }
    }
    forall m | 0 <= m < |rows| - 1 && m in at ensures m in less {
      var i :| 0 <= i < |at| && at[i] == m;
      assert i < |less| && less[i] == m;
    }
  }

  lemma MarkedShort(rows: seq<OutboxRow>, at: seq<nat>, less: seq<nat>)
    requires rows != [] && forall m | 0 <= m < |rows| - 1 :: m in less <==> m in at
    ensures MarkedAt(rows, at)[..|rows| - 1] == MarkedAt(rows[..|rows| - 1], less)
  {}

  // One pass after another is one longer pass.
  lemma FrontJoins(rows: seq<OutboxRow>, at: seq<nat>, more: seq<nat>)
    requires Front(rows, at) && Front(MarkedAt(rows, at), more)
    ensures Front(rows, at + more) && MarkedAt(MarkedAt(rows, at), more) == MarkedAt(rows, at + more)
    ensures Sent(rows, at + more) == Sent(rows, at) + Sent(MarkedAt(rows, at), more)
  {
    hide InTable, Rising, BeforeRest, Sent, MarkedAt;
    PlacesJoin(rows, at, more);
    RisingJoins(rows, at, more);
    RestJoins(rows, at, more);
    MarkedJoins(rows, at, more);
    SentJoins(rows, at, more);
  }

  lemma PlacesJoin(rows: seq<OutboxRow>, at: seq<nat>, more: seq<nat>)
    requires InTable(rows, at) && InTable(MarkedAt(rows, at), more)
    ensures InTable(rows, at + more) && InTable(rows, more) && forall i | 0 <= i < |more| :: more[i] !in at
  {
    var marked := MarkedAt(rows, at);
    forall i | 0 <= i < |more| ensures more[i] < |rows| && more[i] !in at && !rows[more[i]].published {
      assert !marked[more[i]].published;
    }
  }

  lemma RisingJoins(rows: seq<OutboxRow>, at: seq<nat>, more: seq<nat>)
    requires Rising(at) && Rising(more) && InTable(rows, more) && BeforeRest(rows, at) && forall i | 0 <= i < |more| :: more[i] !in at
    ensures Rising(at + more)
  {
    var all := at + more;
    forall i, j | 0 <= i < j < |all| ensures all[i] < all[j] {
      if i < |at| <= j {
        var n := more[j - |at|];
        assert !rows[n].published && n !in at;
        assert at[i] < n;
      }
    }
  }

  lemma RestJoins(rows: seq<OutboxRow>, at: seq<nat>, more: seq<nat>)
    requires BeforeRest(rows, at) && BeforeRest(MarkedAt(rows, at), more)
    ensures BeforeRest(rows, at + more)
  {
    var all, marked := at + more, MarkedAt(rows, at);
    forall n, i | 0 <= n < |rows| && !rows[n].published && n !in all && 0 <= i < |all| ensures all[i] < n {
      assert n !in at && n !in more && !marked[n].published;
      if i < |at| { assert at[i] < n; } else { assert more[i - |at|] < n; }
    }
  }

  lemma MarkedJoins(rows: seq<OutboxRow>, at: seq<nat>, more: seq<nat>)
    ensures MarkedAt(MarkedAt(rows, at), more) == MarkedAt(rows, at + more)
  {
    forall n: nat ensures n in at + more <==> n in at || n in more {}
  }

  lemma SentJoins(rows: seq<OutboxRow>, at: seq<nat>, more: seq<nat>)
    requires InTable(rows, at) && InTable(rows, more) && InTable(MarkedAt(rows, at), more) && InTable(rows, at + more)
    ensures Sent(rows, at + more) == Sent(rows, at) + Sent(MarkedAt(rows, at), more)
  {}

  function Messages(rows: seq<OutboxRow>): (r: seq<Message>)
    ensures |r| == |rows| && forall i | 0 <= i < |r| :: r[i] == MessageOf(rows[i])
  {
    seq(|rows|, i requires 0 <= i < |rows| => MessageOf(rows[i]))
  }

  function Ids(rows: seq<OutboxRow>): set<nat> { set r | r in rows :: r.id }

  // The row was issued under this id at some time; it may have been deleted since.
  ghost predicate Issued(w: State, r: OutboxRow) {
    r.id in w.outboxIds && w.outboxIds[r.id] == (r.job, r.attempt)
  }

  lemma SameJobs(c: Config, w: State, x: State)
    requires x.jobs == w.jobs && x.uploads == w.uploads && x.objects == w.objects && x.index == w.index
    requires x.calls == w.calls && x.slept == w.slept && x.outboxIds == w.outboxIds && w.queue <= x.queue && x.tokens == w.tokens
    requires JobsOk(c, w) && ObjectsOk(c, w) && KeptOk(c, w) && CountersOk(c, w) && ConstraintsOk(w)
    ensures JobsOk(c, x) && ObjectsOk(c, x) && KeptOk(c, x) && CountersOk(c, x) && ConstraintsOk(x) && Evolves(w, x)
    ensures forall m: Message | Settled(w, m) :: Settled(x, m)
    ensures forall id, k | OnceIssued(w, id, k) :: OnceIssued(x, id, k)
  {
    hide RecOk, ContentOk, Kept, Used, Pow2;
    forall k | k in x.index ensures IsIndexed(x, k) { assert IsIndexed(w, k); }
    forall id | id in x.jobs && !x.jobs[id].row.Deleted? && x.jobs[id].hist != [] ensures HasEntry(x, id) { assert HasEntry(w, id); }
  }

  /** Publishing an issued row keeps the invariant, however often and however late it happens. */
  lemma PublishOk(c: Config, w: State, r: OutboxRow)
    requires Inv(c, w) && Issued(w, r)
    ensures Inv(c, Published(w, MessageOf(r))) && Evolves(w, Published(w, MessageOf(r)))
  {
    hide JobsOk, ObjectsOk, KeptOk, CountersOk, ConstraintsOk, Settled, OnceIssued, Evolves;
    var x := Published(w, MessageOf(r));
    SameJobs(c, w, x);
    assert OnceIssued(w, w.outboxIds[r.id].0, w.outboxIds[r.id].1);
    forall i | 0 <= i < |x.outbox| ensures OutboxRowOk(x, x.outbox[i]) { assert OutboxRowOk(w, w.outbox[i]); }
    forall id, k | id in x.jobs && x.jobs[id].hist != [] && !x.jobs[id].row.Deleted? && 1 <= k <= Current(x, id).attempt
      ensures HasOutboxRow(x, id, k)
    {
      assert HasOutboxRow(w, id, k);
    }
  }

  lemma MarkedHasRow(w: State, n: nat, id: JobId, k: nat)
    requires HasOutboxRow(w, id, k)
    ensures HasOutboxRow(Marked(w, n), id, k)
  {
    var i :| 0 <= i < |w.outbox| && w.outbox[i].job == id && w.outbox[i].attempt == k;
    assert Marked(w, n).outbox[i].job == id;
  }

  /** Marking a row keeps the invariant once its message is in the topic. */
  lemma MarkOk(c: Config, w: State, r: OutboxRow)
    requires Inv(c, w) && Issued(w, r) && MessageOf(r) in w.queue
    ensures Inv(c, Marked(w, r.id)) && Evolves(w, Marked(w, r.id))
  {
    hide JobsOk, ObjectsOk, KeptOk, CountersOk, ConstraintsOk, Settled, OnceIssued, Evolves, HasOutboxRow;
    var x := Marked(w, r.id);
    SameJobs(c, w, x);
    forall i | 0 <= i < |x.outbox| ensures OutboxRowOk(x, x.outbox[i]) { assert OutboxRowOk(w, w.outbox[i]); }
    forall id, k | id in x.jobs && x.jobs[id].hist != [] && !x.jobs[id].row.Deleted? && 1 <= k <= Current(x, id).attempt
      ensures HasOutboxRow(x, id, k)
    {
      MarkedHasRow(w, r.id, id, k);
    }
  }

  /** Publishing and marking are steps every worker allows. */
  lemma DispatchIsAllowed(c: Config, w: State, r: OutboxRow, j: JobId)
    ensures Others(c, j, w, Published(w, MessageOf(r))) && Others(c, j, w, Marked(w, r.id))
    ensures Untouched(j, w, Published(w, MessageOf(r))) && Untouched(j, w, Marked(w, r.id))
  {}

  lemma IssuedStays(w: State, x: State, r: OutboxRow)
    requires Evolves(w, x) && Issued(w, r)
    ensures Issued(x, r) && forall m | m in w.queue :: m in x.queue
  {}

  lemma RowsAreIssued(c: Config, w: State, rows: seq<OutboxRow>)
    requires Inv(c, w) && forall r | r in rows :: r in w.outbox
    ensures forall r | r in rows :: Issued(w, r)
  {
    hide JobsOk, ObjectsOk, KeptOk, CountersOk, ConstraintsOk, QueueOk, OutboxDistinct, AttemptsHaveRows;
    forall r | r in rows ensures Issued(w, r) {
      var i :| 0 <= i < |w.outbox| && w.outbox[i] == r;
      assert OutboxRowOk(w, w.outbox[i]);
    }
  }

  // ---- the dispatcher ----

  datatype DispatchError = DatabaseDown | QueueDown

  class OutboxDispatcher {
    const c: Config
    const calm: bool
    var w: State

    constructor (c: Config, calm: bool, w: State)
      requires Inv(c, w)
      ensures Inv(c, this.w) && this.c == c && this.calm == calm && this.w == w
    {
      this.c := c;
      this.calm := calm;
      this.w := w;
    }

    // Any number of steps of everybody else, other dispatchers included.
    method Interfere()
      requires Inv(c, w)
      modifies `w
      ensures Inv(c, w) && Evolves(old(w), w) && (calm ==> w == old(w))
    {}

    // The oldest unpublished rows. The row locks end with the statement.
    method Pending(limit: nat) returns (rows: seq<OutboxRow>)
      requires Inv(c, w)
      modifies `w
      ensures Inv(c, w) && Evolves(old(w), w) && |rows| <= limit && (forall r | r in rows :: Issued(w, r))
      ensures calm ==> w == old(w) && rows == Oldest(w.outbox, limit)
    {
      hide Inv, Evolves;
      Interfere();
      rows := Oldest(w.outbox, limit);
      RowsAreIssued(c, w, rows);
    }

    // The record may reach the topic even if the call fails.
    method Publish(r: OutboxRow) returns (ok: bool)
      requires Inv(c, w) && Issued(w, r)
      modifies `w
      ensures Inv(c, w) && Evolves(old(w), w) && Issued(w, r)
      ensures ok ==> MessageOf(r) in w.queue
      ensures calm ==> ok && w == Published(old(w), MessageOf(r))
    {
      hide Inv, Evolves, Issued;
      ghost var w0 := w;
      Interfere();
      ghost var w1 := w;
      IssuedStays(w0, w1, r);
      var fails := MayFail(calm);
      if fails {
        return false;
      }
      PublishOk(c, w, r);
      w := Published(w, MessageOf(r));
      EvolvesTransitive(w0, w1, w);
      IssuedStays(w1, w, r);
      fails := MayFail(calm);
      ok := !fails;
    }

    method MarkPublished(r: OutboxRow) returns (ok: bool)
      requires Inv(c, w) && Issued(w, r) && MessageOf(r) in w.queue
      modifies `w
      ensures Inv(c, w) && Evolves(old(w), w)
      ensures calm ==> ok && w == Marked(old(w), r.id)
    {
      hide Inv, Evolves, Issued;
      ghost var w0 := w;
      Interfere();
      ghost var w1 := w;
      IssuedStays(w0, w1, r);
      var fails := MayFail(calm);
      if fails {
        return false;
      }
      MarkOk(c, w, r);
      w := Marked(w, r.id);
      EvolvesTransitive(w0, w1, w);
      fails := MayFail(calm);
      ok := !fails;
    }

    /**
     dispatch_once: publish, then mark, row by row. Without failures it sends and marks, in table order,
     as many of the first unpublished rows as the limit allows, and leaves only later ones.
     */
    method DispatchOnce(limit: nat) returns (r: Result<nat, DispatchError>, ghost at: seq<nat>)
      requires Inv(c, w)
      modifies `w
      ensures Inv(c, w) && Evolves(old(w), w)
      ensures r.Ok? ==> r.value <= limit
      ensures calm ==>
                && Front(old(w).outbox, at) && r == Ok(|at|)
                && |at| == (if Waiting(old(w).outbox) <= limit then Waiting(old(w).outbox) else limit)
                && w == old(w).(queue := old(w).queue + Sent(old(w).outbox, at), outbox := MarkedAt(old(w).outbox, at))
    {
      hide Inv, Evolves, Issued, InTable, Rising, BeforeRest, Waiting, MarkedAt, Sent, Oldest, Messages, MarkedRows, Ids;
      ghost var w0 := w;
      at := OldestIsFront(w0.outbox, limit);
      Interfere();
      var fails := MayFail(calm);
      if fails {
        return Err(DatabaseDown), at;
      }
      ghost var w1 := w;
      var rows := Pending(limit);
      EvolvesTransitive(w0, w1, w);
      NothingMarked(w.outbox);
      ghost var w2 := w;
      for i := 0 to |rows|
        invariant Inv(c, w) && Evolves(w0, w) && forall r | r in rows :: Issued(w, r)
        invariant calm ==> w == w2.(queue := w2.queue + Messages(rows[..i]), outbox := MarkedRows(w2.outbox, Ids(rows[..i])))
      {
        ghost var w3 := w;
        var sent := Publish(rows[i]);
        ghost var w4 := w;
        EvolvesTransitive(w0, w3, w4);
        IssuedLater(w3, w4, rows);
        if !sent {
          return Err(QueueDown), at;
        }
        var marked := MarkPublished(rows[i]);
        EvolvesTransitive(w0, w4, w);
        IssuedLater(w4, w, rows);
        if !marked {
          return Err(DatabaseDown), at;
        }
        OneMore(w2, rows, i);
      }
      assert rows[..|rows|] == rows;
      if calm {
        RowsDistinct(c, w0);
        MarkedByPlace(w0.outbox, at, rows);
      }
      r := Ok(|rows|);
    }

    /**
     The dispatch loop. Without failures any number of passes puts the messages of the first unpublished
     rows in the topic in table order, and enough passes drain the outbox, whatever the limit.
     */
    method Dispatch(limit: nat, passes: nat) returns (ghost at: seq<nat>)
      requires Inv(c, w) && 1 <= limit
      modifies `w
      ensures Inv(c, w) && Evolves(old(w), w)
      ensures calm ==>
                && Front(old(w).outbox, at)
                && w == old(w).(queue := old(w).queue + Sent(old(w).outbox, at), outbox := MarkedAt(old(w).outbox, at))
      ensures calm && Waiting(old(w).outbox) <= limit * passes ==> forall n | 0 <= n < |w.outbox| :: w.outbox[n].published
    {
      hide Inv, Evolves, InTable, Rising, BeforeRest, Waiting, MarkedAt, Sent;
      ghost var w0 := w;
      EvolvesReflexive(w);
      at := [];
      NothingSent(w0.outbox);
      assert w0.queue + [] == w0.queue;
      for i := 0 to passes
        invariant Inv(c, w) && Evolves(w0, w)
        invariant calm ==> Front(w0.outbox, at) && w == w0.(queue := w0.queue + Sent(w0.outbox, at), outbox := MarkedAt(w0.outbox, at))
        invariant calm ==> Waiting(w.outbox) == 0 || |at| == limit * i
        invariant calm ==> Waiting(w.outbox) + |at| == Waiting(w0.outbox)
      {
        ghost var w1 := w;
        ghost var more;
        var r;
        r, more := DispatchOnce(limit);
        EvolvesTransitive(w0, w1, w);
        if calm {
          FewerWaiting(w1.outbox, more);
          FrontJoins(w0.outbox, at, more);
          at := at + more;
        }
      }
      WaitingIsUnpublished(w.outbox);
    }
  }

  function Oldest(rows: seq<OutboxRow>, limit: nat): seq<OutboxRow> {
    var all := Unpublished(rows);
    if |all| <= limit then all else all[..limit]
  }

  lemma NothingSent(rows: seq<OutboxRow>)
    ensures Front(rows, []) && MarkedAt(rows, []) == rows && Sent(rows, []) == []
  {}

  lemma RowsDistinct(c: Config, w: State)
    requires Inv(c, w)
    ensures OutboxDistinct(w.outbox)
  {}

  lemma NothingMarked(rows: seq<OutboxRow>)
    ensures MarkedRows(rows, Ids([])) == rows && Messages([]) == []
  {
    assert Ids([]) == {};
  }

  lemma IssuedLater(w: State, x: State, rows: seq<OutboxRow>)
    requires Evolves(w, x) && forall r | r in rows :: Issued(w, r)
    ensures forall r | r in rows :: Issued(x, r)
  {
    forall r | r in rows ensures Issued(x, r) { IssuedStays(w, x, r); }
  }

  lemma OneMore(w: State, rows: seq<OutboxRow>, i: nat)
    requires i < |rows|
    ensures w.queue + Messages(rows[..i]) + [MessageOf(rows[i])] == w.queue + Messages(rows[..i + 1])
    ensures MarkedRows(MarkedRows(w.outbox, Ids(rows[..i])), {rows[i].id}) == MarkedRows(w.outbox, Ids(rows[..i + 1]))
  {
    assert rows[..i + 1] == rows[..i] + [rows[i]];
    assert Ids(rows[..i + 1]) == Ids(rows[..i]) + {rows[i].id};
  }

  /** One undisturbed pass with a large enough limit leaves nothing unpublished. */
  lemma AllPublished(rows: seq<OutboxRow>, limit: nat)
    requires |Unpublished(rows)| <= limit
    ensures forall r | r in MarkedRows(rows, Ids(Oldest(rows, limit))) :: r.published
  {
    var done := MarkedRows(rows, Ids(Oldest(rows, limit)));
    forall i | 0 <= i < |done| ensures done[i].published {
      assert rows[i] in rows;
    }
  }
}
