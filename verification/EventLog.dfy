/**
 The per-job event log (backend/src/infrastructure/persistence.py, append_with_connection;
 backend/src/infrastructure/memory.py, InMemoryJobEventRepository.append) and why it mirrors
 the committed history one for one.
 */
module EventLog {
  import opened Domain
  import opened History

  datatype EventKind =
    | JobQueued
    | JobPreprocessing
    | JobPagesPrepared
    | JobRunning
    | PageStarted
    | PageRetryScheduled
    | PageDone
    | PageGaveUp
    | JobAssembling
    | JobSucceeded
    | JobFailed
    | JobCancelled
    | JobCancelRequested
    | JobRetrying

  // Progress is the exact ratio completed/total; the source rounds it to four digits.
  datatype Event = Event(sequence: nat, kind: EventKind, state: JobState, attempt: nat, completed: nat, total: nat)

  predicate TerminalKind(k: EventKind) { k == JobCancelled || k == JobFailed || k == JobSucceeded }

  function KindOfState(s: JobState): EventKind
    requires Terminal(s)
  {
    if s == Cancelled then JobCancelled else if s == Failed then JobFailed else JobSucceeded
  }

  // The event type the code emits with each action.
  function KindOf(e: Entry): EventKind {
    match e.act
    case Create => JobQueued
    case BeginPreprocessing => JobPreprocessing
    case PreparePages => JobPagesPrepared
    case BeginRunning => JobRunning
    case StartPage(_) => PageStarted
    case ScheduleRetry(_, _, _) => PageRetryScheduled
    case SucceedPage(_, _, _) => PageDone
    case FailPage(_, _, _) => PageGaveUp
    case BeginAssembling => JobAssembling
    case Succeed(_, _, _) => JobSucceeded
    case Fail(_, _) => JobFailed
    case Cancel => JobCancelled
    case RequestCancel(_) => if e.job.state == Cancelled then JobCancelled else JobCancelRequested
    case Retry(_) => JobRetrying
  }

  function EventFor(sequence: nat, kind: EventKind, v: JobData): Event {
    Event(sequence, kind, v.state, v.attempt, CompletedPages(v.pages), |v.pages|)
  }

  function MaxSequence(log: seq<Event>): nat {
    if log == [] then 0
    else
      var m := MaxSequence(log[..|log| - 1]);
      if log[|log| - 1].sequence > m then log[|log| - 1].sequence else m
  }

  predicate HasTerminal(log: seq<Event>, kind: EventKind, attempt: nat) {
    exists i | 0 <= i < |log| :: log[i].kind == kind && log[i].attempt == attempt
  }

  // Appending: a terminal event that is already there for the attempt is not written again.
  function Append(log: seq<Event>, kind: EventKind, v: JobData): seq<Event> {
    if TerminalKind(kind) && HasTerminal(log, kind, v.attempt) then log
    else log + [EventFor(MaxSequence(log) + 1, kind, v)]
  }

  predicate Mirrors(log: seq<Event>, h: seq<Entry>) {
    && |log| == |h|
    && forall i | 0 <= i < |h| :: log[i] == EventFor(i + 1, KindOf(h[i]), h[i].job)
  }

  lemma {:induction false} MirrorSequence(log: seq<Event>, h: seq<Entry>)
    requires Mirrors(log, h)
    ensures MaxSequence(log) == |log|
  {
    if log != [] {
      MirrorSequence(log[..|log| - 1], h[..|h| - 1]);
    }
  }

  // An action with a terminal event ends an attempt that had not ended.
  lemma TerminalActionEndsAttempt(c: Config, v: JobData, a: Action)
    requires Enabled(c, v, a) && TerminalKind(KindOf(Entry(a, Apply(c, v, a))))
    ensures !Terminal(v.state) && Apply(c, v, a).attempt == v.attempt && Terminal(Apply(c, v, a).state)
    ensures KindOf(Entry(a, Apply(c, v, a))) == KindOfState(Apply(c, v, a).state)
  {}

  // A terminal event and the version it was written with agree.
  lemma TerminalEventMeansTerminalVersion(c: Config, id: JobId, log: seq<Event>, h: seq<Entry>, i: nat)
    requires Chain(c, id, h) && Mirrors(log, h) && i < |h| && TerminalKind(log[i].kind)
    ensures Terminal(h[i].job.state) && log[i].kind == KindOfState(h[i].job.state)
    ensures log[i].attempt == h[i].job.attempt && h[i].act != Create
    ensures 0 < i && !Terminal(h[i - 1].job.state) && h[i - 1].job.attempt == h[i].job.attempt
  {
    if i > 0 {
      assert Linked(c, h, i);
      TerminalActionEndsAttempt(c, h[i - 1].job, h[i].act);
    }
  }

  /** Saving a version always writes exactly its event: the suppression of duplicates never fires on a save. */
  lemma SaveWritesItsEvent(c: Config, id: JobId, log: seq<Event>, h: seq<Entry>, a: Action)
    requires Chain(c, id, h) && Mirrors(log, h) && Enabled(c, Last(h), a)
    ensures
      var e := Entry(a, Apply(c, Last(h), a));
      && Append(log, KindOf(e), e.job) == log + [EventFor(|h| + 1, KindOf(e), e.job)]
      && Mirrors(Append(log, KindOf(e), e.job), h + [e])
  {
    hide Enabled, Apply, KindOf;
    var e := Entry(a, Apply(c, Last(h), a));
    MirrorSequence(log, h);
    if TerminalKind(KindOf(e)) && HasTerminal(log, KindOf(e), e.job.attempt) {
      var i :| 0 <= i < |log| && log[i].kind == KindOf(e) && log[i].attempt == e.job.attempt;
      TerminalEventMeansTerminalVersion(c, id, log, h, i);
      TerminalActionEndsAttempt(c, Last(h), a);
      OutcomeIsFinal(c, id, h, i, |h| - 1);
      assert false;
    }
  }

  // The version that ended attempt k.
  lemma {:induction false} EndOfAttempt(c: Config, id: JobId, log: seq<Event>, h: seq<Entry>, i: nat) returns (j: nat)
    requires Chain(c, id, h) && Mirrors(log, h) && i < |h| && Terminal(h[i].job.state)
    ensures j <= i && h[j].job.attempt == h[i].job.attempt && h[j].job.state == h[i].job.state
    ensures TerminalKind(log[j].kind)
  {
    j := i;
    if !TerminalKind(log[i].kind) {
      if i > 0 {
        assert Linked(c, h, i);
        j := EndOfAttempt(c, id, log, h, i - 1);
      }
    }
  }

  /**
   The log mirrors the row: sequences are exactly 1..n, attempts never decrease along the log,
   and the last event carries the row's state and attempt; its sequence is the row's revision plus one.
   */
  lemma LogMirrorsRow(c: Config, id: JobId, log: seq<Event>, h: seq<Entry>)
    requires Chain(c, id, h) && Mirrors(log, h)
    ensures forall i | 0 <= i < |log| :: log[i].sequence == i + 1
    ensures forall i, j | 0 <= i <= j < |log| :: log[i].attempt <= log[j].attempt
    ensures log != [] && log[|log| - 1].state == Last(h).state && log[|log| - 1].attempt == Last(h).attempt
    ensures log[|log| - 1].sequence == Last(h).revision + 1
  {
    forall i, j | 0 <= i <= j < |log| ensures log[i].attempt <= log[j].attempt {
      AttemptsGrow(c, id, h, i, j);
    }
    Versions(c, id, h, |h| - 1);
  }

  /** Each finished attempt has exactly one terminal event, and it names the outcome the attempt keeps. */
  lemma OneTerminalEventPerAttempt(c: Config, id: JobId, log: seq<Event>, h: seq<Entry>, i: nat)
    requires Chain(c, id, h) && Mirrors(log, h) && i < |h| && Terminal(h[i].job.state)
    ensures exists j | 0 <= j < |log| ::
              && log[j].attempt == h[i].job.attempt && log[j].kind == KindOfState(h[i].job.state)
              && forall m | 0 <= m < |log| && TerminalKind(log[m].kind) && log[m].attempt == h[i].job.attempt :: m == j
  {
    var j := EndOfAttempt(c, id, log, h, i);
    TerminalEventMeansTerminalVersion(c, id, log, h, j);
    forall m | 0 <= m < |log| && TerminalKind(log[m].kind) && log[m].attempt == h[i].job.attempt ensures m == j {
      TerminalEventMeansTerminalVersion(c, id, log, h, m);
      if m < j { OutcomeIsFinal(c, id, h, m, j - 1); }
      if j < m { OutcomeIsFinal(c, id, h, j, m - 1); }
    }
  }

  /** No terminal event is written for an attempt that has not finished. */
  lemma NoTerminalEventBefore(c: Config, id: JobId, log: seq<Event>, h: seq<Entry>, k: nat)
    requires Chain(c, id, h) && Mirrors(log, h)
    requires forall i | 0 <= i < |h| && h[i].job.attempt == k :: !Terminal(h[i].job.state)
    ensures forall m | 0 <= m < |log| && log[m].attempt == k :: !TerminalKind(log[m].kind)
  {
    forall m | 0 <= m < |log| && log[m].attempt == k ensures !TerminalKind(log[m].kind) {
      if TerminalKind(log[m].kind) { TerminalEventMeansTerminalVersion(c, id, log, h, m); }
    }
  }

  /**
   The repair a redelivered message triggers on a finished attempt changes nothing, whatever else
   the copy it is made from says.
   */
  lemma RepairChangesNothing(c: Config, id: JobId, log: seq<Event>, h: seq<Entry>, i: nat, v: JobData)
    requires Chain(c, id, h) && Mirrors(log, h) && i < |h| && Terminal(h[i].job.state)
    requires v.state == h[i].job.state && v.attempt == h[i].job.attempt
    ensures Append(log, KindOfState(v.state), v) == log
  {
    hide Linked, Mirrors;
    OneTerminalEventPerAttempt(c, id, log, h, i);
    assert HasTerminal(log, KindOfState(v.state), v.attempt);
  }

  // ---- what the events say ----

  function Places(pages: seq<PageData>): set<nat> {
    set p: nat | p < |pages| && pages[p].state == PageSucceeded
  }

  // The completed count of an event is the number of finished pages.
  lemma {:induction false} CompletedIsCount(pages: seq<PageData>)
    ensures CompletedPages(pages) == |Places(pages)| <= |pages|
    ensures CompletedPages(pages) == |pages| <==> AllSucceeded(pages)
  {
    if pages != [] {
      var short := pages[..|pages| - 1];
      CompletedIsCount(short);
      assert forall p: nat | p < |short| :: short[p] == pages[p];
      if pages[|short|].state == PageSucceeded {
        assert Places(pages) == Places(short) + {|short|};
      } else {
        assert Places(pages) == Places(short);
      }
    }
  }

  function Done(log: seq<Event>, i: nat): nat
    requires i <= |log|
  {
    if i == 0 then 0 else Done(log, i - 1) + if log[i - 1].kind == PageDone then 1 else 0
  }

  lemma NoneDone()
    ensures CompletedPages([]) == 0
  {}

  // With one live worker only a checkpoint finishes a page, and it finishes one that was not.
  lemma PlacesAfter(c: Config, v: JobData, a: Action)
    requires c.solo && Enabled(c, v, a)
    ensures a.SucceedPage? ==> a.page < |v.pages| && a.page !in Places(v.pages)
    ensures Places(Apply(c, v, a).pages) == Places(v.pages) + if a.SucceedPage? then {a.page} else {}
  {
    var before, after := v.pages, Apply(c, v, a).pages;
    assert |before| <= |after|;
    forall p: nat | p < |after|
      ensures after[p].state == PageSucceeded <==> (p < |before| && before[p].state == PageSucceeded) || (a.SucceedPage? && p == a.page)
    {}
  }

  lemma OneMoreDone(c: Config, v: JobData, a: Action)
    requires c.solo && Enabled(c, v, a)
    ensures CompletedPages(Apply(c, v, a).pages) == CompletedPages(v.pages) + if a.SucceedPage? then 1 else 0
  {
    hide Enabled, Apply, CompletedPages, AllSucceeded, Places;
    PlacesAfter(c, v, a);
    CompletedIsCount(v.pages);
    CompletedIsCount(Apply(c, v, a).pages);
  }

  /**
   With one live worker the page.succeeded events so far are exactly the finished pages of the version,
   over all its attempts, and that is the progress each event reports; all pages are finished exactly when
   there are as many such events as pages.
   */
  lemma {:induction false} DoneEventsAreFinishedPages(c: Config, id: JobId, log: seq<Event>, h: seq<Entry>, i: nat)
    requires Chain(c, id, h) && Mirrors(log, h) && c.solo && i < |h|
    ensures Done(log, i + 1) == |Places(h[i].job.pages)| == log[i].completed && log[i].total == |h[i].job.pages|
    ensures Done(log, i + 1) == |h[i].job.pages| <==> AllSucceeded(h[i].job.pages)
  {
    hide Enabled, Apply, CompletedPages, AllSucceeded, Places;
    CompletedIsCount(h[i].job.pages);
    if i == 0 {
      NoneDone();
    } else {
      DoneEventsAreFinishedPages(c, id, log, h, i - 1);
      assert Linked(c, h, i);
      OneMoreDone(c, h[i - 1].job, h[i].act);
      CompletedIsCount(h[i - 1].job.pages);
    }
  }

  // What a version must look like to be announced by this event.
  predicate Announces(kind: EventKind, u: JobData, v: JobData) {
    match kind
    case JobQueued => false
    case JobPreprocessing => u.state in {Queued, Retrying} && v.state == Preprocessing
    case JobPagesPrepared => u.pages == [] && v.pages != []
    case JobRunning => u.state == Preprocessing && v.state == Running
    case PageStarted => exists p | 0 <= p < |u.pages| && p < |v.pages| ::
        || u.pages[p].state == PageSucceeded
        || (v.pages[p].state == PageRunning && v.pages[p].attempts == u.pages[p].attempts + 1 && v.pages[p].code == 0 && v.pages[p].reason == "")
    case PageRetryScheduled => |v.pages| == |u.pages| && v.state == u.state
        && forall p | 0 <= p < |u.pages| :: v.pages[p].state == u.pages[p].state && v.pages[p].attempts == u.pages[p].attempts
    case PageDone => exists p | 0 <= p < |v.pages| :: v.pages[p].state == PageSucceeded && v.pages[p].code == 0
    case PageGaveUp => exists p | 0 <= p < |v.pages| :: v.pages[p].state == PageFailed
    case JobAssembling => u.state == Running && v.state == Assembling
    case JobSucceeded => u.state == Assembling && v.state == JobState.Succeeded
    case JobFailed => v.state == Failed && !Terminal(u.state)
    case JobCancelled => v.state == Cancelled && !Terminal(u.state)
    case JobCancelRequested => v.state == CancelRequested && !Terminal(u.state)
    case JobRetrying => v.state == Retrying && v.attempt == u.attempt + 1
  }

  /** Every event announces what its version did, for any number of workers; only the first is job.queued. */
  lemma EventsAnnounce(c: Config, id: JobId, log: seq<Event>, h: seq<Entry>, i: nat)
    requires Chain(c, id, h) && Mirrors(log, h) && i < |h|
    ensures i == 0 ==> log[i].kind == JobQueued
    ensures i > 0 ==> Announces(log[i].kind, h[i - 1].job, h[i].job)
  {
    if i > 0 {
      assert Linked(c, h, i);
      StepAnnounced(c, h[i - 1].job, h[i].act);
    }
  }

  lemma StepAnnounced(c: Config, v: JobData, a: Action)
    requires Enabled(c, v, a)
    ensures Announces(KindOf(Entry(a, Apply(c, v, a))), v, Apply(c, v, a))
  {
    var u := Apply(c, v, a);
    match a
    case StartPage(p) => assert p < |u.pages| && (v.pages[p].state == PageSucceeded || u.pages[p] == StartedPage(v.pages[p]));
    case SucceedPage(p, _, _) => assert u.pages[p].state == PageSucceeded;
    case FailPage(p, _, _) => assert u.pages[p].state == PageFailed;
    case _ =>
  }
}
