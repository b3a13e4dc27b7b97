/**
 The event stream end to end: the server's generator with its replay cursor and stop condition
 (router.py, stream_job_events), a connection that may break anywhere, and the browser that resumes
 with the last id it has seen (sse.ts, subscribeJobEvents).
 */
module Subscription {
  import opened Domain
  import opened EventLog
  import opened Sse

  // ---- ids as text ----

  function Digit(d: nat): char
    requires d < 10
  { ['0', '1', '2', '3', '4', '5', '6', '7', '8', '9'][d] }

  function DigitValue(c: char): Option<nat> { if '0' <= c <= '9' then Some(c as int - '0' as int) else None }

  function Decimal(n: nat): (r: string)
    ensures r != ""
  {
    if n < 10 then [Digit(n)] else Decimal(n / 10) + [Digit(n % 10)]
  }

  function ParseDigits(s: string): Option<nat> {
    if s == "" then Some(0)
    else match (ParseDigits(s[..|s| - 1]), DigitValue(s[|s| - 1]))
      case (Some(high), Some(low)) => Some(10 * high + low)
      case _ => None
  }

  lemma DigitFacts(d: nat)
    requires d < 10
    ensures DigitValue(Digit(d)) == Some(d) && Digit(d) != '\n' && Digit(d) != '\r'
  {}

  /** An id printed and read back is the same number. */
  lemma {:induction false} DecimalRoundTrip(n: nat)
    ensures ParseDigits(Decimal(n)) == Some(n) && OneLine(Decimal(n))
  {
    if n < 10 {
      DigitFacts(n);
      assert [Digit(n)][..0] == "";
    } else {
      DecimalRoundTrip(n / 10);
      DigitFacts(n % 10);
      var s := Decimal(n);
      assert s[..|s| - 1] == Decimal(n / 10);
    }
  }

  // int(last_event_id or 0), of plain digits; anything else is refused.
  function CursorOf(id: Option<string>): Option<nat> {
    if id.None? || id.value == "" then Some(0) else ParseDigits(id.value)
  }

  // ---- the server ----

  // Event type names and the JSON of an event; JSON text has no raw line breaks.
  datatype View = View(name: EventKind -> string, json: Event -> string)

  ghost predicate OneLined(view: View) {
    (forall k :: OneLine(view.name(k))) && (forall e :: OneLine(view.json(e)))
  }

  function FrameOf(view: View, e: Event): Frame { EventFrame(Decimal(e.sequence), view.name(e.kind), view.json(e)) }

  predicate IsLog(log: seq<Event>) { forall i | 0 <= i < |log| :: log[i].sequence == i + 1 }

  // The messages of events a+1..b of a log.
  function MessagesFor(view: View, log: seq<Event>, a: nat, b: nat): (r: seq<SseMessage>)
    requires a <= b && (a == b || b <= |log|)
    ensures |r| == b - a
    ensures forall i | 0 <= i < |r| ::
              r[i] == SseMessage(Some(Decimal(log[a + i].sequence)), Some(view.name(log[a + i].kind)), view.json(log[a + i]))
  {
    seq(b - a, i requires 0 <= i < b - a =>
      SseMessage(Some(Decimal(log[a + i].sequence)), Some(view.name(log[a + i].kind)), view.json(log[a + i])))
  }

  const PAGE := 100

  class JobEventStream {
    const view: View
    var log: seq<Event>

    ghost predicate Valid()
      reads this
    {
      IsLog(log) && OneLined(view)
    }

    constructor (view: View, log: seq<Event>)
      requires IsLog(log) && OneLined(view)
      ensures Valid() && this.view == view && this.log == log
    {
      this.view := view;
      this.log := log;
    }

    // Time passes: events may be appended. (The body is the schedule in which none is.)
    method Interfere()
      requires Valid()
      modifies `log
      ensures Valid() && old(log) <= log
    {}

    // SELECT ... WHERE sequence > $2 ORDER BY sequence LIMIT 100
    method ListAfter(sequence: nat) returns (pending: seq<Event>)
      requires Valid()
      modifies `log
      ensures Valid() && old(log) <= log && |pending| <= PAGE
      ensures if sequence < |log| then sequence + |pending| <= |log| && pending == log[sequence..sequence + |pending|] && pending != []
              else pending == []
      ensures sequence <= |log| ==> |pending| == 100 || sequence + |pending| == |log|
    {
      Interfere();
      if |log| <= sequence {
        pending := [];
      } else {
        pending := log[sequence..if sequence + PAGE <= |log| then sequence + PAGE else |log|];
      }
    }

    // The events of one poll: a query, and a second one after waiting when there are none yet.
    method Poll(sequence: nat) returns (pending: seq<Event>)
      requires Valid()
      modifies `log
      ensures Valid() && old(log) <= log && |pending| <= PAGE
      ensures if sequence < |log| then sequence + |pending| <= |log| && pending == log[sequence..sequence + |pending|]
              else pending == []
      ensures pending == [] ==> |old(log)| <= sequence
    {
      hide JobEventStream.Valid;
      pending := ListAfter(sequence);
      if pending == [] {
        pending := ListAfter(sequence);
      }
    }

    // latest.terminal, read from the job row, which the last event mirrors.
    method Latest() returns (latest: Option<Event>)
      requires Valid()
      modifies `log
      ensures Valid() && old(log) <= log
      ensures latest == if log == [] then None else Some(log[|log| - 1])
    {
      Interfere();
      latest := if log == [] then None else Some(log[|log| - 1]);
    }

    // The events of one page, as frames.
    method Yield(frames: seq<Frame>, pending: seq<Event>, ghost start: nat, ghost sequence: nat) returns (r: seq<Frame>)
      requires Valid() && start <= sequence && pending != [] && sequence + |pending| <= |log|
      requires pending == log[sequence..sequence + |pending|]
      requires MessagesOf(frames) == MessagesFor(view, log, start, sequence) && forall f | f in frames :: Printable(f)
      ensures MessagesOf(r) == MessagesFor(view, log, start, sequence + |pending|) && forall f | f in r :: Printable(f)
    {
      r := frames;
      for i := 0 to |pending|
        invariant MessagesOf(r) == MessagesFor(view, log, start, sequence + i) && forall f | f in r :: Printable(f)
      {
        var frame := FrameOf(view, pending[i]);
        assert (r + [frame])[..|r|] == r;
        DecimalRoundTrip(pending[i].sequence);
        assert pending[i] == log[sequence + i];
        assert MessagesFor(view, log, start, sequence + i + 1) == MessagesFor(view, log, start, sequence + i) + MessageOf(frame);
        r := r + [frame];
      }
    }

    /**
     generate, for a client that stays for a number of polls: the events after the cursor, in order,
     without gap or repeat, with heartbeats anywhere in between. Each poll sends at least one event of
     those there were; the stream stops early only when it has sent them all or an event that shows the
     finished state of the row.
     */
    method Generate(start: nat, polls: nat) returns (frames: seq<Frame>, ghost upto: nat)
      requires Valid()
      modifies `log
      ensures Valid() && old(log) <= log
      ensures start <= upto && (start == upto || upto <= |log|)
      ensures MessagesOf(frames) == MessagesFor(view, log, start, upto) && forall f | f in frames :: Printable(f)
      ensures start < |old(log)| && 0 < polls ==> start < upto
      ensures start + polls <= upto || |old(log)| <= upto || ShowsEnd(log, upto)
    {
      hide ShowsEnd, JobEventStream.Valid, Printable, OneLined, MessagesFor, MessagesOf;
      NothingYet(view, log, start);
      var sequence := start;
      upto := start;
      frames := [];
      for n := 0 to polls
        invariant Valid() && old(log) <= log && upto == sequence
        invariant start <= sequence && (start == sequence || sequence <= |log|)
        invariant MessagesOf(frames) == MessagesFor(view, log, start, sequence) && forall f | f in frames :: Printable(f)
        invariant start + n <= sequence || |old(log)| <= sequence
      {
        ghost var before := log;
        var pending := Poll(sequence);
        SameMessages(view, before, log, start, sequence);
        if pending == [] {
          var disconnected: bool := *;
          if disconnected { return; }
          ghost var quiet := log;
          var latest := Latest();
          SameMessages(view, quiet, log, start, sequence);
          if latest.Some? && Terminal(latest.value.state) { return; }
          HeartbeatAdds(frames);
          frames := frames + [Heartbeat];
        } else {
          frames := Yield(frames, pending, start, sequence);
          sequence := sequence + |pending|;
          upto := sequence;
          ghost var printed := log;
          var latest := Latest();
          SameMessages(view, printed, log, start, sequence);
          var last := pending[|pending| - 1];
          if latest.Some? && Terminal(latest.value.state) && last.state == latest.value.state && last.attempt == latest.value.attempt {
            LastShowsEnd(printed, log, sequence, last);
            return;
          }
        }
      }
    }
  }

  // The event sent last carries the finished state and the attempt of the row.
  predicate ShowsEnd(log: seq<Event>, upto: nat) {
    && 0 < upto <= |log| && Terminal(log[|log| - 1].state)
    && log[upto - 1].state == log[|log| - 1].state && log[upto - 1].attempt == log[|log| - 1].attempt
  }

  lemma LastShowsEnd(log: seq<Event>, later: seq<Event>, sequence: nat, last: Event)
    requires log <= later && 0 < sequence <= |log| && last == log[sequence - 1]
    requires Terminal(later[|later| - 1].state) && last.state == later[|later| - 1].state && last.attempt == later[|later| - 1].attempt
    ensures ShowsEnd(later, sequence)
  {}

  lemma SameMessages(view: View, log: seq<Event>, later: seq<Event>, a: nat, b: nat)
    requires log <= later && a <= b && (a == b || b <= |log|)
    ensures MessagesFor(view, later, a, b) == MessagesFor(view, log, a, b)
  {}

  lemma NothingYet(view: View, log: seq<Event>, a: nat)
    ensures MessagesFor(view, log, a, a) == MessagesOf([])
  {}

  lemma HeartbeatAdds(frames: seq<Frame>)
    requires forall f | f in frames :: Printable(f)
    ensures MessagesOf(frames + [Heartbeat]) == MessagesOf(frames) && forall f | f in frames + [Heartbeat] :: Printable(f)
  {
    assert (frames + [Heartbeat])[..|frames|] == frames;
  }

  // ---- the connection ----

  // The pieces a response body arrives in: any cut into chunks.
  method Chunked(text: string) returns (chunks: seq<string>)
    ensures Concat(chunks) == text
  {
    chunks := [];
    var i := 0;
    while i < |text|
      invariant i <= |text| && Concat(chunks) == text[..i]
    {
      var n: nat := *;
      var j := if i < n <= |text| then n else |text|;
      assert (chunks + [text[i..j]])[..|chunks|] == chunks;
      assert text[..i] + text[i..j] == text[..j];
      chunks := chunks + [text[i..j]];
      i := j;
    }
    assert text[..|text|] == text;
  }

  // One connection: for how many polls the client stays, and after how much of the text it breaks, if it does.
  datatype Connection = Connection(polls: nat, cut: Option<nat>)

  // How much of the text arrives before the connection breaks.
  function BreakPoint(text: string, cut: Option<nat>): (n: nat)
    ensures n <= |text|
  {
    if cut.Some? && cut.value <= |text| then cut.value else |text|
  }

  // The connections that stay for at least one poll and do not break.
  function Whole(plan: seq<Connection>): nat {
    if plan == [] then 0
    else Whole(plan[..|plan| - 1]) + if plan[|plan| - 1].cut == None && 0 < plan[|plan| - 1].polls then 1 else 0
  }

  // The cursor after the messages of events a+1..b is b.
  lemma CursorAfter(view: View, log: seq<Event>, a: nat, b: nat, before: Option<string>)
    requires IsLog(log) && a <= b && (a == b || b <= |log|) && CursorOf(before) == Some(a)
    ensures CursorOf(LastId(MessagesFor(view, log, a, b), before)) == Some(b)
  {
    if a < b { DecimalRoundTrip(b); }
  }

  lemma PrefixOfMessages(view: View, log: seq<Event>, a: nat, b: nat, ms: seq<SseMessage>)
    requires a <= b && (a == b || b <= |log|) && ms <= MessagesFor(view, log, a, b)
    ensures a + |ms| <= b && ms == MessagesFor(view, log, a, a + |ms|)
  {}

  lemma MessagesJoin(view: View, log: seq<Event>, a: nat, b: nat, d: nat)
    requires a <= b <= d && (a == d || d <= |log|)
    ensures MessagesFor(view, log, a, b) + MessagesFor(view, log, b, d) == MessagesFor(view, log, a, d)
  {}

  lemma WholeNext(plan: seq<Connection>, n: nat)
    requires n < |plan|
    ensures Whole(plan[..n + 1]) == Whole(plan[..n]) + if plan[n].cut == None && 0 < plan[n].polls then 1 else 0
  {
    assert plan[..n + 1][..n] == plan[..n];
  }

  lemma WholeNone(plan: seq<Connection>)
    ensures Whole(plan[..0]) == 0
  {}

  /** One connection from the last id seen: the events after it up to some event, and, if it is whole, at least one of those there were. */
  method Connect(stream: JobEventStream, reader: SseReader, connection: Connection) returns (ghost upto: nat)
    requires stream.Valid() && CursorOf(reader.lastEventId).Some?
    modifies stream`log, reader
    ensures stream.Valid() && old(stream.log) <= stream.log && CursorOf(reader.lastEventId) == Some(upto)
    ensures
      var cursor := CursorOf(old(reader.lastEventId)).value;
      && cursor <= upto && (cursor == upto || upto <= |stream.log|)
      && reader.delivered == old(reader.delivered) + MessagesFor(stream.view, stream.log, cursor, upto)
      && (connection.cut == None && 0 < connection.polls && cursor < |old(stream.log)| ==> cursor < upto)
  {
    hide CursorOf, Print, Split, Messages, LastId, MessagesOf, Printable, OneLined, ShowsEnd;
    var cursor := CursorOf(reader.lastEventId).value;
    var frames;
    ghost var sent;
    frames, sent := stream.Generate(cursor, connection.polls);
    var text := Print(frames);
    var cut := BreakPoint(text, connection.cut);
    CutIsPrefix(frames, cut);
    if connection.cut == None {
      assert text[..cut] == text;
      PrintParse(frames);
    }
    var chunks := Chunked(text[..cut]);
    ghost var ms := Messages(Complete(text[..cut]));
    PrefixOfMessages(stream.view, stream.log, cursor, sent, ms);
    CursorAfter(stream.view, stream.log, cursor, cursor + |ms|, reader.lastEventId);
    reader.ReadAll(chunks);
    upto := cursor + |ms|;
  }

  /**
   Over any connections, each broken anywhere and resumed with the last id seen, the browser is given
   exactly the events after its first cursor, each once and in order. Every whole connection delivers at
   least one event of those there were, so enough of them deliver all.
   */
  method Follow(stream: JobEventStream, first: Option<string>, plan: seq<Connection>) returns (reader: SseReader, ghost upto: nat)
    requires stream.Valid() && CursorOf(first).Some?
    modifies stream`log
    ensures stream.Valid() && fresh(reader)
    ensures
      var start := CursorOf(first).value;
      && start <= upto && (start == upto || upto <= |stream.log|)
      && reader.delivered == MessagesFor(stream.view, stream.log, start, upto)
      && CursorOf(reader.lastEventId) == Some(upto)
      && (start + Whole(plan) <= upto || |old(stream.log)| <= upto)
  {
    hide CursorOf, Print, Split, Messages, Whole, ShowsEnd, LastId, MessagesOf, Printable, OneLined;
    ghost var start := CursorOf(first).value;
    reader := new SseReader(first);
    upto := start;
    WholeNone(plan);
    for n := 0 to |plan|
      invariant stream.Valid() && fresh(reader) && start <= upto && (start == upto || upto <= |stream.log|)
      invariant reader.delivered == MessagesFor(stream.view, stream.log, start, upto)
      invariant CursorOf(reader.lastEventId) == Some(upto)
      invariant old(stream.log) <= stream.log && (start + Whole(plan[..n]) <= upto || |old(stream.log)| <= upto)
    {
      WholeNext(plan, n);
      ghost var before := stream.log;
      ghost var cursor := upto;
      upto := Connect(stream, reader, plan[n]);
      SameMessages(stream.view, before, stream.log, start, cursor);
      MessagesJoin(stream.view, stream.log, start, cursor, upto);
    }
    assert plan[..|plan|] == plan;
  }
}
