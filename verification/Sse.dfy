/**
 Server-sent events: the frames the server prints
 (backend/src/contexts/ocr/interfaces/http/v1/router.py) and the browser's incremental parser
 (frontend/src/infrastructure/api/sse.ts), after sections 9.2.4 to 9.2.6 of the WHATWG HTML Living Standard.
 */
module Sse {
  import opened Domain

  datatype SseMessage = SseMessage(id: Option<string>, event: Option<string>, data: string)

  // ---- splitting the text into blocks: /\r?\n\r?\n/ ----

  // The end of a line break at i, or i.
  function BreakEnd(s: string, i: nat): (e: nat)
    ensures i <= e <= i + 2 && (e <= |s| || e == i)
  {
    var a := if i < |s| && s[i] == '\r' then i + 1 else i;
    if a < |s| && s[a] == '\n' then a + 1 else i
  }

  // The end of a blank-line break at i, or i.
  function GapEnd(s: string, i: nat): (e: nat)
    ensures i <= e <= i + 4 && (e <= |s| || e == i)
  {
    var a := BreakEnd(s, i);
    if a == i then i
    else
      var b := BreakEnd(s, a);
      if b == a then i else b
  }

  // The first gap at or after i; |s| when there is none.
  function FirstGap(s: string, i: nat): (j: nat)
    requires i <= |s|
    ensures i <= j <= |s|
    ensures forall k | i <= k < j :: GapEnd(s, k) == k
    ensures j < |s| ==> j < GapEnd(s, j)
    decreases |s| - i
  {
    if i == |s| then i else if i < GapEnd(s, i) then i else FirstGap(s, i + 1)
  }

  // String.split: never empty, the last element is what follows the last gap.
  function Split(s: string): (r: seq<string>)
    ensures r != []
    decreases |s|
  {
    var j := FirstGap(s, 0);
    if j == |s| then [s] else [s[..j]] + Split(s[GapEnd(s, j)..])
  }

  function Complete(s: string): seq<string> { Split(s)[..|Split(s)| - 1] }

  function Rest(s: string): string { Split(s)[|Split(s)| - 1] }

  // A gap inside s stays where it is when text follows.
  lemma GapKept(s: string, t: string, i: nat)
    requires i < GapEnd(s, i)
    ensures GapEnd(s + t, i) == GapEnd(s, i)
  {}

  // Text to come makes no new gap before one that is already complete.
  lemma NoGapBefore(s: string, t: string, i: nat, j: nat)
    requires i < j < GapEnd(s, j) && GapEnd(s, i) == i
    ensures GapEnd(s + t, i) == i
  {
    var u := s + t;
    assert forall k | 0 <= k < |s| :: u[k] == s[k];
    if i < GapEnd(u, i) {
      if GapEnd(u, i) <= |s| {
        SamePrefix(s, t, i);
      }
    }
  }

  lemma SamePrefix(s: string, t: string, i: nat)
    requires GapEnd(s + t, i) <= |s| && i < GapEnd(s + t, i)
    ensures GapEnd(s, i) == GapEnd(s + t, i)
  {}

  lemma FirstGapKept(s: string, t: string)
    requires FirstGap(s, 0) < |s|
    ensures FirstGap(s + t, 0) == FirstGap(s, 0)
    ensures GapEnd(s + t, FirstGap(s, 0)) == GapEnd(s, FirstGap(s, 0))
  {
    hide GapEnd;
    var j := FirstGap(s, 0);
    GapKept(s, t, j);
    forall k | 0 <= k < j ensures GapEnd(s + t, k) == k { NoGapBefore(s, t, k, j); }
    var m := FirstGap(s + t, 0);
  }

  /** Reading in pieces: the blocks of a longer text are the complete blocks so far and those of what remains. */
  lemma {:induction false} SplitMore(s: string, t: string)
    ensures Split(s + t) == Complete(s) + Split(Rest(s) + t)
    decreases |s|
  {
    hide GapEnd, FirstGap;
    var j := FirstGap(s, 0);
    if j == |s| {
      assert Split(s) == [s];
    } else {
      FirstGapKept(s, t);
      var e := GapEnd(s, j);
      assert (s + t)[..j] == s[..j] && (s + t)[e..] == s[e..] + t;
      SplitMore(s[e..], t);
      assert Split(s) == [s[..j]] + Split(s[e..]);
      assert Split(s + t) == [s[..j]] + Split(s[e..] + t);
      assert Complete(s) == [s[..j]] + Complete(s[e..]) && Rest(s) == Rest(s[e..]);
    }
  }

  lemma CompleteMore(s: string, t: string)
    ensures Complete(s + t) == Complete(s) + Complete(Rest(s) + t) && Rest(s + t) == Rest(Rest(s) + t)
  {
    hide Split;
    SplitMore(s, t);
  }

  // ---- lines: /\r?\n/ ----

  function FirstBreak(s: string, i: nat): (j: nat)
    requires i <= |s|
    ensures i <= j <= |s|
    ensures forall k | i <= k < j :: BreakEnd(s, k) == k
    ensures j < |s| ==> j < BreakEnd(s, j)
    decreases |s| - i
  {
    if i == |s| then i else if i < BreakEnd(s, i) then i else FirstBreak(s, i + 1)
  }

  function Lines(s: string): (r: seq<string>)
    ensures r != []
    decreases |s|
  {
    var j := FirstBreak(s, 0);
    if j == |s| then [s] else [s[..j]] + Lines(s[BreakEnd(s, j)..])
  }

  // ---- one block ----

  function ColonAt(line: string, i: nat): (j: nat)
    requires i <= |line|
    ensures i <= j <= |line| && (j < |line| ==> line[j] == ':') && forall k | i <= k < j :: line[k] != ':'
    decreases |line| - i
  {
    if i == |line| || line[i] == ':' then i else ColonAt(line, i + 1)
  }

  function FieldName(line: string): string { line[..ColonAt(line, 0)] }

  // The text after the colon, without one leading space.
  function FieldValue(line: string): string {
    var j := ColonAt(line, 0);
    if j == |line| then ""
    else if j + 1 < |line| && line[j + 1] == ' ' then line[j + 2..]
    else line[j + 1..]
  }

  predicate Ignored(line: string) { line == "" || line[0] == ':' }

  function JoinLines(data: seq<string>): string {
    if data == [] then ""
    else if |data| == 1 then data[0]
    else JoinLines(data[..|data| - 1]) + "\n" + data[|data| - 1]
  }

  // The last value of a field; the standard's "set the buffer to the value".
  function LastOf(lines: seq<string>, field: string): Option<string> {
    if lines == [] then None
    else
      var line := lines[|lines| - 1];
      if !Ignored(line) && FieldName(line) == field then Some(FieldValue(line)) else LastOf(lines[..|lines| - 1], field)
  }

  function DataOf(lines: seq<string>): seq<string> {
    if lines == [] then []
    else
      var line := lines[|lines| - 1];
      DataOf(lines[..|lines| - 1]) + if !Ignored(line) && FieldName(line) == "data" then [FieldValue(line)] else []
  }

  function Parsed(block: string): Option<SseMessage> {
    var lines := Lines(block);
    var data := DataOf(lines);
    if data == [] then None else Some(SseMessage(LastOf(lines, "id"), LastOf(lines, "event"), JoinLines(data)))
  }

  // parseSseBlock
  method ParseSseBlock(block: string) returns (r: Option<SseMessage>)
    ensures r == Parsed(block)
  {
    var lines := Lines(block);
    var id: Option<string>, event: Option<string>, data: seq<string> := None, None, [];
    for i := 0 to |lines|
      invariant id == LastOf(lines[..i], "id") && event == LastOf(lines[..i], "event") && data == DataOf(lines[..i])
    {
      assert lines[..i + 1][..i] == lines[..i];
      var rawLine := lines[i];
      if rawLine != "" && rawLine[0] != ':' {
        var delimiter := ColonAt(rawLine, 0);
        var field := if delimiter == |rawLine| then rawLine else rawLine[..delimiter];
        var value := if delimiter == |rawLine| then "" else rawLine[delimiter + 1..];
        if value != "" && value[0] == ' ' { value := value[1..]; }
        assert field == FieldName(rawLine) && value == FieldValue(rawLine);
        if field == "id" { id := Some(value); }
        if field == "event" { event := Some(value); }
        if field == "data" { data := data + [value]; }
      }
    }
    assert lines[..|lines|] == lines;
    r := if data != [] then Some(SseMessage(id, event, JoinLines(data))) else None;
  }

  function Messages(blocks: seq<string>): seq<SseMessage> {
    if blocks == [] then []
    else Messages(blocks[..|blocks| - 1])
         + match Parsed(blocks[|blocks| - 1]) case None => [] case Some(m) => [m]
  }

  lemma OneMoreBlock(blocks: seq<string>, i: nat)
    requires i < |blocks|
    ensures Messages(blocks[..i + 1])
         == if Parsed(blocks[i]).Some? then Messages(blocks[..i]) + [Parsed(blocks[i]).value] else Messages(blocks[..i])
  {
    hide Parsed;
    assert blocks[..i + 1][..i] == blocks[..i];
  }

  lemma {:induction false} MessagesConcat(a: seq<string>, b: seq<string>)
    ensures Messages(a + b) == Messages(a) + Messages(b)
  {
    hide Parsed;
    if b == [] {
      assert a + b == a;
    } else {
      MessagesConcat(a, b[..|b| - 1]);
      assert (a + b)[..|a + b| - 1] == a + b[..|b| - 1];
    }
  }

  // ---- what the server prints ----

  datatype Frame = EventFrame(id: string, event: string, data: string) | Heartbeat

  predicate OneLine(s: string) { forall i | 0 <= i < |s| :: s[i] != '\n' && s[i] != '\r' }

  predicate Printable(f: Frame) { f.EventFrame? ==> OneLine(f.id) && OneLine(f.event) && OneLine(f.data) }

  function BlockOf(f: Frame): string {
    match f
    case EventFrame(id, event, data) => "id: " + id + "\n" + ("event: " + event + "\n" + ("data: " + data))
    case Heartbeat => ": heartbeat"
  }

  function Print(frames: seq<Frame>): string {
    if frames == [] then "" else Print(frames[..|frames| - 1]) + (BlockOf(frames[|frames| - 1]) + "\n\n")
  }

  function MessageOf(f: Frame): seq<SseMessage> {
    match f
    case EventFrame(id, event, data) => [SseMessage(Some(id), Some(event), data)]
    case Heartbeat => []
  }

  function MessagesOf(frames: seq<Frame>): seq<SseMessage> {
    if frames == [] then [] else MessagesOf(frames[..|frames| - 1]) + MessageOf(frames[|frames| - 1])
  }

  // A first line without breaks comes off whole.
  lemma FirstLine(line: string, rest: string)
    requires OneLine(line)
    ensures Lines(line + "\n" + rest) == [line] + Lines(rest)
  {
    var s := line + "\n" + rest;
    forall k | 0 <= k < |line| ensures BreakEnd(s, k) == k { assert s[k] == line[k]; }
    assert s[|line|] == '\n' && BreakEnd(s, |line|) == |line| + 1;
    var j := FirstBreak(s, 0);
    assert j == |line|;
    assert s[..j] == line && s[BreakEnd(s, j)..] == rest;
  }

  lemma OnlyLine(line: string)
    requires OneLine(line)
    ensures Lines(line) == [line]
  {
    assert FirstBreak(line, 0) == |line|;
  }

  lemma FieldLine(name: string, value: string)
    requires name != "" && forall i | 0 <= i < |name| :: name[i] != ':'
    ensures FieldName(name + ": " + value) == name && FieldValue(name + ": " + value) == value
    ensures !Ignored(name + ": " + value)
  {
    var line := name + ": " + value;
    assert forall i | 0 <= i < |name| :: line[i] == name[i];
    assert line[|name|] == ':' && line[|name| + 1] == ' ';
    assert ColonAt(line, 0) == |name|;
    assert line[..|name|] == name && line[|name| + 2..] == value;
  }

  lemma OneLineConcat(a: string, b: string)
    requires OneLine(a) && OneLine(b)
    ensures OneLine(a + b)
  {}

  lemma PrintedLines(id: string, event: string, data: string)
    requires OneLine(id) && OneLine(event) && OneLine(data)
    ensures Lines(BlockOf(EventFrame(id, event, data))) == ["id: " + id, "event: " + event, "data: " + data]
  {
    hide Lines, OneLine;
    var first, second, third := "id: " + id, "event: " + event, "data: " + data;
    FieldNamesOneLine();
    OneLineConcat("id: ", id);
    OneLineConcat("event: ", event);
    OneLineConcat("data: ", data);
    FirstLine(first, second + "\n" + third);
    FirstLine(second, third);
    OnlyLine(third);
  }

  lemma FieldNamesOneLine()
    ensures OneLine("id: ") && OneLine("event: ") && OneLine("data: ") && OneLine(": heartbeat")
  {}

  /** Parsing a printed event gives back its id, type and data; a heartbeat gives nothing. */
  lemma ParsePrinted(f: Frame)
    requires Printable(f)
    ensures Parsed(BlockOf(f)) == if f.EventFrame? then Some(MessageOf(f)[0]) else None
  {
    hide Lines, LastOf, DataOf, OneLine, FieldName, FieldValue, Ignored;
    match f
    case EventFrame(id, event, data) =>
      PrintedLines(id, event, data);
      PrintedFields(id, event, data);
    case Heartbeat =>
      FieldNamesOneLine();
      OnlyLine(": heartbeat");
      HeartbeatIgnored();
      IgnoredLine(": heartbeat");
  }

  lemma HeartbeatIgnored()
    ensures Ignored(": heartbeat")
  {}

  lemma PrintedFields(id: string, event: string, data: string)
    ensures
      var lines := ["id: " + id, "event: " + event, "data: " + data];
      LastOf(lines, "id") == Some(id) && LastOf(lines, "event") == Some(event) && DataOf(lines) == [data]
      && JoinLines(DataOf(lines)) == data
  {
    hide LastOf, DataOf, FieldName, FieldValue, Ignored;
    FieldLine("id", id);
    FieldLine("event", event);
    FieldLine("data", data);
    assert "id" + ": " + id == "id: " + id;
    assert "event" + ": " + event == "event: " + event;
    assert "data" + ": " + data == "data: " + data;
    ThreeFields("id: " + id, "event: " + event, "data: " + data, id, event, data);
  }

  lemma IgnoredLine(line: string)
    requires Ignored(line)
    ensures DataOf([line]) == []
  {
    assert [line][..0] == [];
  }

  lemma FieldAppended(lines: seq<string>, line: string, field: string)
    ensures LastOf(lines + [line], field)
         == if !Ignored(line) && FieldName(line) == field then Some(FieldValue(line)) else LastOf(lines, field)
    ensures DataOf(lines + [line])
         == DataOf(lines) + if !Ignored(line) && FieldName(line) == "data" then [FieldValue(line)] else []
  {
    assert (lines + [line])[..|lines|] == lines;
  }

  lemma ThreeFields(a: string, b: string, d: string, id: string, event: string, data: string)
    requires !Ignored(a) && FieldName(a) == "id" && FieldValue(a) == id
    requires !Ignored(b) && FieldName(b) == "event" && FieldValue(b) == event
    requires !Ignored(d) && FieldName(d) == "data" && FieldValue(d) == data
    ensures LastOf([a, b, d], "id") == Some(id) && LastOf([a, b, d], "event") == Some(event) && DataOf([a, b, d]) == [data]
  {
    hide FieldName, FieldValue, Ignored;
    assert [a, b, d] == [a, b] + [d] && [a, b] == [a] + [b] && [a] == [] + [a];
    assert "id" != "event" && "event" != "data" && "id" != "data";
    FieldAppended([], a, "id");
    FieldAppended([a], b, "id");
    FieldAppended([a, b], d, "id");
    FieldAppended([a], b, "event");
    FieldAppended([a, b], d, "event");
  }

  // ---- forms the server does not print but the parser reads ----

  /** A line may also end in CR LF. */
  lemma CrlfLine(line: string, rest: string)
    requires OneLine(line)
    ensures Lines(line + "\r\n" + rest) == [line] + Lines(rest)
  {
    var s := line + "\r\n" + rest;
    forall k | 0 <= k < |line| ensures BreakEnd(s, k) == k { assert s[k] == line[k]; }
    assert s[|line|] == '\r' && s[|line| + 1] == '\n' && BreakEnd(s, |line|) == |line| + 2;
    assert FirstBreak(s, 0) == |line|;
    assert s[..|line|] == line && s[|line| + 2..] == rest;
  }

  /** The space after the colon may be missing. */
  lemma TightField(name: string, value: string)
    requires name != "" && (forall i | 0 <= i < |name| :: name[i] != ':') && (value != "" ==> value[0] != ' ')
    ensures FieldName(name + ":" + value) == name && FieldValue(name + ":" + value) == value
    ensures !Ignored(name + ":" + value)
  {
    var line := name + ":" + value;
    assert forall i | 0 <= i < |name| :: line[i] == name[i];
    assert line[|name|] == ':' && ColonAt(line, 0) == |name|;
    assert line[..|name|] == name && line[|name| + 1..] == value;
  }

  lemma {:induction false} JoinFront(data: seq<string>)
    requires 2 <= |data|
    ensures JoinLines(data) == data[0] + "\n" + JoinLines(data[1..])
  {
    var short, last := data[..|data| - 1], data[|data| - 1];
    assert data[1..][..|data| - 2] == short[1..];
    if |data| > 2 {
      JoinFront(short);
      assert data[0] + "\n" + JoinLines(short[1..]) + "\n" + last == data[0] + "\n" + (JoinLines(short[1..]) + "\n" + last);
    }
  }

  /** Joined lines come apart again: the separator is one line break. */
  lemma {:induction false} JoinedLines(data: seq<string>)
    requires data != [] && forall i | 0 <= i < |data| :: OneLine(data[i])
    ensures Lines(JoinLines(data)) == data
  {
    hide Lines, OneLine;
    if |data| == 1 {
      OnlyLine(data[0]);
    } else {
      JoinFront(data);
      JoinedLines(data[1..]);
      FirstLine(data[0], JoinLines(data[1..]));
    }
  }

  function DataLines(data: seq<string>): (r: seq<string>)
    ensures |r| == |data| && forall i | 0 <= i < |r| :: r[i] == "data: " + data[i]
  {
    seq(|data|, i requires 0 <= i < |data| => "data: " + data[i])
  }

  lemma {:induction false} DataLinesRead(data: seq<string>)
    ensures DataOf(DataLines(data)) == data && LastOf(DataLines(data), "id") == None && LastOf(DataLines(data), "event") == None
  {
    hide FieldName, FieldValue, Ignored, DataOf, LastOf, DataLines;
    if data == [] {
      NoLines();
    } else {
      var short, last := data[..|data| - 1], data[|data| - 1];
      DataLinesRead(short);
      DataLinesMore(short, last);
      assert data == short + [last];
      DataLine(last);
      FieldAppended(DataLines(short), "data: " + last, "id");
      FieldAppended(DataLines(short), "data: " + last, "event");
    }
  }

  lemma NoLines()
    ensures DataLines([]) == [] && DataOf([]) == [] && LastOf([], "id") == None && LastOf([], "event") == None
  {}

  lemma DataLinesMore(data: seq<string>, last: string)
    ensures DataLines(data + [last]) == DataLines(data) + ["data: " + last]
  {}

  lemma DataLine(value: string)
    ensures FieldName("data: " + value) == "data" && FieldValue("data: " + value) == value && !Ignored("data: " + value)
    ensures "data" != "id" && "data" != "event"
  {
    hide FieldName, FieldValue, Ignored;
    FieldLine("data", value);
    assert "data" + ": " + value == "data: " + value;
  }

  /** Several data lines make one message, joined by line breaks. */
  lemma ManyDataLines(data: seq<string>)
    requires data != [] && forall i | 0 <= i < |data| :: OneLine(data[i])
    ensures Parsed(JoinLines(DataLines(data))) == Some(SseMessage(None, None, JoinLines(data)))
  {
    hide Lines, OneLine, JoinLines, DataOf, LastOf;
    forall i | 0 <= i < |data| ensures OneLine(DataLines(data)[i]) {
      FieldNamesOneLine();
      OneLineConcat("data: ", data[i]);
    }
    JoinedLines(DataLines(data));
    DataLinesRead(data);
  }

  // No break at the end and no two in a row.
  predicate Clean(b: string) {
    && b != "" && b[|b| - 1] != '\n' && (forall i | 0 <= i < |b| :: b[i] != '\r')
    && forall i | 0 <= i < |b| - 1 :: !(b[i] == '\n' && b[i + 1] == '\n')
  }

  lemma PrintedClean(f: Frame)
    requires Printable(f)
    ensures Clean(BlockOf(f))
  {
    match f
    case EventFrame(id, event, data) =>
      var third := "data: " + data;
      OneLineClean("data: ", data);
      JoinClean("event: " + event, third);
      JoinClean("id: " + id, "event: " + event + "\n" + third);
    case Heartbeat =>
  }

  lemma OneLineClean(a: string, b: string)
    requires OneLine(a) && OneLine(b) && a != ""
    ensures Clean(a + b)
  {}

  lemma JoinClean(line: string, rest: string)
    requires OneLine(line) && Clean(rest) && rest[0] != '\n'
    ensures Clean(line + "\n" + rest)
  {
    var s := line + "\n" + rest;
    forall i | 0 <= i < |s| - 1 ensures !(s[i] == '\n' && s[i + 1] == '\n') {
      if |line| < i {
        assert s[i] == rest[i - |line| - 1] && s[i + 1] == rest[i - |line|];
      } else if i < |line| {
        assert s[i] == line[i];
      }
    }
  }

  lemma CleanBlock(b: string)
    requires Clean(b)
    ensures Complete(b + "\n\n") == [b] && Rest(b + "\n\n") == ""
  {
    var s := b + "\n\n";
    forall k | 0 <= k < |b| ensures GapEnd(s, k) == k {
      assert s[k] == b[k];
      if k + 1 < |b| { assert s[k + 1] == b[k + 1]; }
    }
    assert s[|b|] == '\n' && s[|b| + 1] == '\n';
    assert FirstGap(s, 0) == |b| && GapEnd(s, |b|) == |s|;
    assert s[..|b|] == b && s[|s|..] == "";
    assert FirstGap("", 0) == 0;
    assert Split("") == [""];
  }

  /** A block may also end in CR LF CR LF. */
  lemma CrlfBlock(b: string)
    requires Clean(b)
    ensures Complete(b + "\r\n\r\n") == [b] && Rest(b + "\r\n\r\n") == ""
  {
    var s := b + "\r\n\r\n";
    forall k | 0 <= k < |b| ensures GapEnd(s, k) == k {
      assert s[k] == b[k];
      if k + 1 < |b| { assert s[k + 1] == b[k + 1]; }
    }
    assert s[|b|] == '\r' && s[|b| + 1] == '\n' && s[|b| + 2] == '\r' && s[|b| + 3] == '\n';
    assert FirstGap(s, 0) == |b| && GapEnd(s, |b|) == |s|;
    assert s[..|b|] == b && s[|s|..] == "";
    assert FirstGap("", 0) == 0;
    assert Split("") == [""];
  }

  /** The text of one event. */
  lemma EventText(id: string, event: string, data: string)
    ensures Print([EventFrame(id, event, data)]) == "id: " + id + "\nevent: " + event + "\ndata: " + data + "\n\n"
  {
    var f := EventFrame(id, event, data);
    assert [f][..0] == [] && Print([f]) == Print([]) + (BlockOf(f) + "\n\n");
    assert Print([]) == "";
    EventTextPieces(id, event, data);
  }

  lemma EventTextPieces(id: string, event: string, data: string)
    ensures BlockOf(EventFrame(id, event, data)) == "id: " + id + "\nevent: " + event + "\ndata: " + data
  {
    var a, b := "\n" + ("event: " + event), "\nevent: " + event;
    assert a == b;
    assert "\n" + ("data: " + data) == "\ndata: " + data;
    assert BlockOf(EventFrame(id, event, data)) == "id: " + id + a + ("\n" + ("data: " + data));
  }

  /** Round trip of the whole text: splitting and parsing what was printed gives the printed events, heartbeats dropped. */
  lemma {:induction false} PrintParse(frames: seq<Frame>)
    requires forall f | f in frames :: Printable(f)
    ensures Messages(Complete(Print(frames))) == MessagesOf(frames) && Rest(Print(frames)) == ""
  {
    hide Split, Parsed, BlockOf;
    if frames == [] {
      EmptyText();
    } else {
      var short, f := frames[..|frames| - 1], frames[|frames| - 1];
      PrintParse(short);
      assert f in frames;
      var block := BlockOf(f);
      PrintedClean(f);
      ParsePrinted(f);
      CompleteMore(Print(short), block + "\n\n");
      assert "" + (block + "\n\n") == block + "\n\n";
      CleanBlock(block);
      MessagesConcat(Complete(Print(short)), [block]);
      assert [block][..0] == [];
    }
  }

  lemma EmptyText()
    ensures Complete("") == [] && Rest("") == ""
  {
    assert FirstGap("", 0) == 0;
  }

  /** What has arrived of a printed text, wherever it was cut, gives a prefix of its events. */
  lemma CutIsPrefix(frames: seq<Frame>, n: nat)
    requires (forall f | f in frames :: Printable(f)) && n <= |Print(frames)|
    ensures Messages(Complete(Print(frames)[..n])) <= MessagesOf(frames)
  {
    hide Split, Print, MessagesOf;
    var s := Print(frames);
    assert s == s[..n] + s[n..];
    PrintParse(frames);
    CompleteMore(s[..n], s[n..]);
    MessagesConcat(Complete(s[..n]), Complete(Rest(s[..n]) + s[n..]));
  }

  // ---- the incremental reader ----

  function Concat(chunks: seq<string>): string {
    if chunks == [] then "" else Concat(chunks[..|chunks| - 1]) + chunks[|chunks| - 1]
  }

  class SseReader {
    var buffer: string
    var lastEventId: Option<string>
    var delivered: seq<SseMessage>

    constructor (lastEventId: Option<string>)
      ensures buffer == "" && this.lastEventId == lastEventId && delivered == []
    {
      buffer := "";
      this.lastEventId := lastEventId;
      delivered := [];
    }

    // One chunk of a response body.
    method Feed(value: string)
      modifies this
      ensures buffer == Rest(old(buffer) + value)
      ensures delivered == old(delivered) + Messages(Complete(old(buffer) + value))
      ensures lastEventId == LastId(Messages(Complete(old(buffer) + value)), old(lastEventId))
    {
      hide Split, Parsed, LastId, Messages;
      NothingRead(lastEventId);
      buffer := buffer + value;
      var blocks := Split(buffer);
      ghost var text := buffer;
      buffer := blocks[|blocks| - 1];
      blocks := blocks[..|blocks| - 1];
      for i := 0 to |blocks|
        invariant buffer == Rest(text)
        invariant delivered == old(delivered) + Messages(blocks[..i])
        invariant lastEventId == LastId(Messages(blocks[..i]), old(lastEventId))
      {
        OneMoreBlock(blocks, i);
        var message := ParseSseBlock(blocks[i]);
        if message.Some? {
          if message.value.id.Some? && message.value.id.value != "" {
            lastEventId := message.value.id;
          }
          delivered := delivered + [message.value];
          OneMoreId(Messages(blocks[..i]), message.value, old(lastEventId));
        }
      }
      assert blocks[..|blocks|] == blocks;
    }

    /** One connection: however the text is cut into chunks, the messages are those of the whole text. */
    method ReadAll(chunks: seq<string>)
      modifies this
      ensures buffer == Rest(Concat(chunks))
      ensures delivered == old(delivered) + Messages(Complete(Concat(chunks)))
      ensures lastEventId == LastId(Messages(Complete(Concat(chunks))), old(lastEventId))
    {
      hide Split, Messages, LastId;
      buffer := "";
      NothingRead(lastEventId);
      for i := 0 to |chunks|
        invariant buffer == Rest(Concat(chunks[..i]))
        invariant delivered == old(delivered) + Messages(Complete(Concat(chunks[..i])))
        invariant lastEventId == LastId(Messages(Complete(Concat(chunks[..i]))), old(lastEventId))
      {
        assert chunks[..i + 1][..i] == chunks[..i];
        ghost var before := Concat(chunks[..i]);
        CompleteMore(before, chunks[i]);
        MessagesConcat(Complete(before), Complete(Rest(before) + chunks[i]));
        LastIdConcat(Messages(Complete(before)), Messages(Complete(Rest(before) + chunks[i])), old(lastEventId));
        Feed(chunks[i]);
      }
      assert chunks[..|chunks|] == chunks;
    }
  }

  // The cursor after some messages.
  function LastId(ms: seq<SseMessage>, before: Option<string>): Option<string> {
    if ms == [] then before
    else
      var id := ms[|ms| - 1].id;
      if id.Some? && id.value != "" then id else LastId(ms[..|ms| - 1], before)
  }

  lemma OneMoreId(ms: seq<SseMessage>, m: SseMessage, before: Option<string>)
    ensures LastId(ms + [m], before) == if m.id.Some? && m.id.value != "" then m.id else LastId(ms, before)
  {
    assert (ms + [m])[..|ms|] == ms;
  }

  lemma {:induction false} LastIdConcat(a: seq<SseMessage>, b: seq<SseMessage>, before: Option<string>)
    ensures LastId(a + b, before) == LastId(b, LastId(a, before))
  {
    if b == [] {
      assert a + b == a;
    } else {
      LastIdConcat(a, b[..|b| - 1], before);
      assert (a + b)[..|a + b| - 1] == a + b[..|b| - 1];
    }
  }

  lemma NothingRead(before: Option<string>)
    ensures Complete("") == [] && Rest("") == "" && Messages([]) == [] && LastId([], before) == before
  {
    EmptyText();
  }
}
