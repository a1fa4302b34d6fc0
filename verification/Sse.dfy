/** Server-sent events: the writer of pkg/transport/http/sse.go and the line parser
    of pkg/provider/responses/stream.go, for text framed as in section 9.2.6 of the
    WHATWG HTML Living Standard. */
module Sse {
  import opened Sequences
  import opened Wrappers

  /** The event types that end a response. */
  predicate IsEnding(name: string) {
    || name == "response.completed" || name == "response.failed" || name == "response.cancelled"
    || name == "response.requires_action" || name == "response.incomplete" || name == "error"
  }

  type ProgressName = name: string | !IsEnding(name) && name != "response.created"

  /** An event type: the six that end a response, the one that opens it, and the rest. */
  datatype EventType =
    | ResponseCompleted | ResponseFailed | ResponseCancelled | ResponseRequiresAction | ResponseIncomplete | Error
    | ResponseCreated
    | Progress(name: ProgressName)
  {
    function Name(): string {
      match this
      case ResponseCompleted => "response.completed"
      case ResponseFailed => "response.failed"
      case ResponseCancelled => "response.cancelled"
      case ResponseRequiresAction => "response.requires_action"
      case ResponseIncomplete => "response.incomplete"
      case Error => "error"
      case ResponseCreated => "response.created"
      case Progress(name) => name
    }

    predicate IsTerminal() {
      !ResponseCreated? && !Progress?
    }
  }

  lemma {:induction false} TerminalByName(kind: EventType)
    ensures kind.IsTerminal() <==> IsEnding(kind.Name())
    ensures kind.ResponseCreated? <==> kind.Name() == "response.created"
  {
  }

  const EVENT: string := "event: "
  const DATA: string := "data: "
  const DONE: string := "[DONE]"

  // ----- The writer -----

  /** What has been written to the connection, piece by piece. */
  datatype Written = Sent(kind: EventType, data: string) | Done | Json(body: string)

  function Print(w: Written): string {
    match w
    case Sent(kind, data) => EVENT + kind.Name() + "\n" + DATA + data + "\n\n"
    case Done => DATA + DONE + "\n\n"
    case Json(body) => body + "\n"
  }

  /** The text of one event, and of the end of a stream. */
  lemma {:induction false} PrintedAs(kind: EventType, data: string, body: string)
    ensures Print(Sent(kind, data)) == "event: " + kind.Name() + "\n" + "data: " + data + "\n\n"
    ensures Print(Done) == "data: [DONE]\n\n"
    ensures Print(Json(body)) == body + "\n"
  {
  }

  function Render(log: seq<Written>): string {
    if log == [] then "" else Render(log[..|log| - 1]) + Print(log[|log| - 1])
  }

  datatype WriterState = Idle | Streaming | Completed

  /** The Content-Type header: none yet, text/event-stream, or application/json. */
  datatype ContentType = Unset | EventStream | JsonBody

  predicate AllProgress(log: seq<Written>) {
    forall i | 0 <= i < |log| :: log[i].Sent? && !log[i].kind.IsTerminal()
  }

  /** A JSON body alone, or progress events closed by a terminal one and [DONE]. */
  predicate Shape(state: WriterState, log: seq<Written>) {
    match state
    case Idle => log == []
    case Streaming => log != [] && AllProgress(log)
    case Completed =>
      var n := |log|;
      || (n == 1 && log[0].Json?)
      || (n > 1 && log[n - 1].Done? && log[n - 2].Sent? && log[n - 2].kind.IsTerminal() && AllProgress(log[..n - 2]))
  }

  /** The log and the state after an accepted event. */
  function Logged(log: seq<Written>, kind: EventType, data: string): seq<Written> {
    if kind.IsTerminal() then log + [Sent(kind, data)] + [Done] else log + [Sent(kind, data)]
  }

  function StateAfter(kind: EventType): WriterState {
    if kind.IsTerminal() then Completed else Streaming
  }

  lemma {:induction false} LogProgress(state: WriterState, log: seq<Written>, kind: EventType, data: string)
    requires Shape(state, log) && state != Completed && !kind.IsTerminal()
    ensures Shape(Streaming, log + [Sent(kind, data)])
  {
  }

  lemma {:induction false} LogTerminal(state: WriterState, log: seq<Written>, kind: EventType, data: string)
    requires Shape(state, log) && state != Completed && kind.IsTerminal()
    ensures Shape(Completed, log + [Sent(kind, data)] + [Done])
  {
    assert (log + [Sent(kind, data)] + [Done])[..|log|] == log;
  }

  lemma {:induction false} LogEvent(state: WriterState, log: seq<Written>, kind: EventType, data: string)
    requires Shape(state, log) && state != Completed
    ensures var longer := Logged(log, kind, data);
            longer != [] && longer[0].Sent? && Shape(StateAfter(kind), longer)
    ensures state == Streaming ==> log != [] && log[0].Sent?
  {
    if kind.IsTerminal() {
      LogTerminal(state, log, kind, data);
    } else {
      LogProgress(state, log, kind, data);
    }
  }

  class SseResponseWriter {
    var state: WriterState
    var contentType: ContentType
    var output: string
    /** Whether the callback for the response id is still armed, and its calls. */
    var armed: bool
    var created: seq<string>
    ghost var log: seq<Written>

    ghost predicate Valid()
      reads this
    {
      && Shape(state, log) && output == Render(log)
      && (contentType == EventStream <==> log != [] && log[0].Sent?)
      && |created| <= 1 && (created != [] ==> !armed)
    }

    constructor (armed: bool)
      ensures Valid() && log == [] && created == []
    {
      state, contentType, output, this.armed, created, log := Idle, Unset, "", armed, [], [];
    }

    /** `responseID` is the id of the event's response, if it carries one. */
    method WriteEvent(kind: EventType, data: string, responseID: Option<string>) returns (ok: bool)
      requires Valid()
      modifies this
      ensures Valid()
      ensures ok <==> old(state) != Completed
      ensures log == if ok then Logged(old(log), kind, data) else old(log)
      ensures state == if ok then StateAfter(kind) else Completed
      ensures !ok ==> output == old(output)
      ensures created == if ok && kind.ResponseCreated? && responseID.Some? && old(armed) then [responseID.value] else old(created)
    {
      if state == Completed {
        return false;
      }
      if kind.ResponseCreated? && responseID.Some? {
        Notify(responseID.value);
      }
      Accept(kind, data);
      return true;
    }

    /** Write an event that is accepted. */
    method Accept(kind: EventType, data: string)
      requires Valid() && state != Completed
      modifies `contentType, `state, `output, `log
      ensures Valid() && log == Logged(old(log), kind, data) && state == StateAfter(kind)
    {
      hide Render;
      LogEvent(state, log, kind, data);
      Begin();
      Send(kind, data);
    }

    /** The headers, before the first event. */
    method Begin()
      requires Valid() && state != Completed
      modifies `contentType, `state
      ensures contentType == EventStream && state == Streaming
    {
      if state == Idle {
        contentType := EventStream;
        state := Streaming;
      }
    }

    /** The text of the event, and the end of the stream if it is terminal. */
    method Send(kind: EventType, data: string)
      requires output == Render(log) && state == Streaming
      modifies `output, `log, `state
      ensures output == Render(log) && log == Logged(old(log), kind, data) && state == StateAfter(kind)
    {
      Append(Sent(kind, data));
      if kind.IsTerminal() {
        Append(Done);
        state := Completed;
      }
    }

    /** The callback is called at most once. */
    method Notify(id: string)
      requires |created| <= 1 && (created != [] ==> !armed)
      modifies `created, `armed
      ensures created == (if old(armed) then [id] else old(created)) && !armed
    {
      if armed {
        created := created + [id];
        armed := false;
      }
    }

    method Append(w: Written)
      requires output == Render(log)
      modifies `output, `log
      ensures output == Render(log) && log == old(log) + [w]
    {
      output := output + Print(w);
      assert (log + [w])[..|log|] == log;
      log := log + [w];
    }

    method WriteResponse(responseID: string, body: string) returns (ok: bool)
      requires Valid()
      modifies this
      ensures Valid()
      ensures ok <==> old(state) == Idle
      ensures log == if ok then [Json(body)] else old(log)
      ensures state == if ok then Completed else old(state)
    {
      if state == Streaming {
        return false;
      }
      if state == Completed {
        return false;
      }
      contentType := JsonBody;
      state := Completed;
      if responseID != "" {
        Notify(responseID);
      }
      Append(Json(body));
      return true;
    }

    method HasStartedStreaming() returns (started: bool)
      requires Valid()
      ensures started <==> exists w :: w in log && w.Sent?
    {
      started := state == Streaming || (state == Completed && contentType == EventStream);
      if log != [] && log[0].Sent? {
        assert log[0] in log;
      }
    }
  }

  /** Whatever calls were made, [DONE] is printed once at most, last, and right
      after the only terminal event. */
  lemma DoneClosesTheStream(state: WriterState, log: seq<Written>, i: nat)
    requires Shape(state, log) && i < |log|
    ensures log[i].Done? <==> i == |log| - 1 && i > 0 && log[i - 1].Sent? && log[i - 1].kind.IsTerminal()
    ensures log[i].Sent? && log[i].kind.IsTerminal() ==> i == |log| - 2 && log[i + 1].Done?
  {
    if state.Completed? && |log| > 1 {
      var sent := log[..|log| - 2];
      assert i < |log| - 2 ==> log[i] == sent[i];
      assert 0 < i < |log| - 1 ==> log[i - 1] == sent[i - 1];
    }
  }

  // ----- The parser -----

  /** An event as read: its type and its data. */
  datatype Event = Event(kind: string, data: string)

  function LineEnd(text: string): (n: nat)
    ensures n <= |text| && '\n' !in text[..n] && (n < |text| ==> text[n] == '\n')
  {
    if text == "" || text[0] == '\n' then 0
    else
      var n := 1 + LineEnd(text[1..]);
      assert text[..n] == [text[0]] + text[1..][..n - 1];
      n
  }

  function DropCR(line: string): string {
    if line != "" && line[|line| - 1] == '\r' then line[..|line| - 1] else line
  }

  /** bufio.Scanner with its default split function. */
  function Lines(text: string): seq<string>
    decreases |text|
  {
    if text == "" then []
    else
      var n := LineEnd(text);
      [DropCR(text[..n])] + if n < |text| then Lines(text[n + 1..]) else []
  }

  datatype Parsed = Parsed(events: seq<Event>, done: bool)

  function ParseLines(lines: seq<string>, current: string): Parsed {
    if lines == [] then Parsed([], false)
    else
      var line := lines[0];
      if EVENT <= line then ParseLines(lines[1..], line[|EVENT|..])
      else if DATA <= line then
        var data := line[|DATA|..];
        if data == DONE then Parsed([], true)
        else if current != "" then
          var rest := ParseLines(lines[1..], "");
          rest.(events := [Event(current, data)] + rest.events)
        else ParseLines(lines[1..], current)
      else ParseLines(lines[1..], current)
  }

  lemma {:induction false} RestOfLines(lines: seq<string>, i: nat)
    requires i < |lines|
    ensures lines[i..] != [] && lines[i..][0] == lines[i] && lines[i..][1..] == lines[i + 1..]
  {
  }

  /** Collects the events that parseSSEStream hands to handleSSEEvent. */
  method ParseSSEStream(text: string) returns (r: Parsed)
    ensures r == ParseLines(Lines(text), "")
  {
    var lines := Lines(text);
    var dispatched: seq<Event> := [];
    var currentEvent := "";
    for i := 0 to |lines|
      invariant var rest := ParseLines(lines[i..], currentEvent);
                ParseLines(lines, "") == rest.(events := dispatched + rest.events)
    {
      var line := lines[i];
      RestOfLines(lines, i);
      if EVENT <= line {
        currentEvent := line[|EVENT|..];
        continue;
      }
      if DATA <= line {
        var data := line[|DATA|..];
        if data == DONE {
          return Parsed(dispatched, true);
        }
        if currentEvent != "" {
          Assoc(dispatched, [Event(currentEvent, data)], ParseLines(lines[i + 1..], "").events);
          dispatched := dispatched + [Event(currentEvent, data)];
          currentEvent := "";
        }
      }
    }
    return Parsed(dispatched, false);
  }

  // ----- The round trip -----

  predicate OneLine(text: string) {
    '\n' !in text && (text != "" ==> text[|text| - 1] != '\r')
  }

  /** An event the framing can carry. */
  predicate Framed(e: Event) {
    e.kind != "" && OneLine(e.kind) && OneLine(e.data) && e.data != DONE
  }

  /** The lines of a printed piece, without their line feeds. */
  function Record(kind: string, data: string): seq<string> {
    [EVENT + kind, DATA + data, ""]
  }

  function Text(lines: seq<string>): string {
    if lines == [] then "" else lines[0] + "\n" + Text(lines[1..])
  }

  function PrintAll(events: seq<Event>): string {
    if events == [] then "" else Text(Record(events[0].kind, events[0].data)) + PrintAll(events[1..])
  }

  lemma {:induction false} LineEndAt(line: string, rest: string)
    requires '\n' !in line
    ensures LineEnd(line + ("\n" + rest)) == |line|
  {
    var text := line + ("\n" + rest);
    if line != "" {
      LineEndAt(line[1..], rest);
      assert text[0] == line[0] && text[1..] == line[1..] + ("\n" + rest);
    }
  }

  lemma FirstLine(line: string, rest: string)
    requires '\n' !in line
    ensures Lines(line + "\n" + rest) == [DropCR(line)] + Lines(rest)
  {
    Assoc(line, "\n", rest);
    LineEndAt(line, rest);
    var text := line + "\n" + rest;
    assert text[..|line|] == line;
    assert text[|line| + 1..] == rest;
  }

  lemma DropCRAfter(head: string, line: string)
    requires head != "" && head[|head| - 1] != '\r'
    ensures DropCR(head + line) == head + DropCR(line)
  {
  }

  function DropCRs(lines: seq<string>): seq<string> {
    if lines == [] then [] else [DropCR(lines[0])] + DropCRs(lines[1..])
  }

  /** The scanner undoes the printing, up to a carriage return at a line's end. */
  lemma {:induction false} LinesOfText(lines: seq<string>, rest: string)
    requires forall line | line in lines :: '\n' !in line
    ensures Lines(Text(lines) + rest) == DropCRs(lines) + Lines(rest)
  {
    if lines == [] {
      assert Text(lines) + rest == rest;
    } else {
      var first, later := lines[0] + "\n", Text(lines[1..]) + rest;
      assert Text(lines) + rest == first + later by { Assoc(first, Text(lines[1..]), rest); }
      FirstLine(lines[0], later);
      LinesOfText(lines[1..], rest);
      Assoc([DropCR(lines[0])], DropCRs(lines[1..]), Lines(rest));
    }
  }

  /** What one printed event does to the parser, whatever follows it. */
  function Heard(e: Event, rest: Parsed): Parsed {
    var kind, data := DropCR(e.kind), DropCR(e.data);
    if data == DONE then Parsed([], true)
    else if kind == "" then rest
    else rest.(events := [Event(kind, data)] + rest.events)
  }

  lemma ReadEventLine(kind: string, tail: seq<string>, current: string)
    ensures ParseLines([EVENT + kind] + tail, current) == ParseLines(tail, kind)
  {
    var line := EVENT + kind;
    assert EVENT <= line && line[|EVENT|..] == kind;
    assert ([line] + tail)[1..] == tail;
  }

  lemma ReadDataLine(data: string, tail: seq<string>, current: string)
    ensures ParseLines([DATA + data] + tail, current) ==
            if data == DONE then Parsed([], true)
            else if current == "" then ParseLines(tail, "")
            else var rest := ParseLines(tail, ""); rest.(events := [Event(current, data)] + rest.events)
  {
    var line := DATA + data;
    assert DATA <= line && line[|DATA|..] == data && line[0] == 'd' && EVENT[0] == 'e';
    assert ([line] + tail)[1..] == tail;
  }

  lemma ReadEmptyLine(tail: seq<string>, current: string)
    ensures ParseLines([""] + tail, current) == ParseLines(tail, current)
  {
    assert ([""] + tail)[1..] == tail;
  }

  lemma RecordDropCRs(kind: string, data: string)
    ensures DropCRs(Record(kind, data)) == Record(DropCR(kind), DropCR(data))
  {
    DropCRAfter(EVENT, kind);
    DropCRAfter(DATA, data);
    var second := [DATA + data, ""];
    assert Record(kind, data)[1..] == second;
    assert second[1..] == [""];
    assert DropCRs([""]) == [""];
    assert DropCRs(second) == [DATA + DropCR(data)] + [""];
  }

  lemma HearRecord(kind: string, data: string, tail: seq<string>, current: string)
    ensures ParseLines(Record(kind, data) + tail, current) ==
            var rest := ParseLines(tail, "");
            if data == DONE then Parsed([], true)
            else if kind == "" then rest
            else rest.(events := [Event(kind, data)] + rest.events)
  {
    var third := [""] + tail;
    var second := [DATA + data] + third;
    assert Record(kind, data) + tail == [EVENT + kind] + second;
    ReadEventLine(kind, second, current);
    ReadDataLine(data, third, kind);
    ReadEmptyLine(tail, "");
  }

  lemma HearEvent(e: Event, rest: string, current: string)
    requires '\n' !in e.kind && '\n' !in e.data
    ensures ParseLines(Lines(Text(Record(e.kind, e.data)) + rest), current) == Heard(e, ParseLines(Lines(rest), ""))
  {
    var record := Record(e.kind, e.data);
    forall line | line in record
      ensures '\n' !in line
    {
      assert line == record[0] || line == record[1] || line == record[2];
    }
    LinesOfText(record, rest);
    RecordDropCRs(e.kind, e.data);
    HearRecord(DropCR(e.kind), DropCR(e.data), Lines(rest), current);
  }

  /** Parsing the printed text gives back exactly the events, in order. */
  lemma {:induction false} RoundTrip(events: seq<Event>, rest: string)
    requires forall e | e in events :: Framed(e)
    ensures ParseLines(Lines(PrintAll(events) + rest), "") ==
            var later := ParseLines(Lines(rest), "");
            later.(events := events + later.events)
  {
    if events == [] {
      assert PrintAll(events) + rest == rest;
    } else {
      var e, more := events[0], PrintAll(events[1..]);
      assert Framed(e);
      Assoc(Text(Record(e.kind, e.data)), more, rest);
      HearEvent(e, more + rest, "");
      RoundTrip(events[1..], rest);
      Assoc([e], events[1..], ParseLines(Lines(rest), "").events);
      assert [e] + events[1..] == events;
    }
  }

  lemma {:induction false} HeardOne(e: Event, rest: Parsed, events: seq<Event>)
    requires events != [] && e == events[0] && |rest.events| <= |events| - 1
    ensures |Heard(e, rest).events| <= |events|
    ensures Heard(e, rest) == Parsed(events, false) ==> e == Event(DropCR(e.kind), DropCR(e.data)) && e.kind != "" && e.data != DONE
    ensures Heard(e, rest) == Parsed(events, false) ==> rest == Parsed(events[1..], false)
  {
    var r := Heard(e, rest);
    if r == Parsed(events, false) {
      assert events == [Event(DropCR(e.kind), DropCR(e.data))] + rest.events;
      assert events[0] == Event(DropCR(e.kind), DropCR(e.data)) && events[1..] == rest.events;
    }
  }

  lemma {:induction false} UncutIsOneLine(text: string)
    requires '\n' !in text && text == DropCR(text)
    ensures OneLine(text)
  {
  }

  lemma {:induction false} HeardAll(events: seq<Event>)
    requires forall e | e in events :: '\n' !in e.kind && '\n' !in e.data
    ensures var r := ParseLines(Lines(PrintAll(events)), "");
            |r.events| <= |events| && (r == Parsed(events, false) ==> forall e | e in events :: Framed(e))
  {
    if events != [] {
      var e, rest := events[0], ParseLines(Lines(PrintAll(events[1..])), "");
      assert e in events;
      HearEvent(e, PrintAll(events[1..]), "");
      HeardAll(events[1..]);
      HeardOne(e, rest, events);
      if Heard(e, rest) == Parsed(events, false) {
        UncutIsOneLine(e.kind);
        UncutIsOneLine(e.data);
        assert events == [e] + events[1..];
      }
    }
  }

  lemma {:induction false} NoNewlineInLines(text: string)
    ensures forall line | line in Lines(text) :: '\n' !in line
    decreases |text|
  {
    if text != "" && LineEnd(text) < |text| {
      NoNewlineInLines(text[LineEnd(text) + 1..]);
    }
  }

  lemma {:induction false} NoNewlineInEvents(lines: seq<string>, current: string)
    requires (forall line | line in lines :: '\n' !in line) && '\n' !in current
    ensures forall e | e in ParseLines(lines, current).events :: '\n' !in e.kind && '\n' !in e.data
    decreases lines
  {
    if lines != [] {
      assert lines[0] in lines;
      if EVENT <= lines[0] {
        NoNewlineInEvents(lines[1..], lines[0][|EVENT|..]);
      } else {
        NoNewlineInEvents(lines[1..], current);
        NoNewlineInEvents(lines[1..], "");
      }
    }
  }

  /** The framing carries a sequence of events just when it can carry each one. */
  lemma RoundTripExactlyWhen(events: seq<Event>)
    ensures ParseLines(Lines(PrintAll(events)), "") == Parsed(events, false) <==>
            forall e | e in events :: Framed(e)
  {
    if forall e | e in events :: Framed(e) {
      RoundTrip(events, "");
      assert PrintAll(events) + "" == PrintAll(events);
    }
    if ParseLines(Lines(PrintAll(events)), "") == Parsed(events, false) {
      NoNewlineInLines(PrintAll(events));
      NoNewlineInEvents(Lines(PrintAll(events)), "");
      HeardAll(events);
    }
  }

  // ----- Writer and parser together -----

  function EventsOf(log: seq<Written>): seq<Event> {
    if log == [] then []
    else
      var w, before := log[|log| - 1], EventsOf(log[..|log| - 1]);
      if w.Sent? then before + [Event(w.kind.Name(), w.data)] else before
  }

  lemma PrintIsText(kind: EventType, data: string)
    ensures Print(Sent(kind, data)) == Text(Record(kind.Name(), data))
    ensures Print(Done) == Text([DATA + DONE, ""])
  {
    PrintedRecord(kind.Name(), data);
    assert [DATA + DONE, ""][1..] == [""] && [""][1..] == [];
    assert Text([""]) == "\n";
  }

  lemma PrintedRecord(kind: string, data: string)
    ensures Text(Record(kind, data)) == EVENT + kind + "\n" + DATA + data + "\n\n"
  {
    var lines := Record(kind, data);
    assert lines[1..] == [DATA + data, ""] && lines[1..][1..] == [""] && [""][1..] == [];
    assert Text([""]) == "\n";
    assert Text([DATA + data, ""]) == DATA + data + "\n\n";
  }

  lemma {:induction false} PrintAllAppend(events: seq<Event>, e: Event)
    ensures PrintAll(events + [e]) == PrintAll(events) + Text(Record(e.kind, e.data))
  {
    var last := Text(Record(e.kind, e.data));
    if events == [] {
      assert PrintAll([]) == "" && PrintAll([e]) == last + "";
      assert events + [e] == [e] && "" + last == last == last + "";
    } else {
      var first := events[0];
      PrintAllAppend(events[1..], e);
      assert (events + [e])[0] == first && (events + [e])[1..] == events[1..] + [e];
      Assoc(Text(Record(first.kind, first.data)), PrintAll(events[1..]), last);
    }
  }

  lemma {:induction false} RenderProgress(log: seq<Written>)
    requires forall w | w in log :: w.Sent?
    ensures Render(log) == PrintAll(EventsOf(log))
  {
    if log != [] {
      var before, w := log[..|log| - 1], log[|log| - 1];
      RenderProgress(before);
      assert w in log;
      PrintAllAppend(EventsOf(before), Event(w.kind.Name(), w.data));
      PrintIsText(w.kind, w.data);
    }
  }

  ghost predicate AllFramed(log: seq<Written>) {
    forall w | w in log && w.Sent? :: Framed(Event(w.kind.Name(), w.data))
  }

  lemma {:induction false} FramedEvents(log: seq<Written>)
    requires AllFramed(log)
    ensures forall e | e in EventsOf(log) :: Framed(e)
  {
    if log != [] {
      assert log[|log| - 1] in log;
      FramedEvents(log[..|log| - 1]);
    }
  }

  function Ending(state: WriterState): string {
    if state == Completed then Text([DATA + DONE, ""]) else ""
  }

  /** A streaming writer has printed its events and, when completed, [DONE]. */
  lemma {:induction false} RenderedParts(state: WriterState, log: seq<Written>)
    requires Shape(state, log) && AllFramed(log) && !(|log| == 1 && log[0].Json?)
    ensures Render(log) == PrintAll(EventsOf(log)) + Ending(state)
    ensures forall e | e in EventsOf(log) :: Framed(e)
  {
    var sent := if state == Completed then log[..|log| - 1] else log;
    SentPart(state, log, sent);
    RenderProgress(sent);
    FramedEvents(sent);
    PrintIsText(ResponseCompleted, "");
  }

  /** A reader of everything a streaming writer has printed hears exactly the
      written events, and [DONE] just when the terminal event has been written. */
  lemma {:induction false} ReaderHearsTheWriter(state: WriterState, log: seq<Written>)
    requires Shape(state, log) && AllFramed(log) && !(|log| == 1 && log[0].Json?)
    ensures ParseLines(Lines(Render(log)), "") == Parsed(EventsOf(log), state == Completed)
  {
    RenderedParts(state, log);
    RoundTrip(EventsOf(log), Ending(state));
    HearDone();
    assert Lines("") == [];
  }

  lemma SentPart(state: WriterState, log: seq<Written>, sent: seq<Written>)
    requires Shape(state, log) && AllFramed(log) && !(|log| == 1 && log[0].Json?)
    requires sent == if state == Completed then log[..|log| - 1] else log
    ensures (forall w | w in sent :: w.Sent?) && AllFramed(sent)
  {
    if state == Completed {
      assert sent == log[..|log| - 2] + [log[|log| - 2]];
    }
  }

  lemma HearDone()
    ensures ParseLines(Lines(Text([DATA + DONE, ""])), "") == Parsed([], true)
  {
    var lines := [DATA + DONE, ""];
    LinesOfText(lines, "");
    assert Text(lines) + "" == Text(lines);
    assert DropCRs(lines) + Lines("") == [DATA + DONE] + DropCRs([""]) by {
      DropCRAfter(DATA, DONE);
      assert lines[1..] == [""];
    }
    ReadDataLine(DONE, DropCRs([""]), "");
  }
}
