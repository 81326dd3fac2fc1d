/**
 Server-sent events: the frames the dashboard's fake server writes, and the reader of sections 9.2.5 and
 9.2.6 of the HTML Standard.
 */
module EventStream {
  import opened Json
  import opened JsonRoundTrip
  import opened Sequences

  // ---------------------------------------------------------------- the reader of the HTML Standard

  datatype Event = Event(eventType: string, data: string, lastEventId: string)

  datatype Buffers = Buffers(data: string, eventType: string, lastEventId: string)

  const FRESH := Buffers("", "", "")

  predicate IsLineEnd(c: char) {
    c == '\n' || c == '\r'
  }

  /** Where the first line of a stream ends. */
  function LineLength(s: string): (k: nat)
    ensures k <= |s|
    ensures forall i :: 0 <= i < k ==> !IsLineEnd(s[i])
    ensures k < |s| ==> IsLineEnd(s[k])
  {
    if s == "" || IsLineEnd(s[0]) then 0 else 1 + LineLength(s[1..])
  }

  /** What follows the first line; a carriage return and a line feed end a line together. */
  function AfterLine(s: string): (rest: string)
    requires LineLength(s) < |s|
    ensures |rest| < |s|
  {
    var k := LineLength(s);
    if s[k] == '\r' && k + 1 < |s| && s[k + 1] == '\n' then s[k + 2..] else s[k + 1..]
  }

  function ColonAt(line: string): (k: nat)
    ensures k <= |line|
    ensures k < |line| ==> line[k] == ':'
    ensures forall i :: 0 <= i < k ==> line[i] != ':'
  {
    if line == "" || line[0] == ':' then 0 else 1 + ColonAt(line[1..])
  }

  function FieldName(line: string): string {
    line[..ColonAt(line)]
  }

  /** The text after the colon, without one leading space. */
  function FieldValue(line: string): string {
    var k := ColonAt(line);
    if k == |line| then ""
    else if k + 1 < |line| && line[k + 1] == ' ' then line[k + 2..]
    else line[k + 1..]
  }

  /** One line that is not empty; a line that starts with a colon is a comment and has no field name. */
  function ProcessLine(line: string, b: Buffers): Buffers {
    var name, value := FieldName(line), FieldValue(line);
    if name == "event" then b.(eventType := value)
    else if name == "data" then b.(data := b.data + value + "\n")
    else if name == "id" && '\0' !in value then b.(lastEventId := value)
    else b
  }

  /** The events a stream dispatches; an event without its final empty line is discarded. */
  function Interpret(s: string, b: Buffers): seq<Event>
    decreases |s|
  {
    if LineLength(s) == |s| then []
    else
      var line := s[..LineLength(s)];
      if line != "" then Interpret(AfterLine(s), ProcessLine(line, b))
      else
        var next := b.(data := "", eventType := "");
        if b.data == "" then Interpret(AfterLine(s), next) else [Dispatched(b)] + Interpret(AfterLine(s), next)
  }

  function Dispatched(b: Buffers): Event
    requires b.data != ""
  {
    var last := |b.data| - 1;
    Event(if b.eventType == "" then "message" else b.eventType,
          if b.data[last] == '\n' then b.data[..last] else b.data,
          b.lastEventId)
  }

  /** A whole response body: one byte order mark at its start is dropped. */
  function ReadStream(body: string): seq<Event> {
    Interpret(if body != "" && body[0] == '\U{FEFF}' then body[1..] else body, FRESH)
  }

  // ---------------------------------------------------------------- the writer

  /** An event to send: its own id, and the document that describes it. */
  datatype Outgoing = Outgoing(id: string, document: Json)

  function Frame(id: string, data: string): string {
    "id: " + id + "\n" + ("data: " + data + "\n" + "\n")
  }

  function EventId(session: string, e: Outgoing): string {
    session + ":" + e.id
  }

  function Frames(session: string, events: seq<Outgoing>): string {
    if events == [] then ""
    else Frame(EventId(session, events[0]), Encode(events[0].document)) + Frames(session, events[1..])
  }

  function Expected(session: string, events: seq<Outgoing>): (r: seq<Event>)
    ensures |r| == |events|
    ensures forall i :: 0 <= i < |r| ==> r[i] == Event("message", Encode(events[i].document), EventId(session, events[i]))
  {
    if events == [] then []
    else [Event("message", Encode(events[0].document), EventId(session, events[0]))] + Expected(session, events[1..])
  }

  lemma {:induction false} FramesAppend(session: string, front: seq<Outgoing>, e: Outgoing)
    ensures Frames(session, front + [e]) == Frames(session, front) + Frame(EventId(session, e), Encode(e.document))
  {
    if front == [] {
      assert front + [e] == [e];
      assert Frames(session, [e]) == Frame(EventId(session, e), Encode(e.document)) + Frames(session, []);
    } else {
      assert (front + [e])[1..] == front[1..] + [e];
      FramesAppend(session, front[1..], e);
      Associate(Frame(EventId(session, front[0]), Encode(front[0].document)), Frames(session, front[1..]),
                Frame(EventId(session, e), Encode(e.document)));
    }
  }

  /** The writer's loop. */
  method WriteFrames(session: string, events: seq<Outgoing>) returns (body: string)
    ensures body == Frames(session, events)
  {
    body := "";
    for i := 0 to |events|
      invariant body == Frames(session, events[..i])
    {
      assert events[..i + 1] == events[..i] + [events[i]];
      FramesAppend(session, events[..i], events[i]);
      body := body + Frame(EventId(session, events[i]), Encode(events[i].document));
    }
    assert events[..|events|] == events;
  }

  // ---------------------------------------------------------------- what the reader dispatches

  predicate OneLine(s: string) {
    forall i :: 0 <= i < |s| ==> !IsLineEnd(s[i])
  }

  /** An id the stream format can carry: no line end and no NUL. */
  predicate CleanId(id: string) {
    OneLine(id) && '\0' !in id
  }

  predicate AllClean(session: string, events: seq<Outgoing>) {
    forall i :: 0 <= i < |events| ==> CleanId(EventId(session, events[i]))
  }

  lemma {:induction false} LineLengthOf(line: string, rest: string)
    requires OneLine(line)
    ensures LineLength(line + "\n" + rest) == |line|
    ensures AfterLine(line + "\n" + rest) == rest
  {
    var s := line + "\n" + rest;
    if line != "" {
      assert s[1..] == line[1..] + "\n" + rest;
      LineLengthOf(line[1..], rest);
    }
    assert LineLength(s) == |line| && s[|line|] == '\n' && s[|line| + 1..] == rest;
  }

  /** One full line, then the rest of the stream. */
  lemma InterpretLine(line: string, rest: string, b: Buffers)
    requires OneLine(line)
    ensures line != "" ==> Interpret(line + "\n" + rest, b) == Interpret(rest, ProcessLine(line, b))
    ensures line == "" && b.data != "" ==>
              Interpret(line + "\n" + rest, b) == [Dispatched(b)] + Interpret(rest, b.(data := "", eventType := ""))
    ensures line == "" && b.data == "" ==>
              Interpret(line + "\n" + rest, b) == Interpret(rest, b.(data := "", eventType := ""))
  {
    LineLengthOf(line, rest);
    assert (line + "\n" + rest)[..|line|] == line;
  }

  lemma {:induction false} ColonAfter(name: string, value: string)
    requires forall i :: 0 <= i < |name| ==> name[i] != ':'
    ensures ColonAt(name + ":" + value) == |name|
  {
    if name != "" {
      assert (name + ":" + value)[1..] == name[1..] + ":" + value;
      ColonAfter(name[1..], value);
    }
  }

  /** A field line `name: value`. */
  lemma FieldOf(name: string, value: string)
    requires forall i :: 0 <= i < |name| ==> name[i] != ':'
    ensures FieldName(name + ":" + (" " + value)) == name
    ensures FieldValue(name + ":" + (" " + value)) == value
  {
    var line := name + ":" + (" " + value);
    ColonAfter(name, " " + value);
    assert line[..|name|] == name && line[|name| + 1] == ' ' && line[|name| + 2..] == value;
  }

  lemma IdLine(id: string, b: Buffers)
    requires '\0' !in id
    ensures ProcessLine("id: " + id, b) == b.(lastEventId := id)
  {
    FieldOf("id", id);
    assert "id: " + id == "id" + ":" + (" " + id);
  }

  lemma DataLine(data: string, b: Buffers)
    requires b.data == ""
    ensures ProcessLine("data: " + data, b) == b.(data := data + "\n")
  {
    FieldOf("data", data);
    assert "data: " + data == "data" + ":" + (" " + data);
    assert "" + data + "\n" == data + "\n";
  }

  /** Two field lines and the empty line that ends their event. */
  lemma InterpretTwoLines(first: string, second: string, rest: string, b: Buffers, b1: Buffers, b2: Buffers)
    requires OneLine(first) && OneLine(second) && first != "" && second != ""
    requires ProcessLine(first, b) == b1 && ProcessLine(second, b1) == b2 && b2.data != ""
    ensures Interpret(first + "\n" + (second + "\n" + "\n") + rest, b)
            == [Dispatched(b2)] + Interpret(rest, b2.(data := "", eventType := ""))
  {
    Associate(first + "\n", second + "\n" + "\n", rest);
    InterpretLine(first, (second + "\n" + "\n") + rest, b);
    Associate(second + "\n", "\n", rest);
    InterpretLine(second, "\n" + rest, b1);
    EmptyLine(rest);
    InterpretLine("", rest, b2);
  }

  lemma EmptyLine(rest: string)
    ensures "" + "\n" + rest == "\n" + rest
  {
  }

  /** One clean frame dispatches exactly its event and leaves only its id behind. */
  lemma InterpretFrame(id: string, data: string, rest: string, b: Buffers)
    requires CleanId(id) && OneLine(data) && b.data == "" && b.eventType == ""
    ensures Interpret(Frame(id, data) + rest, b)
            == [Event("message", data, id)] + Interpret(rest, b.(lastEventId := id))
  {
    var withId := b.(lastEventId := id);
    var withData := withId.(data := data + "\n");
    IdLine(id, b);
    DataLine(data, withId);
    OneLineAfter("id: ", id);
    OneLineAfter("data: ", data);
    InterpretTwoLines("id: " + id, "data: " + data, rest, b, withId, withData);
    assert (data + "\n")[..|data|] == data;
  }

  lemma OneLineAfter(name: string, value: string)
    requires OneLine(name) && OneLine(value)
    ensures OneLine(name + value)
  {
  }

  lemma {:induction false} InterpretFrames(session: string, events: seq<Outgoing>, b: Buffers)
    requires AllClean(session, events)
    requires b.data == "" && b.eventType == ""
    ensures Interpret(Frames(session, events), b) == Expected(session, events)
    decreases events
  {
    if events != [] {
      var id, data := EventId(session, events[0]), Encode(events[0].document);
      EncodePrintable(events[0].document);
      InterpretFrame(id, data, Frames(session, events[1..]), b);
      InterpretFrames(session, events[1..], b.(lastEventId := id));
    }
  }

  /** The text after the colon has no other characters than the line. */
  lemma ValueIsOneLine(line: string)
    requires OneLine(line)
    ensures OneLine(FieldValue(line))
  {
    var value := FieldValue(line);
    forall i | 0 <= i < |value| ensures !IsLineEnd(value[i]) {
      assert value[i] == line[|line| - |value| + i];
    }
  }

  lemma LineKeepsIdClean(line: string, b: Buffers)
    requires OneLine(line) && CleanId(b.lastEventId)
    ensures CleanId(ProcessLine(line, b).lastEventId)
  {
    ValueIsOneLine(line);
  }

  /** No stream whatever can give an event an id with a line end or a NUL in it. */
  lemma {:induction false} DispatchedIdsAreClean(s: string, b: Buffers)
    requires CleanId(b.lastEventId)
    ensures forall e :: e in Interpret(s, b) ==> CleanId(e.lastEventId)
    decreases |s|
  {
    if LineLength(s) < |s| {
      var line := s[..LineLength(s)];
      if line != "" {
        LineKeepsIdClean(line, b);
        DispatchedIdsAreClean(AfterLine(s), ProcessLine(line, b));
      } else {
        DispatchedIdsAreClean(AfterLine(s), b.(data := "", eventType := ""));
      }
    }
  }

  lemma FramesStart(session: string, events: seq<Outgoing>)
    ensures Frames(session, events) == "" || Frames(session, events)[0] == 'i'
  {
  }

  /**
   The body written for a list of events is read back as exactly those events, in order, with their ids
   and documents, if and only if every id is free of line ends and NUL.
   */
  lemma StreamRoundTrip(session: string, events: seq<Outgoing>)
    ensures ReadStream(Frames(session, events)) == Expected(session, events) <==> AllClean(session, events)
  {
    var body, expected := Frames(session, events), Expected(session, events);
    FramesStart(session, events);
    assert ReadStream(body) == Interpret(body, FRESH);
    if AllClean(session, events) {
      InterpretFrames(session, events, FRESH);
    }
    if Interpret(body, FRESH) == expected {
      DispatchedIdsAreClean(body, FRESH);
      forall i | 0 <= i < |events| ensures CleanId(EventId(session, events[i])) {
        assert expected[i] in expected && expected[i].lastEventId == EventId(session, events[i]);
      }
    }
  }

  /** An id with a line feed in it: the reader gets another list of events. */
  lemma UncleanIdIsLost(session: string, document: Json)
    ensures var events := [Outgoing("a\nb", document)];
            ReadStream(Frames(session, events)) != Expected(session, events)
  {
    var events := [Outgoing("a\nb", document)];
    var id := EventId(session, events[0]);
    assert id[|session| + 2] == '\n';
    StreamRoundTrip(session, events);
  }

  // ---------------------------------------------------------------- the injected comment

  const OBSERVER_COMMENT := ": injected observer close"

  /** The chunk that the fault injector sends in place of a response. */
  function ObserverClose(): string {
    OBSERVER_COMMENT + "\n" + "\n"
  }

  /** A comment line and the empty line after it dispatch nothing, wherever frames may start. */
  lemma CommentDispatchesNothing(comment: string, rest: string, b: Buffers)
    requires OneLine(comment) && comment != "" && comment[0] == ':'
    requires b.data == "" && b.eventType == ""
    ensures Interpret(comment + "\n" + ("\n" + rest), b) == Interpret(rest, b)
  {
    InterpretLine(comment, "\n" + rest, b);
    assert FieldName(comment) == "";
    EmptyLine(rest);
    InterpretLine("", rest, b);
    assert b.(data := "", eventType := "") == b;
  }

  lemma CommentStream(comment: string)
    requires OneLine(comment) && comment != "" && comment[0] == ':'
    ensures ReadStream(comment + "\n" + "\n") == []
  {
    var body := comment + "\n" + "\n";
    assert body[0] == ':' && body == comment + "\n" + ("\n" + "");
    CommentDispatchesNothing(comment, "", FRESH);
  }

  /** A response that is only the injected chunk shows its reader no event. */
  lemma ObserverCloseIsEmpty()
    ensures ReadStream(ObserverClose()) == []
  {
    CommentStream(OBSERVER_COMMENT);
  }
}
