/**
 The server-sent-event printer of grpcep/handler.go and its inverse, the event stream
 interpretation of the WHATWG HTML Living Standard (sections 9.2.5 and 9.2.6).

 A stream is a sequence of code points. Parsing what the printer emits gives back exactly one
 event per message, with ids 1, 2, ..., and every line ending of the content normalised to LF.
*/
module Sse {

  // ---------------------------------------------------------------- line endings

  /** strings.ReplaceAll for a non-empty pattern: leftmost, non-overlapping. */
  function ReplaceAll(s: string, pattern: string, replacement: string): string
    requires |pattern| > 0
    decreases |s|
  {
    if |s| < |pattern| then s
    else if pattern <= s then replacement + ReplaceAll(s[|pattern|..], pattern, replacement)
    else [s[0]] + ReplaceAll(s[1..], pattern, replacement)
  }

  /** The printer's two passes: CRLF to LF, then CR to LF. */
  function TwoPass(s: string): string {
    ReplaceAll(ReplaceAll(s, "\r\n", "\n"), "\r", "\n")
  }

  /** The standard's reading: CRLF, CR and LF each end a line. */
  function Normalise(s: string): string
    decreases |s|
  {
    if s == [] then []
    else if s[0] == '\r' then
      "\n" + Normalise(if |s| > 1 && s[1] == '\n' then s[2..] else s[1..])
    else [s[0]] + Normalise(s[1..])
  }

  lemma {:induction false} ReplaceCrHead(c: char, s: string)
    ensures ReplaceAll([c] + s, "\r", "\n") == [if c == '\r' then '\n' else c] + ReplaceAll(s, "\r", "\n")
  {
    var t := [c] + s;
    assert t[1..] == s;
    assert t[0] == c;
    if c == '\r' { assert t[..1] == "\r"; }
  }

  /** Two passes over the content do what the standard does in one. */
  lemma {:induction false} TwoPassIsNormalise(s: string)
    ensures TwoPass(s) == Normalise(s)
    decreases |s|
  {
    if |s| < 2 {
      if |s| == 1 {
        assert s == [s[0]] + [] && s[1..] == [];
        ReplaceCrHead(s[0], []);
      }
    } else if s[0] == '\r' && s[1] == '\n' {
      assert "\r\n" <= s;
      ReplaceCrHead('\n', ReplaceAll(s[2..], "\r\n", "\n"));
      TwoPassIsNormalise(s[2..]);
    } else {
      assert !("\r\n" <= s);
      ReplaceCrHead(s[0], ReplaceAll(s[1..], "\r\n", "\n"));
      TwoPassIsNormalise(s[1..]);
    }
  }

  ghost predicate Plain(s: string) {
    forall i | 0 <= i < |s| :: s[i] != '\n' && s[i] != '\r'
  }

  lemma {:induction false} NormaliseHasNoCr(s: string)
    ensures forall i | 0 <= i < |Normalise(s)| :: Normalise(s)[i] != '\r'
    decreases |s|
  {
    if s != [] {
      NormaliseHasNoCr(if s[0] == '\r' && |s| > 1 && s[1] == '\n' then s[2..] else s[1..]);
    }
  }

  // ---------------------------------------------------------------- decimal ids

  function Itoa(n: nat): (s: string)
    ensures |s| > 0
    ensures forall i | 0 <= i < |s| :: '0' <= s[i] <= '9'
  {
    if n < 10 then [('0' as int + n) as char] else Itoa(n / 10) + [('0' as int + n % 10) as char]
  }

  function Atoi(s: string): int {
    if |s| == 0 then 0 else 10 * Atoi(s[..|s| - 1]) + (s[|s| - 1] as int - '0' as int)
  }

  lemma {:induction false} ItoaRoundTrip(n: nat)
    ensures Atoi(Itoa(n)) == n
  {
    if n >= 10 {
      ItoaRoundTrip(n / 10);
      assert Itoa(n)[..|Itoa(n)| - 1] == Itoa(n / 10);
    } else {
      assert Itoa(n)[..0] == [];
    }
  }

  // ---------------------------------------------------------------- the printer

  /** The position of the first LF, or the length. */
  function LineEnd(s: string): (k: nat)
    ensures k <= |s|
    ensures forall i | 0 <= i < k :: s[i] != '\n'
    ensures k < |s| ==> s[k] == '\n'
  {
    if s == [] || s[0] == '\n' then 0 else LineEnd(s[1..]) + 1
  }

  function SplitLines(s: string): (r: seq<string>)
    ensures |r| > 0
    decreases |s|
  {
    var k := LineEnd(s);
    if k == |s| then [s] else [s[..k]] + SplitLines(s[k + 1..])
  }

  function DataLine(line: string): string {
    "data: " + line + "\n"
  }

  function DataLines(lines: seq<string>): string {
    if lines == [] then [] else DataLine(lines[0]) + DataLines(lines[1..])
  }

  function Format(id: nat, content: string): string {
    "id: " + Itoa(id) + "\n" + DataLines(SplitLines(TwoPass(content))) + "\n"
  }

  /** strings.IndexByte for LF: the first position, or -1. */
  method IndexLf(s: string) returns (k: int)
    ensures k == if LineEnd(s) == |s| then -1 else LineEnd(s)
  {
    k := 0;
    while k < |s| && s[k] != '\n'
      invariant 0 <= k <= |s|
      invariant LineEnd(s) == k + LineEnd(s[k..])
    {
      assert s[k..][1..] == s[k + 1..];
      k := k + 1;
    }
    if k == |s| { k := -1; }
  }

  lemma DataLinesFront(line: string, rest: seq<string>)
    ensures DataLines([line] + rest) == DataLine(line) + DataLines(rest)
  {
    assert ([line] + rest)[1..] == rest;
  }

  lemma OnlyPiece(s: string)
    requires LineEnd(s) == |s|
    ensures DataLines(SplitLines(s)) == DataLine(s)
  {
    assert [s] == [s] + [];
    DataLinesFront(s, []);
  }

  /** The data lines still to be printed when the scan stands at `start`. */
  function Remaining(text: string, start: nat): string
    requires start <= |text|
  {
    DataLines(SplitLines(text[start..]))
  }

  /** The data lines of a text, peeled off at the next line ending. */
  lemma NextPiece(text: string, start: nat)
    requires start <= |text|
    ensures var end := start + LineEnd(text[start..]);
      Remaining(text, start) == DataLine(text[start..end]) + (if end == |text| then [] else Remaining(text, end + 1))
  {
    var rest := text[start..];
    var k := LineEnd(rest);
    assert text[start..start + k] == rest[..k];
    if k == |rest| {
      assert rest[..k] == rest;
      OnlyPiece(rest);
    } else {
      assert rest[k + 1..] == text[start + k + 1..];
      DataLinesFront(rest[..k], SplitLines(rest[k + 1..]));
    }
  }

  lemma Regroup(a: string, b: string, c: string)
    ensures a + (b + c) == a + b + c
  {
  }

  lemma FormatStarts(id: nat, content: string)
    ensures Format(id, content) == "id: " + Itoa(id) + "\n" + Remaining(TwoPass(content), 0) + "\n"
  {
    assert TwoPass(content)[0..] == TwoPass(content);
  }

  lemma OneDataLine(before: string, piece: string)
    ensures before + "data: " + piece + "\n" == before + DataLine(piece)
  {
  }

  method FormatSSEMessage(eventID: nat, content: string) returns (message: string)
    ensures message == Format(eventID, content)
  {
    hide Format, Remaining, DataLine;
    var text := ReplaceAll(content, "\r\n", "\n");
    text := ReplaceAll(text, "\r", "\n");
    FormatStarts(eventID, content);
    message := "id: " + Itoa(eventID) + "\n";
    ghost var goal := message + Remaining(text, 0);
    var start := 0;
    while true
      invariant 0 <= start <= |text|
      invariant goal == message + Remaining(text, start)
      decreases |text| - start
    {
      var offset := IndexLf(text[start..]);
      var end := if offset >= 0 then start + offset else |text|;
      NextPiece(text, start);
      OneDataLine(message, text[start..end]);
      ghost var before, line := message, DataLine(text[start..end]);
      message := message + "data: " + text[start..end] + "\n";
      if end == |text| {
        break;
      }
      start := end + 1;
      Regroup(before, line, Remaining(text, start));
    }
    message := message + "\n";
  }

  /** What RPCStream has sent once n of the received contents were flushed. */
  function Messages(contents: seq<string>): string {
    if contents == [] then [] else Messages(contents[..|contents| - 1]) + Format(|contents|, contents[|contents| - 1])
  }

  const CLOSE_DATA := "{\"close\":true}"

  function TypedMessage(kind: string, data: string): string {
    "event: " + kind + "\n" + "data: " + data + "\n" + "\n"
  }

  /** "event: close", "data: {"close":true}" and a blank line. */
  const CLOSE_EVENT := TypedMessage("close", CLOSE_DATA)

  /**
   The emit loop: numbers the contents from 1, stops early when the connection accepts only the
   first `accepted` flushes, and otherwise ends with the close event.
  */
  method Emit(contents: seq<string>, accepted: nat) returns (sent: string)
    ensures accepted < |contents| ==> sent == Messages(contents[..accepted])
    ensures accepted == |contents| ==> sent == Messages(contents)
    ensures accepted > |contents| ==> sent == Messages(contents) + CLOSE_EVENT
  {
    sent := "";
    var eventId := 0;
    assert contents[..0] == [];
    while eventId < |contents|
      invariant eventId <= |contents| && eventId <= accepted
      invariant sent == Messages(contents[..eventId])
    {
      if eventId == accepted {
        return;
      }
      eventId := eventId + 1;
      var message := FormatSSEMessage(eventId, contents[eventId - 1]);
      assert contents[..eventId][..eventId - 1] == contents[..eventId - 1];
      sent := sent + message;
    }
    assert contents[..eventId] == contents;
    if eventId < accepted {
      sent := sent + CLOSE_EVENT;
    }
  }

  // ---------------------------------------------------------------- the standard's parser

  datatype Event = Event(kind: string, data: string, lastEventId: string)

  datatype Parser = Parser(data: string, kind: string, idBuffer: string, events: seq<Event>)

  /** The complete lines of a stream; an unterminated last line is discarded at end of file. */
  function Lines(s: string, current: string): seq<string>
    decreases |s|
  {
    if s == [] then []
    else if s[0] == '\n' then [current] + Lines(s[1..], [])
    else if s[0] == '\r' then [current] + Lines(if |s| > 1 && s[1] == '\n' then s[2..] else s[1..], [])
    else Lines(s[1..], current + [s[0]])
  }

  function Colon(line: string): (k: nat)
    ensures k <= |line|
    ensures forall i | 0 <= i < k :: line[i] != ':'
    ensures k < |line| ==> line[k] == ':'
  {
    if line == [] || line[0] == ':' then 0 else Colon(line[1..]) + 1
  }

  function Dispatch(p: Parser): Parser {
    if p.data == [] then p.(kind := [])
    else
      var data := if p.data[|p.data| - 1] == '\n' then p.data[..|p.data| - 1] else p.data;
      var kind := if p.kind == [] then "message" else p.kind;
      Parser([], [], p.idBuffer, p.events + [Event(kind, data, p.idBuffer)])
  }

  /** Unknown fields, and retry, which only sets the reconnection time, leave the events alone. */
  function Field(p: Parser, name: string, value: string): Parser {
    if name == "event" then p.(kind := value)
    else if name == "data" then p.(data := p.data + value + "\n")
    else if name == "id" then (if '\0' in value then p else p.(idBuffer := value))
    else p
  }

  function ProcessLine(p: Parser, line: string): Parser {
    if line == [] then Dispatch(p)
    else
      var k := Colon(line);
      if k == 0 then p
      else if k == |line| then Field(p, line, [])
      else
        var value := line[k + 1..];
        Field(p, line[..k], if value != [] && value[0] == ' ' then value[1..] else value)
  }

  function Process(p: Parser, lines: seq<string>): Parser {
    if lines == [] then p else ProcessLine(Process(p, lines[..|lines| - 1]), lines[|lines| - 1])
  }

  const FRESH := Parser([], [], [], [])

  /** One leading byte order mark is ignored. */
  function Parse(s: string): seq<Event> {
    Process(FRESH, Lines(if s != [] && s[0] == '\U{FEFF}' then s[1..] else s, [])).events
  }

  // ---------------------------------------------------------------- parsing what was printed

  lemma {:induction false} LineThen(line: string, rest: string, current: string)
    requires Plain(line)
    ensures Lines(line + "\n" + rest, current) == [current + line] + Lines(rest, [])
  {
    var s := line + "\n" + rest;
    if line == [] {
      assert s[1..] == rest && current + line == current;
    } else {
      assert s[1..] == line[1..] + "\n" + rest;
      LineThen(line[1..], rest, current + [line[0]]);
      assert current + [line[0]] + line[1..] == current + line;
    }
  }

  lemma {:induction false} SplitLinesArePlain(s: string)
    requires forall i | 0 <= i < |s| :: s[i] != '\r'
    ensures forall i | 0 <= i < |SplitLines(s)| :: Plain(SplitLines(s)[i])
    decreases |s|
  {
    var k := LineEnd(s);
    if k < |s| { SplitLinesArePlain(s[k + 1..]); }
  }

  function Prefixed(lines: seq<string>): (r: seq<string>)
    ensures |r| == |lines|
  {
    seq(|lines|, i requires 0 <= i < |lines| => "data: " + lines[i])
  }

  lemma {:induction false} LinesOfData(lines: seq<string>, rest: string)
    requires forall i | 0 <= i < |lines| :: Plain(lines[i])
    ensures Lines(DataLines(lines) + rest, []) == Prefixed(lines) + Lines(rest, [])
  {
    if lines == [] {
      assert DataLines(lines) + rest == rest;
    } else {
      var line := "data: " + lines[0];
      assert DataLines(lines) + rest == line + "\n" + (DataLines(lines[1..]) + rest);
      LineThen(line, DataLines(lines[1..]) + rest, []);
      LinesOfData(lines[1..], rest);
      assert Prefixed(lines) == [line] + Prefixed(lines[1..]);
      assert [] + line == line;
      assert [line] + (Prefixed(lines[1..]) + Lines(rest, [])) == Prefixed(lines) + Lines(rest, []);
    }
  }

  lemma {:induction false} LinesOfMessage(id: nat, content: string, rest: string)
    ensures Lines(Format(id, content) + rest, [])
      == ["id: " + Itoa(id)] + Prefixed(SplitLines(Normalise(content))) + [""] + Lines(rest, [])
  {
    TwoPassIsNormalise(content);
    NormaliseHasNoCr(content);
    SplitLinesArePlain(Normalise(content));
    var data := SplitLines(Normalise(content));
    var tail := "\n" + rest;
    assert Format(id, content) + rest == ("id: " + Itoa(id)) + "\n" + (DataLines(data) + tail);
    LineThen("id: " + Itoa(id), DataLines(data) + tail, []);
    LinesOfData(data, tail);
    assert "" + "\n" + rest == tail;
    LineThen("", rest, []);
    var idLine: string := "id: " + Itoa(id);
    assert [] + idLine == idLine && [] + "" == "";
    assert Lines(tail, []) == [""] + Lines(rest, []);
    assert [idLine] + (Prefixed(data) + ([""] + Lines(rest, [])))
      == [idLine] + Prefixed(data) + [""] + Lines(rest, []);
  }

  lemma ProcessAppend(p: Parser, lines: seq<string>, line: string)
    ensures Process(p, lines + [line]) == ProcessLine(Process(p, lines), line)
  {
    assert (lines + [line])[..|lines|] == lines;
  }

  lemma {:induction false} ProcessConcat(p: Parser, a: seq<string>, b: seq<string>)
    ensures Process(p, a + b) == Process(Process(p, a), b)
  {
    if b == [] {
      assert a + b == a;
    } else {
      var init, last := b[..|b| - 1], b[|b| - 1];
      assert a + b == (a + init) + [last];
      ProcessAppend(p, a + init, last);
      ProcessConcat(p, a, init);
    }
  }

  lemma {:induction false} ColonAfter(name: string, rest: string)
    requires forall i | 0 <= i < |name| :: name[i] != ':'
    ensures Colon(name + ":" + rest) == |name|
  {
    var s := name + ":" + rest;
    assert s[|name|] == ':';
    assert forall i | 0 <= i < |name| :: s[i] == name[i];
  }

  /** A field line "name: value" is read back as that field, whatever the value starts with. */
  lemma FieldLine(p: Parser, name: string, value: string)
    requires name != [] && forall i | 0 <= i < |name| :: name[i] != ':'
    ensures ProcessLine(p, name + ": " + value) == Field(p, name, value)
  {
    var line := name + ": " + value;
    assert line == name + ":" + (" " + value);
    ColonAfter(name, " " + value);
    assert line[..|name|] == name && line[|name| + 1..] == " " + value;
    assert (" " + value)[1..] == value;
  }

  /** Data lines accumulate; with the final LF dropped they are the text they were split from. */
  lemma {:induction false} ProcessData(p: Parser, lines: seq<string>)
    ensures Process(p, Prefixed(lines)) == p.(data := p.data + Rejoined(lines))
  {
    hide ProcessLine, Prefixed;
    if lines == [] {
      assert Prefixed(lines) == [];
      assert p.data + Rejoined(lines) == p.data;
    } else {
      var init, last := lines[..|lines| - 1], lines[|lines| - 1];
      ProcessData(p, init);
      ProcessDataLine(p, init, last);
      assert lines == init + [last];
      assert Rejoined(lines) == Rejoined(init) + last + "\n";
      assert p.data + Rejoined(init) + last + "\n" == p.data + Rejoined(lines);
    }
  }

  lemma ProcessDataLine(p: Parser, init: seq<string>, last: string)
    ensures var q := Process(p, Prefixed(init));
      Process(p, Prefixed(init + [last])) == q.(data := q.data + last + "\n")
  {
    hide ProcessLine;
    assert Prefixed(init + [last]) == Prefixed(init) + ["data: " + last];
    ProcessAppend(p, Prefixed(init), "data: " + last);
    assert "data: " + last == "data" + ": " + last;
    FieldLine(Process(p, Prefixed(init)), "data", last);
  }

  function Rejoined(lines: seq<string>): string {
    if lines == [] then [] else Rejoined(lines[..|lines| - 1]) + lines[|lines| - 1] + "\n"
  }

  lemma {:induction false} RejoinedFront(line: string, lines: seq<string>)
    ensures Rejoined([line] + lines) == line + "\n" + Rejoined(lines)
  {
    var all := [line] + lines;
    if lines == [] {
      assert all[..0] == [] && all == [line];
      assert Rejoined(all) == [] + line + "\n";
    } else {
      assert all[..|all| - 1] == [line] + lines[..|lines| - 1];
      RejoinedFront(line, lines[..|lines| - 1]);
    }
  }

  lemma {:induction false} SplitThenRejoin(s: string)
    ensures Rejoined(SplitLines(s)) == s + "\n"
    decreases |s|
  {
    var k := LineEnd(s);
    if k == |s| {
      assert [s][..0] == [];
      assert Rejoined([s]) == [] + s + "\n";
    } else {
      SplitThenRejoin(s[k + 1..]);
      RejoinedFront(s[..k], SplitLines(s[k + 1..]));
      assert s[..k] + "\n" + s[k + 1..] == s;
    }
  }

  /** A parser between events, having seen `events`, the last with id `id`. */
  function Between(id: string, events: seq<Event>): Parser {
    Parser([], [], id, events)
  }

  /** One message is one event, whatever its content: content can neither split nor merge events. */
  lemma {:induction false} ParseMessage(p: Parser, id: nat, content: string, rest: string)
    requires p.data == [] && p.kind == []
    ensures Process(p, Lines(Format(id, content) + rest, []))
      == Process(Between(Itoa(id), p.events + [Event("message", Normalise(content), Itoa(id))]), Lines(rest, []))
  {
    var text := Normalise(content);
    var idLine, data := "id: " + Itoa(id), Prefixed(SplitLines(text));
    LinesOfMessage(id, content, rest);
    ProcessConcat(p, [idLine] + data + [""], Lines(rest, []));
    ProcessConcat(p, [idLine] + data, [""]);
    ProcessConcat(p, [idLine], data);
    assert [idLine][..0] == [];
    assert Process(p, [idLine]) == ProcessLine(Process(p, []), idLine);
    assert idLine == "id" + ": " + Itoa(id);
    FieldLine(p, "id", Itoa(id));
    var p1 := p.(idBuffer := Itoa(id));
    ProcessData(p1, SplitLines(text));
    SplitThenRejoin(text);
    var p2 := p1.(data := text + "\n");
    assert p1.data + (text + "\n") == text + "\n";
    assert [""][..0] == [];
    assert Process(p2, [""]) == ProcessLine(Process(p2, []), "");
    assert (text + "\n")[..|text|] == text;
  }

  function Expected(contents: seq<string>): seq<Event> {
    if contents == [] then []
    else
      var last := Event("message", Normalise(contents[|contents| - 1]), Itoa(|contents|));
      Expected(contents[..|contents| - 1]) + [last]
  }

  function LastId(contents: seq<string>): string {
    if contents == [] then [] else Itoa(|contents|)
  }

  lemma {:induction false} ParseMessages(contents: seq<string>, rest: string)
    ensures Process(FRESH, Lines(Messages(contents) + rest, []))
      == Process(Between(LastId(contents), Expected(contents)), Lines(rest, []))
  {
    if contents == [] {
      assert Messages(contents) + rest == rest;
    } else {
      var init, last := contents[..|contents| - 1], contents[|contents| - 1];
      var tail := Format(|contents|, last) + rest;
      assert Messages(contents) + rest == Messages(init) + tail;
      ParseMessages(init, tail);
      ParseMessage(Between(LastId(init), Expected(init)), |contents|, last, rest);
    }
  }

  lemma {:induction false} NoByteOrderMark(contents: seq<string>, rest: string)
    requires contents != []
    ensures |Messages(contents)| > 0 && (Messages(contents) + rest)[0] == 'i'
  {
    if |contents| > 1 {
      NoByteOrderMark(contents[..|contents| - 1], rest);
    } else {
      assert contents[..0] == [];
    }
  }

  /** Round trip: parsing n printed messages yields exactly n events, ids 1..n, contents normalised. */
  lemma {:induction false} RoundTrip(contents: seq<string>)
    ensures Parse(Messages(contents)) == Expected(contents)
    ensures |Expected(contents)| == |contents|
    ensures forall i | 0 <= i < |contents| ::
      && Expected(contents)[i].kind == "message" && Expected(contents)[i].data == Normalise(contents[i])
      && Atoi(Expected(contents)[i].lastEventId) == i + 1
  {
    if contents != [] { NoByteOrderMark(contents, []); }
    assert Messages(contents) + [] == Messages(contents);
    ParseMessages(contents, []);
    ExpectedAt(contents);
  }

  lemma {:induction false} ExpectedAt(contents: seq<string>)
    ensures |Expected(contents)| == |contents|
    ensures forall i | 0 <= i < |contents| ::
      && Expected(contents)[i].kind == "message" && Expected(contents)[i].data == Normalise(contents[i])
      && Atoi(Expected(contents)[i].lastEventId) == i + 1
  {
    if contents != [] {
      ExpectedAt(contents[..|contents| - 1]);
      ItoaRoundTrip(|contents|);
    }
  }

  lemma LinesOfEvent(first: string, second: string)
    requires Plain(first) && Plain(second)
    ensures Lines(first + "\n" + (second + "\n" + ("" + "\n" + "")), []) == [first] + ([second] + ([""] + []))
  {
    LineThen(first, second + "\n" + ("" + "\n" + ""), []);
    LineThen(second, "" + "\n" + "", []);
    LineThen("", "", []);
    assert [] + first == first && [] + second == second && [] + "" == "";
  }

  lemma TypedShape(kind: string, data: string)
    requires Plain(kind) && Plain(data)
    ensures TypedMessage(kind, data)[0] == 'e'
    ensures Lines(TypedMessage(kind, data), []) == ["event" + ": " + kind] + (["data" + ": " + data] + ([""] + []))
  {
    var first, second := "event" + ": " + kind, "data" + ": " + data;
    assert TypedMessage(kind, data) == first + "\n" + (second + "\n" + ("" + "\n" + ""));
    LinesOfEvent(first, second);
  }

  lemma ProcessThree(p: Parser, first: string, second: string, third: string)
    ensures Process(p, [first] + ([second] + ([third] + []))) == ProcessLine(ProcessLine(ProcessLine(p, first), second), third)
  {
    hide ProcessLine;
    var one, two := [] + [first], [] + [first] + [second];
    assert [first] + ([second] + ([third] + [])) == two + [third];
    ProcessAppend(p, two, third);
    ProcessAppend(p, one, second);
    ProcessAppend(p, [], first);
  }

  lemma DispatchesLine(p: Parser, data: string)
    requires p.data == data + "\n" && p.kind != []
    ensures ProcessLine(p, "").events == p.events + [Event(p.kind, data, p.idBuffer)]
  {
    assert p.data[..|p.data| - 1] == data;
  }

  lemma ProcessTyped(p: Parser, kind: string, data: string)
    requires p.data == [] && p.kind == [] && kind != []
    ensures Process(p, ["event" + ": " + kind] + (["data" + ": " + data] + ([""] + []))).events
      == p.events + [Event(kind, data, p.idBuffer)]
  {
    hide Process, ProcessLine;
    ProcessThree(p, "event" + ": " + kind, "data" + ": " + data, "");
    FieldLine(p, "event", kind);
    FieldLine(p.(kind := kind), "data", data);
    assert p.data + data == data;
    DispatchesLine(p.(kind := kind, data := data + "\n"), data);
  }

  /** A typed message is one event of that type, carrying the last id seen. */
  lemma {:induction false} ParseTyped(contents: seq<string>, kind: string, data: string)
    requires Plain(kind) && Plain(data) && kind != []
    ensures Parse(Messages(contents) + TypedMessage(kind, data))
      == Expected(contents) + [Event(kind, data, LastId(contents))]
  {
    var message := TypedMessage(kind, data);
    TypedShape(kind, data);
    if contents != [] {
      NoByteOrderMark(contents, message);
    } else {
      assert Messages(contents) + message == message;
    }
    ParseMessages(contents, message);
    ProcessTyped(Between(LastId(contents), Expected(contents)), kind, data);
  }

  /** The closing event is one more event, typed close, still carrying the last id. */
  lemma CloseEventRoundTrip(contents: seq<string>)
    ensures Parse(Messages(contents) + CLOSE_EVENT)
      == Expected(contents) + [Event("close", "{\"close\":true}", LastId(contents))]
  {
    ParseTyped(contents, "close", CLOSE_DATA);
  }

  // ---------------------------------------------------------------- interrupted streams

  lemma {:induction false} LinesGrow(a: string, b: string, current: string)
    ensures Lines(a, current) <= Lines(a + b, current)
    decreases |a|
  {
    if a != [] {
      var s := a + b;
      assert s[1..] == a[1..] + b;
      if a[0] == '\n' {
        LinesGrow(a[1..], b, []);
      } else if a[0] == '\r' {
        if |a| > 1 {
          assert s[1] == a[1] && s[2..] == a[2..] + b;
          LinesGrow(if a[1] == '\n' then a[2..] else a[1..], b, []);
        } else {
          assert a[1..] == [];
        }
      } else {
        LinesGrow(a[1..], b, current + [a[0]]);
      }
    }
  }

  lemma {:induction false} EventsGrow(p: Parser, a: seq<string>, b: seq<string>)
    requires a <= b
    ensures Process(p, a).events <= Process(p, b).events
  {
    if |a| < |b| {
      EventsGrow(p, a, b[..|b| - 1]);
    } else {
      assert a == b;
    }
  }

  /** A client cut off anywhere in a stream has received a prefix of its events. */
  lemma {:induction false} CutStreamGivesPrefix(a: string, b: string)
    ensures Parse(a) <= Parse(a + b)
  {
    if a != [] {
      var from := if a[0] == '\U{FEFF}' then a[1..] else a;
      var whole := if (a + b)[0] == '\U{FEFF}' then (a + b)[1..] else a + b;
      assert whole == from + b;
      LinesGrow(from, b, []);
      EventsGrow(FRESH, Lines(from, []), Lines(whole, []));
    }
  }
}
