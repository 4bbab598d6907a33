/** Server-sent event framing of packages/providers/src/sse.ts, against the line and
    field rules of sections 9.2.5 and 9.2.6 of the WHATWG HTML standard. */
module Sse {
  import opened Common
  import opened Utf8

  type Text = seq<CodePoint>

  const EVENT_BYTES := 262144
  const LF: CodePoint := 10
  const CR: CodePoint := 13
  const COLON: CodePoint := 58
  const BLANK: CodePoint := 32
  const NUL: CodePoint := 0

  const MESSAGE: Text := [109, 101, 115, 115, 97, 103, 101]
  const DATA: Text := [100, 97, 116, 97]
  const EVENT: Text := [101, 118, 101, 110, 116]
  const ID: Text := [105, 100]

  datatype Record = Record(event: Text, data: Text, id: Option<Text>)

  datatype Fault = TooLarge | Unfinished

  // ----- lines and fields -----

  function IndexOf(line: Text, c: CodePoint, i: nat): (r: nat)
    requires i <= |line|
    ensures i <= r <= |line|
    ensures c !in line[i..r] && (r < |line| ==> line[r] == c)
    decreases |line| - i
  {
    if i == |line| || line[i] == c then i
    else
      var r := IndexOf(line, c, i + 1);
      assert line[i..r] == [line[i]] + line[i + 1..r];
      r
  }

  function Field(line: Text): Text { line[..IndexOf(line, COLON, 0)] }

  function Value(line: Text): Text {
    var colon := IndexOf(line, COLON, 0);
    if colon == |line| then []
    else
      var v := line[colon + 1..];
      if v != [] && v[0] == BLANK then v[1..] else v
  }

  /** Lines joined by newlines. */
  function Join(parts: seq<Text>): Text {
    if parts == [] then [] else if |parts| == 1 then parts[0] else parts[0] + [LF] + Join(parts[1..])
  }

  /** The fields of the record being read. */
  datatype Fields = Fields(data: seq<Text>, event: Text, id: Option<Text>)

  const FRESH := Fields([], MESSAGE, None)

  function Interpret(f: Fields, line: Text): Fields {
    if line != [] && line[0] == COLON then f
    else if Field(line) == DATA then f.(data := f.data + [Value(line)])
    else if Field(line) == EVENT then f.(event := Value(line))
    else if Field(line) == ID && NUL !in Value(line) then f.(id := Some(Value(line)))
    else f
  }

  function Dispatch(f: Fields): seq<Record> {
    if f.data == [] then [] else [Record(f.event, Join(f.data), f.id)]
  }

  /** Records of complete lines, and the fields left over. */
  function Records(f: Fields, lines: seq<Text>): (r: (seq<Record>, Fields))
    decreases |lines|
  {
    if lines == [] then ([], f)
    else if lines[0] == [] then
      var rest := Records(FRESH, lines[1..]);
      (Dispatch(f) + rest.0, rest.1)
    else Records(Interpret(f, lines[0]), lines[1..])
  }

  /** Complete lines of a text and the unfinished rest: a line ends at CRLF, LF or CR.
      `after` says that a CR came just before. */
  function Lines(line: Text, after: bool, text: Text): (r: (seq<Text>, Text))
    decreases |text|
  {
    if text == [] then ([], line)
    else if after && text[0] == LF then Lines(line, false, text[1..])
    else if text[0] == LF || text[0] == CR then
      var rest := Lines([], text[0] == CR, text[1..]);
      ([line] + rest.0, rest.1)
    else Lines(line + [text[0]], false, text[1..])
  }

  // ----- the decoder -----

  datatype State = State(line: Text, fields: Fields, size: nat, pendingCR: bool)

  const START := State([], FRESH, 0, false)

  function EndLine(s: State): (r: (State, seq<Record>)) {
    if s.line == [] then (State([], FRESH, 0, s.pendingCR), Dispatch(s.fields))
    else (s.(line := [], fields := Interpret(s.fields, s.line)), [])
  }

  datatype Framed = Framed(state: State, records: seq<Record>, fault: Option<Fault>)

  function Push(s: State, text: Text): Framed
    decreases |text|
  {
    if text == [] then Framed(s, [], None)
    else
      var c := text[0];
      var size := s.size + |Encode(c)|;
      if size > EVENT_BYTES then Framed(s.(size := size), [], Some(TooLarge))
      else if s.pendingCR && c == LF then Push(s.(size := size, pendingCR := false), text[1..])
      else
        var here := s.(size := size, pendingCR := false);
        if c == LF || c == CR then
          var ended := EndLine(here);
          var rest := Push(ended.0.(pendingCR := c == CR), text[1..]);
          Framed(rest.state, ended.1 + rest.records, rest.fault)
        else Push(here.(line := here.line + [c]), text[1..])
  }

  /** Pushing piece after piece, the last one final or not. */
  function PushAll(s: State, pieces: seq<Text>, final: bool): Framed
    decreases |pieces|
  {
    if pieces == [] then
      Framed(s, [], if final && (s.line != [] || s.fields.data != []) then Some(Unfinished) else None)
    else
      var d := Push(s, pieces[0]);
      if d.fault.Some? then d
      else
        var rest := PushAll(d.state, pieces[1..], final);
        Framed(rest.state, d.records + rest.records, rest.fault)
  }

  function Flatten(pieces: seq<Text>): Text {
    if pieces == [] then [] else pieces[0] + Flatten(pieces[1..])
  }

  class SSEDecoder {
    var line: Text
    var data: seq<Text>
    var event: Text
    var id: Option<Text>
    var size: nat
    var pendingCR: bool

    ghost function Current(): State
      reads this
    {
      State(line, Fields(data, event, id), size, pendingCR)
    }

    constructor ()
      ensures Current() == START
    {
      line, data, event, id, size, pendingCR := [], [], MESSAGE, None, 0, false;
    }

    method FinishLine() returns (records: seq<Record>)
      modifies this
      ensures EndLine(old(Current())) == (Current(), records)
    {
      var whole := line;
      line := [];
      if whole == [] {
        records := if data != [] then [Record(event, Join(data), id)] else [];
        data, event, id, size := [], MESSAGE, None, 0;
        return;
      }
      records := [];
      if whole[0] == COLON {
        return;
      }
      var colon := IndexOf(whole, COLON, 0);
      var field := whole[..colon];
      var value := if colon == |whole| then [] else whole[colon + 1..];
      if value != [] && value[0] == BLANK {
        value := value[1..];
      }
      if field == DATA {
        data := data + [value];
      } else if field == EVENT {
        event := value;
      } else if field == ID && NUL !in value {
        id := Some(value);
      }
    }

    method PushText(text: Text, final: bool) returns (records: seq<Record>, fault: Option<Fault>)
      modifies this
      ensures PushAll(old(Current()), [text], final) == Framed(Current(), records, fault)
    {
      hide Push, EndLine;
      records := [];
      ghost var start := Current();
      var i := 0;
      assert text[0..] == text;
      while i < |text|
        invariant 0 <= i <= |text|
        invariant var d := Push(Current(), text[i..]);
          Push(start, text) == Framed(d.state, records + d.records, d.fault)
      {
        ghost var before, rest := Current(), text[i..];
        PushOne(before, rest);
        assert rest[1..] == text[i + 1..];
        var c := text[i];
        i := i + 1;
        size := size + |Encode(c)|;
        if size > EVENT_BYTES {
          return records, Some(TooLarge);
        }
        var skip := pendingCR && c == LF;
        pendingCR := false;
        if !skip {
          if c == LF || c == CR {
            var ended := FinishLine();
            ghost var emitted := records;
            records := records + ended;
            pendingCR := c == CR;
            ghost var d := Push(Current(), text[i..]);
            assert emitted + (ended + d.records) == records + d.records;
          } else {
            line := line + [c];
          }
        }
      }
      PushNothing(Current());
      assert text[i..] == [] && records + [] == records;
      fault := if final && (line != [] || data != []) then Some(Unfinished) else None;
    }
  }

  lemma PushNothing(s: State)
    ensures Push(s, []) == Framed(s, [], None)
  {
  }

  lemma PushOne(s: State, text: Text)
    requires text != []
    ensures Push(s, text) ==
      var c := text[0];
      var size := s.size + |Encode(c)|;
      if size > EVENT_BYTES then Framed(s.(size := size), [], Some(TooLarge))
      else if s.pendingCR && c == LF then Push(s.(size := size, pendingCR := false), text[1..])
      else
        var here := s.(size := size, pendingCR := false);
        if c == LF || c == CR then
          var ended := EndLine(here);
          var rest := Push(ended.0.(pendingCR := c == CR), text[1..]);
          Framed(rest.state, ended.1 + rest.records, rest.fault)
        else Push(here.(line := here.line + [c]), text[1..])
  {
    hide EndLine, Encode;
  }

  // ----- independence from fragmentation -----

  lemma {:induction false} PushAppend(s: State, a: Text, b: Text)
    ensures var d := Push(s, a);
      Push(s, a + b) ==
      if d.fault.Some? then d
      else var rest := Push(d.state, b); Framed(rest.state, d.records + rest.records, rest.fault)
    decreases |a|
  {
    hide Push, EndLine, Encode;
    if a == [] {
      PushNothing(s);
      assert a + b == b;
      var rest := Push(s, b);
      assert [] + rest.records == rest.records;
    } else {
      PushOne(s, a);
      PushOne(s, a + b);
      assert (a + b)[1..] == a[1..] + b;
      var c := a[0];
      var here := s.(size := s.size + |Encode(c)|, pendingCR := false);
      PushAppend(here, a[1..], b);
      PushAppend(here.(line := here.line + [c]), a[1..], b);
      var ended := EndLine(here);
      var next := ended.0.(pendingCR := c == CR);
      PushAppend(next, a[1..], b);
      var d := Push(next, a[1..]);
      var rest := Push(d.state, b);
      assert ended.1 + (d.records + rest.records) == ended.1 + d.records + rest.records;
    }
  }

  /** However decoded text is split across pushes, records and failures are the same. */
  lemma {:induction false} FragmentationIndependence(s: State, pieces: seq<Text>, final: bool)
    ensures PushAll(s, pieces, final) == PushAll(s, [Flatten(pieces)], final)
    decreases |pieces|
  {
    hide Push;
    var whole := Flatten(pieces);
    PushAllOne(s, whole, [], final);
    if pieces == [] {
      PushNothing(s);
    } else {
      var d := Push(s, pieces[0]);
      PushAppend(s, pieces[0], Flatten(pieces[1..]));
      FragmentationIndependence(d.state, pieces[1..], final);
      PushAllOne(d.state, Flatten(pieces[1..]), [], final);
      var last := Push(d.state, Flatten(pieces[1..]));
      assert d.records + (last.records + []) == d.records + last.records + [];
    }
  }

  lemma PushAllOne(s: State, first: Text, rest: seq<Text>, final: bool)
    ensures PushAll(s, [first] + rest, final) ==
      var d := Push(s, first);
      if d.fault.Some? then d
      else var more := PushAll(d.state, rest, final); Framed(more.state, d.records + more.records, more.fault)
  {
    hide Push;
    assert ([first] + rest)[1..] == rest;
  }

  // ----- lines and fields, as the standard states them -----

  /** Unless a record is too large, the decoder splits into lines and interprets them. */
  lemma {:induction false} PushIsLines(s: State, text: Text)
    requires Push(s, text).fault.None?
    ensures var d := Push(s, text);
      var lines := Lines(s.line, s.pendingCR, text);
      && d.records == Records(s.fields, lines.0).0
      && d.state.fields == Records(s.fields, lines.0).1
      && d.state.line == lines.1
    decreases |text|
  {
    hide Push, Interpret, Dispatch, Encode;
    if text == [] {
      PushNothing(s);
    } else {
      PushOne(s, text);
      var c := text[0];
      var here := s.(size := s.size + |Encode(c)|, pendingCR := false);
      if s.pendingCR && c == LF {
        PushIsLines(here, text[1..]);
      } else if c == LF || c == CR {
        var ended := EndLine(here);
        PushIsLines(ended.0.(pendingCR := c == CR), text[1..]);
        var rest := Lines([], c == CR, text[1..]);
        assert ([s.line] + rest.0)[1..] == rest.0;
      } else {
        PushIsLines(here.(line := here.line + [c]), text[1..]);
      }
    }
  }

  /** A stream that ends cleanly has no unfinished line and no undispatched data. */
  lemma DecodingIsLinesAndFields(text: Text, final: bool)
    ensures var d := PushAll(START, [text], final);
      var lines := Lines([], false, text);
      var spec := Records(FRESH, lines.0);
      && (d.fault != Some(TooLarge) ==> d.records == spec.0)
      && (d.fault != Some(TooLarge) ==> (d.fault == Some(Unfinished) <==> final && (lines.1 != [] || spec.1.data != [])))
  {
    hide Push, Lines, Records;
    PushAllOne(START, text, [], final);
    assert [text] + [] == [text];
    var p := Push(START, text);
    PushFault(START, text);
    if p.fault.None? {
      PushIsLines(START, text);
      assert p.records + [] == p.records;
    }
  }

  lemma {:induction false} PushFault(s: State, text: Text)
    ensures Push(s, text).fault.None? || Push(s, text).fault == Some(TooLarge)
    decreases |text|
  {
    hide Push, EndLine, Encode;
    if text == [] {
      PushNothing(s);
    } else {
      PushOne(s, text);
      var here := s.(size := s.size + |Encode(text[0])|, pendingCR := false);
      PushFault(here, text[1..]);
      PushFault(here.(line := here.line + [text[0]]), text[1..]);
      PushFault(EndLine(here).0.(pendingCR := text[0] == CR), text[1..]);
    }
  }

  // ----- the standard's event stream interpretation -----

  /** An event as the standard dispatches it. */
  datatype Event = Event(kind: Text, data: Text, lastId: Text)

  /** Buffers of the standard: data ends with a newline for each data line. */
  datatype Buffers = Buffers(data: Text, kind: Text, lastId: Text)

  function Terminated(parts: seq<Text>): Text {
    if parts == [] then [] else Terminated(parts[..|parts| - 1]) + parts[|parts| - 1] + [LF]
  }

  /** A line that is a field of this name and value: the name alone; or the name, a colon, and
      the value, with one space before it that is not part of it. */
  predicate IsField(line: Text, name: Text, value: Text) {
    && 58 !in name
    && (|| (line == name && value == [])
        || line == name + [58, 32] + value
        || (line == name + [58] + value && (value != [] ==> value[0] != 32)))
  }

  /** The characters of a literal. */
  function Literal(name: string): Text {
    seq(|name|, k requires 0 <= k < |name| => if name[k] < 128 as char then name[k] as CodePoint else 0)
  }

  ghost predicate HasField(line: Text, name: Text) { exists value :: IsField(line, name, value) }

  ghost function ValueOf(line: Text, name: Text): Text
    requires HasField(line, name)
  {
    var value :| IsField(line, name, value);
    value
  }

  /** A comment begins with a colon; data, event type and last id are set by fields of those
      names, an id only without NUL; all else is ignored. */
  ghost function Process(b: Buffers, line: Text): Buffers {
    if line != [] && line[0] == 58 then b
    else if HasField(line, Literal("data")) then b.(data := b.data + ValueOf(line, Literal("data")) + [10])
    else if HasField(line, Literal("event")) then b.(kind := ValueOf(line, Literal("event")))
    else if HasField(line, Literal("id")) && 0 !in ValueOf(line, Literal("id")) then b.(lastId := ValueOf(line, Literal("id")))
    else b
  }

  ghost function Standard(b: Buffers, lines: seq<Text>): seq<Event>
    decreases |lines|
  {
    if lines == [] then []
    else if lines[0] == [] then
      var rest := Standard(Buffers([], [], b.lastId), lines[1..]);
      if b.data == [] then rest
      else [Event(if b.kind == [] then Literal("message") else b.kind, b.data[..|b.data| - 1], b.lastId)] + rest
    else Standard(Process(b, lines[0]), lines[1..])
  }

  /** What the decoder's records say in the standard's terms: an empty type means the
      default, and the last id seen is kept from record to record. */
  function AsEvents(rs: seq<Record>, ids: seq<Option<Text>>, lastId: Text): seq<Event>
    requires |ids| == |rs|
    decreases |rs|
  {
    if rs == [] then []
    else
      var id := if ids[0].Some? then ids[0].value else lastId;
      [Event(if rs[0].event == [] then MESSAGE else rs[0].event, rs[0].data, id)] + AsEvents(rs[1..], ids[1..], id)
  }

  /** The id in force at each dispatch, when only the current block's ids are at hand:
      those set since the previous dispatch, dispatched or not. */
  function Ids(f: Fields, pending: Option<Text>, lines: seq<Text>): (r: seq<Option<Text>>)
    ensures |r| == |Records(f, lines).0|
    decreases |lines|
  {
    if lines == [] then []
    else if lines[0] == [] then
      var now := if f.id.Some? then f.id else pending;
      if f.data == [] then Ids(FRESH, now, lines[1..]) else [now] + Ids(FRESH, None, lines[1..])
    else Ids(Interpret(f, lines[0]), pending, lines[1..])
  }

  lemma {:induction false} TerminatedJoin(parts: seq<Text>)
    ensures parts == [] ==> Terminated(parts) == []
    ensures parts != [] ==> Terminated(parts) != [] && Terminated(parts)[..|Terminated(parts)| - 1] == Join(parts)
  {
    if parts != [] {
      TerminatedIsJoin(parts);
    }
  }

  lemma TerminatedNone()
    ensures Terminated([]) == []
  {
  }

  lemma TerminatedMore(parts: seq<Text>, v: Text)
    ensures Terminated(parts + [v]) == Terminated(parts) + v + [LF]
  {
    assert (parts + [v])[..|parts|] == parts;
  }

  lemma {:induction false} TerminatedIsJoin(parts: seq<Text>)
    requires parts != []
    ensures Terminated(parts) == Join(parts) + [LF]
    decreases |parts|
  {
    if |parts| == 1 {
      assert parts[..0] == [];
      assert Terminated(parts) == [] + parts[0] + [LF];
    } else {
      TerminatedIsJoin(parts[1..]);
      TerminatedFirst(parts);
    }
  }

  lemma {:induction false} TerminatedFirst(parts: seq<Text>)
    requires parts != []
    ensures Terminated(parts) == parts[0] + [LF] + Terminated(parts[1..])
    decreases |parts|
  {
    hide Terminated;
    var n := |parts| - 1;
    TerminatedNone();
    TerminatedMore(parts[..n], parts[n]);
    assert parts == parts[..n] + [parts[n]];
    if n == 0 {
      assert parts[..0] == [] && parts[1..] == [];
      assert [] + parts[0] + [LF] == parts[0] + [LF] + [];
    } else {
      TerminatedFirst(parts[..n]);
      assert parts[..n][1..] == parts[1..n];
      TerminatedMore(parts[1..n], parts[n]);
      assert parts[1..] == parts[1..n] + [parts[n]];
    }
  }

  lemma Literals()
    ensures Literal("data") == DATA && Literal("event") == EVENT && Literal("id") == ID && Literal("message") == MESSAGE
  {
  }

  lemma NoColon(name: Text, rest: Text)
    requires 58 !in name && (rest != [] ==> rest[0] == 58)
    ensures IndexOf(name + rest, COLON, 0) == |name|
  {
    var line, r := name + rest, IndexOf(name + rest, COLON, 0);
    forall i | 0 <= i < r
      ensures line[i] != COLON
    {
      assert line[i] == line[0..r][i];
    }
    assert |name| < |line| ==> line[|name|] == COLON;
    assert forall i :: 0 <= i < |name| ==> line[i] == name[i];
  }

  /** A line is a field of one name and one value, and the decoder finds them: what follows
      the colon is the value, less one space. */
  lemma FieldRules(line: Text, name: Text, value: Text)
    ensures IsField(line, name, value) <==> Field(line) == name && Value(line) == value
  {
    if IsField(line, name, value) {
      if line == name && value == [] {
        NoColon(name, []);
        assert name + [] == name;
      } else if line == name + [58, 32] + value {
        NoColon(name, [58, 32] + value);
        assert line == name + ([58, 32] + value);
        assert line[|name| + 1..] == [32] + value;
        assert ([32 as CodePoint] + value)[1..] == value;
      } else {
        NoColon(name, [58] + value);
        assert line == name + ([58] + value);
        assert line[|name| + 1..] == value;
      }
    } else if Field(line) == name && Value(line) == value {
      ReadsBack(line);
    }
  }

  lemma ReadsBack(line: Text)
    ensures IsField(line, Field(line), Value(line))
  {
    var colon := IndexOf(line, COLON, 0);
    assert Field(line) == line[0..colon];
    if colon < |line| {
      var v := line[colon + 1..];
      assert line == Field(line) + [58] + v;
      assert v != [] && v[0] == 32 ==> v == [32] + Value(line) && line == Field(line) + [58, 32] + Value(line);
    } else {
      assert line == Field(line);
    }
  }

  lemma FieldFound(line: Text, name: Text)
    ensures HasField(line, name) <==> Field(line) == name
    ensures HasField(line, name) ==> ValueOf(line, name) == Value(line)
  {
    hide Field, Value;
    FieldRules(line, name, Value(line));
    if HasField(line, name) {
      FieldRules(line, name, ValueOf(line, name));
    }
  }

  lemma ProcessIs(b: Buffers, line: Text)
    ensures Process(b, line) ==
      if line != [] && line[0] == COLON then b
      else if Field(line) == DATA then b.(data := b.data + Value(line) + [LF])
      else if Field(line) == EVENT then b.(kind := Value(line))
      else if Field(line) == ID && NUL !in Value(line) then b.(lastId := Value(line))
      else b
  {
    hide Field, Value, IsField, HasField, ValueOf, Literal;
    Literals();
    FieldFound(line, DATA);
    FieldFound(line, EVENT);
    FieldFound(line, ID);
  }

  /** The standard's buffers say what the decoder's fields do; `pending` is an id read since the
      last dispatch, `lastId` the one before. */
  predicate Abreast(f: Fields, pending: Option<Text>, lastId: Text, b: Buffers) {
    && b.data == Terminated(f.data) && (b.kind == f.event || (b.kind == [] && f.event == MESSAGE))
    && b.lastId == (if f.id.Some? then f.id.value else if pending.Some? then pending.value else lastId)
  }

  lemma FieldKeeps(f: Fields, pending: Option<Text>, lastId: Text, b: Buffers, line: Text)
    requires Abreast(f, pending, lastId, b)
    ensures Abreast(Interpret(f, line), pending, lastId, Process(b, line))
  {
    hide Field, Value, Terminated, Process;
    ProcessIs(b, line);
    TerminatedMore(f.data, Value(line));
  }

  /** The decoder and the standard read the same events from the same lines, up to the
      decoder's own choices: no type default and no id kept across records. */
  lemma {:induction false} RecordsAreStandardEvents(f: Fields, pending: Option<Text>, lastId: Text, b: Buffers, lines: seq<Text>)
    requires Abreast(f, pending, lastId, b)
    ensures Standard(b, lines) == AsEvents(Records(f, lines).0, Ids(f, pending, lines), lastId)
    decreases |lines|
  {
    hide Join, Terminated, Process, Interpret, Literal;
    if lines != [] {
      if lines[0] == [] {
        Literals();
        TerminatedNone();
        TerminatedJoin(f.data);
        if f.data == [] {
          RecordsAreStandardEvents(FRESH, if f.id.Some? then f.id else pending, lastId, Buffers([], [], b.lastId), lines[1..]);
          assert [] + Records(FRESH, lines[1..]).0 == Records(FRESH, lines[1..]).0;
        } else {
          RecordsAreStandardEvents(FRESH, None, b.lastId, Buffers([], [], b.lastId), lines[1..]);
        }
      } else {
        hide Abreast;
        FieldKeeps(f, pending, lastId, b, lines[0]);
        RecordsAreStandardEvents(Interpret(f, lines[0]), pending, lastId, Process(b, lines[0]), lines[1..]);
      }
    }
  }

  // ----- lines of a text -----

  predicate Plain(line: Text) { 10 !in line && 13 !in line }

  predicate IsEnd(end: Text) { end == [10] || end == [13] || end == [13, 10] }

  /** Lines, each with its end. */
  function Written(lines: seq<Text>, ends: seq<Text>): Text
    requires |lines| == |ends|
  {
    if lines == [] then [] else lines[0] + ends[0] + Written(lines[1..], ends[1..])
  }

  /** No line feed follows a carriage return that ends a line by itself: the two are one end. */
  predicate Unambiguous(lines: seq<Text>, ends: seq<Text>, rest: Text)
    requires |lines| == |ends|
  {
    forall k :: 0 <= k < |lines| && ends[k] == [13] ==>
      var after := Written(lines[k + 1..], ends[k + 1..]) + rest; after == [] || after[0] != 10
  }

  lemma LinesOne(line: Text, after: bool, text: Text)
    requires text != []
    ensures Lines(line, after, text) ==
      if after && text[0] == LF then Lines(line, false, text[1..])
      else if text[0] == LF || text[0] == CR then
        var rest := Lines([], text[0] == CR, text[1..]);
        ([line] + rest.0, rest.1)
      else Lines(line + [text[0]], false, text[1..])
  {
  }

  lemma {:induction false} PlainRead(line: Text, more: Text, after: bool, text: Text)
    requires Plain(more) && (after && more == [] ==> text == [] || text[0] != 10)
    ensures Lines(line, after, more + text) == Lines(line + more, false, text)
    decreases |more|
  {
    hide Lines;
    if more == [] {
      assert more + text == text && line + more == line;
      if text == [] {
        LinesNone(line, after);
        LinesNone(line, false);
      } else {
        LinesOne(line, after, text);
        LinesOne(line, false, text);
      }
    } else {
      LinesOne(line, after, more + text);
      assert (more + text)[1..] == more[1..] + text && (more + text)[0] == more[0] && more[0] in more;
      assert line + [more[0]] + more[1..] == line + more;
      PlainRead(line + [more[0]], more[1..], false, text);
    }
  }

  lemma LinesNone(line: Text, after: bool)
    ensures Lines(line, after, []) == ([], line)
  {
  }

  lemma AfterEnd(after: bool, text: Text)
    requires after ==> text == [] || text[0] != 10
    ensures Lines([], after, text) == Lines([], false, text)
  {
    hide Lines;
    if text == [] {
      LinesNone([], after);
      LinesNone([], false);
    } else {
      LinesOne([], after, text);
      LinesOne([], false, text);
    }
  }

  /** An end that is read ends the line; a line feed behind a carriage return is no other end. */
  lemma EndRead(line: Text, end: Text, text: Text)
    requires IsEnd(end) && (end == [13] ==> text == [] || text[0] != 10)
    ensures var rest := Lines([], false, text);
      Lines(line, false, end + text) == ([line] + rest.0, rest.1)
  {
    hide Lines;
    LinesOne(line, false, end + text);
    if end == [13, 10] {
      assert (end + text)[1..] == [10] + text && ([10 as CodePoint] + text)[1..] == text;
      LinesOne([], true, [10] + text);
    } else {
      assert (end + text)[1..] == text;
      AfterEnd(end == [13], text);
    }
  }

  lemma TailUnambiguous(lines: seq<Text>, ends: seq<Text>, rest: Text)
    requires |lines| == |ends| && lines != [] && Unambiguous(lines, ends, rest)
    ensures Unambiguous(lines[1..], ends[1..], rest)
    ensures ends[0] == [13] ==> var after := Written(lines[1..], ends[1..]) + rest; after == [] || after[0] != 10
  {
    hide Written;
    forall k | 0 <= k < |lines| - 1 && ends[1..][k] == [13]
      ensures var after := Written(lines[1..][k + 1..], ends[1..][k + 1..]) + rest; after == [] || after[0] != 10
    {
      assert lines[1..][k + 1..] == lines[k + 2..] && ends[1..][k + 1..] == ends[k + 2..] && ends[1..][k] == ends[k + 1];
    }
  }

  /** Lines written with any ends are read back, in order, and so is an unfinished one. */
  lemma {:induction false} LinesRead(lines: seq<Text>, ends: seq<Text>, rest: Text)
    requires |lines| == |ends| && Unambiguous(lines, ends, rest) && Plain(rest)
    requires forall k :: 0 <= k < |lines| ==> Plain(lines[k]) && IsEnd(ends[k])
    ensures Lines([], false, Written(lines, ends) + rest) == (lines, rest)
    decreases |lines|
  {
    hide Lines, Plain, IsEnd, Unambiguous;
    if lines == [] {
      assert Written(lines, ends) + rest == rest + [] && [] + rest == rest;
      PlainRead([], rest, false, []);
      LinesNone(rest, false);
    } else {
      var text := Written(lines[1..], ends[1..]) + rest;
      assert Written(lines, ends) + rest == lines[0] + (ends[0] + text);
      TailUnambiguous(lines, ends, rest);
      LinesRead(lines[1..], ends[1..], rest);
      PlainRead([], lines[0], false, ends[0] + text);
      assert [] + lines[0] == lines[0];
      EndRead(lines[0], ends[0], text);
      assert [lines[0]] + lines[1..] == lines;
    }
  }

  // ----- how large a record may be -----

  /** A blank line ends just before this place: the record is dispatched, and counting begins
      again. */
  predicate Blank(text: Text, q: nat)
    requires q <= |text|
  {
    q > 0 && (|| (text[q - 1] == 13 && (q == 1 || text[q - 2] == 10 || text[q - 2] == 13))
              || (text[q - 1] == 10 && (q == 1 || text[q - 2] == 10)))
  }

  /** Where counting last began. */
  function Counted(text: Text): (q: nat)
    ensures q <= |text| && (q == 0 || Blank(text, q)) && forall r :: q < r <= |text| ==> !Blank(text, r)
  {
    if text == [] || Blank(text, |text|) then |text|
    else
      var front := text[..|text| - 1];
      var q := Counted(front);
      assert forall r :: 0 <= r < |text| ==> Blank(text, r) == Blank(front, r);
      q
  }

  /** What the decoder's state is after a text that it took. */
  lemma {:induction false} StateAfter(text: Text)
    requires Push(START, text).fault.None?
    ensures var s := Push(START, text).state;
      && s.size == |EncodeAll(text[Counted(text)..])| <= 262144
      && (s.pendingCR <==> text != [] && text[|text| - 1] == 13)
      && (s.line == [] <==> text == [] || text[|text| - 1] == 10 || text[|text| - 1] == 13)
    decreases |text|
  {
    hide Push, EncodeAll, Encode, Counted, Interpret, Dispatch;
    if text == [] {
      PushNothing(START);
      assert EncodeAll([]) == [] by { NothingEncoded(); }
    } else {
      var n := |text| - 1;
      var front, c := text[..n], text[n];
      assert text == front + [c];
      PushAppend(START, front, [c]);
      StateAfter(front);
      var s := Push(START, front).state;
      PushOne(s, [c]);
      assert [c][1..] == [];
      CountedMore(front, c);
      OnePushed(s, c);
      NothingEncoded();
    }
  }

  lemma NothingEncoded()
    ensures EncodeAll([]) == []
  {
  }

  /** Counting goes on over one more character, or begins again behind it. */
  lemma CountedMore(front: Text, c: CodePoint)
    ensures var text := front + [c];
      if Blank(text, |text|) then Counted(text) == |text|
      else Counted(text) == Counted(front) && |EncodeAll(text[Counted(text)..])| == |EncodeAll(front[Counted(front)..])| + |Encode(c)|
  {
    hide EncodeAll, Encode;
    var text := front + [c];
    assert text[..|text| - 1] == front;
    var q := Counted(front);
    assert text[q..] == front[q..] + [c];
    EncodeAppend(front[q..], [c]);
    OneEncoded(c);
  }

  lemma OneEncoded(c: CodePoint)
    ensures EncodeAll([c]) == Encode(c)
  {
    hide Encode;
    assert [c][1..] == [];
    NothingEncoded();
  }

  lemma OnePushed(s: State, c: CodePoint)
    ensures var d := Push(s, [c]);
      && (d.fault.Some? <==> s.size + |Encode(c)| > 262144)
      && (d.fault.None? ==>
            && d.state.pendingCR == (c == 13)
            && (d.state.line == [] <==> c == 13 || (c == 10 && !s.pendingCR) || (c == 10 && s.line == []))
            && d.state.size == if (c == 13 || (c == 10 && !s.pendingCR)) && s.line == [] then 0 else s.size + |Encode(c)|)
  {
    hide Encode, Interpret, Dispatch, Push;
    PushOne(s, [c]);
    assert [c][1..] == [];
    var here := s.(size := s.size + |Encode(c)|, pendingCR := false);
    PushNothing(here);
    PushNothing(here.(line := here.line + [c]));
    PushNothing(EndLine(here).0.(pendingCR := c == CR));
  }

  /** The bytes since the last blank line are more than 262,144, with this character. */
  predicate Overruns(text: Text, p: nat)
    requires p <= |text|
  {
    p > 0 && |EncodeAll(text[Counted(text[..p - 1])..p])| > 262144
  }

  lemma OverrunsPrefix(front: Text, c: CodePoint, p: nat)
    requires p <= |front|
    ensures Overruns(front + [c], p) == Overruns(front, p)
  {
    hide EncodeAll, Counted;
    if p > 0 {
      var text := front + [c];
      assert front[..p - 1] == text[..p - 1];
      assert front[Counted(front[..p - 1])..p] == text[Counted(text[..p - 1])..p];
    }
  }

  /** The decoder refuses a stream as too large exactly when it overruns at some character. */
  lemma {:induction false} TooLargeExactly(text: Text)
    ensures Push(START, text).fault == Some(TooLarge) <==> exists p: nat :: p <= |text| && Overruns(text, p)
    decreases |text|
  {
    hide Push, EncodeAll, Encode, Counted;
    PushFault(START, text);
    if text == [] {
      PushNothing(START);
    } else {
      var n := |text| - 1;
      var front, c := text[..n], text[n];
      assert text == front + [c];
      PushAppend(START, front, [c]);
      TooLargeExactly(front);
      forall p | 0 <= p <= n
        ensures Overruns(text, p) == Overruns(front, p)
      {
        OverrunsPrefix(front, c, p);
      }
      if Push(START, front).fault.None? {
        StateAfter(front);
        OnePushed(Push(START, front).state, c);
        LastOverruns(front, c);
      }
    }
  }

  lemma LastOverruns(front: Text, c: CodePoint)
    ensures Overruns(front + [c], |front| + 1) <==> |EncodeAll(front[Counted(front)..])| + |Encode(c)| > 262144
  {
    hide EncodeAll, Encode, Counted;
    var text, q := front + [c], Counted(front);
    assert text[..|front|] == front && text[q..|front| + 1] == front[q..] + [c];
    EncodeAppend(front[q..], [c]);
    OneEncoded(c);
  }
}
