/** Live runs whose receipts cannot be rebuilt from what they retained, one for every condition
    of `Reconstruction.RebuildsIffWhole`. They are given by their bytes; what JSON parsing
    makes of seven records is a hypothesis. */
module Refusals {
  import opened Common
  import opened Utf8
  import opened Normalizer
  import opened Receipts
  import opened Reconstruction
  import Sse
  import TextStream

  // ----- a stream of data lines -----

  /** One record of one data line. */
  function DataLine(t: Sse.Text): Sse.Text { Sse.DATA + [Sse.COLON] + t + [Sse.LF] }

  function Script(ts: seq<Sse.Text>): Sse.Text {
    if ts == [] then [] else Script(ts[..|ts| - 1]) + (DataLine(ts[|ts| - 1]) + [Sse.LF])
  }

  function Recorded(ts: seq<Sse.Text>): (rs: seq<Sse.Record>)
    ensures |rs| == |ts| && forall k :: 0 <= k < |ts| ==> rs[k] == Sse.Record(Sse.MESSAGE, ts[k], None)
  {
    seq(|ts|, k requires 0 <= k < |ts| => Sse.Record(Sse.MESSAGE, ts[k], None))
  }

  /** Data that fits one line of one record and is read as given. */
  predicate Plain(t: Sse.Text) {
    && |t| <= 65000 && (t != [] ==> t[0] != Sse.BLANK) && forall k :: 0 <= k < |t| ==> t[k] != Sse.LF && t[k] != Sse.CR
  }

  lemma {:induction false} PlainPush(s: Sse.State, t: Sse.Text)
    requires !s.pendingCR && s.size + 4 * |t| <= Sse.EVENT_BYTES && forall k :: 0 <= k < |t| ==> t[k] != Sse.LF && t[k] != Sse.CR
    ensures var d := Sse.Push(s, t);
      && d.records == [] && d.fault.None? && d.state == s.(line := s.line + t, size := d.state.size)
      && d.state.size <= s.size + 4 * |t|
    decreases |t|
  {
    hide Sse.Push, Encode, Sse.EndLine;
    if t == [] {
      Sse.PushNothing(s);
      assert s.line + [] == s.line;
    } else {
      Sse.PushOne(s, t);
      var next := s.(size := s.size + |Encode(t[0])|, line := s.line + [t[0]]);
      PlainPush(next, t[1..]);
      assert s.line + [t[0]] + t[1..] == s.line + t;
    }
  }

  lemma PushFeed(s: Sse.State)
    requires !s.pendingCR && s.size + 1 <= Sse.EVENT_BYTES
    ensures var e := Sse.EndLine(s.(size := s.size + 1));
      Sse.Push(s, [Sse.LF]) == Sse.Framed(e.0.(pendingCR := false), e.1, None)
  {
    hide Sse.EndLine, Sse.Push;
    Sse.PushOne(s, [Sse.LF]);
    assert [Sse.LF][1..] == [];
    var here := s.(size := s.size + 1, pendingCR := false);
    assert here == s.(size := s.size + 1);
    Sse.PushNothing(Sse.EndLine(here).0.(pendingCR := false));
    assert Sse.EndLine(here).1 + [] == Sse.EndLine(here).1;
  }

  lemma DataField(t: Sse.Text)
    requires Plain(t)
    ensures Sse.Interpret(Sse.FRESH, Sse.DATA + [Sse.COLON] + t) == Sse.FRESH.(data := [t])
  {
    var line := Sse.DATA + [Sse.COLON] + t;
    assert line[4] == Sse.COLON && line[0] == 100 && line[1] == 97 && line[2] == 116 && line[3] == 97;
    ColonAt(line);
    assert line[..4] == Sse.DATA && line[5..] == t;
    assert [] + [t] == [t];
  }

  lemma ColonAt(line: Sse.Text)
    requires |line| > 4 && line[4] == Sse.COLON && forall k :: 0 <= k < 4 ==> line[k] != Sse.COLON
    ensures Sse.IndexOf(line, Sse.COLON, 0) == 4
  {
    var r := Sse.IndexOf(line, Sse.COLON, 0);
    forall i | 0 <= i < r
      ensures line[i] != Sse.COLON
    {
      assert line[i] == line[0..r][i];
    }
    assert !(r < 4);
  }

  /** A data line leaves its data to be dispatched. */
  lemma DataLinePush(t: Sse.Text)
    requires Plain(t)
    ensures var d := Sse.Push(Sse.START, DataLine(t));
      && d.records == [] && d.fault.None? && d.state == Sse.State([], Sse.FRESH.(data := [t]), d.state.size, false)
      && d.state.size + 1 <= Sse.EVENT_BYTES
  {
    hide Sse.Push, Sse.Interpret;
    var line := Sse.DATA + [Sse.COLON] + t;
    PlainPush(Sse.START, line);
    Sse.PushAppend(Sse.START, line, [Sse.LF]);
    var s := Sse.Push(Sse.START, line).state;
    assert [] + line == line;
    PushFeed(s);
    DataField(t);
  }

  lemma RecordPush(t: Sse.Text)
    requires Plain(t)
    ensures Sse.Push(Sse.START, DataLine(t) + [Sse.LF]) == Sse.Framed(Sse.START, [Sse.Record(Sse.MESSAGE, t, None)], None)
  {
    hide Sse.Push;
    DataLinePush(t);
    Sse.PushAppend(Sse.START, DataLine(t), [Sse.LF]);
    PushFeed(Sse.Push(Sse.START, DataLine(t)).state);
  }

  lemma {:induction false} ScriptPush(ts: seq<Sse.Text>)
    requires forall k :: 0 <= k < |ts| ==> Plain(ts[k])
    ensures Sse.Push(Sse.START, Script(ts)) == Sse.Framed(Sse.START, Recorded(ts), None)
    decreases |ts|
  {
    hide Sse.Push, DataLine, Plain;
    if ts == [] {
      Sse.PushNothing(Sse.START);
    } else {
      var front, last := ts[..|ts| - 1], ts[|ts| - 1];
      ScriptPush(front);
      RecordPush(last);
      Sse.PushAppend(Sse.START, Script(front), DataLine(last) + [Sse.LF]);
      assert Recorded(front) + [Sse.Record(Sse.MESSAGE, last, None)] == Recorded(ts);
    }
  }

  // ----- a whole response in one segment -----

  /** Parsing makes the records of a response of the lines. */
  predicate Understood(parse: Sse.Record -> Data, ts: seq<Sse.Text>, ds: seq<Data>) {
    |ts| == |ds| && forall k :: 0 <= k < |ts| ==> Plain(ts[k]) && parse(Sse.Record(Sse.MESSAGE, ts[k], None)) == ds[k]
  }

  /** The lines, more text behind them, and bytes of an unfinished character. */
  function Bytes(ts: seq<Sse.Text>, tail: Sse.Text, torn: seq<Byte>): Segment { EncodeAll(Script(ts) + tail) + torn }

  predicate Torn(torn: seq<Byte>) { torn == [] || TextStream.Partial(torn) }

  lemma TornScan(torn: seq<Byte>)
    requires Torn(torn)
    ensures TextStream.Scan(torn) == TextStream.Scanned([], torn)
  {
    hide Decode;
    if torn != [] && Decode(torn, 0).Decoded? {
      DecodeClosed(torn, 0);
    }
  }

  lemma {:induction false} ScriptStarts(ts: seq<Sse.Text>)
    requires ts != []
    ensures Script(ts) != [] && Script(ts)[0] == Sse.DATA[0]
    decreases |ts|
  {
    if |ts| > 1 {
      ScriptStarts(ts[..|ts| - 1]);
    } else {
      assert Script(ts[..0]) == [];
      assert Script(ts) == DataLine(ts[0]) + [Sse.LF];
    }
  }

  lemma BytesDecode(h: TextStream.Held, ts: seq<Sse.Text>, tail: Sse.Text, torn: seq<Byte>)
    requires h.bytes == [] && ts != [] && Torn(torn)
    ensures TextStream.Chunk(h, Bytes(ts, tail, torn), true) == TextStream.Chunked(Script(ts) + tail, TextStream.Held(torn, true))
  {
    hide TextStream.Scan, Script, EncodeAll, Torn;
    var text := Script(ts) + tail;
    TornScan(torn);
    TextStream.ScanEncoded(text, torn);
    ScriptStarts(ts);
    assert [] + Bytes(ts, tail, torn) == Bytes(ts, tail, torn);
    assert text + [] == text;
  }

  /** What more text behind the lines leaves unfinished: it completes no record. */
  predicate Dangles(tail: Sse.Text, end: Sse.State) { Sse.Push(Sse.START, tail) == Sse.Framed(end, [], None) }

  lemma ParsedIs(ts: seq<Sse.Text>, ds: seq<Data>, parse: Sse.Record -> Data)
    requires Understood(parse, ts, ds)
    ensures Parsed(Recorded(ts), parse) == Recs(ds)
  {
    hide Plain;
    var a, b := Parsed(Recorded(ts), parse), Recs(ds);
    assert forall k :: 0 <= k < |a| ==> a[k] == b[k];
  }

  lemma LastSegment(h: TextStream.Held, ts: seq<Sse.Text>, ds: seq<Data>, tail: Sse.Text, end: Sse.State, torn: seq<Byte>, parse: Sse.Record -> Data)
    requires h.bytes == [] && ts != [] && Torn(torn) && Understood(parse, ts, ds) && Dangles(tail, end)
    ensures var bytes := Bytes(ts, tail, torn);
      Feed(Sse.START, h, [bytes], false, parse) == Fed([Chunk(|bytes|)] + Recs(ds), end, TextStream.Held(torn, true), false)
  {
    hide Feed, Sse.Push, Script, Bytes, Parsed, TextStream.Chunk, Torn, Plain;
    var bytes := Bytes(ts, tail, torn);
    BytesDecode(h, ts, tail, torn);
    FeedOne(Sse.START, h, [bytes], false, parse);
    ScriptPush(ts);
    Sse.PushAppend(Sse.START, Script(ts), tail);
    Sse.PushAllOne(Sse.START, Script(ts) + tail, [], false);
    assert [Script(ts) + tail] + [] == [Script(ts) + tail];
    assert Recorded(ts) + [] + [] == Recorded(ts);
    var rest: seq<Segment> := [bytes][1..];
    assert rest == [];
    FeedNone(end, TextStream.Held(torn, true), false, parse);
    ParsedIs(ts, ds, parse);
    assert [Chunk(|bytes|)] + Recs(ds) + [] == [Chunk(|bytes|)] + Recs(ds);
  }

  ghost function LiveLoop(names: Names, segments: seq<Segment>, parse: Sse.Record -> Data, parses: Text -> bool): Receipts.Live {
    Play(names, START, Begin(names), FeedAll(segments, false, parse).items, parses)
  }

  /** A run that was accepted as far as it went and wrote a receipt. */
  ghost predicate Wrote(names: Names, segments: seq<Segment>, parse: Sse.Record -> Data, parses: Text -> bool) {
    var l := LiveLoop(names, segments, parse, parses);
    !FeedAll(segments, false, parse).fault && l.Live? && l.loop.receipts != []
  }

  /** And that reached its terminal marker. */
  ghost predicate Completed(names: Names, segments: seq<Segment>, parse: Sse.Record -> Data, parses: Text -> bool) {
    Wrote(names, segments, parse, parses) && LiveLoop(names, segments, parse, parses).stream.ended
  }

  ghost predicate ReadsBack(names: Names, segments: seq<Segment>, parse: Sse.Record -> Data, parses: Text -> bool)
    requires Wrote(names, segments, parse, parses)
  {
    Reconstructed(names, segments, parse, parses) == Rebuilt(LiveLoop(names, segments, parse, parses).loop.receipts)
  }

  /** The records of a response, or of one that is cut off before its terminal marker. */
  function Records(whole: bool, id: Text, model: Option<Text>, first: Text, second: Text): seq<Data> {
    if whole then Response(id, model, first, second) else Unended(id, model, first, second)
  }

  lemma OneSegment(names: Names, ts: seq<Sse.Text>, parse: Sse.Record -> Data, parses: Text -> bool, whole: bool, id: Text, model: Option<Text>,
                   first: Text, second: Text, tail: Sse.Text, end: Sse.State, torn: seq<Byte>)
    requires Taken(id, model, first, second) && Understood(parse, ts, Records(whole, id, model, first, second)) && Torn(torn) && Dangles(tail, end)
    ensures var segments := [Bytes(ts, tail, torn)];
      && Wrote(names, segments, parse, parses) && (Completed(names, segments, parse, parses) <==> whole)
      && (BetweenRecords(FeedAll(segments, false, parse)) <==> torn == [] && end.line == [] && end.fields.data == [])
      && (ReadsBack(names, segments, parse, parses) <==>
            && whole && |Bytes(ts, tail, torn)| <= 8388608 && torn == [] && end.line == [] && end.fields.data == [] && model.Some?)
  {
    hide Feed, Play, Bytes, Reconstructed, Taken, Torn, Dangles, Plain, Size;
    var segments := [Bytes(ts, tail, torn)];
    var ds := Records(whole, id, model, first, second);
    LastSegment(TextStream.NOTHING, ts, ds, tail, end, torn, parse);
    var n := |Bytes(ts, tail, torn)|;
    var g := StoreChunk(Begin(names), n);
    var items := [Chunk(n)] + Recs(ds);
    assert items[1..] == Recs(ds);
    PlayChunk(names, START, Begin(names), items, parses);
    if whole {
      ResponsePlays(names, g, parses, id, model, first, second);
    } else {
      UnendedPlays(names, g, parses, id, model, first, second);
    }
    RebuildsIffWhole(names, segments, false, parse, parses);
    OneSize(segments[0]);
  }

  lemma OneSize(segment: Segment)
    ensures Size([segment]) == |segment|
  {
    assert [segment][..0] == [];
  }

  lemma ShortTails()
    ensures Dangles([], Sse.START)
    ensures exists end :: Dangles([Sse.COLON], end) && end.line != []
    ensures exists end :: Dangles(DataLine([]), end) && end.line == [] && end.fields.data != []
    ensures Torn([]) && Torn([0xE4])
  {
    hide Sse.Push;
    Sse.PushNothing(Sse.START);
    PlainPush(Sse.START, [Sse.COLON]);
    DataLinePush([]);
    assert Dangles([Sse.COLON], Sse.Push(Sse.START, [Sse.COLON]).state);
    assert Dangles(DataLine([]), Sse.Push(Sse.START, DataLine([])).state);
  }

  /** Leaving out the last line leaves the other lines' records, in no more bytes. */
  lemma FrontLines(ts: seq<Sse.Text>, parse: Sse.Record -> Data, id: Text, model: Option<Text>, first: Text, second: Text)
    requires Understood(parse, ts, Response(id, model, first, second))
    ensures Understood(parse, ts[..6], Unended(id, model, first, second))
    ensures |Bytes(ts[..6], [], [])| <= |Bytes(ts, [], [])|
  {
    hide EncodeAll, Plain;
    var line := DataLine(ts[6]) + [Sse.LF];
    EncodeAppend(Script(ts[..6]), line);
    assert Script(ts) + [] == Script(ts[..6]) + line && Script(ts[..6]) + [] == Script(ts[..6]);
  }

  /** One response, retained in one segment: it reads back as it is when it names its model;
      not when it names none; not, although the live run took it all the same, when the segment
      goes on with a lone character, a data line, or the first byte of a character; and not,
      although its receipt is written and its segment ends between records, when it is cut off
      before the terminal marker. */
  lemma ReadsBackUnless(names: Names, ts: seq<Sse.Text>, parse: Sse.Record -> Data, parses: Text -> bool, id: Text, model: Option<Text>,
                        first: Text, second: Text)
    requires Taken(id, model, first, second) && Understood(parse, ts, Response(id, model, first, second))
    requires |Bytes(ts, [], [])| <= REPLAY_BYTES
    ensures Completed(names, [Bytes(ts, [], [])], parse, parses)
    ensures ReadsBack(names, [Bytes(ts, [], [])], parse, parses) <==> model.Some?
    ensures Completed(names, [Bytes(ts, [Sse.COLON], [])], parse, parses) && !ReadsBack(names, [Bytes(ts, [Sse.COLON], [])], parse, parses)
    ensures Completed(names, [Bytes(ts, DataLine([]), [])], parse, parses) && !ReadsBack(names, [Bytes(ts, DataLine([]), [])], parse, parses)
    ensures Completed(names, [Bytes(ts, [], [0xE4])], parse, parses) && !ReadsBack(names, [Bytes(ts, [], [0xE4])], parse, parses)
    ensures var cut := [Bytes(ts[..6], [], [])];
      && Wrote(names, cut, parse, parses) && !Completed(names, cut, parse, parses) && !ReadsBack(names, cut, parse, parses)
      && |cut[0]| <= REPLAY_BYTES && BetweenRecords(FeedAll(cut, false, parse))
  {
    FrontLines(ts, parse, id, model, first, second);
    hide Bytes, Taken, Understood, Dangles, Torn, Wrote, Completed, ReadsBack, BetweenRecords, Response, Unended, FeedAll;
    ShortTails();
    OneSegment(names, ts, parse, parses, true, id, model, first, second, [], Sse.START, []);
    OneSegment(names, ts, parse, parses, true, id, model, first, second, [], Sse.START, [0xE4]);
    var open :| Dangles([Sse.COLON], open) && open.line != [];
    OneSegment(names, ts, parse, parses, true, id, model, first, second, [Sse.COLON], open, []);
    var undispatched :| Dangles(DataLine([]), undispatched) && undispatched.line == [] && undispatched.fields.data != [];
    OneSegment(names, ts, parse, parses, true, id, model, first, second, DataLine([]), undispatched, []);
    OneSegment(names, ts[..6], parse, parses, false, id, model, first, second, [], Sse.START, []);
  }

  // ----- a long run of blank lines in front -----

  const FEEDS := 65536

  function Newlines(n: nat): (t: Sse.Text)
    ensures |t| == n && forall k :: 0 <= k < n ==> t[k] == Sse.LF
  {
    seq(n, _ => Sse.LF)
  }

  /** Segments of nothing but blank lines. */
  function Blanks(k: nat): (segments: seq<Segment>)
    ensures |segments| == k && forall i :: 0 <= i < k ==> segments[i] == EncodeAll(Newlines(FEEDS))
  {
    seq(k, _ => EncodeAll(Newlines(FEEDS)))
  }

  lemma {:induction false} NewlineBytes(n: nat)
    ensures |EncodeAll(Newlines(n))| == n
    decreases n
  {
    TextStream.EncodeAllFirst(Newlines(n));
    if n > 0 {
      assert Newlines(n)[1..] == Newlines(n - 1);
      NewlineBytes(n - 1);
    }
  }

  lemma {:induction false} NewlinesPush(n: nat)
    ensures Sse.Push(Sse.START, Newlines(n)) == Sse.Framed(Sse.START, [], None)
    decreases n
  {
    hide Sse.Push;
    if n == 0 {
      Sse.PushNothing(Sse.START);
    } else {
      NewlinesPush(n - 1);
      PushFeed(Sse.START);
      assert Newlines(n) == [Sse.LF] + Newlines(n - 1);
      Sse.PushAppend(Sse.START, [Sse.LF], Newlines(n - 1));
    }
  }

  lemma NewlinesDecode(h: TextStream.Held)
    requires h.bytes == []
    ensures TextStream.Chunk(h, EncodeAll(Newlines(FEEDS)), true) == TextStream.Chunked(Newlines(FEEDS), TextStream.Held([], true))
  {
    hide TextStream.Scan, EncodeAll;
    var text := Newlines(FEEDS);
    TextStream.ScanNothing();
    TextStream.ScanEncoded(text, []);
    assert [] + EncodeAll(text) == EncodeAll(text) == EncodeAll(text) + [];
    assert text + [] == text;
  }

  function BlankItems(k: nat): (items: seq<Item>)
    ensures |items| == k && forall i :: 0 <= i < k ==> items[i] == Chunk(FEEDS)
  {
    seq(k, _ => Chunk(FEEDS))
  }

  lemma {:induction false} BlanksFeed(h: TextStream.Held, k: nat, segment: Segment, one: Fed, parse: Sse.Record -> Data)
    requires h.bytes == [] && forall any: TextStream.Held :: any.bytes == [] ==> Feed(Sse.START, any, [segment], false, parse) == one
    ensures Feed(Sse.START, h, Blanks(k) + [segment], false, parse) == one.(items := BlankItems(k) + one.items)
    decreases k
  {
    hide Feed, Sse.Push, TextStream.Chunk, EncodeAll, Parsed;
    if k == 0 {
      assert Blanks(k) + [segment] == [segment] && BlankItems(k) + one.items == one.items;
    } else {
      var segments := Blanks(k) + [segment];
      var begun := TextStream.Held([], true);
      assert segments[1..] == Blanks(k - 1) + [segment];
      BlanksFeed(begun, k - 1, segment, one, parse);
      NewlinesDecode(h);
      NewlineBytes(FEEDS);
      NewlinesPush(FEEDS);
      Sse.PushAllOne(Sse.START, Newlines(FEEDS), [], false);
      assert [Newlines(FEEDS)] + [] == [Newlines(FEEDS)];
      NoRecords(parse);
      FeedOne(Sse.START, h, segments, false, parse);
      assert [Chunk(FEEDS)] + [] + (BlankItems(k - 1) + one.items) == BlankItems(k) + one.items;
    }
  }

  lemma NoRecords(parse: Sse.Record -> Data)
    ensures Parsed([], parse) == []
  {
  }

  function Retained(g: Loop, k: nat): Loop
    decreases k
  {
    if k == 0 then g else Retained(StoreChunk(g, FEEDS), k - 1)
  }

  lemma {:induction false} BlanksPlay(names: Names, g: Loop, k: nat, items: seq<Item>, parses: Text -> bool)
    ensures Play(names, START, g, BlankItems(k) + items, parses) == Play(names, START, Retained(g, k), items, parses)
    ensures var r := Retained(g, k); r == g.(rawCount := r.rawCount, rawBytes := r.rawBytes, parts := r.parts) && r.rawCount >= g.rawCount
    decreases k
  {
    hide Play;
    var all := BlankItems(k) + items;
    if k == 0 {
      assert all == items;
    } else {
      PlayChunk(names, START, g, all, parses);
      assert all[1..] == BlankItems(k - 1) + items;
      BlanksPlay(names, StoreChunk(g, FEEDS), k - 1, items, parses);
    }
  }

  lemma {:induction false} BlanksSize(k: nat)
    ensures Size(Blanks(k)) == k * FEEDS
    decreases k
  {
    hide EncodeAll;
    if k > 0 {
      NewlineBytes(FEEDS);
      assert Blanks(k)[..k - 1] == Blanks(k - 1);
      BlanksSize(k - 1);
    }
  }

  /** And a response that names its model, retained whole behind more than 8 MiB of blank
      lines, was live too and does not read back. */
  lemma LongRunRefused(names: Names, ts: seq<Sse.Text>, parse: Sse.Record -> Data, parses: Text -> bool, id: Text, model: Text, first: Text, second: Text)
    requires Taken(id, Some(model), first, second) && Understood(parse, ts, Response(id, Some(model), first, second))
    ensures var segments := Blanks(129) + [Bytes(ts, [], [])];
      Completed(names, segments, parse, parses) && !ReadsBack(names, segments, parse, parses)
  {
    hide Feed, Play, Bytes, Reconstructed, Taken, Torn, Dangles, Plain, Size, Blanks, BlankItems, Retained;
    var last := Bytes(ts, [], []);
    var segments := Blanks(129) + [last];
    var ds := Response(id, Some(model), first, second);
    ShortTails();
    var one := Fed([Chunk(|last|)] + Recs(ds), Sse.START, TextStream.Held([], true), false);
    forall h: TextStream.Held | h.bytes == []
      ensures Feed(Sse.START, h, [last], false, parse) == one
    {
      LastSegment(h, ts, ds, [], Sse.START, [], parse);
    }
    BlanksFeed(TextStream.NOTHING, 129, last, one, parse);
    var items := [Chunk(|last|)] + Recs(ds);
    BlanksPlay(names, Begin(names), 129, items, parses);
    var g := Retained(Begin(names), 129);
    assert items[1..] == Recs(ds);
    PlayChunk(names, START, g, items, parses);
    ResponsePlays(names, StoreChunk(g, |last|), parses, id, Some(model), first, second);
    RebuildsIffWhole(names, segments, false, parse, parses);
    BlanksSize(129);
    SizeGrows(segments, 129);
    assert segments[..129] == Blanks(129);
  }
}
