/** The streaming, fatal UTF-8 decoder in front of the event framing of
    packages/providers/src/sse.ts: a character split between chunks is held until it is whole,
    and a byte order mark at the start of the stream is dropped. */
module TextStream {
  import opened Common
  import opened Utf8

  type Text = seq<CodePoint>

  const MARK: CodePoint := 0xFEFF

  /** Second bytes that keep a lead byte's value in range: no overlong form, no surrogate,
      nothing past U+10FFFF. */
  predicate Second(lead: Byte, next: Byte) {
    && (lead == 0xE0 ==> next >= 0xA0) && (lead == 0xED ==> next < 0xA0)
    && (lead == 0xF0 ==> next >= 0x90) && (lead == 0xF4 ==> next < 0x90)
  }

  /** The beginning of a character. */
  predicate Partial(b: seq<Byte>) {
    b != [] && |b| < LeadLength(b[0]) && Tails(b, 1, |b|) && (|b| > 1 ==> Second(b[0], b[1]))
  }

  /** What a stretch of bytes decodes to, and what is held of a character at its end. */
  datatype Scanned = Scanned(text: Text, rest: seq<Byte>) | Bad

  function Scan(bytes: seq<Byte>): Scanned
    decreases |bytes|
  {
    if bytes == [] then Scanned([], [])
    else
      var d := Decode(bytes, 0);
      if d.Decoded? && 0 < d.next <= |bytes| then
        var more := Scan(bytes[d.next..]);
        var cp: CodePoint := d.cp;
        if more.Bad? then Bad else Scanned([cp] + more.text, more.rest)
      else if Partial(bytes) then Scanned([], bytes)
      else Bad
  }

  /** Bytes held, and whether any text has come out. */
  datatype Held = Held(bytes: seq<Byte>, begun: bool)

  const NOTHING := Held([], false)

  datatype Chunked = Chunked(text: Text, held: Held) | Fault

  function Unmarked(begun: bool, text: Text): Text { if !begun && text != [] && text[0] == MARK then text[1..] else text }

  /** One chunk; `stream` says that more may follow. */
  function Chunk(h: Held, bytes: seq<Byte>, stream: bool): Chunked {
    var s := Scan(h.bytes + bytes);
    if s.Bad? || (!stream && s.rest != []) then Fault
    else Chunked(Unmarked(h.begun, s.text), if stream then Held(s.rest, h.begun || s.text != []) else NOTHING)
  }

  // ----- what is held -----

  /** The bytes a beginning can be completed with. */
  function Completed(b: seq<Byte>): seq<Byte>
    requires Partial(b)
  {
    var n := LeadLength(b[0]);
    var b2 := if |b| > 1 then b else b + [if b[0] == 0xE0 then 0xA0 else if b[0] == 0xF0 then 0x90 else 0x80];
    var b3 := if |b2| == n then b2 else if |b2| > 2 then b2 else b2 + [0x80];
    if |b3| == n then b3 else b3 + [0x80]
  }

  lemma CompletedValue(b: seq<Byte>)
    requires Partial(b)
    ensures var c := Completed(b);
      && |c| == LeadLength(b[0]) && c[0] == b[0] && c[..|b|] == b && |b| < |c| <= 4 && Tails(c, 1, |c|)
      && Least(|c|) <= Value(c) && Scalar(Value(c))
  {
  }

  /** The held bytes are exactly the proper beginnings of encoded characters. */
  lemma PartialIff(b: seq<Byte>)
    ensures Partial(b) <==> exists cp: CodePoint :: 0 < |b| < |Encode(cp)| && Encode(cp)[..|b|] == b
  {
    hide Encode, Value;
    if Partial(b) {
      var c := Completed(b);
      CompletedValue(b);
      ValueEncode(c);
      var cp: CodePoint := Value(c);
      assert Encode(cp)[..|b|] == b;
    }
    forall cp: CodePoint | 0 < |b| < |Encode(cp)| && Encode(cp)[..|b|] == b
      ensures Partial(b)
    {
      BeginningIsPartial(cp, b);
    }
  }

  lemma BeginningIsPartial(cp: CodePoint, b: seq<Byte>)
    requires 0 < |b| < |Encode(cp)| && Encode(cp)[..|b|] == b
    ensures Partial(b)
  {
    var e := Encode(cp);
    EncodeValue(cp);
    assert forall k :: 0 <= k < |b| ==> b[k] == e[k];
  }

  // ----- independence from chunking -----

  lemma PartialPrefix(a: seq<Byte>, b: seq<Byte>)
    requires a != [] && Partial(a + b)
    ensures Partial(a)
  {
    assert forall k :: 0 <= k < |a| ==> a[k] == (a + b)[k];
  }

  /** Decoding a character does not look past it. */
  lemma DecodeStays(a: seq<Byte>, b: seq<Byte>)
    requires a != [] && Decode(a, 0).Decoded?
    ensures Decode(a + b, 0) == Decode(a, 0) && 0 < Decode(a, 0).next <= |a|
  {
    hide Decode, Encode;
    DecodeOnlyEncoded(a, 0);
    var d := Decode(a, 0);
    assert (a + b)[0..d.next] == a[0..d.next];
    DecodeEncoded(a + b, 0, d.cp);
  }

  /** And bytes that begin no character begin none however they go on. */
  lemma BadStays(a: seq<Byte>, b: seq<Byte>)
    requires a != [] && Decode(a, 0).Malformed? && !Partial(a)
    ensures Decode(a + b, 0).Malformed? && !Partial(a + b)
  {
    hide Decode, Encode, Partial;
    if Partial(a + b) {
      PartialPrefix(a, b);
    }
    if Decode(a + b, 0).Decoded? {
      DecodeOnlyEncoded(a + b, 0);
      var d := Decode(a + b, 0);
      if d.next <= |a| {
        assert (a + b)[0..d.next] == a[0..d.next];
        DecodeEncoded(a, 0, d.cp);
      } else {
        assert a == Encode(d.cp)[..|a|];
        BeginningIsPartial(d.cp, a);
      }
    }
  }

  lemma ScanOne(bytes: seq<Byte>)
    requires bytes != []
    ensures Scan(bytes) ==
      var d := Decode(bytes, 0);
      if d.Decoded? && 0 < d.next <= |bytes| then
        var more := Scan(bytes[d.next..]);
        if more.Bad? then Bad else Scanned([d.cp] + more.text, more.rest)
      else if Partial(bytes) then Scanned([], bytes)
      else Bad
  {
    hide Decode, Partial;
  }

  lemma ScanNothing()
    ensures Scan([]) == Scanned([], [])
  {
  }

  /** What is held of the first bytes is decoded with the next. */
  lemma {:induction false} ScanAppend(a: seq<Byte>, b: seq<Byte>)
    ensures Scan(a + b) ==
      var s := Scan(a);
      if s.Bad? then Bad
      else var r := Scan(s.rest + b); if r.Bad? then Bad else Scanned(s.text + r.text, r.rest)
    decreases |a|
  {
    hide Scan, Decode, Partial;
    ScanNothing();
    if a == [] {
      assert a + b == b && [] + b == b;
      var r := Scan(b);
      assert r.Scanned? ==> [] + r.text == r.text;
    } else {
      ScanOne(a);
      ScanOne(a + b);
      if Decode(a, 0).Decoded? {
        DecodeStays(a, b);
        var n := Decode(a, 0).next;
        assert (a + b)[n..] == a[n..] + b;
        ScanAppend(a[n..], b);
        var s := Scan(a[n..]);
        if s.Scanned? {
          var r := Scan(s.rest + b);
          assert r.Scanned? ==> [Decode(a, 0).cp] + (s.text + r.text) == [Decode(a, 0).cp] + s.text + r.text;
        }
      } else if Partial(a) {
        var r := Scan(a + b);
        assert r.Scanned? ==> [] + r.text == r.text;
      } else {
        BadStays(a, b);
      }
    }
  }

  /** Encoded text decodes to itself, and what follows it as it would alone. */
  lemma {:induction false} ScanEncoded(t: Text, rest: seq<Byte>)
    ensures Scan(EncodeAll(t) + rest) ==
      var r := Scan(rest);
      if r.Bad? then Bad else Scanned(t + r.text, r.rest)
    decreases |t|
  {
    hide Scan, Decode, Encode, Partial, EncodeAll;
    EncodeAllFirst(t);
    var r := Scan(rest);
    if t == [] {
      assert [] + rest == rest;
      assert r.Scanned? ==> [] + r.text == r.text;
    } else {
      var e, bytes := Encode(t[0]), EncodeAll(t) + rest;
      assert bytes[0..|e|] == e && bytes[|e|..] == EncodeAll(t[1..]) + rest;
      DecodeEncoded(bytes, 0, t[0]);
      ScanOne(bytes);
      ScanEncoded(t[1..], rest);
      assert r.Scanned? ==> [t[0]] + (t[1..] + r.text) == t + r.text;
    }
  }

  lemma EncodeAllFirst(t: Text)
    ensures t == [] ==> EncodeAll(t) == []
    ensures t != [] ==> EncodeAll(t) == Encode(t[0]) + EncodeAll(t[1..])
  {
  }

  lemma ChunkAppend(h: Held, a: seq<Byte>, b: seq<Byte>, stream: bool)
    ensures Chunk(h, a + b, stream) ==
      var x := Chunk(h, a, true);
      if x.Fault? then Fault
      else var y := Chunk(x.held, b, stream); if y.Fault? then Fault else Chunked(x.text + y.text, y.held)
  {
    hide Scan;
    ScanAppend(h.bytes + a, b);
    assert h.bytes + (a + b) == h.bytes + a + b;
    var s := Scan(h.bytes + a);
    if s.Scanned? {
      var r := Scan(s.rest + b);
      if r.Scanned? {
        assert Unmarked(h.begun, s.text + r.text) == Unmarked(h.begun, s.text) + Unmarked(h.begun || s.text != [], r.text);
      }
    }
  }

  /** Chunk after chunk, the last one final or not. */
  function Chunks(h: Held, pieces: seq<seq<Byte>>, final: bool): Chunked
    decreases |pieces|
  {
    if pieces == [] then Chunked([], h)
    else
      var x := Chunk(h, pieces[0], !(final && |pieces| == 1));
      if x.Fault? then Fault
      else var y := Chunks(x.held, pieces[1..], final); if y.Fault? then Fault else Chunked(x.text + y.text, y.held)
  }

  function Flatten(pieces: seq<seq<Byte>>): seq<Byte> {
    if pieces == [] then [] else pieces[0] + Flatten(pieces[1..])
  }

  lemma OneChunk(h: Held, bytes: seq<Byte>, final: bool)
    ensures Chunks(h, [bytes], final) == Chunk(h, bytes, !final)
  {
    hide Scan;
    var x := Chunk(h, bytes, !final);
    assert [bytes][1..] == [];
    assert x.Chunked? ==> x.text + [] == x.text;
  }

  /** However a stream's bytes are chunked, in the middle of characters or not, its text is the
      same and so is the failure to decode it. */
  lemma {:induction false} ChunkingIndependence(h: Held, pieces: seq<seq<Byte>>, final: bool)
    requires pieces != []
    ensures Chunks(h, pieces, final) == Chunks(h, [Flatten(pieces)], final)
    decreases |pieces|
  {
    hide Chunk;
    OneChunk(h, Flatten(pieces), final);
    if |pieces| == 1 {
      assert pieces[1..] == [] && pieces[0] + [] == pieces[0];
      assert pieces == [pieces[0]];
    } else {
      ChunkAppend(h, pieces[0], Flatten(pieces[1..]), !final);
      var x := Chunk(h, pieces[0], true);
      if x.Chunked? {
        ChunkingIndependence(x.held, pieces[1..], final);
        OneChunk(x.held, Flatten(pieces[1..]), final);
      }
    }
  }

  // ----- what a stream says -----

  /** The beginning of an encoded character, without its end. */
  ghost predicate Unended(b: seq<Byte>) { exists cp: CodePoint :: 0 < |b| < |Encode(cp)| && Encode(cp)[..|b|] == b }

  /** The bytes are the text t, and the beginning of one more character if anything. */
  ghost predicate Reads(bytes: seq<Byte>, t: Text, rest: seq<Byte>) { bytes == EncodeAll(t) + rest && (rest == [] || Unended(rest)) }

  lemma ScanRest(rest: seq<Byte>)
    requires rest == [] || Unended(rest)
    ensures Scan(rest) == Scanned([], rest)
  {
    hide Decode, Encode, Partial, Scan;
    ScanNothing();
    if rest != [] {
      PartialIff(rest);
      ScanOne(rest);
      if Decode(rest, 0).Decoded? {
        PartialDecodesNot(rest);
      }
    }
  }

  lemma PartialDecodesNot(b: seq<Byte>)
    requires Partial(b)
    ensures Decode(b, 0).Malformed?
  {
  }

  /** The scan reads bytes the one way they can be read, if there is one. */
  lemma {:induction false} ScanReads(bytes: seq<Byte>)
    ensures Scan(bytes).Scanned? ==> Reads(bytes, Scan(bytes).text, Scan(bytes).rest)
    decreases |bytes|
  {
    hide Scan, Decode, Encode, Partial, EncodeAll;
    EncodeAllFirst([]);
    if bytes == [] {
      ScanNothing();
      assert EncodeAll([]) + [] == [];
    } else {
      ScanOne(bytes);
      var d := Decode(bytes, 0);
      if d.Decoded? && 0 < d.next <= |bytes| {
        var more := Scan(bytes[d.next..]);
        ScanReads(bytes[d.next..]);
        if more.Scanned? {
          DecodeOnlyEncoded(bytes, 0);
          var t := [d.cp as CodePoint] + more.text;
          EncodeAllFirst(t);
          assert t[0] == d.cp && t[1..] == more.text;
          assert bytes == bytes[0..d.next] + bytes[d.next..];
        }
      } else if Partial(bytes) {
        PartialIff(bytes);
        assert EncodeAll([]) + bytes == bytes;
      }
    }
  }

  /** A whole stream, however it is chunked: bytes that encode a text give that text without one
      byte order mark in front, and any others fail. */
  lemma StreamSays(pieces: seq<seq<Byte>>)
    requires pieces != []
    ensures var r := Chunks(NOTHING, pieces, true);
      && (forall t :: Flatten(pieces) == EncodeAll(t) ==> r == Chunked(if t != [] && t[0] == 0xFEFF then t[1..] else t, NOTHING))
      && (r.Fault? <==> !exists t :: Flatten(pieces) == EncodeAll(t))
  {
    hide Scan, Flatten, EncodeAll, Chunks;
    var bytes := Flatten(pieces);
    ChunkingIndependence(NOTHING, pieces, true);
    OneChunk(NOTHING, bytes, true);
    assert [] + bytes == bytes;
    forall t | bytes == EncodeAll(t)
      ensures Chunk(NOTHING, bytes, false) == Chunked(if t != [] && t[0] == 0xFEFF then t[1..] else t, NOTHING)
    {
      ScanEncoded(t, []);
      ScanNothing();
      assert EncodeAll(t) + [] == bytes && t + [] == t;
    }
    ScanReads(bytes);
    if Chunk(NOTHING, bytes, false).Chunked? {
      assert EncodeAll(Scan(bytes).text) + [] == EncodeAll(Scan(bytes).text);
    }
  }

  /** A stream that goes on: what its bytes say so far, the beginning of one more character held
      back; and a failure as soon as they can say nothing. */
  lemma StreamSaysSoFar(pieces: seq<seq<Byte>>)
    requires pieces != []
    ensures var r := Chunks(NOTHING, pieces, false);
      && (forall t, rest :: Reads(Flatten(pieces), t, rest) ==>
            r == Chunked(if t != [] && t[0] == 0xFEFF then t[1..] else t, Held(rest, t != [])))
      && (r.Fault? <==> !exists t, rest :: Reads(Flatten(pieces), t, rest))
  {
    hide Scan, Flatten, EncodeAll, Chunks, Unended;
    var bytes := Flatten(pieces);
    ChunkingIndependence(NOTHING, pieces, false);
    OneChunk(NOTHING, bytes, false);
    assert [] + bytes == bytes;
    forall t, rest | Reads(bytes, t, rest)
      ensures Chunk(NOTHING, bytes, true) == Chunked(if t != [] && t[0] == 0xFEFF then t[1..] else t, Held(rest, t != []))
    {
      ScanEncoded(t, rest);
      ScanRest(rest);
      assert t + [] == t;
    }
    ScanReads(bytes);
  }
}
