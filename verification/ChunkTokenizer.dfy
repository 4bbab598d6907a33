/** The adapter of packages/quixi-embed/src/chunking.ts between the tokenizer's offsets
    and the chunker, and the two together. */
module ChunkTokenizer {
  import opened Common
  import opened Utf16
  import opened Utf8
  import opened JsonText
  import opened UnicodeTables
  import opened WordPiece
  import opened TokenMachine
  import opened Tokenizer
  import opened TokenSpans
  import C = Chunker
  import G = ChunkGeometry

  const CAPACITY := 16384

  /** Every mapping of the frozen normalization yields at most three scalars. */
  ghost predicate AtMostThree(lang: Language) {
    forall cp: CodePoint :: Mapped(lang, cp).Some? ==> |Mapped(lang, cp).value| <= 3
  }

  // ----- text to bytes -----

  /** The encoded text takes at most three bytes a unit. */
  lemma {:induction false} EncodedSize(text: seq<Unit>)
    ensures |EncodeAll(Scalars(text))| <= 3 * |text|
    decreases |text|
  {
    hide EncodeAll;
    if text == [] {
      EncodeAllOne([]);
    } else {
      var n := CharLength(text, 0);
      EncodeAllOne(Scalars(text));
      EncodedSize(text[n..]);
      assert Scalars(text)[1..] == Scalars(text[n..]);
    }
  }

  lemma EncodeAllOne(cps: seq<CodePoint>)
    ensures cps == [] ==> EncodeAll(cps) == []
    ensures cps != [] ==> EncodeAll(cps) == Encode(cps[0]) + EncodeAll(cps[1..])
  {
  }

  /** The units of the encoded text are the units of the string, so every boundary of
      the bytes lies within the string. */
  lemma {:induction false} UnitsKept(text: seq<Unit>, bytes: seq<Byte>, from: nat, fromUnits: nat, at: nat, units: nat)
    requires from <= |bytes| && bytes[from..] == EncodeAll(Scalars(text))
    requires Reaches(bytes, from, fromUnits, at, units)
    ensures units <= fromUnits + |text|
    decreases |text|
  {
    hide Encode, EncodeAll, Decode;
    EncodeAllOne(Scalars(text));
    if text != [] && !(from == at && fromUnits == units) {
      var cps := Scalars(text);
      var n := CharLength(text, 0);
      var e := Encode(cps[0]);
      Slice(bytes, from, |bytes|, 0, |e|);
      Slice(bytes, from, |bytes|, |e|, |bytes| - from);
      assert bytes[from..][0..|e|] == e;
      DecodeEncoded(bytes, from, cps[0]);
      assert bytes[from..][|e|..] == EncodeAll(cps[1..]);
      assert cps[1..] == Scalars(text[n..]);
      UnitsKept(text[n..], bytes, from + |e|, fromUnits + Units(cps[0]), at, units);
    }
  }

  // ----- the adapter -----

  function Filtered(ts: seq<Token>, previous: nat): seq<C.Span>
    decreases |ts|
  {
    if ts == [] then []
    else
      var start := Max(previous, ts[0].span.unitStart);
      if ts[0].origin != Source || ts[0].span.unitEnd <= start then Filtered(ts[1..], previous)
      else [C.Span(start, ts[0].span.unitEnd)] + Filtered(ts[1..], start)
  }

  /** The loop of `offsets`: starts made monotone, empty spans dropped. */
  method Filter(ts: seq<Token>) returns (spans: seq<C.Span>)
    ensures spans == Filtered(ts, 0)
  {
    spans := [];
    var previous := 0;
    var index := 0;
    while index < |ts|
      invariant 0 <= index <= |ts| && 0 <= previous
      invariant Filtered(ts, 0) == spans + Filtered(ts[index..], previous)
    {
      var t := ts[index];
      assert ts[index..][1..] == ts[index + 1..];
      if t.origin == Source {
        var start := Max(previous, t.span.unitStart);
        if t.span.unitEnd > start {
          assert spans + ([C.Span(start, t.span.unitEnd)] + Filtered(ts[index + 1..], start)) ==
                 spans + [C.Span(start, t.span.unitEnd)] + Filtered(ts[index + 1..], start);
          spans := spans + [C.Span(start, t.span.unitEnd)];
          previous := start;
        }
      }
      index := index + 1;
    }
    assert ts[index..] == [];
  }

  /** What the adapter hands the chunker: the filtered spans, or an error when the text
      or its token count is too large or the tokenizer fails. */
  function Offsets(lang: Language, text: seq<Unit>): Option<seq<C.Span>> {
    var bytes := EncodeAll(Scalars(text));
    if |bytes| > MAX_TEXT_BYTES then None
    else
      var ts := FullTokens(lang, Document, bytes);
      if ts.None? || |ts.value| > CAPACITY then None else Some(Filtered(ts.value, 0))
  }

  /** The source tokens' own unit ranges. */
  function UnitSpans(ts: seq<Token>): (r: seq<C.Span>)
    ensures |r| == |ts| && forall k :: 0 <= k < |ts| ==> r[k] == C.Span(ts[k].span.unitStart, ts[k].span.unitEnd)
  {
    seq(|ts|, k requires 0 <= k < |ts| => C.Span(ts[k].span.unitStart, ts[k].span.unitEnd))
  }

  ghost predicate Plain(ts: seq<Token>, previous: nat) {
    && (forall k :: 0 <= k < |ts| ==> ts[k].origin == Source && previous <= ts[k].span.unitStart < ts[k].span.unitEnd)
    && (forall i, j :: 0 <= i < j < |ts| ==> ts[i].span.unitStart <= ts[j].span.unitStart)
  }

  lemma FilteredOne(ts: seq<Token>, previous: nat)
    ensures Filtered(ts, previous) ==
      if ts == [] then []
      else
        var start := Max(previous, ts[0].span.unitStart);
        if ts[0].origin != Source || ts[0].span.unitEnd <= start then Filtered(ts[1..], previous)
        else [C.Span(start, ts[0].span.unitEnd)] + Filtered(ts[1..], start)
  {
  }

  /** On the tokenizer's own output the filter changes nothing and drops nothing. */
  lemma {:induction false} FilterIsIdentity(ts: seq<Token>, tail: seq<Token>, previous: nat)
    requires Plain(ts, previous) && forall k :: 0 <= k < |tail| ==> tail[k].origin != Source
    ensures Filtered(ts + tail, previous) == UnitSpans(ts)
    decreases |ts| + |tail|
  {
    hide Filtered;
    FilteredOne(ts + tail, previous);
    if ts == [] {
      assert ts + tail == tail;
      if tail != [] {
        assert [] + tail[1..] == tail[1..];
        FilterIsIdentity([], tail[1..], previous);
      }
    } else {
      assert (ts + tail)[1..] == ts[1..] + tail;
      FilterIsIdentity(ts[1..], tail, ts[0].span.unitStart);
      assert UnitSpans(ts) == [C.Span(ts[0].span.unitStart, ts[0].span.unitEnd)] + UnitSpans(ts[1..]);
    }
  }

  /** The tokens between the framing ones: source tokens, in order, inside the text. */
  lemma SourceTokens(lang: Language, text: seq<Unit>)
    requires FullTokens(lang, Document, EncodeAll(Scalars(text))).Some?
    ensures var ts := FullTokens(lang, Document, EncodeAll(Scalars(text))).value;
      && |ts| >= 2 && ts[0].origin != Source && ts[|ts| - 1].origin != Source
      && Plain(ts[1..|ts| - 1], 0)
      && forall k :: 0 < k < |ts| - 1 ==> ts[k].span.unitEnd <= |text|
  {
    hide EncodeAll, FullTokens, Reaches;
    var bytes := EncodeAll(Scalars(text));
    var ts := FullTokens(lang, Document, bytes).value;
    DocumentOffsets(lang, bytes);
    forall k | 0 < k < |ts| - 1
      ensures ts[k].span.unitEnd <= |text|
    {
      assert bytes[0..] == bytes;
      UnitsKept(text, bytes, 0, 0, ts[k].span.byteEnd, ts[k].span.unitEnd);
    }
    var source := ts[1..|ts| - 1];
    forall i, j | 0 <= i < j < |source|
      ensures source[i].span.unitStart <= source[j].span.unitStart
    {
      assert NotBefore(ts[i + 1].span, ts[j + 1].span);
    }
  }

  /** Whatever the tokenizer can tokenize, the chunker's checks accept: all source
      tokens, in order, nonempty, inside the text. */
  lemma OffsetsAccepted(lang: Language, text: seq<Unit>)
    requires Offsets(lang, text).Some?
    ensures |FullTokens(lang, Document, EncodeAll(Scalars(text))).value| >= 2
    ensures var spans := Offsets(lang, text).value;
      var ts := FullTokens(lang, Document, EncodeAll(Scalars(text))).value;
      spans == UnitSpans(ts[1..|ts| - 1]) && |spans| <= C.MAX_OFFSETS && C.SpansOrdered(spans, |text|, 0)
  {
    hide EncodeAll, FullTokens, Filtered;
    SourceTokens(lang, text);
    var ts := FullTokens(lang, Document, EncodeAll(Scalars(text))).value;
    var source := ts[1..|ts| - 1];
    assert ts == [ts[0]] + source + [ts[|ts| - 1]];
    SkipFirst(ts, source + [ts[|ts| - 1]]);
    FilterIsIdentity(source, [ts[|ts| - 1]], 0);
  }

  lemma SkipFirst(ts: seq<Token>, rest: seq<Token>)
    requires ts != [] && ts[0].origin != Source && ts[1..] == rest
    ensures Filtered(ts, 0) == Filtered(rest, 0)
  {
  }

  // ----- when the adapter succeeds -----

  /** With decodable mappings, exactly the well-formed texts have items, at most three
      for each scalar. */
  lemma {:induction false} ItemsExist(lang: Language, bytes: seq<Byte>, at: nat, units: nat)
    requires Decodable(lang) && AtMostThree(lang) && at <= |bytes| && DecodeAll(bytes, at).Some?
    ensures Items(lang, bytes, at, units).Some?
    ensures |Items(lang, bytes, at, units).value| <= 3 * |DecodeAll(bytes, at).value|
    decreases |bytes| - at
  {
    hide Items, DecodeAll, Decode, Mapped, SpecialAt, Covers, Reads;
    ItemsOne(lang, bytes, at, units);
    DecodeAllOne(bytes, at);
    if at < |bytes| {
      var special := SpecialAt(bytes, at, 0);
      if special.Some? {
        SpecialAscii(bytes, at, special.value);
        SpecialLengths(special.value);
        AsciiDecodes(bytes, at, |SPECIALS[special.value].0|);
      } else {
        assert Mapped(lang, Decode(bytes, at).cp).Some?;
      }
      var r := ReadItem(lang, bytes, at, units);
      ItemsExist(lang, bytes, r.next, r.units);
    }
  }

  lemma {:induction false} AsciiDecodes(bytes: seq<Byte>, at: nat, n: nat)
    requires at + n <= |bytes| && (forall k :: at <= k < at + n ==> bytes[k] < 0x80) && DecodeAll(bytes, at).Some?
    ensures DecodeAll(bytes, at + n).Some? && |DecodeAll(bytes, at).value| == n + |DecodeAll(bytes, at + n).value|
    decreases n
  {
    hide DecodeAll;
    if n > 0 {
      DecodeAllOne(bytes, at);
      assert Decode(bytes, at) == Decoded(bytes[at], at + 1);
      AsciiDecodes(bytes, at + 1, n - 1);
    }
  }

  /** Three tokens a scalar, and two for framing: windows of up to 5460 units fit. */
  lemma OffsetsExist(lang: Language, text: seq<Unit>)
    requires Decodable(lang) && AtMostThree(lang)
    ensures var ts := FullTokens(lang, Document, EncodeAll(Scalars(text)));
      ts.Some? && |ts.value| <= 3 * |Scalars(text)| + 2
    ensures 3 * |text| + 2 <= 16384 ==> Offsets(lang, text).Some?
  {
    hide EncodeAll, FullTokens, Items, Decodable, AtMostThree, Tokens;
    var cps := Scalars(text);
    var bytes := EncodeAll(cps);
    assert bytes[0..] == bytes;
    DecodeAllEncoded(bytes, 0, cps);
    ItemsExist(lang, bytes, 0, 0);
    DocumentTokens(lang, bytes);
    TokensBounded(lang, Items(lang, bytes, 0, 0).value, Source);
    EncodedSize(text);
  }

  function AsTokenizer(lang: Language): C.Tokenizer { (text: seq<Unit>) => Offsets(lang, text) }

  /** The chunker with this tokenizer, for windows of up to 5460 units: the one way it
      can fail is a token budget that allows no safe cut. */
  lemma {:induction false} TokenChunking(lang: Language, p: C.Policy, rest: seq<Unit>, offset: nat, index: nat)
    requires Decodable(lang) && AtMostThree(lang)
    requires C.ValidPolicy(p) && p.tokenizer == Some(AsTokenizer(lang)) && 3 * p.max + 2 <= 16384
    requires offset + |rest| <= C.MAX_SAFE_INTEGER
    ensures C.Chunks(p, rest, offset, index).fault in {None, Some(C.TokenBudget)}
    decreases |rest|
  {
    hide C.Next, C.Chunks, Decodable, AtMostThree;
    C.ChunksOne(p, rest, offset, index);
    if rest != [] {
      var w := C.Window(p, rest);
      TokenStep(lang, p, w, offset);
      var s := C.Next(p, w, offset);
      if s.Step? {
        TokenChunking(lang, p, rest[s.advance..], offset + s.advance, index + 1);
      }
    }
  }

  lemma TokenStep(lang: Language, p: C.Policy, w: seq<Unit>, offset: nat)
    requires Decodable(lang) && AtMostThree(lang) && w != []
    requires C.ValidPolicy(p) && p.tokenizer == Some(AsTokenizer(lang)) && 3 * p.max + 2 <= CAPACITY
    requires offset + |w| <= C.MAX_SAFE_INTEGER
    ensures C.Next(p, w, offset).StepFault? ==> C.Next(p, w, offset).fault == C.TokenBudget
  {
    hide Decodable, AtMostThree, Offsets, C.SpansOrdered, C.Next;
    var limit := SafeEnd(w, Min(p.max, |w|));
    OffsetsExist(lang, w[..limit]);
    OffsetsAccepted(lang, w[..limit]);
    assert |w[..limit]| == limit;
    G.StepFaultKind(p, w, offset);
  }

  // ----- beyond the capacity -----

  const IDEOGRAPH: CodePoint := 0x4E00
  const HANGUL: CodePoint := 0xAC00

  function Ideographs(k: nat): (r: seq<CodePoint>)
    ensures |r| == k && forall i :: 0 <= i < k ==> r[i] == IDEOGRAPH
  {
    seq(k, _ => IDEOGRAPH)
  }

  /** A three-byte scalar that normalizes to `k` ideographs. */
  predicate Yields(lang: Language, u: CodePoint, k: nat) {
    0x800 <= u < 0xD800 && !Covers(lang.deletion, u) && Mapped(lang, u) == Some(Ideographs(k))
  }

  function Repeated(u: CodePoint, n: nat): (t: seq<Unit>)
    requires u < 0xD800
    ensures |t| == n && forall k :: 0 <= k < n ==> t[k] == u
  {
    seq(n, _ => u)
  }

  lemma {:induction false} RepeatedScalars(u: CodePoint, n: nat)
    requires u < 0xD800
    ensures Scalars(Repeated(u, n)) == seq(n, _ => u)
    decreases n
  {
    if n > 0 {
      assert Repeated(u, n)[1..] == Repeated(u, n - 1);
      RepeatedScalars(u, n - 1);
    }
  }

  predicate OnlyIdeographs(items: seq<Item>) { forall k :: 0 <= k < |items| ==> items[k].Letter? && items[k].letter.cp == IDEOGRAPH }

  lemma {:induction false} LettersAre(cps: seq<CodePoint>, span: Span)
    requires forall k :: 0 <= k < |cps| ==> cps[k] == IDEOGRAPH
    ensures OnlyIdeographs(Letters(cps, span))
    decreases |cps|
  {
    LettersOne(cps, span);
    if cps != [] {
      LettersAre(cps[1..], span);
    }
  }

  lemma LongLead(u: CodePoint)
    requires 0x800 <= u < 0xD800
    ensures |Encode(u)| == 3 && Encode(u)[0] >= 0xE0
  {
  }

  /** One such scalar contributes `k` ideographs. */
  lemma ReadRepeated(lang: Language, bytes: seq<Byte>, at: nat, units: nat, u: CodePoint, k: nat)
    requires Yields(lang, u, k) && at + 3 <= |bytes| && bytes[at..at + 3] == Encode(u)
    ensures var r := ReadItem(lang, bytes, at, units);
      r.Piecewise? && r.next == at + 3 && |r.items| == k && OnlyIdeographs(r.items)
  {
    hide Encode, Decode, Covers, SpecialAt, Mapped, Letters, OnlyIdeographs;
    LongLead(u);
    DecodeEncoded(bytes, at, u);
    assert bytes[at] == bytes[at..at + 3][0];
    NoSpecial(bytes, at, 0);
    LettersAre(Ideographs(k), Span(at, at + 3, units, units + Units(u)));
  }

  lemma OnlyMore(a: seq<Item>, b: seq<Item>)
    requires OnlyIdeographs(a) && OnlyIdeographs(b)
    ensures OnlyIdeographs(a + b)
  {
  }

  lemma {:induction false} RepeatedItems(lang: Language, bytes: seq<Byte>, at: nat, units: nat, u: CodePoint, k: nat, n: nat)
    requires Yields(lang, u, k) && at <= |bytes| && bytes[at..] == EncodeAll(seq(n, _ => u))
    ensures var items := Items(lang, bytes, at, units);
      items.Some? && |items.value| == k * n && OnlyIdeographs(items.value)
    decreases n
  {
    hide Items, EncodeAll, Encode, ReadItem, OnlyIdeographs;
    var cps := seq(n, _ => u);
    ItemsOne(lang, bytes, at, units);
    EncodeAllOne(cps);
    if n > 0 {
      LongLead(u);
      Slice(bytes, at, |bytes|, 0, 3);
      Slice(bytes, at, |bytes|, 3, |bytes| - at);
      assert cps[1..] == seq(n - 1, _ => u);
      assert bytes[at..][0..3] == Encode(u) && bytes[at..][3..] == EncodeAll(cps[1..]);
      ReadRepeated(lang, bytes, at, units, u, k);
      var r := ReadItem(lang, bytes, at, units);
      RepeatedItems(lang, bytes, r.next, r.units, u, k, n - 1);
      OnlyMore(r.items, Items(lang, bytes, r.next, r.units).value);
      assert k * n == k + k * (n - 1);
    } else {
      NothingOnly();
    }
  }

  lemma NothingOnly()
    ensures OnlyIdeographs([])
  {
  }

  lemma {:induction false} IdeographTokens(lang: Language, items: seq<Item>)
    requires OnlyIdeographs(items)
    ensures |Tokens(lang, items, Source)| == |items|
    decreases |items|
  {
    hide Tokens, Pieces, Run;
    if items == [] {
      NoTokens(lang, Source);
    } else {
      TokensOne(lang, items, Source);
      OneLetter(lang, items[0].letter);
      IdeographTokens(lang, items[1..]);
    }
  }

  /** A word of one letter is one token, known or not. */
  lemma OneLetter(lang: Language, c: Char)
    ensures |Pieces(lang, [c], Source)| == 1
  {
    hide Greedy;
    var w := Cps([c]);
    if Greedy(lang.lines, w, 0).Some? {
      GreedyCovers(lang.lines, w, 0);
    }
  }

  /** Repeated scalars fit the adapter exactly while their tokens and the framing ones do. */
  lemma RepeatedOffsets(lang: Language, u: CodePoint, k: nat, n: nat)
    requires Yields(lang, u, k) && 3 * n <= MAX_TEXT_BYTES
    ensures Offsets(lang, Repeated(u, n)).Some? <==> k * n + 2 <= 16384
  {
    hide FullTokens, Items, EncodeAll, Tokens, Mapped, Filtered;
    RepeatedScalars(u, n);
    EncodedSize(Repeated(u, n));
    var bytes := EncodeAll(Scalars(Repeated(u, n)));
    assert bytes[0..] == bytes;
    RepeatedItems(lang, bytes, 0, 0, u, k, n);
    DocumentTokens(lang, bytes);
    IdeographTokens(lang, Items(lang, bytes, 0, 0).value);
  }

  /** Normalization that turns one syllable into three ideographs and keeps all else. */
  const TRIPLING: Language := Language([], [], [Entry(HANGUL, 0, 9)], [], EncodeAll(Ideographs(3)))

  lemma TriplingMaps()
    ensures Decodable(TRIPLING) && AtMostThree(TRIPLING) && Yields(TRIPLING, HANGUL, 3)
  {
    hide EncodeAll, Encode, DecodeAll;
    var pool := EncodeAll(Ideographs(3));
    PoolSize();
    assert pool[0..9] == pool && pool[0..] == pool;
    DecodeAllEncoded(pool, 0, Ideographs(3));
    assert FindEntry(TRIPLING.mapping, HANGUL) == Some(Entry(HANGUL, 0, 9));
    forall cp: CodePoint
      ensures Mapped(TRIPLING, cp) == Some(if cp == HANGUL then Ideographs(3) else [cp])
    {
    }
  }

  lemma PoolSize()
    ensures |EncodeAll(Ideographs(3))| == 9
  {
    hide Encode;
    LongLead(IDEOGRAPH);
    EncodeAllOne(Ideographs(3));
    EncodeAllOne(Ideographs(3)[1..]);
    EncodeAllOne(Ideographs(3)[1..][1..]);
    EncodeAllOne(Ideographs(3)[1..][1..][1..]);
  }

  /** 16,384 records suffice for every window of up to `m` units, whatever the normalization
      that expands a scalar into at most three, exactly when `3 * m + 2` is no more than that:
      up to 5,460 units. */
  lemma CapacityExactly(m: nat)
    ensures (forall lang, text :: Decodable(lang) && AtMostThree(lang) && |text| <= m ==> Offsets(lang, text).Some?) <==> 3 * m + 2 <= 16384
  {
    hide Offsets, Decodable, AtMostThree, Yields;
    if 3 * m + 2 <= CAPACITY {
      forall lang, text | Decodable(lang) && AtMostThree(lang) && |text| <= m
        ensures Offsets(lang, text).Some?
      {
        OffsetsExist(lang, text);
      }
    } else {
      TriplingMaps();
      RepeatedOffsets(TRIPLING, HANGUL, 3, 5461);
      assert |Repeated(HANGUL, 5461)| <= m;
    }
  }

  function WithTokenizer(p: C.Policy, lang: Language): C.Policy { p.(tokenizer := Some(AsTokenizer(lang))) }

  lemma StaysValid(p: C.Policy, lang: Language)
    requires C.ValidPolicy(p) && 1 <= p.maxTokens <= 65536
    ensures C.ValidPolicy(WithTokenizer(p, lang)) && WithTokenizer(p, lang).max == p.max
  {
  }

  /** The policies under which chunking with this tokenizer can fail for its token budget
      only, whatever the source, are those with windows of up to 5,460 units; the default of
      4,096 is among them and the admissible 65,536 is not. */
  lemma TokenChunkingExactly(p: C.Policy)
    requires C.ValidPolicy(p) && 1 <= p.maxTokens <= 65536
    ensures forall lang :: C.ValidPolicy(WithTokenizer(p, lang))
    ensures (forall lang, rest :: Decodable(lang) && AtMostThree(lang) && |rest| <= C.MAX_SAFE_INTEGER ==>
                                    C.Chunks(WithTokenizer(p, lang), rest, 0, 0).fault in {None, Some(C.TokenBudget)}) <==> 3 * p.max + 2 <= 16384
  {
    hide Offsets, Decodable, AtMostThree, Yields, C.Next, C.Chunks, WithTokenizer;
    forall lang ensures C.ValidPolicy(WithTokenizer(p, lang)) {
      StaysValid(p, lang);
    }
    if 3 * p.max + 2 <= CAPACITY {
      forall lang, rest | Decodable(lang) && AtMostThree(lang) && |rest| <= C.MAX_SAFE_INTEGER
        ensures C.Chunks(WithTokenizer(p, lang), rest, 0, 0).fault in {None, Some(C.TokenBudget)}
      {
        StaysValid(p, lang);
        HasTokenizer(p, lang);
        TokenChunking(lang, WithTokenizer(p, lang), rest, 0, 0);
      }
    } else {
      TriplingMaps();
      StaysValid(p, TRIPLING);
      LongWindowFails(p);
      assert |Repeated(HANGUL, p.max)| <= C.MAX_SAFE_INTEGER;
    }
  }

  lemma HasTokenizer(p: C.Policy, lang: Language)
    ensures WithTokenizer(p, lang).tokenizer == Some(AsTokenizer(lang))
  {
  }

  /** A source of one long window that the adapter refuses. */
  lemma LongWindowFails(p: C.Policy)
    requires C.ValidPolicy(WithTokenizer(p, TRIPLING)) && 3 * p.max + 2 > CAPACITY
    ensures C.Chunks(WithTokenizer(p, TRIPLING), Repeated(HANGUL, p.max), 0, 0).fault == Some(C.TokenizerFailed)
  {
    hide Offsets, Yields;
    var q, rest := WithTokenizer(p, TRIPLING), Repeated(HANGUL, p.max);
    TriplingMaps();
    RepeatedOffsets(TRIPLING, HANGUL, 3, p.max);
    assert C.Window(q, rest) == rest && rest[..p.max] == rest;
    assert q.tokenizer.value(rest).None?;
    assert SafeEnd(rest, p.max) == p.max;
    C.ChunksOne(q, rest, 0, 0);
  }
}
