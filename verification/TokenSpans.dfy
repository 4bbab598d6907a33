/** Token offsets of packages/quixi-embed/native/tokenizer.c: every source token names
    one nonempty stretch of the input, the same in bytes and in UTF-16 units. */
module TokenSpans {
  import opened Common
  import opened Utf8
  import opened UnicodeTables
  import opened WordPiece
  import opened TokenMachine
  import opened Tokenizer

  /** Decoding whole scalars from one position, and its unit count, reaches another. */
  ghost predicate Reaches(text: seq<Byte>, from: nat, fromUnits: nat, at: nat, units: nat)
    decreases |text| - from
  {
    (from == at && fromUnits == units) ||
    (from < |text| && Decode(text, from).Decoded? && from < Decode(text, from).next <= |text| &&
     Reaches(text, Decode(text, from).next, fromUnits + Units(Decode(text, from).cp), at, units))
  }

  /** The byte and the unit are the same boundary of the text. */
  ghost predicate Boundary(text: seq<Byte>, at: nat, units: nat) { Reaches(text, 0, 0, at, units) }

  ghost predicate NamesStretch(text: seq<Byte>, s: Span) {
    && s.byteStart < s.byteEnd <= |text| && s.unitStart < s.unitEnd
    && Boundary(text, s.byteStart, s.unitStart) && Boundary(text, s.byteEnd, s.unitEnd)
  }

  predicate NotBefore(a: Span, b: Span) {
    a.byteStart <= b.byteStart && a.byteEnd <= b.byteEnd && a.unitStart <= b.unitStart && a.unitEnd <= b.unitEnd
  }

  /** Starts never decrease, and ends never decrease. */
  ghost predicate Rising(spans: seq<Span>) { forall i, j :: 0 <= i < j < |spans| ==> NotBefore(spans[i], spans[j]) }

  ghost predicate Between(spans: seq<Span>, lo: Span, hi: Span) {
    forall i :: 0 <= i < |spans| ==> NotBefore(lo, spans[i]) && NotBefore(spans[i], hi)
  }

  function ItemSpan(item: Item): Span { if item.Special? then item.span else item.letter.span }

  function ItemSpans(items: seq<Item>): (r: seq<Span>)
    ensures |r| == |items| && forall k :: 0 <= k < |items| ==> r[k] == ItemSpan(items[k])
  {
    seq(|items|, k requires 0 <= k < |items| => ItemSpan(items[k]))
  }

  function TokenSpans(ts: seq<Token>): (r: seq<Span>)
    ensures |r| == |ts| && forall k :: 0 <= k < |ts| ==> r[k] == ts[k].span
  {
    seq(|ts|, k requires 0 <= k < |ts| => ts[k].span)
  }

  // ----- items -----

  lemma {:induction false} ReachesTransitive(text: seq<Byte>, a: nat, au: nat, b: nat, bu: nat, c: nat, cu: nat)
    requires Reaches(text, a, au, b, bu) && Reaches(text, b, bu, c, cu)
    ensures Reaches(text, a, au, c, cu)
    decreases |text| - a
  {
    hide Decode;
    if !(a == b && au == bu) {
      var d := Decode(text, a);
      ReachesTransitive(text, d.next, au + Units(d.cp), b, bu, c, cu);
    }
  }

  /** Plain ASCII bytes are one scalar and one unit each. */
  lemma {:induction false} AsciiReaches(text: seq<Byte>, at: nat, units: nat, n: nat)
    requires at + n <= |text| && forall k :: at <= k < at + n ==> text[k] < 0x80
    ensures Reaches(text, at, units, at + n, units + n)
    decreases n
  {
    if n > 0 {
      AsciiReaches(text, at + 1, units + 1, n - 1);
      assert Decode(text, at) == Decoded(text[at], at + 1);
    }
  }

  lemma SpecialAscii(text: seq<Byte>, at: nat, k: nat)
    requires k < |SPECIALS| && Reads(text, at, SPECIALS[k].0)
    ensures forall i :: at <= i < at + |SPECIALS[k].0| ==> text[i] < 0x80
  {
    var literal := SPECIALS[k].0;
    forall i | at <= i < at + |literal|
      ensures text[i] < 0x80
    {
      assert text[at + (i - at)] == literal[i - at] as int;
      assert k == 0 || k == 1 || k == 2 || k == 3 || k == 4;
    }
  }

  /** One position of the text contributes items that all span that position. */
  lemma ReadItemSpans(lang: Language, text: seq<Byte>, at: nat, units: nat)
    requires at < |text| && ReadItem(lang, text, at, units).Piecewise?
    ensures var r := ReadItem(lang, text, at, units);
      && Reaches(text, at, units, r.next, r.units) && units < r.units
      && forall k :: 0 <= k < |r.items| ==> ItemSpan(r.items[k]) == Span(at, r.next, units, r.units)
  {
    hide Decode, Mapped, Covers, Reads, SpecialAt;
    var special := SpecialAt(text, at, 0);
    if special.Some? {
      SpecialAscii(text, at, special.value);
      AsciiReaches(text, at, units, |SPECIALS[special.value].0|);
      SpecialLengths(special.value);
    } else {
      var d := Decode(text, at);
      var after := units + Units(d.cp);
      assert Reaches(text, d.next, after, d.next, after);
      var m := Mapped(lang, d.cp);
      if !Covers(lang.deletion, d.cp) && m.Some? {
        LettersSpan(m.value, Span(at, d.next, units, after));
      }
    }
  }

  lemma SpecialLengths(k: nat)
    requires k < |SPECIALS|
    ensures |SPECIALS[k].0| >= 5
  {
    assert k == 0 || k == 1 || k == 2 || k == 3 || k == 4;
  }

  lemma {:induction false} LettersSpan(cps: seq<CodePoint>, span: Span)
    ensures forall k :: 0 <= k < |cps| ==> ItemSpan(Letters(cps, span)[k]) == span
    decreases |cps|
  {
    if cps != [] {
      LettersSpan(cps[1..], span);
    }
  }

  /** Every item names a stretch of the text, and later items are not before it. */
  lemma {:induction false} ItemsRise(lang: Language, text: seq<Byte>, at: nat, units: nat)
    requires at <= |text| && Boundary(text, at, units) && Items(lang, text, at, units).Some?
    ensures var spans := ItemSpans(Items(lang, text, at, units).value);
      && Rising(spans)
      && forall k :: 0 <= k < |spans| ==> NamesStretch(text, spans[k]) && at <= spans[k].byteStart && units <= spans[k].unitStart
    decreases |text| - at
  {
    hide ReadItem, Reaches, Items;
    ItemsOne(lang, text, at, units);
    if at < |text| {
      var r := ReadItem(lang, text, at, units);
      ReadItemSpans(lang, text, at, units);
      ReachesTransitive(text, 0, 0, at, units, r.next, r.units);
      ItemsRise(lang, text, r.next, r.units);
      var here := Span(at, r.next, units, r.units);
      var rest := Items(lang, text, r.next, r.units).value;
      var spans := ItemSpans(r.items + rest);
      assert NamesStretch(text, here);
      forall k | 0 <= k < |spans|
        ensures spans[k] == if k < |r.items| then here else ItemSpans(rest)[k - |r.items|]
      {
        assert (r.items + rest)[k] == if k < |r.items| then r.items[k] else rest[k - |r.items|];
      }
      JoinRising(spans, here, |r.items|, ItemSpans(rest));
    }
  }

  lemma JoinRising(spans: seq<Span>, here: Span, n: nat, rest: seq<Span>)
    requires |spans| == n + |rest| && Rising(rest)
    requires forall k :: 0 <= k < |spans| ==> spans[k] == if k < n then here else rest[k - n]
    requires forall k :: 0 <= k < |rest| ==>
      here.byteEnd <= rest[k].byteStart < rest[k].byteEnd && here.unitEnd <= rest[k].unitStart < rest[k].unitEnd
    requires here.byteStart < here.byteEnd && here.unitStart < here.unitEnd
    ensures Rising(spans)
  {
  }

  // ----- words and tokens -----

  ghost predicate AllNamed(text: seq<Byte>, spans: seq<Span>) { forall k :: 0 <= k < |spans| ==> NamesStretch(text, spans[k]) }

  function WordSpans(word: seq<Char>): (r: seq<Span>)
    ensures |r| == |word| && forall k :: 0 <= k < |word| ==> r[k] == word[k].span
  {
    seq(|word|, k requires 0 <= k < |word| => word[k].span)
  }

  lemma HullNamed(text: seq<Byte>, a: Span, b: Span)
    requires NamesStretch(text, a) && NamesStretch(text, b) && NotBefore(a, b)
    ensures NamesStretch(text, Hull(a, b)) && NotBefore(a, Hull(a, b)) && NotBefore(Hull(a, b), b)
  {
    hide Boundary;
  }

  /** The tokens of a word lie between its first and last letter, in order. */
  lemma PiecesRise(lang: Language, text: seq<Byte>, word: seq<Char>, origin: Origin)
    requires word != [] && Rising(WordSpans(word)) && AllNamed(text, WordSpans(word))
    ensures var spans := TokenSpans(Pieces(lang, word, origin));
      Rising(spans) && AllNamed(text, spans) && Between(spans, word[0].span, word[|word| - 1].span)
  {
    hide NamesStretch, Greedy, NotBefore;
    var first, last := word[0].span, word[|word| - 1].span;
    assert WordSpans(word)[0] == first && WordSpans(word)[|word| - 1] == last;
    assert NotBefore(first, last) by { NotBeforeSelf(first); }
    var ps := if |word| > WORD_LIMIT then None else Greedy(lang.lines, Cps(word), 0);
    if ps.None? {
      HullNamed(text, first, last);
    } else {
      GreedyCovers(lang.lines, Cps(word), 0);
      PieceTokensRise(text, word, ps.value, origin);
    }
  }

  lemma NotBeforeSelf(a: Span)
    ensures NotBefore(a, a)
  {
  }

  lemma PieceTokensRise(text: seq<Byte>, word: seq<Char>, ps: seq<Piece>, origin: Origin)
    requires word != [] && Rising(WordSpans(word)) && AllNamed(text, WordSpans(word))
    requires forall k :: 0 <= k < |ps| ==> ps[k].from < ps[k].upto <= |word|
    requires forall k :: 0 < k < |ps| ==> ps[k].from == ps[k - 1].upto
    ensures var spans := TokenSpans(PieceTokens(word, ps, origin));
      Rising(spans) && AllNamed(text, spans) && Between(spans, word[0].span, word[|word| - 1].span)
  {
    hide NamesStretch, NotBefore;
    var spans := TokenSpans(PieceTokens(word, ps, origin));
    PieceOrder(ps);
    forall k | 0 <= k < |ps|
      ensures NamesStretch(text, spans[k]) && NotBefore(word[0].span, spans[k]) && NotBefore(spans[k], word[|word| - 1].span)
    {
      OnePiece(text, word, ps[k].from, ps[k].upto);
    }
    forall i, j | 0 <= i < j < |ps|
      ensures NotBefore(spans[i], spans[j])
    {
      assert ps[i].upto <= ps[j].from;
      TwoPieces(word, ps[i].from, ps[i].upto, ps[j].from, ps[j].upto);
    }
  }

  lemma OnePiece(text: seq<Byte>, word: seq<Char>, from: nat, upto: nat)
    requires from < upto <= |word| && Rising(WordSpans(word)) && AllNamed(text, WordSpans(word))
    ensures var h := Hull(word[from].span, word[upto - 1].span);
      NamesStretch(text, h) && NotBefore(word[0].span, h) && NotBefore(h, word[|word| - 1].span)
  {
    hide NamesStretch;
    var s := WordSpans(word);
    assert NotBefore(s[from], s[upto - 1]) && NotBefore(s[0], s[from]) && NotBefore(s[upto - 1], s[|s| - 1]);
    HullNamed(text, s[from], s[upto - 1]);
  }

  lemma TwoPieces(word: seq<Char>, a: nat, b: nat, c: nat, d: nat)
    requires a < b <= c < d <= |word| && Rising(WordSpans(word))
    ensures NotBefore(Hull(word[a].span, word[b - 1].span), Hull(word[c].span, word[d - 1].span))
  {
    var s := WordSpans(word);
    assert NotBefore(s[a], s[c]) && NotBefore(s[b - 1], s[d - 1]);
  }

  lemma {:induction false} PieceOrder(ps: seq<Piece>)
    requires forall k :: 0 <= k < |ps| ==> ps[k].from < ps[k].upto
    requires forall k :: 0 < k < |ps| ==> ps[k].from == ps[k - 1].upto
    ensures forall i, j :: 0 <= i < j < |ps| ==> ps[i].upto <= ps[j].from
    decreases |ps|
  {
    if |ps| > 1 {
      var n := |ps| - 1;
      PieceOrder(ps[..n]);
      forall i | 0 <= i < n
        ensures ps[i].upto <= ps[n].from
      {
        assert i == n - 1 || ps[..n][i].upto <= ps[..n][n - 1].from;
      }
    }
  }

  lemma JoinTokens(text: seq<Byte>, a: seq<Span>, alo: Span, ahi: Span, b: seq<Span>, blo: Span, bhi: Span)
    requires Rising(a) && Rising(b) && Between(a, alo, ahi) && Between(b, blo, bhi)
    requires AllNamed(text, a) && AllNamed(text, b)
    requires NotBefore(alo, blo) && NotBefore(ahi, blo) && NotBefore(ahi, bhi)
    ensures Rising(a + b) && AllNamed(text, a + b) && Between(a + b, alo, bhi)
  {
    hide NamesStretch;
  }

  lemma {:induction false} TokensRise(lang: Language, text: seq<Byte>, items: seq<Item>, origin: Origin)
    requires items != [] && Rising(ItemSpans(items)) && AllNamed(text, ItemSpans(items))
    ensures var spans := TokenSpans(Tokens(lang, items, origin));
      && Rising(spans) && AllNamed(text, spans)
      && Between(spans, ItemSpan(items[0]), ItemSpan(items[|items| - 1]))
    decreases |items|
  {
    hide *;
    var n := if Joins(lang, items[0]) then Run(lang, items) else 1;
    FirstWord(lang, items, origin);
    JoinsLetter(lang, items[0]);
    var s := ItemSpans(items);
    HeadRises(lang, text, items, n, origin);
    var front := Head(lang, items, n, origin);
    var rest := items[n..];
    if rest == [] {
      NoTokens(lang, origin);
      assert Tokens(lang, items, origin) == front;
    } else {
      var back := Tokens(lang, rest, origin);
      RestRises(text, items, n);
      TokensRise(lang, text, rest, origin);
      RisingAt(s, 0, n);
      RisingAt(s, n - 1, n);
      RisingAt(s, n - 1, |s| - 1);
      JoinTokens(text, TokenSpans(front), s[0], s[n - 1], TokenSpans(back), s[n], s[|s| - 1]);
      assert TokenSpans(front + back) == TokenSpans(front) + TokenSpans(back);
    }
  }

  lemma RisingAt(s: seq<Span>, i: nat, j: nat)
    requires Rising(s) && i < j < |s|
    ensures NotBefore(s[i], s[j])
  {
  }

  lemma JoinsLetter(lang: Language, item: Item)
    ensures Joins(lang, item) ==> item.Letter?
  {
  }

  lemma RestRises(text: seq<Byte>, items: seq<Item>, n: nat)
    requires n < |items| && Rising(ItemSpans(items)) && AllNamed(text, ItemSpans(items))
    ensures Rising(ItemSpans(items[n..])) && AllNamed(text, ItemSpans(items[n..]))
  {
    hide NamesStretch, NotBefore;
    assert forall k :: 0 <= k < |items| - n ==> ItemSpans(items[n..])[k] == ItemSpans(items)[n + k];
  }

  /** The tokens of the first `n` items, when they are one marker, blank or word. */
  function Head(lang: Language, items: seq<Item>, n: nat, origin: Origin): seq<Token>
    requires 1 <= n <= |items| && (items[0].Letter? ==> forall k :: 0 <= k < n ==> items[k].Letter?)
  {
    if items[0].Special? then [Token(items[0].id, items[0].span, origin)]
    else if items[0].letter.cp == BLANK then []
    else Pieces(lang, Chars(items[..n]), origin)
  }

  lemma FirstWord(lang: Language, items: seq<Item>, origin: Origin)
    requires items != []
    ensures var n := if Joins(lang, items[0]) then Run(lang, items) else 1;
      && 1 <= n <= |items| && (items[0].Letter? ==> forall k :: 0 <= k < n ==> items[k].Letter?)
      && Tokens(lang, items, origin) == Head(lang, items, n, origin) + Tokens(lang, items[n..], origin)
  {
    hide Pieces, Alone, Run, Tokens;
    if Joins(lang, items[0]) {
      RunPositive(lang, items);
      TokensRun(lang, items, origin);
    } else {
      TokensOne(lang, items, origin);
      if items[0].Letter? {
        assert Chars(items[..1]) == [items[0].letter];
      }
    }
  }

  lemma TokensRun(lang: Language, items: seq<Item>, origin: Origin)
    requires items != [] && Joins(lang, items[0])
    ensures var n := Run(lang, items);
      Tokens(lang, items, origin) == Pieces(lang, Chars(items[..n]), origin) + Tokens(lang, items[n..], origin)
  {
    hide Pieces, Run, Alone;
  }

  lemma HeadRises(lang: Language, text: seq<Byte>, items: seq<Item>, n: nat, origin: Origin)
    requires 1 <= n <= |items| && (items[0].Letter? ==> forall k :: 0 <= k < n ==> items[k].Letter?)
    requires items[0].Special? ==> n == 1
    requires Rising(ItemSpans(items)) && AllNamed(text, ItemSpans(items))
    ensures var spans := TokenSpans(Head(lang, items, n, origin));
      Rising(spans) && AllNamed(text, spans) && Between(spans, ItemSpan(items[0]), ItemSpan(items[n - 1]))
  {
    hide Pieces, NamesStretch;
    var s := ItemSpans(items);
    if items[0].Special? {
      NotBeforeSelf(s[0]);
    } else if items[0].letter.cp != BLANK {
      var word := Chars(items[..n]);
      assert forall k :: 0 <= k < n ==> WordSpans(word)[k] == s[k];
      PiecesRise(lang, text, word, origin);
    }
  }

  /** The source tokens of a text: each names a stretch of it, in order. */
  lemma SourceStretches(lang: Language, text: seq<Byte>)
    requires Items(lang, text, 0, 0).Some?
    ensures var ts := Tokens(lang, Items(lang, text, 0, 0).value, Source);
      && (forall k :: 0 <= k < |ts| ==> ts[k].origin == Source && NamesStretch(text, ts[k].span))
      && (forall i, j :: 0 <= i < j < |ts| ==> NotBefore(ts[i].span, ts[j].span))
  {
    hide Items, Tokens, NamesStretch, NotBefore, Reaches;
    var items := Items(lang, text, 0, 0).value;
    var ts := Tokens(lang, items, Source);
    assert Boundary(text, 0, 0) by { StartReached(text); }
    ItemsRise(lang, text, 0, 0);
    if items == [] {
      NoTokens(lang, Source);
    } else {
      TokensRise(lang, text, items, Source);
    }
    TokensOrigin(lang, items, Source);
    assert forall k :: 0 <= k < |ts| ==> ts[k].span == TokenSpans(ts)[k];
  }

  /** Between the first `n` tokens of an input and its last stand its source tokens, each
      naming a stretch of the text, in order. */
  ghost predicate SourceFrom(text: seq<Byte>, ts: seq<Token>, n: nat) {
    && n < |ts|
    && (forall k :: 0 <= k < |ts| ==> (ts[k].origin == Source <==> n <= k < |ts| - 1))
    && (forall k :: n <= k < |ts| - 1 ==> NamesStretch(text, ts[k].span))
    && (forall i, j :: n <= i < j < |ts| - 1 ==> NotBefore(ts[i].span, ts[j].span))
  }

  lemma FramedSource(text: seq<Byte>, before: seq<Token>, ts: seq<Token>, last: Token)
    requires (forall k :: 0 <= k < |before| ==> before[k].origin != Source) && last.origin != Source
    requires forall k :: 0 <= k < |ts| ==> ts[k].origin == Source && NamesStretch(text, ts[k].span)
    requires forall i, j :: 0 <= i < j < |ts| ==> NotBefore(ts[i].span, ts[j].span)
    ensures SourceFrom(text, before + ts + [last], |before|)
  {
    hide NamesStretch, NotBefore;
    var n, all := |before|, before + ts + [last];
    assert forall k :: n <= k < |all| - 1 ==> all[k] == ts[k - n];
  }

  /** A document's source tokens stand between the framing ones. */
  lemma DocumentOffsets(lang: Language, text: seq<Byte>)
    requires FullTokens(lang, Document, text).Some?
    ensures SourceFrom(text, FullTokens(lang, Document, text).value, 1)
  {
    hide Items, Tokens, NamesStretch, NotBefore, SourceFrom;
    SomeItems(lang, Document, text);
    DocumentTokens(lang, text);
    SourceStretches(lang, text);
    FramedSource(text, [Token(CLS, NO_SPAN, Framing)], Tokens(lang, Items(lang, text, 0, 0).value, Source), Token(SEP, NO_SPAN, Framing));
  }

  lemma StartReached(text: seq<Byte>)
    ensures Reaches(text, 0, 0, 0, 0)
  {
  }

  lemma SomeItems(lang: Language, role: Role, text: seq<Byte>)
    requires FullTokens(lang, role, text).Some?
    ensures Items(lang, text, 0, 0).Some? && Opened(lang, role).Some?
  {
    hide Items, AcceptAll;
  }

  lemma {:induction false} TokensOrigin(lang: Language, items: seq<Item>, origin: Origin)
    ensures forall k :: 0 <= k < |Tokens(lang, items, origin)| ==> Tokens(lang, items, origin)[k].origin == origin
    decreases |items|
  {
    hide Pieces, Alone, Run, Tokens;
    if items == [] {
      NoTokens(lang, origin);
    } else {
      FirstWord(lang, items, origin);
      var n := if Joins(lang, items[0]) then Run(lang, items) else 1;
      TokensOrigin(lang, items[n..], origin);
      HeadOrigin(lang, items, n, origin);
    }
  }

  lemma HeadOrigin(lang: Language, items: seq<Item>, n: nat, origin: Origin)
    requires 1 <= n <= |items| && (items[0].Letter? ==> forall k :: 0 <= k < n ==> items[k].Letter?)
    ensures forall k :: 0 <= k < |Head(lang, items, n, origin)| ==> Head(lang, items, n, origin)[k].origin == origin
  {
    hide Greedy;
  }

  // ----- queries -----

  /** The space survives normalization. */
  predicate KeepsSpace(lang: Language) { !Covers(lang.deletion, BLANK) && Mapped(lang, BLANK) == Some([BLANK]) }

  predicate EndsBlank(items: seq<Item>) { items != [] && items[|items| - 1].Letter? && items[|items| - 1].letter.cp == BLANK }

  lemma PrefixText()
    ensures |PrefixBytes()| > 0 && PrefixBytes()[|PrefixBytes()| - 1] == BLANK
  {
    assert PREFIX[|PREFIX| - 1] == ' ';
  }

  lemma ReadSpace(lang: Language, bytes: seq<Byte>, at: nat, units: nat)
    requires KeepsSpace(lang) && at < |bytes| && bytes[at] == BLANK
    ensures ReadItem(lang, bytes, at, units) == Piecewise([Letter(Char(BLANK, Span(at, at + 1, units, units + 1)))], at + 1, units + 1)
  {
    hide Covers, Mapped, SpecialAt;
    NoSpecial(bytes, at, 0);
    assert Decode(bytes, at) == Decoded(BLANK, at + 1);
    LettersOne([BLANK], Span(at, at + 1, units, units + 1));
    LettersOne([], Span(at, at + 1, units, units + 1));
  }

  /** No marker and no longer scalar ends with a space, so a space is read for itself. */
  lemma BeforeSpace(lang: Language, bytes: seq<Byte>, at: nat, units: nat)
    requires at < |bytes| - 1 && bytes[|bytes| - 1] == BLANK && ReadItem(lang, bytes, at, units).Piecewise?
    ensures ReadItem(lang, bytes, at, units).next < |bytes|
  {
    hide Covers, Mapped, Decode;
    var special := SpecialAt(bytes, at, 0);
    if special.Some? {
      var k := special.value;
      var n := |SPECIALS[k].0|;
      assert k == 0 || k == 1 || k == 2 || k == 3 || k == 4;
      assert SPECIALS[k].0[n - 1] == ']';
      assert bytes[at + (n - 1)] == 0x5D;
    } else {
      var d := Decode(bytes, at);
      DecodeOnlyEncoded(bytes, at);
      EncodeShape(d.cp);
      assert bytes[at..d.next][d.next - at - 1] == bytes[d.next - 1];
    }
  }

  /** A text that ends with a space reads as items that do. */
  lemma {:induction false} SpaceLast(lang: Language, bytes: seq<Byte>, at: nat, units: nat)
    requires KeepsSpace(lang) && at < |bytes| && bytes[|bytes| - 1] == BLANK
    requires Items(lang, bytes, at, units).Some?
    ensures EndsBlank(Items(lang, bytes, at, units).value)
    decreases |bytes| - at
  {
    hide Items, ReadItem;
    ItemsOne(lang, bytes, at, units);
    var r := ReadItem(lang, bytes, at, units);
    if at == |bytes| - 1 {
      ReadSpace(lang, bytes, at, units);
      ItemsOne(lang, bytes, r.next, r.units);
    } else {
      BeforeSpace(lang, bytes, at, units);
      SpaceLast(lang, bytes, r.next, r.units);
    }
  }

  /** The tokens of the fixed prefix of queries. */
  function PrefixTokens(lang: Language): seq<Token>
    requires Items(lang, PrefixBytes(), 0, 0).Some?
  {
    Tokens(lang, Items(lang, PrefixBytes(), 0, 0).value, QueryPrefix)
  }

  /** The prefix leaves a word open, for the text's first letters to join. */
  predicate OpensWord(lang: Language)
    requires Opened(lang, Query).Some?
  {
    Opened(lang, Query).value.pending != []
  }

  /** The prefix's tokens are what the machine has emitted by its end, and the open word's. */
  lemma PrefixEmits(lang: Language)
    requires Opened(lang, Query).Some?
    ensures Items(lang, PrefixBytes(), 0, 0).Some? && AllJoin(lang, Opened(lang, Query).value.pending)
    ensures Flushed(lang, Opened(lang, Query).value, QueryPrefix).tokens == [Token(CLS, NO_SPAN, Framing)] + PrefixTokens(lang)
  {
    hide Items, Tokens, Pieces, PrefixBytes, AcceptAll;
    var items := Items(lang, PrefixBytes(), 0, 0).value;
    MachineIsTokens(lang, Acc([], [Token(CLS, NO_SPAN, Framing)]), items, QueryPrefix);
    assert AsItems([]) + items == items;
  }

  /** The prefix ends with a space, so where the tables keep the space it leaves no word open. */
  lemma PrefixEnds(lang: Language)
    requires KeepsSpace(lang) && Opened(lang, Query).Some?
    ensures !OpensWord(lang)
  {
    hide Items, Pieces, PrefixBytes, AcceptAll;
    var items := Items(lang, PrefixBytes(), 0, 0).value;
    var start := Acc([], [Token(CLS, NO_SPAN, Framing)]);
    PrefixText();
    SpaceLast(lang, PrefixBytes(), 0, 0);
    var front, last := items[..|items| - 1], items[|items| - 1];
    assert items == front + [last];
    AcceptAppend(lang, start, front, [last], QueryPrefix);
    AcceptSingle(lang, AcceptAll(lang, start, front, QueryPrefix), last, QueryPrefix);
  }

  /** A query is its prefix's tokens, then its text's, between the framing ones. */
  ghost predicate Divides(lang: Language, text: seq<Byte>)
    requires Opened(lang, Query).Some? && Items(lang, text, 0, 0).Some? && Items(lang, PrefixBytes(), 0, 0).Some?
  {
    FullTokens(lang, Query, text) ==
      Some([Token(101, NO_SPAN, Framing)] + PrefixTokens(lang) + Tokens(lang, Items(lang, text, 0, 0).value, Source) + [Token(102, NO_SPAN, Framing)])
  }

  lemma QueryDivides(lang: Language, text: seq<Byte>)
    requires Opened(lang, Query).Some? && !OpensWord(lang) && Items(lang, text, 0, 0).Some?
    ensures Items(lang, PrefixBytes(), 0, 0).Some?
    ensures FullTokens(lang, Query, text) ==
      Some([Token(CLS, NO_SPAN, Framing)] + PrefixTokens(lang) + Tokens(lang, Items(lang, text, 0, 0).value, Source) + [Token(SEP, NO_SPAN, Framing)])
  {
    hide Items, Pieces, Tokens, PrefixTokens, AcceptAll, Opened;
    PrefixEmits(lang);
    NoPieces(lang, QueryPrefix);
    var done, items := Opened(lang, Query).value, Items(lang, text, 0, 0).value;
    MachineIsTokens(lang, done, items, Source);
    assert AsItems([]) + items == items && done.tokens + [] == done.tokens;
  }

  lemma ThenDivides(lang: Language, text: seq<Byte>)
    requires Opened(lang, Query).Some? && !OpensWord(lang) && Items(lang, text, 0, 0).Some?
    ensures Items(lang, PrefixBytes(), 0, 0).Some? && Divides(lang, text)
  {
    hide Items, Tokens, PrefixTokens, FullTokens, Opened, OpensWord, PrefixBytes;
    QueryDivides(lang, text);
  }

  lemma PiecesOf(lang: Language, word: seq<Char>, origin: Origin)
    requires word != []
    ensures Pieces(lang, word, origin) != [] && Pieces(lang, word, origin)[0].origin == origin
  {
    hide Greedy;
    var ps := if |word| > WORD_LIMIT then None else Greedy(lang.lines, Cps(word), 0);
    if ps.Some? {
      GreedyCovers(lang.lines, Cps(word), 0);
    }
  }

  /** With no text behind it a word the prefix leaves open is taken for one of the text. */
  lemma OpenWordStays(lang: Language)
    requires Opened(lang, Query).Some? && OpensWord(lang)
    ensures Items(lang, [], 0, 0) == Some([]) && Items(lang, PrefixBytes(), 0, 0).Some? && !Divides(lang, [])
  {
    hide Pieces, Tokens, PrefixTokens, AcceptAll, Opened, PrefixBytes;
    PrefixEmits(lang);
    var done := Opened(lang, Query).value;
    AcceptOne(lang, done, [], Source);
    NoTokens(lang, Source);
    PiecesOf(lang, done.pending, Source);
    PiecesOf(lang, done.pending, QueryPrefix);
    var n := |done.tokens|;
    var full := FullTokens(lang, Query, []).value;
    var divided := [Token(CLS, NO_SPAN, Framing)] + PrefixTokens(lang) + [] + [Token(SEP, NO_SPAN, Framing)];
    assert full[n].origin == Source && divided[n].origin == QueryPrefix;
  }

  /** Every query divides so if, and only if, the prefix leaves no word open: a condition on
      the tables alone, met where they keep the space. */
  lemma QueryTokens(lang: Language)
    requires Opened(lang, Query).Some?
    ensures Items(lang, PrefixBytes(), 0, 0).Some?
    ensures (forall text: seq<Byte> :: Items(lang, text, 0, 0).Some? ==> Divides(lang, text)) <==> !OpensWord(lang)
    ensures KeepsSpace(lang) ==> !OpensWord(lang)
  {
    hide Items, Divides, Opened, OpensWord, KeepsSpace, PrefixBytes, Pieces, PrefixTokens;
    PrefixEmits(lang);
    if KeepsSpace(lang) {
      PrefixEnds(lang);
    }
    if OpensWord(lang) {
      OpenWordStays(lang);
    } else {
      forall text: seq<Byte> | Items(lang, text, 0, 0).Some?
        ensures Divides(lang, text)
      {
        ThenDivides(lang, text);
      }
    }
  }

  /** A query's source tokens then stand behind the prefix's, and name stretches of the text
      alone: the prefix shifts no offset. */
  lemma QueryOffsets(lang: Language, text: seq<Byte>)
    requires FullTokens(lang, Query, text).Some? && Opened(lang, Query).Some? && !OpensWord(lang)
    ensures Items(lang, PrefixBytes(), 0, 0).Some?
    ensures SourceFrom(text, FullTokens(lang, Query, text).value, 1 + |PrefixTokens(lang)|)
  {
    hide Items, Tokens, NamesStretch, NotBefore, SourceFrom, FullTokens, PrefixBytes, AcceptAll, Opened, OpensWord;
    SomeItems(lang, Query, text);
    QueryDivides(lang, text);
    SourceStretches(lang, text);
    TokensOrigin(lang, Items(lang, PrefixBytes(), 0, 0).value, QueryPrefix);
    FramedSource(text, [Token(CLS, NO_SPAN, Framing)] + PrefixTokens(lang),
                 Tokens(lang, Items(lang, text, 0, 0).value, Source), Token(SEP, NO_SPAN, Framing));
  }
}
