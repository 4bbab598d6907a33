/** What packages/quixi-embed/native/tokenizer.c computes, as pure definitions: text to
    items, items to words, words to the greedy pieces of a vocabulary. */
module WordPiece {
  import opened Common
  import opened Utf8
  import opened Vocabulary
  import opened UnicodeTables

  const UNKNOWN := 100
  const CLS := 101
  const SEP := 102
  const WORD_LIMIT := 100
  const BLANK: CodePoint := 0x20

  /** The same stretch of a text in bytes and in UTF-16 units. */
  datatype Span = Span(byteStart: nat, byteEnd: nat, unitStart: nat, unitEnd: nat)

  datatype Char = Char(cp: CodePoint, span: Span)

  datatype Origin = Source | QueryPrefix | Framing

  datatype Token = Token(id: nat, span: Span, origin: Origin)

  datatype Item = Special(id: nat, span: Span) | Letter(letter: Char)

  /** The tables a model was loaded with. */
  datatype Language = Language(lines: seq<seq<Byte>>, deletion: seq<Range>, mapping: seq<Entry>, punctuation: seq<Range>, pool: seq<Byte>)

  // ----- text to items -----

  /** The literal markers, in the order the tokenizer tries them. */
  const SPECIALS: seq<(string, nat)> := [("[PAD]", 0), ("[UNK]", 100), ("[CLS]", 101), ("[SEP]", 102), ("[MASK]", 103)]

  predicate Reads(text: seq<Byte>, at: nat, literal: string) {
    at + |literal| <= |text| && forall k :: 0 <= k < |literal| ==> text[at + k] == literal[k] as int
  }

  function SpecialAt(text: seq<Byte>, at: nat, k: nat): (r: Option<nat>)
    requires k <= |SPECIALS|
    ensures r.Some? ==> k <= r.value < |SPECIALS| && Reads(text, at, SPECIALS[r.value].0)
    decreases |SPECIALS| - k
  {
    if k == |SPECIALS| then None
    else if Reads(text, at, SPECIALS[k].0) then Some(k)
    else SpecialAt(text, at, k + 1)
  }

  function Units(cp: CodePoint): nat { if cp > 0xFFFF then 2 else 1 }

  /** What a code point normalizes to; nothing when the pool is not well-formed. */
  function Mapped(lang: Language, cp: CodePoint): Option<seq<CodePoint>> {
    var e := FindEntry(lang.mapping, cp);
    if e.None? then Some([cp])
    else if e.value.offset + e.value.size > |lang.pool| then None
    else DecodeAll(lang.pool[e.value.offset..e.value.offset + e.value.size], 0)
  }

  /** Every mapping of the frozen tables decodes. */
  ghost predicate Decodable(lang: Language) { forall cp: CodePoint :: Mapped(lang, cp).Some? }

  function Letters(cps: seq<CodePoint>, span: Span): (r: seq<Item>)
    ensures |r| == |cps|
  {
    if cps == [] then [] else [Letter(Char(cps[0], span))] + Letters(cps[1..], span)
  }

  /** What one position of the text contributes, and where the next one is. */
  datatype Piecewise = Piecewise(items: seq<Item>, next: nat, units: nat) | Bad

  function ReadItem(lang: Language, text: seq<Byte>, at: nat, units: nat): (r: Piecewise)
    requires at < |text|
    ensures r.Piecewise? ==> at < r.next <= |text|
  {
    var special := SpecialAt(text, at, 0);
    if special.Some? then
      var n := |SPECIALS[special.value].0|;
      Piecewise([Special(SPECIALS[special.value].1, Span(at, at + n, units, units + n))], at + n, units + n)
    else
      var d := Decode(text, at);
      if d.Malformed? || d.next > |text| || d.next <= at then Bad
      else
        var cp: CodePoint := d.cp;
        var after := units + Units(cp);
        if Covers(lang.deletion, cp) then Piecewise([], d.next, after)
        else
          var m := Mapped(lang, cp);
          if m.None? then Bad else Piecewise(Letters(m.value, Span(at, d.next, units, after)), d.next, after)
  }

  function Items(lang: Language, text: seq<Byte>, at: nat, units: nat): Option<seq<Item>>
    requires at <= |text|
    decreases |text| - at
  {
    if at == |text| then Some([])
    else
      var r := ReadItem(lang, text, at, units);
      if r.Bad? then None
      else
        var rest := Items(lang, text, r.next, r.units);
        if rest.None? then None else Some(r.items + rest.value)
  }

  // ----- items to words -----

  predicate Cjk(cp: CodePoint) {
    0x4E00 <= cp <= 0x9FFF || 0x3400 <= cp <= 0x4DBF || 0x20000 <= cp <= 0x2A6DF || 0x2A700 <= cp <= 0x2B73F ||
    0x2B740 <= cp <= 0x2B81F || 0x2B920 <= cp <= 0x2CEAF || 0xF900 <= cp <= 0xFAFF || 0x2F800 <= cp <= 0x2FA1F
  }

  predicate Alone(lang: Language, cp: CodePoint) { Cjk(cp) || Covers(lang.punctuation, cp) }

  predicate Joins(lang: Language, item: Item) {
    item.Letter? && item.letter.cp != BLANK && !Alone(lang, item.letter.cp)
  }

  /** Length of the run of letters that belong to one word. */
  function Run(lang: Language, items: seq<Item>): (n: nat)
    ensures n <= |items|
    ensures forall k :: 0 <= k < n ==> Joins(lang, items[k])
    ensures n < |items| ==> !Joins(lang, items[n])
  {
    if items != [] && Joins(lang, items[0]) then 1 + Run(lang, items[1..]) else 0
  }

  function Chars(items: seq<Item>): (cs: seq<Char>)
    requires forall k :: 0 <= k < |items| ==> items[k].Letter?
    ensures |cs| == |items| && forall k :: 0 <= k < |items| ==> cs[k] == items[k].letter
  {
    seq(|items|, k requires 0 <= k < |items| => items[k].letter)
  }

  /** The tokens of a text: markers stand for themselves, blanks separate, a CJK or
      punctuation letter is a word, and otherwise the longest run of letters is. */
  function Tokens(lang: Language, items: seq<Item>, origin: Origin): seq<Token>
    decreases |items|
  {
    if items == [] then []
    else if items[0].Special? then [Token(items[0].id, items[0].span, origin)] + Tokens(lang, items[1..], origin)
    else if items[0].letter.cp == BLANK then Tokens(lang, items[1..], origin)
    else if Alone(lang, items[0].letter.cp) then Pieces(lang, [items[0].letter], origin) + Tokens(lang, items[1..], origin)
    else
      var n := Run(lang, items);
      Pieces(lang, Chars(items[..n]), origin) + Tokens(lang, items[n..], origin)
  }

  // ----- words to pieces -----

  datatype Piece = Piece(id: nat, from: nat, upto: nat)

  function Cps(word: seq<Char>): (cps: seq<CodePoint>)
    ensures |cps| == |word| && forall k :: 0 <= k < |word| ==> cps[k] == word[k].cp
  {
    seq(|word|, k requires 0 <= k < |word| => word[k].cp)
  }

  const CONTINUED: seq<Byte> := [0x23, 0x23]

  /** The bytes looked up for the letters from `from` to `upto`. */
  function Candidate(w: seq<CodePoint>, from: nat, upto: nat): seq<Byte>
    requires from <= upto <= |w|
  {
    (if from > 0 then CONTINUED else []) + EncodeAll(w[from..upto])
  }

  /** The longest entry that starts at `from` and ends at or before `upto`. */
  function Longest(lines: seq<seq<Byte>>, w: seq<CodePoint>, from: nat, upto: nat): (p: Option<Piece>)
    requires from <= upto <= |w|
    ensures p.Some? ==> p.value.from == from < p.value.upto <= upto
    decreases upto
  {
    if upto == from then None
    else
      var id := Lookup(lines, Candidate(w, from, upto), 0);
      if id.Some? then Some(Piece(id.value, from, upto)) else Longest(lines, w, from, upto - 1)
  }

  function Greedy(lines: seq<seq<Byte>>, w: seq<CodePoint>, from: nat): (ps: Option<seq<Piece>>)
    requires from <= |w|
    ensures ps.Some? ==> |ps.value| <= |w| - from
    ensures ps.Some? ==> forall k :: 0 <= k < |ps.value| ==> from <= ps.value[k].from < ps.value[k].upto <= |w|
    decreases |w| - from
  {
    if from == |w| then Some([])
    else
      var p := Longest(lines, w, from, |w|);
      if p.None? then None
      else
        var rest := Greedy(lines, w, p.value.upto);
        if rest.None? then None else Some([p.value] + rest.value)
  }

  function Hull(first: Span, last: Span): Span {
    Span(first.byteStart, last.byteEnd, first.unitStart, last.unitEnd)
  }

  function PieceTokens(word: seq<Char>, ps: seq<Piece>, origin: Origin): (ts: seq<Token>)
    requires forall k :: 0 <= k < |ps| ==> ps[k].from < ps[k].upto <= |word|
    ensures |ts| == |ps|
    ensures forall k :: 0 <= k < |ps| ==> ts[k] == Token(ps[k].id, Hull(word[ps[k].from].span, word[ps[k].upto - 1].span), origin)
  {
    seq(|ps|, k requires 0 <= k < |ps| => Token(ps[k].id, Hull(word[ps[k].from].span, word[ps[k].upto - 1].span), origin))
  }

  /** One word: its pieces, or the unknown token when it is too long or not covered. */
  function Pieces(lang: Language, word: seq<Char>, origin: Origin): seq<Token> {
    if word == [] then []
    else
      var ps := if |word| > WORD_LIMIT then None else Greedy(lang.lines, Cps(word), 0);
      if ps.None? then [Token(UNKNOWN, Hull(word[0].span, word[|word| - 1].span), origin)]
      else PieceTokens(word, ps.value, origin)
  }

  // ----- what greedy pieces are -----

  /** How a line spells letters of a word: their UTF-8 bytes, behind two number signs when they
      do not begin the word. */
  predicate Spells(line: seq<Byte>, w: seq<CodePoint>, from: nat, upto: nat)
    requires from <= upto <= |w|
  {
    if from == 0 then line == EncodeAll(w[..upto]) else line == [0x23, 0x23] + EncodeAll(w[from..upto])
  }

  predicate NoEntry(lines: seq<seq<Byte>>, w: seq<CodePoint>, from: nat, upto: nat)
    requires from <= upto <= |w|
  {
    forall i :: 0 <= i < |lines| ==> !Spells(lines[i], w, from, upto)
  }

  /** The first line that spells the piece; and no line spells more of the word from there. */
  ghost predicate LongestEntry(lines: seq<seq<Byte>>, w: seq<CodePoint>, p: Piece) {
    && p.from < p.upto <= |w| && p.id < |lines| && Spells(lines[p.id], w, p.from, p.upto)
    && (forall i :: 0 <= i < p.id ==> !Spells(lines[i], w, p.from, p.upto))
    && (forall longer :: p.upto < longer <= |w| ==> NoEntry(lines, w, p.from, longer))
  }

  lemma LookupSpells(lines: seq<seq<Byte>>, w: seq<CodePoint>, from: nat, upto: nat)
    requires from < upto <= |w|
    ensures var id := Lookup(lines, Candidate(w, from, upto), 0);
      if id.None? then NoEntry(lines, w, from, upto)
      else id.value < |lines| && Spells(lines[id.value], w, from, upto) && forall i :: 0 <= i < id.value ==> !Spells(lines[i], w, from, upto)
  {
    hide EncodeAll, Lookup;
    LookupIsFirst(lines, Candidate(w, from, upto), 0);
    assert from == 0 ==> w[from..upto] == w[..upto] && [] + EncodeAll(w[..upto]) == EncodeAll(w[..upto]);
  }

  /** The piece chosen is the longest entry there; where none is chosen there is no entry. */
  lemma {:induction false} LongestIsLongest(lines: seq<seq<Byte>>, w: seq<CodePoint>, from: nat, upto: nat)
    requires from <= upto <= |w| && forall longer :: upto < longer <= |w| ==> NoEntry(lines, w, from, longer)
    ensures var p := Longest(lines, w, from, upto);
      if p.Some? then p.value.from == from && LongestEntry(lines, w, p.value)
      else forall longer :: from < longer <= |w| ==> NoEntry(lines, w, from, longer)
    decreases upto
  {
    hide NoEntry, Spells, Candidate, Lookup;
    if from < upto {
      LookupSpells(lines, w, from, upto);
      if Lookup(lines, Candidate(w, from, upto), 0).None? {
        LongestIsLongest(lines, w, from, upto - 1);
      }
    }
  }

  lemma OneLongest(lines: seq<seq<Byte>>, w: seq<CodePoint>, p: Piece, q: Piece)
    requires LongestEntry(lines, w, p) && LongestEntry(lines, w, q) && p.from == q.from
    ensures p == q
  {
    hide Spells;
    assert !(p.upto < q.upto) && !(q.upto < p.upto) by {
      assert p.upto < q.upto ==> NoEntry(lines, w, p.from, q.upto);
      assert q.upto < p.upto ==> NoEntry(lines, w, p.from, p.upto);
    }
    assert !(p.id < q.id) && !(q.id < p.id);
  }

  /** Pieces that lie end to end from `from` to the last letter, each the longest entry. */
  ghost predicate Segments(lines: seq<seq<Byte>>, w: seq<CodePoint>, from: nat, ps: seq<Piece>) {
    && (if ps == [] then from == |w| else ps[0].from == from && ps[|ps| - 1].upto == |w|)
    && (forall k :: 0 <= k < |ps| ==> LongestEntry(lines, w, ps[k]))
    && (forall k :: 0 < k < |ps| ==> ps[k].from == ps[k - 1].upto)
  }

  lemma SegmentsCons(lines: seq<seq<Byte>>, w: seq<CodePoint>, from: nat, ps: seq<Piece>)
    requires ps != []
    ensures Segments(lines, w, from, ps) <==>
      ps[0].from == from && LongestEntry(lines, w, ps[0]) && Segments(lines, w, ps[0].upto, ps[1..])
  {
    hide LongestEntry;
    var rest := ps[1..];
    assert forall k :: 0 <= k < |rest| ==> rest[k] == ps[k + 1];
    assert forall k :: 0 < k < |ps| ==> ps[k] == rest[k - 1];
  }

  lemma SegmentsNone(lines: seq<seq<Byte>>, w: seq<CodePoint>, from: nat)
    ensures Segments(lines, w, from, []) <==> from == |w|
  {
    hide LongestEntry;
  }

  /** Greedy segmentation finds the one segmentation into longest entries, if there is one. */
  lemma {:induction false} GreedySegments(lines: seq<seq<Byte>>, w: seq<CodePoint>, from: nat, ps: seq<Piece>)
    requires from <= |w|
    ensures Greedy(lines, w, from) == Some(ps) <==> Segments(lines, w, from, ps)
    decreases |w| - from
  {
    hide Longest, LongestEntry, NoEntry, Segments;
    SegmentsNone(lines, w, from);
    if ps != [] {
      SegmentsCons(lines, w, from, ps);
      if ps[0].from == from && LongestEntry(lines, w, ps[0]) {
        EntryFits(lines, w, ps[0]);
      }
    }
    if from < |w| {
      LongestIsLongest(lines, w, from, |w|);
      var p := Longest(lines, w, from, |w|);
      if p.Some? && ps != [] {
        GreedySegments(lines, w, p.value.upto, ps[1..]);
        assert ps == [ps[0]] + ps[1..];
        if ps[0].from == from && LongestEntry(lines, w, ps[0]) {
          OneLongest(lines, w, p.value, ps[0]);
        }
      }
    }
  }

  lemma EntryFits(lines: seq<seq<Byte>>, w: seq<CodePoint>, p: Piece)
    requires LongestEntry(lines, w, p)
    ensures p.from < p.upto <= |w| && !NoEntry(lines, w, p.from, p.upto)
  {
    hide Spells;
  }

  /** The tokens of one word. Of more than 100 letters, or without a segmentation, it is the
      unknown token 100 over the whole word; otherwise the segmentation's pieces, each over its
      own letters. */
  lemma WordTokens(lang: Language, word: seq<Char>, origin: Origin, ps: seq<Piece>)
    requires word != []
    ensures var ts := Pieces(lang, word, origin);
      && (|word| <= 100 && Segments(lang.lines, Cps(word), 0, ps) ==>
            && |ts| == |ps|
            && forall k :: 0 <= k < |ts| ==>
              && ps[k].from < ps[k].upto <= |word| && ts[k].id == ps[k].id && ts[k].origin == origin
              && Stretches(ts[k].span, word[ps[k].from].span, word[ps[k].upto - 1].span))
      && ((|word| > 100 || forall any :: !Segments(lang.lines, Cps(word), 0, any)) ==>
            |ts| == 1 && ts[0].id == 100 && ts[0].origin == origin && Stretches(ts[0].span, word[0].span, word[|word| - 1].span))
  {
    hide Greedy, Segments;
    GreedySegments(lang.lines, Cps(word), 0, ps);
    var found := Greedy(lang.lines, Cps(word), 0);
    if found.Some? {
      GreedySegments(lang.lines, Cps(word), 0, found.value);
    }
  }

  /** The stretch from where one begins to where the other ends. */
  predicate Stretches(span: Span, first: Span, last: Span) {
    && span.byteStart == first.byteStart && span.unitStart == first.unitStart
    && span.byteEnd == last.byteEnd && span.unitEnd == last.unitEnd
  }

  /** The pieces of a word join up: from its first letter to its last, in order. */
  lemma {:induction false} GreedyCovers(lines: seq<seq<Byte>>, w: seq<CodePoint>, from: nat)
    requires from <= |w|
    ensures var ps := Greedy(lines, w, from);
      ps.Some? ==>
        && (ps.value == [] <==> from == |w|)
        && (ps.value != [] ==> ps.value[0].from == from && ps.value[|ps.value| - 1].upto == |w|)
        && (forall k :: 0 < k < |ps.value| ==> ps.value[k].from == ps.value[k - 1].upto)
    decreases |w| - from
  {
    if from < |w| {
      var p := Longest(lines, w, from, |w|);
      if p.Some? {
        GreedyCovers(lines, w, p.value.upto);
      }
    }
  }
}
