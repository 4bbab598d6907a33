/** The tokenizer of packages/quixi-embed/native/tokenizer.c: one mutable state, a word
    buffer of 400 bytes, and three entry points over the same scan. */
module Tokenizer {
  import opened Common
  import opened Utf8
  import opened Vocabulary
  import opened UnicodeTables
  import opened WordPiece
  import opened WordBuffer
  import opened TokenMachine

  const MAX_TEXT_BYTES := 1048576
  const MAX_OFFSET_TOKENS := 65536
  const BUFFER := 400

  datatype Status = Ok | Argument | LimitExceeded | Format | BadUtf8

  /** A loaded model: vocabulary table and packed Unicode tables. */
  datatype Model = Model(lines: seq<seq<Byte>>, slots: seq<nat>, data: seq<Byte>,
                         deletionAt: nat, deletionCount: nat, mappingAt: nat, mappingCount: nat,
                         punctuationAt: nat, punctuationCount: nat, pool: seq<Byte>)

  predicate InBounds(m: Model) {
    && m.deletionAt + 8 * m.deletionCount <= |m.data|
    && m.mappingAt + 12 * m.mappingCount <= |m.data|
    && m.punctuationAt + 8 * m.punctuationCount <= |m.data|
  }

  function Lang(m: Model): Language
    requires InBounds(m)
  {
    Language(m.lines, ReadRanges(m.data, m.deletionAt, m.deletionCount), ReadEntries(m.data, m.mappingAt, m.mappingCount),
             ReadRanges(m.data, m.punctuationAt, m.punctuationCount), m.pool)
  }

  ghost predicate ValidModel(m: Model, distance: seq<nat>) {
    && InBounds(m)
    && Table(m.lines, m.slots, distance)
    && Ordered(Lang(m).deletion) && Ordered(Lang(m).punctuation) && Keyed(Lang(m).mapping)
    && forall e :: e in Lang(m).mapping ==> e.offset + e.size <= |m.pool|
  }

  /** The letters kept in the buffer: the first hundred of the pending word. */
  function Kept(pending: seq<Char>): seq<Char> { pending[..Min(WORD_LIMIT, |pending|)] }

  class State {
    const model: Model
    ghost const distance: seq<nat>
    const full: bool        // offset records are wanted, so every token is counted
    const limit: nat
    const ids: array<nat>
    const offsets: array<Token>
    const word: array<Byte>
    const alignment: array<Span>
    var count: nat
    var characters: nat
    var bytes: nat
    var first: Span
    var last: Span
    ghost var pending: seq<Char>
    ghost var tokens: seq<Token>

    ghost predicate Valid()
      reads this, ids, offsets, word, alignment
    {
      Fixed() && HoldsWord() && (full ==> HoldsSpans()) && HoldsOutput()
    }

    ghost predicate Fixed() {
      && ValidModel(model, distance)
      && word.Length == BUFFER && alignment.Length == BUFFER
      && (if full then limit <= offsets.Length else limit < ids.Length)
    }

    /** The buffer holds the kept letters of the pending word; all of them are counted. */
    ghost predicate HoldsWord()
      requires Fixed()
      reads this`characters, this`bytes, this`pending, word
    {
      var buffered := EncodeAll(Cps(Kept(pending)));
      characters == |pending| && bytes == |buffered| <= BUFFER && word[..bytes] == buffered
    }

    /** Each buffered byte has the span of its letter. */
    ghost predicate HoldsSpans()
      requires Fixed()
      reads this`bytes, this`pending, this`first, this`last, alignment
    {
      && bytes <= BUFFER && alignment[..bytes] == Spread(Kept(pending))
      && (pending != [] ==> first == pending[0].span && last == pending[|pending| - 1].span)
    }

    /** The output holds the tokens so far, as many as fit; counting goes on past the
        capacity only when offsets are wanted. */
    ghost predicate HoldsOutput()
      requires Fixed()
      reads this`count, this`tokens, ids, offsets
    {
      if full then
        count == |tokens| && forall i :: 0 <= i < Min(count, limit) ==> offsets[i] == tokens[i]
      else
        count == Min(|tokens|, limit) && forall i :: 0 <= i < count ==> ids[i] == tokens[i].id
    }

    ghost function Machine(): Acc
      reads this`pending, this`tokens
    {
      Acc(pending, tokens)
    }

    constructor (model: Model, ghost distance: seq<nat>, full: bool, limit: nat, ids: array<nat>, offsets: array<Token>)
      requires ValidModel(model, distance)
      requires if full then limit <= offsets.Length else limit < ids.Length
      ensures Valid() && pending == [] && tokens == []
      ensures this.model == model && this.full == full && this.limit == limit && this.ids == ids && this.offsets == offsets
      ensures fresh(word) && fresh(alignment)
    {
      this.model, this.distance, this.full, this.limit, this.ids, this.offsets := model, distance, full, limit, ids, offsets;
      word := new Byte[BUFFER](_ => 0);
      alignment := new Span[BUFFER](_ => NO_SPAN);
      count, characters, bytes, first, last, pending, tokens := 0, 0, 0, NO_SPAN, NO_SPAN, [], [];
      new;
      EncodeNone();
    }

    /** Records a token while there is room; `exact` is its span when spans are kept. */
    method Emit(id: nat, span: Span, origin: Origin, ghost exact: Span)
      requires Valid() && (full ==> span == exact)
      modifies this`count, this`tokens, ids, offsets
      ensures Valid()
      ensures tokens == old(tokens) + [Token(id, exact, origin)]
    {
      hide ValidModel, HoldsWord, HoldsSpans;
      if count < limit {
        if full {
          offsets[count] := Token(id, span, origin);
        } else {
          ids[count] := id;
        }
      }
      if full || count < limit {
        count := count + 1;
      }
      tokens := tokens + [Token(id, exact, origin)];
    }

    /** The longest vocabulary entry from a letter boundary of the buffer, shortened by
        one letter, byte by byte, while there is none. */
    method LongestMatch(start: nat, ghost k: nat) returns (found: Option<nat>, end: nat, ghost e: nat)
      requires Valid() && characters <= WORD_LIMIT
      requires k < |pending| && start == At(Cps(pending), k)
      ensures var p := Longest(model.lines, Cps(pending), k, |pending|);
        if p.None? then found.None?
        else found == Some(p.value.id) && e == p.value.upto && e <= |pending| && end == At(Cps(pending), e)
    {
      hide HoldsSpans, HoldsOutput, Table, Longest, EncodeAll, Lookup, At;
      ghost var w := Cps(pending);
      assert Kept(pending) == pending;
      end, e, found := bytes, |w|, None;
      BytesBetween(w, k, |w|);
      BoundaryFirst(w, k);
      while end > start
        invariant k <= e <= |w| && end == At(w, e) && start <= end <= bytes && found.None?
        invariant Longest(model.lines, w, k, |w|) == Longest(model.lines, w, k, e)
        decreases end
      {
        var candidate := (if start > 0 then CONTINUED else []) + word[start..end];
        BytesBetween(w, k, e);
        assert word[start..end] == word[..bytes][start..end];
        assert candidate == Candidate(w, k, e);
        found := Find(model.lines, model.slots, candidate, distance);
        LongestOne(model.lines, w, k, e);
        if found.Some? {
          return;
        }
        end := StepBack(start, end, k, e);
        e := e - 1;
      }
      LongestOne(model.lines, w, k, e);
      if e > k {
        LetterShape(w, k);
        BytesBetween(w, k + 1, e);
      }
    }

    /** Back over one letter: to the last byte before `end` that does not continue one. */
    method StepBack(start: nat, end: nat, ghost k: nat, ghost e: nat) returns (at: nat)
      requires Valid() && characters <= WORD_LIMIT && k < e <= |pending|
      requires var w := Cps(pending); start == At(w, k) && end == At(w, e) && start < end <= bytes
      ensures at == At(Cps(pending), e - 1) && start <= at < end
    {
      hide ValidModel, HoldsSpans, HoldsOutput, EncodeAll, At;
      ghost var w := Cps(pending);
      assert Kept(pending) == pending;
      LetterShape(w, e - 1);
      BytesBetween(w, k, e - 1);
      at := end - 1;
      assert word[at] == word[..bytes][at];
      while at > start && Continuation(word[at])
        invariant At(w, e - 1) <= at < At(w, e) && start <= at < end
        decreases at
      {
        at := at - 1;
      }
      assert word[at] == word[..bytes][at];
    }

    method EmitWord(id: nat, begin: nat, end: nat, unknown: bool, origin: Origin, ghost exact: Span)
      requires Valid() && (unknown || (begin < BUFFER && 0 < end <= BUFFER))
      requires full ==>
        exact == if unknown then Hull(first, last) else Hull(alignment[begin], alignment[end - 1])
      modifies this`count, this`tokens, ids, offsets
      ensures Valid()
      ensures tokens == old(tokens) + [Token(id, exact, origin)]
    {
      hide ValidModel, HoldsWord, HoldsSpans, HoldsOutput;
      var span := NO_SPAN;
      if full {
        var a := if unknown then first else alignment[begin];
        var b := if unknown then last else alignment[end - 1];
        span := Span(a.byteStart, b.byteEnd, a.unitStart, b.unitEnd);
      }
      Emit(id, span, origin, exact);
    }

    /** Greedy segmentation of a buffered word, left to right; one missing entry makes
        the whole word unknown. Never more pieces than letters. */
    method Segment() returns (pieces: seq<Buffered>, unknown: bool, ghost ps: seq<Piece>)
      requires Valid() && 0 < characters <= WORD_LIMIT
      ensures |pieces| <= WORD_LIMIT
      ensures unknown <==> Greedy(model.lines, Cps(pending), 0).None?
      ensures !unknown ==> Greedy(model.lines, Cps(pending), 0) == Some(ps) && Matches(pieces, ps, Cps(pending))
    {
      hide Valid, Longest, At;
      hide Greedy;
      WholeWord();
      ghost var w := Cps(pending);
      pieces, unknown, ps := [], false, [];
      var start := 0;
      ghost var k := 0;
      BytesBetween(w, 0, |w|);
      GreedyStart(model.lines, w);
      while start < bytes
        invariant k <= |w| && start == At(w, k) && |ps| <= k && !unknown
        invariant Matches(pieces, ps, w)
        invariant Greedy(model.lines, w, 0) == Continued(ps, Greedy(model.lines, w, k))
        decreases |w| - k
      {
        assert k < |w| by { BytesBetween(w, |w|, |w|); }
        var found, end, e := LongestMatch(start, k);
        GreedyOne(model.lines, w, k);
        if found.None? {
          return [], true, [];
        }
        ghost var p := Piece(found.value, k, e);
        GrowMatches(pieces, ps, Buffered(found.value, start, end), p, w);
        GrowContinued(ps, p, Greedy(model.lines, w, e));
        pieces, ps := pieces + [Buffered(found.value, start, end)], ps + [p];
        start, k := end, e;
      }
      BytesBetween(w, k, |w|);
      AtWhole(w, k);
      GreedyOne(model.lines, w, |w|);
      assert ps + [] == ps;
    }

    lemma WholeWord()
      requires Valid() && characters <= WORD_LIMIT
      ensures bytes == |EncodeAll(Cps(pending))| && |pending| == characters
      ensures full ==> alignment[..bytes] == Spread(pending)
    {
      hide ValidModel, HoldsOutput;
      assert Kept(pending) == pending;
    }

    /** Ends the pending word: its pieces, or the unknown token over the whole word. */
    method Flush(origin: Origin)
      requires Valid()
      modifies this`count, this`tokens, this`pending, this`characters, this`bytes, ids, offsets
      ensures Valid() && Machine() == Flushed(Lang(model), old(Machine()), origin)
    {
      hide Greedy, Lang, EncodeAll, Valid;
      assert InBounds(model) && characters == |pending| by { Basics(); }
      if characters == 0 {
        assert Pieces(Lang(model), pending, origin) == [] by { assert pending == []; NoPieces(Lang(model), origin); }
        assert tokens + [] == tokens;
        return;
      }
      ghost var lines := model.lines;
      assert Lang(model).lines == lines by { LangLines(model); }
      ghost var exact := Hull(pending[0].span, pending[|pending| - 1].span);
      assert full ==> exact == Hull(first, last) by { Basics(); }
      if characters > WORD_LIMIT {
        EmitWord(UNKNOWN, 0, 0, true, origin, exact);
      } else {
        var pieces, unknown, ps := Segment();
        if unknown {
          EmitWord(UNKNOWN, 0, bytes, true, origin, exact);
        } else {
          EmitPieces(pieces, ps, origin);
        }
      }
      Reset();
    }

    lemma Basics()
      requires Valid()
      ensures InBounds(model) && characters == |pending| && bytes <= BUFFER
      ensures full && pending != [] ==> first == pending[0].span && last == pending[|pending| - 1].span
    {
      hide HoldsOutput;
    }

    method Reset()
      requires Valid()
      modifies this`pending, this`characters, this`bytes
      ensures Valid() && pending == []
    {
      hide ValidModel, HoldsOutput;
      characters, bytes, pending := 0, 0, [];
      EncodeNone();
    }

    lemma PieceInBuffer(b: Buffered, p: Piece)
      requires Valid() && 0 < characters <= WORD_LIMIT && Held(b, p, Cps(pending))
      ensures p.from < p.upto <= |pending| && b.id == p.id && b.begin < BUFFER && 0 < b.end <= BUFFER
      ensures full ==> alignment.Length == BUFFER && alignment[b.begin] == pending[p.from].span && alignment[b.end - 1] == pending[p.upto - 1].span
    {
      hide Valid, At, Spread, EncodeAll;
      WholeWord();
      Basics();
      SpreadAt(pending, p.from);
      SpreadAt(pending, p.upto - 1);
      BytesBetween(Cps(pending), p.upto, p.upto);
      Buffers();
      if full {
        var spans := alignment[..bytes];
        assert spans[b.begin] == alignment[b.begin] && spans[b.end - 1] == alignment[b.end - 1];
      }
    }

    lemma MatchesInside(pieces: seq<Buffered>, ps: seq<Piece>)
      requires Matches(pieces, ps, Cps(pending))
      ensures forall i :: 0 <= i < |ps| ==> ps[i].from < ps[i].upto <= |pending|
    {
      assert forall i :: 0 <= i < |ps| ==> Held(pieces[i], ps[i], Cps(pending));
    }

    lemma Buffers()
      requires Valid()
      ensures word.Length == BUFFER && alignment.Length == BUFFER && bytes <= BUFFER
    {
      hide ValidModel;
    }

    method EmitPieces(pieces: seq<Buffered>, ghost ps: seq<Piece>, origin: Origin)
      requires Valid() && 0 < characters <= WORD_LIMIT && Matches(pieces, ps, Cps(pending))
      modifies this`count, this`tokens, ids, offsets
      ensures forall i :: 0 <= i < |ps| ==> ps[i].from < ps[i].upto <= |pending|
      ensures Valid() && tokens == old(tokens) + PieceTokens(pending, ps, origin)
    {
      hide Valid, Held;
      assert forall i :: 0 <= i < |ps| ==> ps[i].from < ps[i].upto <= |pending| by { MatchesInside(pieces, ps); }
      ghost var all := PieceTokens(pending, ps, origin);
      for i := 0 to |pieces|
        invariant Valid() && tokens == old(tokens) + all[..i]
      {
        ghost var p := ps[i];
        assert Held(pieces[i], p, Cps(pending));
        PieceInBuffer(pieces[i], p);
        ghost var exact := Hull(pending[p.from].span, pending[p.upto - 1].span);
        EmitWord(pieces[i].id, pieces[i].begin, pieces[i].end, false, origin, exact);
        assert all[..i + 1] == all[..i] + [all[i]];
      }
      assert all[..|pieces|] == all;
    }

    /** One letter at the end of the pending word; beyond a hundred only counted. */
    method Append(cp: CodePoint, span: Span)
      requires Valid()
      modifies this`pending, this`characters, this`bytes, this`first, this`last, word, alignment
      ensures Valid() && pending == old(pending) + [Char(cp, span)]
    {
      hide ValidModel, HoldsOutput, Encode, EncodeAll, Spread;
      ghost var c := Char(cp, span);
      ghost var kept := Kept(pending);
      if full {
        if characters == 0 {
          first := span;
        }
        last := span;
      }
      characters := characters + 1;
      pending := pending + [c];
      if characters <= WORD_LIMIT {
        assert kept == old(pending) && Kept(pending) == kept + [c];
        AppendWord(kept, c);
        var e := Encode(cp);
        Write(e, span);
      } else {
        assert Kept(pending) == kept;
      }
    }

    /** Puts the bytes of one letter, and their span, at the end of the buffer. */
    method Write(e: seq<Byte>, span: Span)
      requires Fixed() && bytes + |e| <= BUFFER
      modifies this`bytes, word, alignment
      ensures bytes == old(bytes) + |e|
      ensures word[..bytes] == old(word[..bytes]) + e
      ensures full ==> alignment[..bytes] == old(alignment[..bytes]) + Repeat(span, |e|)
    {
      hide ValidModel;
      for i := 0 to |e|
        invariant bytes == old(bytes)
        invariant word[..bytes + i] == old(word[..bytes]) + e[..i]
        invariant full ==> alignment[..bytes + i] == old(alignment[..bytes]) + Repeat(span, i)
      {
        word[bytes + i] := e[i];
        if full {
          alignment[bytes + i] := span;
        }
        assert e[..i + 1] == e[..i] + [e[i]];
        assert Repeat(span, i + 1) == Repeat(span, i) + [span];
      }
      bytes := bytes + |e|;
      assert e[..|e|] == e;
    }

    /** A letter ends the word, is a word, or joins it. */
    method Normalized(cp: CodePoint, span: Span, origin: Origin)
      requires Valid()
      modifies this, ids, offsets, word, alignment
      ensures Valid() && Machine() == AcceptLetter(Lang(model), old(Machine()), Char(cp, span), origin)
    {
      hide Pieces, Covers, Cjk, Valid;
      TablesUsable();
      if cp == BLANK {
        Flush(origin);
        return;
      }
      var boundary := Cjk(cp);
      if !boundary {
        boundary := InRanges(model.data, model.punctuationAt, model.punctuationCount, cp);
      }
      if boundary {
        Flush(origin);
        assert [] + [Char(cp, span)] == [Char(cp, span)];
      }
      Append(cp, span);
      if boundary {
        Flush(origin);
      }
    }

    lemma TablesUsable()
      requires Valid()
      ensures InBounds(model) && Lang(model).pool == model.pool
      ensures Lang(model).punctuation == ReadRanges(model.data, model.punctuationAt, model.punctuationCount)
      ensures Lang(model).deletion == ReadRanges(model.data, model.deletionAt, model.deletionCount)
      ensures Lang(model).mapping == ReadEntries(model.data, model.mappingAt, model.mappingCount)
      ensures Ordered(Lang(model).punctuation) && Ordered(Lang(model).deletion) && Keyed(Lang(model).mapping)
      ensures forall e :: e in Lang(model).mapping ==> e.offset + e.size <= |model.pool|
    {
      hide HoldsWord, HoldsSpans, HoldsOutput, Table;
    }

    /** The scalars one entry of the mapping table stands for. */
    method Expand(stored: seq<Byte>, span: Span, origin: Origin) returns (status: Status)
      requires Valid()
      modifies this, ids, offsets, word, alignment
      ensures Valid()
      ensures status == (if DecodeAll(stored, 0).Some? then Ok else Format)
      ensures status == Ok ==>
        Machine() == AcceptAll(Lang(model), old(Machine()), Letters(DecodeAll(stored, 0).value, span), origin)
    {
      hide AcceptLetter, Decode, DecodeAll, Valid, AcceptAll;
      TablesUsable();
      var at := 0;
      ghost var whole := DecodeAll(stored, 0);
      ghost var start := Machine();
      while at < |stored|
        invariant Valid() && at <= |stored|
        invariant InBounds(model)
        invariant whole.Some? == DecodeAll(stored, at).Some?
        invariant whole.Some? ==>
          AcceptAll(Lang(model), start, Letters(whole.value, span), origin) ==
          AcceptAll(Lang(model), Machine(), Letters(DecodeAll(stored, at).value, span), origin)
        decreases |stored| - at
      {
        var d := DecodeNext(stored, at);
        DecodeAllOne(stored, at);
        if d.Malformed? {
          return Format;
        }
        DecodeOnlyEncoded(stored, at);
        ghost var rest := DecodeAll(stored, at);
        if rest.Some? {
          LettersOne(rest.value, span);
          AcceptOne(Lang(model), Machine(), Letters(rest.value, span), origin);
        }
        Normalized(d.cp, span, origin);
        at := d.next;
      }
      DecodeAllOne(stored, at);
      AcceptOne(Lang(model), Machine(), [], origin);
      return Ok;
    }

    /** One pass over a text. A bounded pass may stop once the output is full. */
    method Process(text: seq<Byte>, origin: Origin) returns (status: Status)
      requires Valid()
      modifies this, ids, offsets, word, alignment
      ensures Valid()
      ensures status != Ok ==> Items(Lang(model), text, 0, 0).None? && status in {BadUtf8, Format}
      ensures status == Ok && (full || |tokens| < limit) ==>
        Items(Lang(model), text, 0, 0).Some? &&
        Machine() == AcceptAll(Lang(model), old(Machine()), Items(Lang(model), text, 0, 0).value, origin)
      ensures status == Ok ==> old(tokens) <= tokens
      ensures status == Ok && Items(Lang(model), text, 0, 0).Some? ==>
        tokens <= AcceptAll(Lang(model), old(Machine()), Items(Lang(model), text, 0, 0).value, origin).tokens
    {
      hide AcceptItem, AcceptAll, Items, ReadItem, Valid, SpecialAt;
      TablesUsable();
      ghost var lang := Lang(model);
      ghost var start := Machine();
      ghost var whole := Items(lang, text, 0, 0);
      var cursor, units := 0, 0;
      while cursor < |text| && (full || count < limit)
        invariant Valid() && cursor <= |text| && InBounds(model) && start.tokens <= tokens
        invariant whole.Some? == Items(lang, text, cursor, units).Some?
        invariant whole.Some? ==>
          AcceptAll(lang, start, whole.value, origin) == AcceptAll(lang, Machine(), Items(lang, text, cursor, units).value, origin)
        decreases |text| - cursor
      {
        ItemsOne(lang, text, cursor, units);
        ghost var before := Machine();
        ghost var r := ReadItem(lang, text, cursor, units);
        ghost var tail := if r.Piecewise? then Items(lang, text, r.next, r.units) else None;
        var step := Step(text, cursor, units, origin);
        if step.Failed? {
          return step.status;
        }
        AcceptExtends(lang, before, r.items, origin);
        if tail.Some? {
          AcceptAppend(lang, before, r.items, tail.value, origin);
        }
        cursor, units := step.next, step.units;
      }
      if whole.Some? {
        AcceptExtends(lang, Machine(), Items(lang, text, cursor, units).value, origin);
      }
      if cursor == |text| {
        ItemsOne(lang, text, cursor, units);
        AcceptOne(lang, Machine(), [], origin);
      } else {
        CountBounds();
      }
      return Ok;
    }

    lemma CountBounds()
      requires Valid() && !full
      ensures count == Min(|tokens|, limit)
    {
      hide ValidModel, HoldsWord;
    }

    /** One marker or one scalar of the text. */
    method Step(text: seq<Byte>, cursor: nat, units: nat, origin: Origin) returns (step: Stepped)
      requires Valid() && cursor < |text|
      modifies this, ids, offsets, word, alignment
      ensures Valid() && InBounds(model)
      ensures var r := ReadItem(Lang(model), text, cursor, units);
        if step.Failed? then r.Bad? && step.status in {BadUtf8, Format}
        else r.Piecewise? && step == Advanced(r.next, r.units) &&
             Machine() == AcceptAll(Lang(model), old(Machine()), r.items, origin)
    {
      hide AcceptItem, AcceptAll, Valid, Covers, Decode, SpecialAt, Reads, Mapped;
      TablesUsable();
      var special := FindSpecial(text, cursor);
      if special.Some? {
        var literal := SPECIALS[special.value];
        var n := |literal.0|;
        var span := Span(cursor, cursor + n, units, units + n);
        assert SpecialAt(text, cursor, 0) == special && cursor + n <= |text| by { SpecialFits(text, cursor, 0); }
        Mark(literal.1, span, origin);
        return Advanced(cursor + n, units + n);
      }
      var d := DecodeNext(text, cursor);
      if d.Malformed? {
        return Failed(BadUtf8);
      }
      DecodeOnlyEncoded(text, cursor);
      var cp: CodePoint := d.cp;
      var after := units + Units(cp);
      var span := Span(cursor, d.next, units, after);
      var deleted := InRanges(model.data, model.deletionAt, model.deletionCount, cp);
      if deleted {
        AcceptOne(Lang(model), Machine(), [], origin);
        return Advanced(d.next, after);
      }
      var status := Map(cp, span, origin);
      if status != Ok {
        return Failed(status);
      }
      return Advanced(d.next, after);
    }

    /** A literal marker ends the word and stands for itself. */
    method Mark(id: nat, span: Span, origin: Origin)
      requires Valid()
      modifies this, ids, offsets, word, alignment
      ensures Valid() && InBounds(model)
      ensures Machine() == AcceptAll(Lang(model), old(Machine()), [Special(id, span)], origin)
    {
      hide Valid, Pieces, AcceptAll;
      TablesUsable();
      AcceptSingle(Lang(model), Machine(), Special(id, span), origin);
      Flush(origin);
      Emit(id, span, origin, span);
    }

    /** One scalar, through the mapping table. */
    method Map(cp: CodePoint, span: Span, origin: Origin) returns (status: Status)
      requires Valid()
      modifies this, ids, offsets, word, alignment
      ensures Valid() && InBounds(model)
      ensures var m := Mapped(Lang(model), cp);
        if m.None? then status == Format
        else status == Ok && Machine() == AcceptAll(Lang(model), old(Machine()), Letters(m.value, span), origin)
    {
      hide AcceptLetter, AcceptAll, Valid;
      TablesUsable();
      var mapping := FindMapping(model.data, model.mappingAt, model.mappingCount, cp);
      if mapping.Some? {
        var e := mapping.value;
        status := Expand(model.pool[e.offset..e.offset + e.size], span, origin);
      } else {
        LettersOne([cp], span);
        LettersOne([], span);
        assert [cp][1..] == [];
        assert Letters([cp], span) == [Letter(Char(cp, span))];
        AcceptSingle(Lang(model), Machine(), Letter(Char(cp, span)), origin);
        Normalized(cp, span, origin);
        status := Ok;
      }
    }
  }

  datatype Stepped = Advanced(next: nat, units: nat) | Failed(status: Status)

  /** The literal at a position, tried in order, and only after an opening bracket. */
  method FindSpecial(text: seq<Byte>, cursor: nat) returns (r: Option<nat>)
    requires cursor < |text|
    ensures r == SpecialAt(text, cursor, 0)
  {
    hide Reads;
    r := None;
    if text[cursor] == 0x5B {
      var k := 0;
      while k < |SPECIALS|
        invariant 0 <= k <= |SPECIALS|
        invariant SpecialAt(text, cursor, 0) == SpecialAt(text, cursor, k)
      {
        if Reads(text, cursor, SPECIALS[k].0) {
          return Some(k);
        }
        k := k + 1;
      }
    } else {
      NoSpecial(text, cursor, 0);
    }
  }

  lemma {:induction false} NoSpecial(text: seq<Byte>, cursor: nat, k: nat)
    requires cursor < |text| && text[cursor] != 0x5B && k <= |SPECIALS|
    ensures SpecialAt(text, cursor, k) == None
    decreases |SPECIALS| - k
  {
    if k < |SPECIALS| {
      assert SPECIALS[k].0[0] == '[';
      NoSpecial(text, cursor, k + 1);
    }
  }

  lemma SpecialFits(text: seq<Byte>, at: nat, k: nat)
    requires k <= |SPECIALS|
    ensures var r := SpecialAt(text, at, k); r.Some? ==> at + |SPECIALS[r.value].0| <= |text|
  {
  }

  lemma ItemsOne(lang: Language, text: seq<Byte>, at: nat, units: nat)
    requires at <= |text|
    ensures Items(lang, text, at, units) ==
      if at == |text| then Some([])
      else
        var r := ReadItem(lang, text, at, units);
        if r.Bad? then None
        else var rest := Items(lang, text, r.next, r.units); if rest.None? then None else Some(r.items + rest.value)
  {
    hide ReadItem;
  }

  lemma DecodeAllOne(bytes: seq<Byte>, i: nat)
    requires i <= |bytes|
    ensures i == |bytes| ==> DecodeAll(bytes, i) == Some([])
    ensures i < |bytes| && Decode(bytes, i).Malformed? ==> DecodeAll(bytes, i).None?
    ensures i < |bytes| && Decode(bytes, i).Decoded? ==>
      var d := Decode(bytes, i);
      i < d.next <= |bytes| &&
      (DecodeAll(bytes, i).Some? <==> DecodeAll(bytes, d.next).Some?) &&
      (DecodeAll(bytes, i).Some? ==> DecodeAll(bytes, i).value == [d.cp] + DecodeAll(bytes, d.next).value)
  {
    hide Decode;
    if i < |bytes| && Decode(bytes, i).Decoded? {
      DecodeOnlyEncoded(bytes, i);
    }
  }

  lemma LettersOne(cps: seq<CodePoint>, span: Span)
    ensures cps == [] ==> Letters(cps, span) == []
    ensures cps != [] ==> Letters(cps, span) == [Letter(Char(cps[0], span))] + Letters(cps[1..], span)
    ensures cps != [] ==> Letters(cps, span)[0] == Letter(Char(cps[0], span)) && Letters(cps, span)[1..] == Letters(cps[1..], span)
  {
  }

  lemma AcceptSingle(lang: Language, a: Acc, item: Item, origin: Origin)
    ensures AcceptAll(lang, a, [item], origin) == AcceptItem(lang, a, item, origin)
  {
    hide AcceptItem;
    assert [item][1..] == [];
  }

  /** A piece as byte positions of the buffer. */
  datatype Buffered = Buffered(id: nat, begin: nat, end: nat)

  ghost predicate Held(b: Buffered, p: Piece, w: seq<CodePoint>) {
    p.from < p.upto <= |w| && b == Buffered(p.id, At(w, p.from), At(w, p.upto))
  }

  ghost predicate Matches(bs: seq<Buffered>, ps: seq<Piece>, w: seq<CodePoint>) {
    |bs| == |ps| && forall i :: 0 <= i < |bs| ==> Held(bs[i], ps[i], w)
  }

  lemma GrowMatches(bs: seq<Buffered>, ps: seq<Piece>, b: Buffered, p: Piece, w: seq<CodePoint>)
    requires Matches(bs, ps, w) && Held(b, p, w)
    ensures Matches(bs + [b], ps + [p], w)
  {
    hide Held;
  }

  function Continued(ps: seq<Piece>, rest: Option<seq<Piece>>): Option<seq<Piece>> {
    if rest.None? then None else Some(ps + rest.value)
  }

  lemma GrowContinued(ps: seq<Piece>, p: Piece, rest: Option<seq<Piece>>)
    ensures Continued(ps, if rest.None? then None else Some([p] + rest.value)) == Continued(ps + [p], rest)
  {
    if rest.Some? {
      assert ps + ([p] + rest.value) == ps + [p] + rest.value;
    }
  }

  lemma GreedyStart(lines: seq<seq<Byte>>, w: seq<CodePoint>)
    ensures Greedy(lines, w, 0) == Continued([], Greedy(lines, w, 0))
  {
    hide Greedy;
    var g := Greedy(lines, w, 0);
    if g.Some? {
      assert [] + g.value == g.value;
    }
  }

  lemma GreedyOne(lines: seq<seq<Byte>>, w: seq<CodePoint>, k: nat)
    requires k <= |w|
    ensures Greedy(lines, w, k) ==
      if k == |w| then Some([])
      else
        var p := Longest(lines, w, k, |w|);
        if p.None? then None
        else var rest := Greedy(lines, w, p.value.upto); if rest.None? then None else Some([p.value] + rest.value)
  {
    hide Longest;
  }

  lemma LangLines(m: Model)
    requires InBounds(m)
    ensures Lang(m).lines == m.lines
  {
  }

  lemma LongestOne(lines: seq<seq<Byte>>, w: seq<CodePoint>, k: nat, e: nat)
    requires k <= e <= |w|
    ensures Longest(lines, w, k, e) ==
      if e == k then None
      else
        var id := Lookup(lines, Candidate(w, k, e), 0);
        if id.Some? then Some(Piece(id.value, k, e)) else Longest(lines, w, k, e - 1)
  {
  }
}
