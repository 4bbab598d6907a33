/** What the tokenizer of packages/quixi-embed/native/tokenizer.c makes of a text, told by the
    text's own pieces: markers, scalars and words where they stand side by side. */
module TokenLaws {
  import opened Common
  import opened Utf8
  import opened UnicodeTables
  import opened WordPiece
  import opened TokenMachine
  import opened Tokenizer

  // ----- text to items -----

  /** These bytes stand here. */
  predicate Stands(text: seq<Byte>, at: nat, bytes: seq<Byte>) { at + |bytes| <= |text| && text[at..at + |bytes|] == bytes }

  /** `[PAD]`, `[UNK]`, `[CLS]`, `[SEP]` and `[MASK]` stand for the tokens 0 and 100 to 103. */
  predicate Marker(text: seq<Byte>, at: nat, id: nat, size: nat) {
    || (id == 0 && size == 5 && Stands(text, at, [0x5B, 0x50, 0x41, 0x44, 0x5D]))
    || (id == 100 && size == 5 && Stands(text, at, [0x5B, 0x55, 0x4E, 0x4B, 0x5D]))
    || (id == 101 && size == 5 && Stands(text, at, [0x5B, 0x43, 0x4C, 0x53, 0x5D]))
    || (id == 102 && size == 5 && Stands(text, at, [0x5B, 0x53, 0x45, 0x50, 0x5D]))
    || (id == 103 && size == 6 && Stands(text, at, [0x5B, 0x4D, 0x41, 0x53, 0x4B, 0x5D]))
  }

  ghost predicate MarkerHere(text: seq<Byte>, at: nat) { exists id, size :: Marker(text, at, id, size) }

  lemma FiveRead(text: seq<Byte>, at: nat, literal: string, bytes: seq<Byte>)
    requires |literal| == |bytes| && forall k :: 0 <= k < |bytes| ==> literal[k] as int == bytes[k]
    ensures Reads(text, at, literal) <==> Stands(text, at, bytes)
  {
    if Reads(text, at, literal) {
      assert forall k :: 0 <= k < |bytes| ==> text[at + k] == bytes[k];
    }
    if Stands(text, at, bytes) {
      forall k | 0 <= k < |bytes|
        ensures text[at + k] == bytes[k]
      {
        assert text[at..at + |bytes|][k] == text[at + k];
      }
    }
  }

  lemma SpecialIs(text: seq<Byte>, at: nat)
    ensures var k := SpecialAt(text, at, 0);
      && (k.None? <==> !MarkerHere(text, at))
      && (k.Some? ==> forall id, size :: Marker(text, at, id, size) <==> id == SPECIALS[k.value].1 && size == |SPECIALS[k.value].0|)
  {
    FiveRead(text, at, SPECIALS[0].0, [0x5B, 0x50, 0x41, 0x44, 0x5D]);
    FiveRead(text, at, SPECIALS[1].0, [0x5B, 0x55, 0x4E, 0x4B, 0x5D]);
    FiveRead(text, at, SPECIALS[2].0, [0x5B, 0x43, 0x4C, 0x53, 0x5D]);
    FiveRead(text, at, SPECIALS[3].0, [0x5B, 0x53, 0x45, 0x50, 0x5D]);
    FiveRead(text, at, SPECIALS[4].0, [0x5B, 0x4D, 0x41, 0x53, 0x4B, 0x5D]);
    hide Reads;
    assert SpecialAt(text, at, 5) == None;
    assert SpecialAt(text, at, 4) == if Reads(text, at, SPECIALS[4].0) then Some(4) else None;
    assert SpecialAt(text, at, 3) == if Reads(text, at, SPECIALS[3].0) then Some(3) else SpecialAt(text, at, 4);
    assert SpecialAt(text, at, 2) == if Reads(text, at, SPECIALS[2].0) then Some(2) else SpecialAt(text, at, 3);
    assert SpecialAt(text, at, 1) == if Reads(text, at, SPECIALS[1].0) then Some(1) else SpecialAt(text, at, 2);
    SecondBytes(text, at);
    assert SPECIALS[0].1 == 0 && SPECIALS[1].1 == 100 && SPECIALS[2].1 == 101 && SPECIALS[3].1 == 102 && SPECIALS[4].1 == 103;
    if SpecialAt(text, at, 0).Some? {
      var k := SpecialAt(text, at, 0).value;
      assert Marker(text, at, SPECIALS[k].1, |SPECIALS[k].0|);
    }
  }

  /** No two markers begin alike in their first three bytes. */
  lemma SecondBytes(text: seq<Byte>, at: nat)
    ensures forall id, size, jd, tize :: Marker(text, at, id, size) && Marker(text, at, jd, tize) ==> id == jd && size == tize
  {
    forall id, size | Marker(text, at, id, size)
      ensures at + 3 <= |text|
      ensures id == (if text[at + 1] == 0x50 then 0 else if text[at + 1] == 0x55 then 100 else if text[at + 1] == 0x43 then 101
                     else if text[at + 1] == 0x53 then 102 else 103)
      ensures size == if text[at + 1] == 0x4D then 6 else 5
    {
      assert text[at + 1] == text[at..at + size][1];
    }
  }

  /** A marker is read as its token, over its own bytes. */
  lemma MarkersRead(lang: Language, text: seq<Byte>, at: nat, units: nat, id: nat, size: nat)
    requires at < |text| && Marker(text, at, id, size)
    ensures ReadItem(lang, text, at, units) == Piecewise([Special(id, Span(at, at + size, units, units + size))], at + size, units + size)
  {
    hide Marker, SpecialAt, Decode, Covers, Mapped;
    SpecialIs(text, at);
    assert MarkerHere(text, at);
  }

  /** What a scalar becomes: the scalars encoded where the first mapping of it says, or itself. */
  ghost predicate Becomes(lang: Language, cp: CodePoint, letters: seq<CodePoint>) {
    || ((forall i :: 0 <= i < |lang.mapping| ==> lang.mapping[i].cp != cp) && letters == [cp])
    || exists i :: MappedAt(lang, cp, letters, i)
  }

  ghost predicate MappedAt(lang: Language, cp: CodePoint, letters: seq<CodePoint>, i: nat) {
    && i < |lang.mapping| && lang.mapping[i].cp == cp && (forall h :: 0 <= h < i ==> lang.mapping[h].cp != cp)
    && Stands(lang.pool, lang.mapping[i].offset, EncodeAll(letters)) && |EncodeAll(letters)| == lang.mapping[i].size
  }

  lemma {:induction false} FirstEntry(es: seq<Entry>, cp: nat, i: nat)
    requires i < |es| && es[i].cp == cp && forall h :: 0 <= h < i ==> es[h].cp != cp
    ensures FindEntry(es, cp) == Some(es[i])
    decreases i
  {
    if i > 0 {
      FirstEntry(es[1..], cp, i - 1);
    }
  }

  lemma BecomesMapped(lang: Language, cp: CodePoint, letters: seq<CodePoint>)
    requires Becomes(lang, cp, letters)
    ensures Mapped(lang, cp) == Some(letters)
  {
    hide EncodeAll, DecodeAll, FindEntry;
    if i :| MappedAt(lang, cp, letters, i) {
      FirstEntry(lang.mapping, cp, i);
      assert EncodeAll(letters)[0..] == EncodeAll(letters);
      DecodeAllEncoded(EncodeAll(letters), 0, letters);
    } else {
      NoEntryFor(lang.mapping, cp);
    }
  }

  lemma {:induction false} NoEntryFor(es: seq<Entry>, cp: nat)
    requires forall i :: 0 <= i < |es| ==> es[i].cp != cp
    ensures FindEntry(es, cp).None?
    decreases |es|
  {
    if es != [] {
      NoEntryFor(es[1..], cp);
    }
  }

  /** A scalar that no marker begins with is read as the letters it becomes, or as none when it is
      deleted; each letter stands for the whole scalar, in bytes and in UTF-16 units. */
  lemma ScalarsRead(lang: Language, text: seq<Byte>, at: nat, units: nat, cp: CodePoint, letters: seq<CodePoint>)
    requires at < |text| && Stands(text, at, Encode(cp)) && !MarkerHere(text, at) && Becomes(lang, cp, letters)
    ensures var r, next, after := ReadItem(lang, text, at, units), at + |Encode(cp)|, units + (if cp >= 0x10000 then 2 else 1);
      && r.Piecewise? && r.next == next && r.units == after
      && (if exists i :: 0 <= i < |lang.deletion| && lang.deletion[i].lo <= cp <= lang.deletion[i].hi then r.items == []
          else |r.items| == |letters| && forall k :: 0 <= k < |letters| ==> r.items[k] == Letter(Char(letters[k], Span(at, next, units, after))))
  {
    hide Encode, Decode, Becomes, Mapped, SpecialAt;
    SpecialIs(text, at);
    BecomesMapped(lang, cp, letters);
    DecodeEncoded(text, at, cp);
    LettersAre(letters, Span(at, at + |Encode(cp)|, units, units + Units(cp)));
  }

  lemma {:induction false} LettersAre(cps: seq<CodePoint>, span: Span)
    ensures |Letters(cps, span)| == |cps| && forall k :: 0 <= k < |cps| ==> Letters(cps, span)[k] == Letter(Char(cps[k], span))
    decreases |cps|
  {
    if cps != [] {
      LettersAre(cps[1..], span);
    }
  }

  // ----- items to words -----

  /** The blocks of CJK ideographs. */
  const IDEOGRAPHS: seq<(nat, nat)> := [
    (0x3400, 0x4DBF), (0x4E00, 0x9FFF), (0xF900, 0xFAFF), (0x20000, 0x2A6DF),
    (0x2A700, 0x2B73F), (0x2B740, 0x2B81F), (0x2B920, 0x2CEAF), (0x2F800, 0x2FA1F)]

  predicate Ideograph(cp: CodePoint) { exists i :: 0 <= i < |IDEOGRAPHS| && IDEOGRAPHS[i].0 <= cp <= IDEOGRAPHS[i].1 }

  predicate Punctuation(lang: Language, cp: CodePoint) {
    exists i :: 0 <= i < |lang.punctuation| && lang.punctuation[i].lo <= cp <= lang.punctuation[i].hi
  }

  /** No word runs across a marker, a space, punctuation or an ideograph. */
  predicate Parts(lang: Language, item: Item) {
    item.Special? || item.letter.cp == 0x20 || Punctuation(lang, item.letter.cp) || Ideograph(item.letter.cp)
  }

  lemma PartsIs(lang: Language, item: Item)
    ensures Parts(lang, item) <==> !Joins(lang, item)
  {
    if item.Letter? {
      var cp := item.letter.cp;
      assert IDEOGRAPHS[0] == (0x3400, 0x4DBF) && IDEOGRAPHS[1] == (0x4E00, 0x9FFF) && IDEOGRAPHS[2] == (0xF900, 0xFAFF)
        && IDEOGRAPHS[3] == (0x20000, 0x2A6DF) && IDEOGRAPHS[4] == (0x2A700, 0x2B73F) && IDEOGRAPHS[5] == (0x2B740, 0x2B81F)
        && IDEOGRAPHS[6] == (0x2B920, 0x2CEAF) && IDEOGRAPHS[7] == (0x2F800, 0x2FA1F);
    }
  }

  /** A text's tokens are those of its parts on either side of a place no word runs across. */
  lemma TokensDivide(lang: Language, x: seq<Item>, y: seq<Item>, origin: Origin)
    requires x == [] || y == [] || Parts(lang, x[|x| - 1]) || Parts(lang, y[0])
    ensures Tokens(lang, x + y, origin) == Tokens(lang, x, origin) + Tokens(lang, y, origin)
  {
    hide Tokens, Pieces, Parts, Joins, AcceptAll, AcceptItem;
    var start := Acc([], []);
    var a := AcceptAll(lang, start, x, origin);
    MachineIsTokens(lang, start, x, origin);
    MachineIsTokens(lang, start, x + y, origin);
    AcceptAppend(lang, start, x, y, origin);
    assert AsItems([]) + x == x && AsItems([]) + (x + y) == x + y;
    MachineIsTokens(lang, a, y, origin);
    NothingPending(lang, x, y, origin);
    var front := Flushed(lang, a, origin).tokens;
    assert [] + Tokens(lang, x, origin) == Tokens(lang, x, origin) && [] + Tokens(lang, x + y, origin) == Tokens(lang, x + y, origin);
    NoPieces(lang, origin);
    if a.pending == [] {
      assert AsItems(a.pending) + y == y && a.tokens + [] == a.tokens;
    } else if y == [] {
      assert x + y == x && Tokens(lang, x, origin) + [] == Tokens(lang, x, origin);
      NoTokens(lang, origin);
    } else {
      PartsIs(lang, y[0]);
      WordFirst(lang, a.pending, y, origin);
      assert a.tokens + (Pieces(lang, a.pending, origin) + Tokens(lang, y, origin)) == front + Tokens(lang, y, origin);
    }
  }

  /** Nothing waits behind an item that no word runs across. */
  lemma NothingPending(lang: Language, x: seq<Item>, y: seq<Item>, origin: Origin)
    requires x == [] || y == [] || Parts(lang, x[|x| - 1]) || Parts(lang, y[0])
    ensures AcceptAll(lang, Acc([], []), x, origin).pending == [] || y == [] || Parts(lang, y[0])
  {
    hide Parts, Joins, Pieces, AcceptItem;
    if x != [] && Parts(lang, x[|x| - 1]) {
      var front, last := x[..|x| - 1], x[|x| - 1];
      assert x == front + [last];
      AcceptAppend(lang, Acc([], []), front, [last], origin);
      var a := AcceptAll(lang, Acc([], []), front, origin);
      AcceptOne(lang, a, [last], origin);
      AcceptOne(lang, AcceptItem(lang, a, last, origin), [], origin);
      assert [last][1..] == [];
      PartsIs(lang, last);
      PartsFlushes(lang, a, last, origin);
    }
  }

  lemma PartsFlushes(lang: Language, a: Acc, item: Item, origin: Origin)
    requires !Joins(lang, item)
    ensures AcceptItem(lang, a, item, origin).pending == []
  {
    hide Pieces;
  }

  /** Letters that nothing parts are one word. */
  lemma WordsWhole(lang: Language, letters: seq<Char>, origin: Origin)
    requires forall k :: 0 <= k < |letters| ==> !Parts(lang, Letter(letters[k]))
    ensures Tokens(lang, AsItems(letters), origin) == Pieces(lang, letters, origin)
  {
    hide Tokens, Pieces, Parts, Joins;
    forall k | 0 <= k < |letters|
      ensures Joins(lang, Letter(letters[k]))
    {
      PartsIs(lang, Letter(letters[k]));
    }
    WordFirst(lang, letters, [], origin);
    NoTokens(lang, origin);
    assert AsItems(letters) + [] == AsItems(letters) && Pieces(lang, letters, origin) + [] == Pieces(lang, letters, origin);
  }

  /** A marker is its token; a space is none; punctuation or an ideograph is a word by itself. */
  lemma PartsAlone(lang: Language, item: Item, origin: Origin)
    requires Parts(lang, item)
    ensures Tokens(lang, [item], origin) ==
      if item.Special? then [Token(item.id, item.span, origin)]
      else if item.letter.cp == 0x20 then [] else Pieces(lang, [item.letter], origin)
  {
    hide Tokens, Pieces, Parts, Joins;
    PartsIs(lang, item);
    TokensOne(lang, [item], origin);
    assert [item][1..] == [];
    NoTokens(lang, origin);
  }
}
