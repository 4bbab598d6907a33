/** The tokenizer's left-to-right machine: a pending word and the tokens so far. It
    computes `WordPiece.Tokens`, and what it has emitted never changes. */
module TokenMachine {
  import opened Common
  import opened Utf8
  import opened WordPiece

  datatype Acc = Acc(pending: seq<Char>, tokens: seq<Token>)

  function Flushed(lang: Language, a: Acc, origin: Origin): Acc {
    Acc([], a.tokens + Pieces(lang, a.pending, origin))
  }

  function AcceptLetter(lang: Language, a: Acc, c: Char, origin: Origin): Acc {
    if c.cp == BLANK then Flushed(lang, a, origin)
    else if Alone(lang, c.cp) then Flushed(lang, Acc([c], Flushed(lang, a, origin).tokens), origin)
    else Acc(a.pending + [c], a.tokens)
  }

  function AcceptItem(lang: Language, a: Acc, item: Item, origin: Origin): Acc {
    match item
    case Letter(c) => AcceptLetter(lang, a, c, origin)
    case Special(id, span) => Acc([], Flushed(lang, a, origin).tokens + [Token(id, span, origin)])
  }

  function AcceptAll(lang: Language, a: Acc, items: seq<Item>, origin: Origin): Acc
    decreases |items|
  {
    if items == [] then a else AcceptAll(lang, AcceptItem(lang, a, items[0], origin), items[1..], origin)
  }

  lemma {:induction false} AcceptAppend(lang: Language, a: Acc, x: seq<Item>, y: seq<Item>, origin: Origin)
    ensures AcceptAll(lang, a, x + y, origin) == AcceptAll(lang, AcceptAll(lang, a, x, origin), y, origin)
    decreases |x|
  {
    hide AcceptItem;
    if x == [] {
      assert x + y == y;
    } else {
      assert (x + y)[1..] == x[1..] + y;
      AcceptAppend(lang, AcceptItem(lang, a, x[0], origin), x[1..], y, origin);
    }
  }

  /** Tokens once emitted stay, in place. */
  lemma {:induction false} AcceptExtends(lang: Language, a: Acc, items: seq<Item>, origin: Origin)
    ensures a.tokens <= AcceptAll(lang, a, items, origin).tokens
    decreases |items|
  {
    hide Pieces, Alone;
    if items != [] {
      AcceptExtends(lang, AcceptItem(lang, a, items[0], origin), items[1..], origin);
    }
  }

  // ----- the machine computes the definition -----

  function AsItems(cs: seq<Char>): (r: seq<Item>)
    ensures |r| == |cs| && forall k :: 0 <= k < |cs| ==> r[k] == Letter(cs[k])
  {
    seq(|cs|, k requires 0 <= k < |cs| => Letter(cs[k]))
  }

  ghost predicate AllJoin(lang: Language, cs: seq<Char>) { forall k :: 0 <= k < |cs| ==> Joins(lang, Letter(cs[k])) }

  lemma {:induction false} RunOver(lang: Language, cs: seq<Char>, items: seq<Item>)
    requires AllJoin(lang, cs) && (items != [] ==> !Joins(lang, items[0]))
    ensures Run(lang, AsItems(cs) + items) == |cs|
    decreases |cs|
  {
    hide Joins;
    if cs == [] {
      assert AsItems(cs) + items == items;
    } else {
      var all := AsItems(cs) + items;
      assert all[0] == Letter(cs[0]) && all[1..] == AsItems(cs[1..]) + items;
      RunOver(lang, cs[1..], items);
    }
  }

  /** A pending word in front of an item that does not join it is a word of its own. */
  lemma WordFirst(lang: Language, cs: seq<Char>, items: seq<Item>, origin: Origin)
    requires AllJoin(lang, cs) && (items != [] ==> !Joins(lang, items[0]))
    ensures Tokens(lang, AsItems(cs) + items, origin) == Pieces(lang, cs, origin) + Tokens(lang, items, origin)
  {
    hide Run, Pieces, Alone;
    var all := AsItems(cs) + items;
    if cs == [] {
      assert all == items;
      assert Pieces(lang, cs, origin) == [] by { NoPieces(lang, origin); }
    } else {
      RunOver(lang, cs, items);
      assert all[0] == Letter(cs[0]) && Joins(lang, all[0]);
      assert all[..|cs|] == AsItems(cs) && all[|cs|..] == items;
      assert Chars(AsItems(cs)) == cs;
    }
  }

  lemma NoPieces(lang: Language, origin: Origin)
    ensures Pieces(lang, [], origin) == []
  {
  }

  lemma {:induction false} MachineIsTokens(lang: Language, a: Acc, items: seq<Item>, origin: Origin)
    requires AllJoin(lang, a.pending)
    ensures AllJoin(lang, AcceptAll(lang, a, items, origin).pending)
    ensures Flushed(lang, AcceptAll(lang, a, items, origin), origin).tokens ==
      a.tokens + Tokens(lang, AsItems(a.pending) + items, origin)
    decreases |items|
  {
    hide Pieces, Tokens, Alone, AcceptAll;
    AcceptOne(lang, a, items, origin);
    if items == [] {
      WordFirst(lang, a.pending, [], origin);
      NoTokens(lang, origin);
    } else {
      var next := AcceptItem(lang, a, items[0], origin);
      if Joins(lang, items[0]) {
        assert AsItems(a.pending) + items == AsItems(next.pending) + items[1..];
        MachineIsTokens(lang, next, items[1..], origin);
      } else {
        WordFirst(lang, a.pending, items, origin);
        TokensOne(lang, items, origin);
        NoPieces(lang, origin);
        assert AsItems(next.pending) + items[1..] == items[1..];
        MachineIsTokens(lang, next, items[1..], origin);
      }
    }
  }

  lemma AcceptOne(lang: Language, a: Acc, items: seq<Item>, origin: Origin)
    ensures AcceptAll(lang, a, items, origin) ==
      if items == [] then a else AcceptAll(lang, AcceptItem(lang, a, items[0], origin), items[1..], origin)
  {
    hide AcceptItem;
  }

  lemma NoTokens(lang: Language, origin: Origin)
    ensures Tokens(lang, [], origin) == []
  {
  }

  lemma TokensOne(lang: Language, items: seq<Item>, origin: Origin)
    requires items != [] && !Joins(lang, items[0])
    ensures Tokens(lang, items, origin) ==
      (if items[0].Special? then [Token(items[0].id, items[0].span, origin)]
       else if items[0].letter.cp == BLANK then []
       else Pieces(lang, [items[0].letter], origin)) + Tokens(lang, items[1..], origin)
  {
    hide Pieces, Alone, Run;
  }

  // ----- one whole input -----

  datatype Role = Document | Query

  const PREFIX := "Represent this sentence for searching relevant passages: "

  function PrefixBytes(): (b: seq<Byte>)
    ensures |b| == |PREFIX|
  {
    seq(|PREFIX|, k requires 0 <= k < |PREFIX| => Ascii(PREFIX[k]))
  }

  function Ascii(c: char): Byte { (c as int) % 256 }

  const NO_SPAN := Span(0, 0, 0, 0)

  /** The machine after the framing token and, for a query, the fixed prefix. */
  function Opened(lang: Language, role: Role): Option<Acc> {
    var start := Acc([], [Token(CLS, NO_SPAN, Framing)]);
    if role == Document then Some(start)
    else
      var items := Items(lang, PrefixBytes(), 0, 0);
      if items.None? then None else Some(AcceptAll(lang, start, items.value, QueryPrefix))
  }

  /** Every token of an input, framing included; nothing when it is not well-formed. */
  function FullTokens(lang: Language, role: Role, text: seq<Byte>): (r: Option<seq<Token>>)
    ensures r.Some? ==> |r.value| >= 1
  {
    var begun := Opened(lang, role);
    var items := Items(lang, text, 0, 0);
    if begun.None? || items.None? then None
    else
      var closed := Flushed(lang, AcceptAll(lang, begun.value, items.value, Source), Source);
      Some(closed.tokens + [Token(SEP, NO_SPAN, Framing)])
  }

  /** For a document the tokens between the framing ones are the ones defined. */
  lemma DocumentTokens(lang: Language, text: seq<Byte>)
    requires Items(lang, text, 0, 0).Some?
    ensures FullTokens(lang, Document, text) ==
      Some([Token(101, NO_SPAN, Framing)] + Tokens(lang, Items(lang, text, 0, 0).value, Source) + [Token(102, NO_SPAN, Framing)])
  {
    hide Items, Pieces, Tokens;
    var items := Items(lang, text, 0, 0).value;
    var start := Acc([], [Token(CLS, NO_SPAN, Framing)]);
    MachineIsTokens(lang, start, items, Source);
    assert AsItems([]) + items == items;
  }

  /** Framing plus at most one token per normalized letter or marker. */
  lemma {:induction false} TokensBounded(lang: Language, items: seq<Item>, origin: Origin)
    ensures |Tokens(lang, items, origin)| <= |items|
    decreases |items|
  {
    hide Run, Alone;
    if items != [] {
      if Joins(lang, items[0]) {
        var n := Run(lang, items);
        assert n > 0 by { RunPositive(lang, items); }
        PiecesBounded(lang, Chars(items[..n]), origin);
        TokensBounded(lang, items[n..], origin);
      } else {
        if items[0].Letter? {
          PiecesBounded(lang, [items[0].letter], origin);
        }
        TokensBounded(lang, items[1..], origin);
      }
    }
  }

  lemma RunPositive(lang: Language, items: seq<Item>)
    requires items != [] && Joins(lang, items[0])
    ensures Run(lang, items) > 0
  {
  }

  lemma PiecesBounded(lang: Language, word: seq<Char>, origin: Origin)
    ensures |Pieces(lang, word, origin)| <= |word|
  {
    hide Greedy;
  }
}
