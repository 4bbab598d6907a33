/** The text of a laid-out page, `normalizePdfPage` of packages/documents/src/layout.ts:
    rows or source items become pieces, each a whole item or generated white space. */
module Emission {
  import opened Common
  import opened Utf16
  import opened Layout
  import opened Gutter
  import opened Intake

  const NEWLINE: Unit := 10
  const TAB: Unit := 9
  const SPACE: Unit := 32

  /** Emitted text; generated white space has no source. */
  datatype Piece = Piece(text: Text, source: Option<Item>)

  /** The source items of the pieces, each once per piece. */
  function Sources(pieces: seq<Piece>): seq<Item> {
    if pieces == [] then []
    else
      var last := pieces[|pieces| - 1];
      Sources(pieces[..|pieces| - 1]) + (if last.source.Some? then [last.source.value] else [])
  }

  function TextOf(pieces: seq<Piece>): Text {
    if pieces == [] then [] else TextOf(pieces[..|pieces| - 1]) + pieces[|pieces| - 1].text
  }

  function Length(pieces: seq<Piece>): nat {
    if pieces == [] then 0 else Length(pieces[..|pieces| - 1]) + |pieces[|pieces| - 1].text|
  }

  predicate Blank(t: Text) { forall k :: 0 <= k < |t| ==> t[k] in {NEWLINE, TAB, SPACE} }

  /** A piece is a whole item, or generated white space. */
  predicate Whole(p: Piece) { p.text != [] && if p.source.Some? then p.text == p.source.value.str else Blank(p.text) }

  predicate AllWhole(pieces: seq<Piece>) { forall p :: p in pieces ==> Whole(p) }

  lemma NoPieces()
    ensures Sources([]) == [] && Length([]) == 0
  {
  }

  lemma {:induction false} PiecesAppend(a: seq<Piece>, b: seq<Piece>)
    ensures Sources(a + b) == Sources(a) + Sources(b) && Length(a + b) == Length(a) + Length(b)
    decreases |b|
  {
    if b == [] {
      assert a + b == a;
    } else {
      PiecesAppend(a, b[..|b| - 1]);
      assert (a + b)[..|a + b| - 1] == a + b[..|b| - 1];
    }
  }

  // ----- what a page's text is -----

  /** A text as a piece, unless there is none. */
  function Maybe(text: Text, source: Option<Item>): seq<Piece> { if text == [] then [] else [Piece(text, source)] }

  function Mark(text: Text): seq<Piece> { Maybe(text, None) }

  /** White space between neighbours on a row. */
  function Gap(row: Row, previous: Item, item: Item): Text {
    var gap := item.x - previous.x - Abs(previous.width);
    if gap > row.size * 2.0 then [TAB]
    else if gap > row.size * 0.18 && !(previous.str != [] && Space(previous.str[|previous.str| - 1])) && !(item.str != [] && Space(item.str[0])) then [SPACE]
    else []
  }

  /** The first `n` items of a row with the white space between them. */
  function LinePieces(row: Row, n: nat): seq<Piece>
    requires n <= |row.items|
  {
    if n == 0 then []
    else
      var item := row.items[n - 1];
      LinePieces(row, n - 1) + (if n > 1 then Mark(Gap(row, row.items[n - 2], item)) else []) + Maybe(item.str, Some(item))
  }

  predicate Monospaced(row: Row) { forall i :: i in row.items ==> i.monospace }

  /** Rows that a blank line keeps apart. */
  predicate Separate(before: Row, after: Row) {
    || before.block != after.block
    || before.y - after.y > MaxR(before.size, after.size) * 2.1
    || MaxR(before.size, after.size) > MinR(before.size, after.size) * 1.25
    || Monospaced(before) != Monospaced(after)
  }

  /** Where the unbroken run of rows around a row begins, and ends. */
  function RunStart(rows: seq<Row>, at: nat): (start: nat)
    requires at < |rows|
    ensures start <= at
  {
    if at == 0 || Separate(rows[at - 1], rows[at]) then at else RunStart(rows, at - 1)
  }

  function RunEnd(rows: seq<Row>, at: nat): (end: nat)
    requires at < |rows|
    ensures at < end <= |rows|
    decreases |rows| - at
  {
    if at + 1 == |rows| || Separate(rows[at], rows[at + 1]) then at + 1 else RunEnd(rows, at + 1)
  }

  /** The leftmost start of nonempty rows. */
  function Leftmost(rows: seq<Row>): real
    requires rows != [] && Filled(rows)
  {
    if |rows| == 1 then rows[0].items[0].x else MinR(Leftmost(rows[..|rows| - 1]), rows[|rows| - 1].items[0].x)
  }

  function Spaces(n: nat): (t: Text)
    ensures |t| == n && forall k :: 0 <= k < n ==> t[k] == SPACE
  {
    if n == 0 then [] else Spaces(n - 1) + [SPACE]
  }

  /** Columns of indentation, at most 32. */
  function Indent(x: real, left: real, size: Extent): (n: nat)
    ensures n <= 32
  {
    Min(32, Max(0, ((x - left) / (size * 0.6) + 0.5).Floor))
  }

  /** A row that begins a run stands behind a blank line, another on a line of its own, and a
      monospaced one is indented against its run's leftmost row. */
  function RowPieces(rows: seq<Row>, at: nat): seq<Piece>
    requires at < |rows| && Filled(rows)
  {
    var row, run := rows[at], rows[RunStart(rows, at)..RunEnd(rows, at)];
    (if at == 0 then [] else Mark(if Separate(rows[at - 1], row) then [NEWLINE, NEWLINE] else [NEWLINE])) +
    (if Monospaced(row) then Mark(Spaces(Indent(row.items[0].x, Leftmost(run), row.items[0].size))) else []) +
    LinePieces(row, |row.items|)
  }

  /** Rows `first` up to `end`, in order. */
  function RowsPieces(rows: seq<Row>, first: nat, end: nat): seq<Piece>
    requires first <= end <= |rows| && Filled(rows)
    decreases end
  {
    if first == end then [] else RowsPieces(rows, first, end - 1) + RowPieces(rows, end - 1)
  }

  /** A page laid out by rows ends with a line feed. */
  function GeometricPieces(rows: seq<Row>): seq<Piece>
    requires Filled(rows)
  {
    RowsPieces(rows, 0, |rows|) + (if rows == [] then [] else Mark([NEWLINE]))
  }

  /** Items as given, line ends kept. */
  function SourcePieces(items: seq<Item>): seq<Piece> {
    if items == [] then []
    else
      var last := items[|items| - 1];
      SourcePieces(items[..|items| - 1]) + Maybe(last.str, Some(last)) + (if last.endOfLine then Mark([NEWLINE]) else [])
  }

  // ----- nothing lost -----

  lemma MaybeIs(text: Text, source: Option<Item>)
    ensures Length(Maybe(text, source)) == |text|
    ensures Sources(Maybe(text, source)) == if text != [] && source.Some? then [source.value] else []
    ensures (source.Some? ==> text == source.value.str) && (source.None? ==> Blank(text)) ==> AllWhole(Maybe(text, source))
  {
    if text != [] {
      var p := Piece(text, source);
      assert [p][..0] == [];
      NoPieces();
    }
  }

  lemma GapIsBlank(row: Row, previous: Item, item: Item)
    ensures Blank(Gap(row, previous, item))
  {
  }

  predicate NoneEmpty(items: seq<Item>) { forall i :: i in items ==> i.str != [] }

  predicate AllNonEmpty(rows: seq<Row>) { forall r :: r in rows ==> NoneEmpty(r.items) }

  lemma {:induction false} LineHolds(row: Row, n: nat)
    requires n <= |row.items| && NoneEmpty(row.items)
    ensures Sources(LinePieces(row, n)) == row.items[..n] && AllWhole(LinePieces(row, n))
  {
    hide Sources, Length, Maybe, Gap, Whole;
    NoPieces();
    if n > 0 {
      var item := row.items[n - 1];
      LineHolds(row, n - 1);
      var before := LinePieces(row, n - 1);
      var gap := if n > 1 then Mark(Gap(row, row.items[n - 2], item)) else [];
      var text := Maybe(item.str, Some(item));
      MaybeIs(item.str, Some(item));
      if n > 1 {
        GapIsBlank(row, row.items[n - 2], item);
        MaybeIs(Gap(row, row.items[n - 2], item), None);
      }
      assert item in row.items;
      PiecesAppend(before, gap);
      PiecesAppend(before + gap, text);
      assert row.items[..n - 1] + [] + [item] == row.items[..n];
    }
  }

  lemma {:induction false} RowHolds(rows: seq<Row>, at: nat)
    requires at < |rows| && Filled(rows) && AllNonEmpty(rows)
    ensures Sources(RowPieces(rows, at)) == rows[at].items && AllWhole(RowPieces(rows, at))
  {
    hide Sources, Length, Maybe, Whole, Separate, Indent, Leftmost, Monospaced, RunStart, RunEnd, LinePieces;
    var row, run := rows[at], rows[RunStart(rows, at)..RunEnd(rows, at)];
    var lead := if at == 0 then [] else Mark(if Separate(rows[at - 1], row) then [NEWLINE, NEWLINE] else [NEWLINE]);
    var indent := if Monospaced(row) then Mark(Spaces(Indent(row.items[0].x, Leftmost(run), row.items[0].size))) else [];
    assert row in rows;
    LineHolds(row, |row.items|);
    NoPieces();
    MaybeIs([NEWLINE, NEWLINE], None);
    MaybeIs([NEWLINE], None);
    if Monospaced(row) {
      MaybeIs(Spaces(Indent(row.items[0].x, Leftmost(run), row.items[0].size)), None);
    }
    PiecesAppend(lead, indent);
    PiecesAppend(lead + indent, LinePieces(row, |row.items|));
    assert row.items[..|row.items|] == row.items;
    assert [] + [] + row.items == row.items;
  }

  lemma {:induction false} RowsHold(rows: seq<Row>, n: nat)
    requires n <= |rows| && Filled(rows) && AllNonEmpty(rows)
    ensures Sources(RowsPieces(rows, 0, n)) == Flat(rows[..n]) && AllWhole(RowsPieces(rows, 0, n))
  {
    hide Sources, Length, Whole, Flat, RowPieces, AllNonEmpty;
    NoPieces();
    if n == 0 {
      NoRows();
      assert rows[..0] == [];
    } else {
      RowsHold(rows, n - 1);
      RowHolds(rows, n - 1);
      PiecesAppend(RowsPieces(rows, 0, n - 1), RowPieces(rows, n - 1));
      FlatMore(rows[..n - 1], rows[n - 1]);
      assert rows[..n - 1] + [rows[n - 1]] == rows[..n];
    }
  }

  /** Laid out by rows, every item of them is emitted once, whole and in their order. */
  lemma GeometricHolds(rows: seq<Row>)
    requires Filled(rows) && AllNonEmpty(rows)
    ensures Sources(GeometricPieces(rows)) == Flat(rows) && AllWhole(GeometricPieces(rows))
  {
    hide Sources, Length, Whole, Flat, RowsPieces, AllNonEmpty;
    RowsHold(rows, |rows|);
    assert rows[..|rows|] == rows;
    MaybeIs([NEWLINE], None);
    NoPieces();
    PiecesAppend(RowsPieces(rows, 0, |rows|), if rows == [] then [] else Mark([NEWLINE]));
    assert Flat(rows) + [] == Flat(rows);
  }

  /** In source order, every nonempty item as given. */
  lemma {:induction false} SourceHolds(items: seq<Item>)
    ensures Sources(SourcePieces(items)) == NonEmpty(items) && AllWhole(SourcePieces(items))
    decreases |items|
  {
    hide Sources, Length, Whole, Maybe;
    NoPieces();
    if items != [] {
      var front, last := items[..|items| - 1], items[|items| - 1];
      SourceHolds(front);
      MaybeIs(last.str, Some(last));
      MaybeIs([NEWLINE], None);
      PiecesAppend(SourcePieces(front), Maybe(last.str, Some(last)));
      PiecesAppend(SourcePieces(front) + Maybe(last.str, Some(last)), if last.endOfLine then Mark([NEWLINE]) else []);
      assert NonEmpty(front) + (if last.str != [] then [last] else []) + [] == NonEmpty(items);
    }
  }

  // ----- what keeps items and rows apart -----

  /** The white space at the end of an item or at the beginning of the next. */
  predicate SpacedSeam(before: Text, after: Text) {
    || (before != [] && Space(before[|before| - 1]))
    || (after != [] && Space(after[0]))
  }

  /** Two pieces with nothing, or one piece of white space, between them. */
  predicate Follows(pieces: seq<Piece>, i: nat, between: Text, next: Item) {
    if between == [] then i + 1 < |pieces| && pieces[i + 1] == Piece(next.str, Some(next))
    else i + 2 < |pieces| && pieces[i + 1] == Piece(between, None) && pieces[i + 2] == Piece(next.str, Some(next))
  }

  lemma FollowsOn(pieces: seq<Piece>, more: seq<Piece>, i: nat, between: Text, next: Item)
    requires Follows(pieces, i, between, next) && pieces <= more
    ensures Follows(more, i, between, next) && more[i] == pieces[i]
  {
    assert forall j :: 0 <= j < |pieces| ==> pieces[j] == more[j];
  }

  lemma LineEndsWith(row: Row, n: nat)
    requires 0 < n <= |row.items| && row.items[n - 1].str != []
    ensures var ps := LinePieces(row, n); ps != [] && ps[|ps| - 1] == Piece(row.items[n - 1].str, Some(row.items[n - 1]))
  {
    hide Gap;
  }

  /** Neighbours on a row: between them stand a tab when they are more than twice the row's size
      apart; else one space when they are more than 0.18 of it apart and neither has white space at
      the seam; else nothing. */
  lemma NeighboursApart(row: Row, k: nat) returns (i: nat)
    requires 0 < k < |row.items| && NoneEmpty(row.items)
    ensures var ps, previous, item := LinePieces(row, |row.items|), row.items[k - 1], row.items[k];
      var apart := item.x - (previous.x + (if previous.width < 0.0 then -previous.width else previous.width));
      && i < |ps| && ps[i] == Piece(previous.str, Some(previous))
      && (apart > 2.0 * row.size ==> Follows(ps, i, [9], item))
      && (0.18 * row.size < apart <= 2.0 * row.size ==> Follows(ps, i, if SpacedSeam(previous.str, item.str) then [] else [32], item))
      && (apart <= 0.18 * row.size && apart <= 2.0 * row.size ==> Follows(ps, i, [], item))
  {
    var previous, item := row.items[k - 1], row.items[k];
    assert previous in row.items && item in row.items;
    LineEndsWith(row, k);
    LineGrows(row, k + 1, |row.items|);
    var between := Gap(row, previous, item);
    GapIs(row, previous, item);
    hide Gap;
    var before, here := LinePieces(row, k), LinePieces(row, k + 1);
    i := |before| - 1;
    assert here == before + Mark(between) + Maybe(item.str, Some(item));
    hide LinePieces;
    MarkFollows(before, i, between, item);
    FollowsOn(here, LinePieces(row, |row.items|), i, between, item);
  }

  lemma GapIs(row: Row, previous: Item, item: Item)
    ensures var apart := item.x - (previous.x + (if previous.width < 0.0 then -previous.width else previous.width));
      Gap(row, previous, item) ==
        if apart > 2.0 * row.size then [9]
        else if apart > 0.18 * row.size && !SpacedSeam(previous.str, item.str) then [32] else []
  {
  }

  lemma MarkFollows(before: seq<Piece>, i: nat, between: Text, next: Item)
    requires i == |before| - 1 && next.str != []
    ensures Follows(before + Mark(between) + Maybe(next.str, Some(next)), i, between, next)
  {
  }

  /** Rows never run together: each but the first begins with a line feed, and with two when it is
      another block, stands more than 2.1 sizes below, or differs in size by more than a quarter or
      in being monospaced. */
  lemma RowsApart(rows: seq<Row>, at: nat)
    requires 0 < at < |rows| && Filled(rows)
    ensures var ps, before, after := RowPieces(rows, at), rows[at - 1], rows[at];
      var larger, smaller := if before.size < after.size then after.size else before.size, if before.size < after.size then before.size else after.size;
      && ps != [] && ps[0].source.None?
      && (ps[0].text == [10, 10] <==>
            || before.block != after.block || before.y > after.y + 2.1 * larger || larger > 1.25 * smaller
            || ((forall i :: i in before.items ==> i.monospace) <==> (exists i :: i in after.items && !i.monospace)))
      && (ps[0].text == [10, 10] || ps[0].text == [10])
  {
    hide LinePieces, RunStart, RunEnd, Leftmost, Indent, Spaces;
  }

  /** The rows from `first` up to `end` follow on one another without a break, and not on any
      other. */
  predicate Unbroken(rows: seq<Row>, first: nat, end: nat) {
    && first < end <= |rows|
    && (forall k :: first < k < end ==> !Separate(rows[k - 1], rows[k]))
    && (first > 0 ==> Separate(rows[first - 1], rows[first])) && (end < |rows| ==> Separate(rows[end - 1], rows[end]))
  }

  lemma {:induction false} RunBegins(rows: seq<Row>, at: nat)
    requires at < |rows|
    ensures var first := RunStart(rows, at);
      && (forall k :: first < k <= at ==> !Separate(rows[k - 1], rows[k])) && (first > 0 ==> Separate(rows[first - 1], rows[first]))
    decreases at
  {
    hide Separate;
    if at > 0 && !Separate(rows[at - 1], rows[at]) {
      RunBegins(rows, at - 1);
    }
  }

  lemma {:induction false} RunEnds(rows: seq<Row>, at: nat)
    requires at < |rows|
    ensures var end := RunEnd(rows, at);
      && (forall k :: at < k < end ==> !Separate(rows[k - 1], rows[k])) && (end < |rows| ==> Separate(rows[end - 1], rows[end]))
    decreases |rows| - at
  {
    hide Separate;
    if at + 1 < |rows| && !Separate(rows[at], rows[at + 1]) {
      RunEnds(rows, at + 1);
    }
  }

  /** The least start of these rows. */
  predicate StartsLeast(rows: seq<Row>, first: nat, end: nat, left: real)
    requires Filled(rows) && end <= |rows|
  {
    && (forall k :: first <= k < end ==> left <= rows[k].items[0].x)
    && (exists k :: first <= k < end && left == rows[k].items[0].x)
  }

  lemma {:induction false} LeftmostIs(rows: seq<Row>)
    requires rows != [] && Filled(rows)
    ensures StartsLeast(rows, 0, |rows|, Leftmost(rows))
    decreases |rows|
  {
    var n := |rows| - 1;
    if n == 0 {
      assert Leftmost(rows) == rows[0].items[0].x;
    } else {
      var front := rows[..n];
      LeftmostIs(front);
      var k :| 0 <= k < n && Leftmost(front) == front[k].items[0].x;
      assert forall j :: 0 <= j < n ==> rows[j] == front[j];
      var least := if Leftmost(front) < rows[n].items[0].x then k else n;
      assert Leftmost(rows) == rows[least].items[0].x;
    }
  }

  lemma LeftmostOf(rows: seq<Row>, first: nat, end: nat)
    requires first < end <= |rows| && Filled(rows)
    ensures StartsLeast(rows, first, end, Leftmost(rows[first..end]))
  {
    hide Leftmost;
    var run := rows[first..end];
    LeftmostIs(run);
    assert forall k :: first <= k < end ==> rows[k] == run[k - first];
    var k :| 0 <= k < |run| && Leftmost(run) == run[k].items[0].x;
    assert rows[first + k] == run[k];
  }

  /** The nearest whole number of columns, at most 32. */
  predicate Rounds(n: nat, distance: real, column: real) {
    n <= 32 && (n < 32 ==> distance < (n as real + 0.5) * column) && (n > 0 ==> (n as real - 0.5) * column <= distance)
  }

  lemma IndentRounds(x: real, left: real, size: Extent)
    requires left <= x
    ensures Rounds(Indent(x, left, size), x - left, size * 0.6)
  {
    DistanceRounds(x - left, size * 0.6, Indent(x, left, size));
  }

  lemma DistanceRounds(distance: real, column: real, n: nat)
    requires column > 0.0 && n == Min(32, Max(0, (distance / column + 0.5).Floor))
    ensures Rounds(n, distance, column)
  {
    hide Rounds;
    var q := distance / column;
    Quotient(distance, column);
    ColumnsRound(q, n, distance, column);
  }

  lemma ColumnsRound(q: real, n: nat, distance: real, column: real)
    requires column > 0.0 && q * column == distance && n == Min(32, Max(0, (q + 0.5).Floor))
    ensures Rounds(n, distance, column)
  {
    NearestFloor(q, n);
    Scaled(q, n as real + 0.5, column);
    Scaled(n as real - 0.5, q, column);
  }

  lemma Quotient(a: real, b: real)
    requires b > 0.0
    ensures a / b * b == a
  {
  }

  lemma NearestFloor(q: real, n: nat)
    requires n == Min(32, Max(0, (q + 0.5).Floor))
    ensures (n < 32 ==> q < n as real + 0.5) && (n > 0 ==> n as real - 0.5 <= q)
  {
    var f := (q + 0.5).Floor;
    assert f as real <= q + 0.5 < f as real + 1.0;
  }

  lemma Scaled(a: real, b: real, c: real)
    requires c > 0.0
    ensures a < b ==> a * c < b * c
    ensures a <= b ==> a * c <= b * c
  {
  }

  lemma RowShape(rows: seq<Row>, at: nat) returns (lead: seq<Piece>)
    requires at < |rows| && Filled(rows)
    ensures |lead| == (if at == 0 then 0 else 1) && (at > 0 ==> lead[0].source.None?)
    ensures var row := rows[at];
      var n := if Monospaced(row) then Indent(row.items[0].x, Leftmost(rows[RunStart(rows, at)..RunEnd(rows, at)]), row.items[0].size) else 0;
      RowPieces(rows, at) == lead + Mark(Spaces(n)) + LinePieces(row, |row.items|)
  {
    hide LinePieces, Separate, RunStart, RunEnd, Leftmost, Indent, Monospaced;
    lead := if at == 0 then [] else Mark(if Separate(rows[at - 1], rows[at]) then [NEWLINE, NEWLINE] else [NEWLINE]);
    assert Mark(Spaces(0)) == [];
  }

  lemma RunUnbroken(rows: seq<Row>, at: nat)
    requires at < |rows|
    ensures RunStart(rows, at) <= at < RunEnd(rows, at) && Unbroken(rows, RunStart(rows, at), RunEnd(rows, at))
  {
    hide Separate;
    RunBegins(rows, at);
    RunEnds(rows, at);
  }

  /** A monospaced row is indented by its distance from the leftmost row of its run, in columns of
      0.6 of its size, to the nearest column and at most 32; any other row is not. */
  lemma RowIndented(rows: seq<Row>, at: nat) returns (first: nat, end: nat, left: real, n: nat, lead: seq<Piece>)
    requires at < |rows| && Filled(rows)
    ensures Unbroken(rows, first, end) && first <= at < end && StartsLeast(rows, first, end, left)
    ensures (forall i :: i in rows[at].items ==> i.monospace) ==> Rounds(n, rows[at].items[0].x - left, rows[at].items[0].size * 0.6)
    ensures (exists i :: i in rows[at].items && !i.monospace) ==> n == 0
    ensures |lead| == (if at == 0 then 0 else 1) && (at > 0 ==> lead[0].source.None?)
    ensures RowPieces(rows, at) == lead + Mark(seq(n, _ => 32)) + LinePieces(rows[at], |rows[at].items|)
  {
    hide LinePieces, Separate, RunStart, RunEnd, Leftmost, Indent, RowPieces, Rounds, Unbroken;
    RunUnbroken(rows, at);
    first, end := RunStart(rows, at), RunEnd(rows, at);
    LeftmostOf(rows, first, end);
    left := Leftmost(rows[first..end]);
    lead := RowShape(rows, at);
    var row := rows[at];
    n := if Monospaced(row) then Indent(row.items[0].x, left, row.items[0].size) else 0;
    IndentRounds(row.items[0].x, left, row.items[0].size);
    assert Spaces(n) == seq(n, _ => 32);
  }

  // ----- the loops -----

  /** Adding `more` behind `before` keeps the page within its budget. */
  predicate Fits(before: seq<Piece>, more: seq<Piece>) { Length(before) + Length(more) <= PAGE_UNITS }

  lemma FitsOn(before: seq<Piece>, a: seq<Piece>, b: seq<Piece>)
    ensures Fits(before + a, b) <==> Fits(before, a + b)
    ensures before + a + b == before + (a + b)
  {
    hide Length, Sources;
    PiecesAppend(before, a);
    PiecesAppend(a, b);
  }

  lemma StopsShort(before: seq<Piece>, part: seq<Piece>, more: seq<Piece>)
    requires part <= more && !Fits(before, part)
    ensures !Fits(before, more)
  {
    hide Length, Sources;
    PiecesAppend(part, more[|part|..]);
    assert part + more[|part|..] == more;
  }

  lemma {:induction false} LineGrows(row: Row, n: nat, m: nat)
    requires n <= m <= |row.items|
    ensures LinePieces(row, n) <= LinePieces(row, m)
  {
    hide Gap, Maybe;
    if n < m {
      LineGrows(row, n, m - 1);
    }
  }

  /** The pieces of a page as they accumulate. */
  class PageText {
    var pieces: seq<Piece>
    var utf16: nat

    ghost predicate Valid()
      reads this
    {
      utf16 == Length(pieces) && utf16 <= PAGE_UNITS
    }

    /** `more` has been added to `before`, unless the page would be over its budget. */
    ghost predicate Added(ok: bool, before: seq<Piece>, more: seq<Piece>)
      reads this
    {
      && (ok <==> Fits(before, more))
      && (ok ==> Valid() && pieces == before + more)
    }

    constructor ()
      ensures Valid() && pieces == []
    {
      pieces, utf16 := [], 0;
    }

    /** Adds a piece unless it is empty; false past the page's budget. */
    method Append(text: Text, source: Option<Item>) returns (ok: bool)
      requires Valid()
      modifies this
      ensures Added(ok, old(pieces), Maybe(text, source))
    {
      hide Length, Sources, Whole;
      MaybeIs(text, source);
      PiecesAppend(pieces, Maybe(text, source));
      if text == [] {
        return true;
      }
      if utf16 + |text| > PAGE_UNITS {
        return false;
      }
      pieces := pieces + [Piece(text, source)];
      utf16 := utf16 + |text|;
      return true;
    }

    /** One row: white space between neighbours, every item whole. */
    method Line(row: Row) returns (ok: bool)
      requires Valid()
      modifies this
      ensures Added(ok, old(pieces), LinePieces(row, |row.items|))
    {
      hide Length, Gap, Maybe, Fits, LinePieces;
      ghost var before := pieces;
      Nothing(before);
      LineBegins(row);
      for index := 0 to |row.items|
        invariant Added(true, before, LinePieces(row, index))
      {
        ghost var here, more := LinePieces(row, index), [];
        LineGrows(row, index + 1, |row.items|);
        LineMore(row, index);
        var item := row.items[index];
        if index > 0 {
          more := Mark(Gap(row, row.items[index - 1], item));
          FitsOn(before, here, more);
          var fits := Append(Gap(row, row.items[index - 1], item), None);
          if !fits {
            StopsShort(before, here + more, LinePieces(row, |row.items|));
            return false;
          }
        } else {
          assert here + [] == here;
        }
        FitsOn(before, here + more, Maybe(item.str, Some(item)));
        var fits := Append(item.str, Some(item));
        if !fits {
          StopsShort(before, here + more + Maybe(item.str, Some(item)), LinePieces(row, |row.items|));
          return false;
        }
      }
      return true;
    }

    /** One row of a run, on lines of its own. */
    method RowOf(rows: seq<Row>, at: nat, begins: bool, left: real) returns (ok: bool)
      requires Valid() && Filled(rows) && at < |rows|
      requires begins <==> RunStart(rows, at) == at
      requires left == Leftmost(rows[RunStart(rows, at)..RunEnd(rows, at)])
      modifies this
      ensures Added(ok, old(pieces), RowPieces(rows, at))
    {
      hide Length, Maybe, Fits, LinePieces, Separate, Monospaced, Leftmost, Indent, RunEnd, RunStart;
      var row := rows[at];
      ghost var before, whole := pieces, RowPieces(rows, at);
      ghost var lead: seq<Piece>, indent: seq<Piece>, line := [], [], LinePieces(row, |row.items|);
      BeginsIs(rows, at);
      Nothing(before);
      if at > 0 {
        var feed := if begins then [NEWLINE, NEWLINE] else [NEWLINE];
        lead := Mark(feed);
        var fits := Append(feed, None);
        if !fits {
          StopsShort(before, lead, whole);
          return false;
        }
      }
      FitsOn(before, lead, []);
      assert lead + [] == lead;
      if Monospaced(row) {
        var spaces := Spaces(Indent(row.items[0].x, left, row.items[0].size));
        indent := Mark(spaces);
        FitsOn(before, lead, indent);
        var fits := Append(spaces, None);
        if !fits {
          StopsShort(before, lead + indent, whole);
          return false;
        }
      }
      assert whole == lead + indent + line;
      FitsOn(before, lead + indent, line);
      ok := Line(row);
    }

    /** One unbroken run of rows, indented against its leftmost row. */
    method Block(rows: seq<Row>, first: nat, end: nat) returns (ok: bool)
      requires Valid() && Filled(rows) && IsRun(rows, first, end)
      modifies this
      ensures Added(ok, old(pieces), RowsPieces(rows, first, end))
    {
      hide Length, Fits, RowsPieces, RowPieces, RunStart, RunEnd, Leftmost, Separate, IsRun;
      ghost var before := pieces;
      RunBounds(rows, first, end);
      var left := FindLeftmost(rows, first, end);
      Nothing(before);
      NoRowsYet(rows, first);
      for at := first to end
        invariant Added(true, before, RowsPieces(rows, first, at))
      {
        ghost var here := RowsPieces(rows, first, at);
        RowsGrow(rows, first, at + 1, end);
        RowsMore(rows, first, at);
        FitsOn(before, here, RowPieces(rows, at));
        RunIs(rows, first, end, at);
        var fits := RowOf(rows, at, at == first, left);
        if !fits {
          StopsShort(before, RowsPieces(rows, first, at + 1), RowsPieces(rows, first, end));
          return false;
        }
      }
      return true;
    }

    /** Every row in order, run by run. */
    method Rows(rows: seq<Row>) returns (ok: bool)
      requires Valid() && Filled(rows)
      modifies this
      ensures Added(ok, old(pieces), GeometricPieces(rows))
    {
      hide Length, Fits, RowsPieces, Separate, Maybe;
      ghost var before := pieces;
      Nothing(before);
      NoRowsYet(rows, 0);
      var first := 0;
      while first < |rows|
        invariant first <= |rows| && (0 < first < |rows| ==> Separate(rows[first - 1], rows[first]))
        invariant Added(true, before, RowsPieces(rows, 0, first))
      {
        var end := first + 1;
        while end < |rows| && !Separate(rows[end - 1], rows[end])
          invariant first < end <= |rows| && forall k :: first < k < end ==> !Separate(rows[k - 1], rows[k])
        {
          end := end + 1;
        }
        RowsJoin(rows, 0, first, end);
        RowsGrow(rows, 0, end, |rows|);
        FitsOn(before, RowsPieces(rows, 0, first), RowsPieces(rows, first, end));
        var fits := Block(rows, first, end);
        if !fits {
          StopsShort(before, RowsPieces(rows, 0, end), GeometricPieces(rows));
          return false;
        }
        first := end;
      }
      if rows == [] {
        assert RowsPieces(rows, 0, 0) + [] == RowsPieces(rows, 0, 0);
        return true;
      }
      FitsOn(before, RowsPieces(rows, 0, |rows|), Mark([NEWLINE]));
      ok := Append([NEWLINE], None);
    }

    /** Items as given, line ends kept. */
    method InSourceOrder(items: seq<Item>) returns (ok: bool)
      requires Valid()
      modifies this
      ensures Added(ok, old(pieces), SourcePieces(items))
    {
      hide Length, Fits, SourcePieces, Maybe;
      ghost var before := pieces;
      Nothing(before);
      assert items[..0] == [] && SourcePieces([]) == [] by { NothingGiven(); }
      for i := 0 to |items|
        invariant Added(true, before, SourcePieces(items[..i]))
      {
        var item := items[i];
        ghost var here, text := SourcePieces(items[..i]), Maybe(item.str, Some(item));
        SourceMore(items, i);
        SourceGrows(items, i + 1);
        FitsOn(before, here, text);
        var fits := Append(item.str, Some(item));
        if !fits {
          StopsShort(before, here + text, SourcePieces(items));
          return false;
        }
        if item.endOfLine {
          FitsOn(before, here + text, Mark([NEWLINE]));
          fits := Append([NEWLINE], None);
          if !fits {
            StopsShort(before, here + text + Mark([NEWLINE]), SourcePieces(items));
            return false;
          }
        } else {
          assert here + text + [] == here + text;
        }
      }
      assert items[..|items|] == items;
      return true;
    }
  }

  lemma NothingGiven()
    ensures SourcePieces([]) == []
  {
  }

  lemma SourceMore(items: seq<Item>, i: nat)
    requires i < |items|
    ensures SourcePieces(items[..i + 1]) == SourcePieces(items[..i]) + Maybe(items[i].str, Some(items[i])) + (if items[i].endOfLine then Mark([NEWLINE]) else [])
  {
    assert items[..i + 1][..i] == items[..i];
  }

  lemma {:induction false} SourceGrows(items: seq<Item>, n: nat)
    requires n <= |items|
    ensures SourcePieces(items[..n]) <= SourcePieces(items)
    decreases |items| - n
  {
    hide Maybe, SourcePieces;
    if n == |items| {
      assert items[..n] == items;
    } else {
      SourceMore(items, n);
      SourceGrows(items, n + 1);
    }
  }

  // ----- runs of rows -----

  /** Rows kept apart from those around them and from nothing between. */
  ghost predicate IsRun(rows: seq<Row>, first: nat, end: nat) {
    && first < end <= |rows|
    && (first > 0 ==> Separate(rows[first - 1], rows[first])) && (end < |rows| ==> Separate(rows[end - 1], rows[end]))
    && forall k :: first < k < end ==> !Separate(rows[k - 1], rows[k])
  }

  lemma RunBounds(rows: seq<Row>, first: nat, end: nat)
    requires IsRun(rows, first, end)
    ensures first < end <= |rows|
  {
  }

  lemma {:induction false} RunStartIs(rows: seq<Row>, first: nat, end: nat, at: nat)
    requires IsRun(rows, first, end) && first <= at < end
    ensures RunStart(rows, at) == first
  {
    hide Separate;
    if first < at {
      RunStartIs(rows, first, end, at - 1);
    }
  }

  lemma {:induction false} RunEndIs(rows: seq<Row>, first: nat, end: nat, at: nat)
    requires IsRun(rows, first, end) && first <= at < end
    ensures RunEnd(rows, at) == end
    decreases end - at
  {
    hide Separate;
    if at + 1 < end {
      RunEndIs(rows, first, end, at + 1);
    }
  }

  lemma RunIs(rows: seq<Row>, first: nat, end: nat, at: nat)
    requires IsRun(rows, first, end) && first <= at < end
    ensures RunStart(rows, at) == first && RunEnd(rows, at) == end
  {
    RunStartIs(rows, first, end, at);
    RunEndIs(rows, first, end, at);
  }

  lemma BeginsIs(rows: seq<Row>, at: nat)
    requires at < |rows|
    ensures RunStart(rows, at) == at <==> at == 0 || Separate(rows[at - 1], rows[at])
  {
    hide Separate;
  }

  method FindLeftmost(rows: seq<Row>, first: nat, end: nat) returns (left: real)
    requires first < end <= |rows| && Filled(rows)
    ensures left == Leftmost(rows[first..end])
  {
    left := rows[first].items[0].x;
    for at := first + 1 to end
      invariant left == Leftmost(rows[first..at])
    {
      assert rows[first..at + 1][..at - first] == rows[first..at];
      left := MinR(left, rows[at].items[0].x);
    }
  }

  lemma NoRowsYet(rows: seq<Row>, first: nat)
    requires first <= |rows| && Filled(rows)
    ensures RowsPieces(rows, first, first) == []
  {
  }

  lemma RowsMore(rows: seq<Row>, first: nat, at: nat)
    requires first <= at < |rows| && Filled(rows)
    ensures RowsPieces(rows, first, at + 1) == RowsPieces(rows, first, at) + RowPieces(rows, at)
  {
    hide RowPieces;
  }

  lemma {:induction false} RowsJoin(rows: seq<Row>, first: nat, middle: nat, end: nat)
    requires first <= middle <= end <= |rows| && Filled(rows)
    ensures RowsPieces(rows, first, end) == RowsPieces(rows, first, middle) + RowsPieces(rows, middle, end)
    decreases end
  {
    hide RowPieces;
    if middle < end {
      RowsJoin(rows, first, middle, end - 1);
    }
  }

  lemma RowsGrow(rows: seq<Row>, first: nat, middle: nat, end: nat)
    requires first <= middle <= end <= |rows| && Filled(rows)
    ensures RowsPieces(rows, first, middle) <= RowsPieces(rows, first, end)
  {
    hide RowsPieces;
    RowsJoin(rows, first, middle, end);
  }

  lemma Nothing(before: seq<Piece>)
    ensures before + [] == before && (Fits(before, []) <==> Length(before) <= PAGE_UNITS)
  {
  }

  lemma LineBegins(row: Row)
    ensures LinePieces(row, 0) == []
  {
  }

  lemma LineMore(row: Row, n: nat)
    requires n < |row.items|
    ensures LinePieces(row, n + 1) == LinePieces(row, n) +
                                      (if n > 0 then Mark(Gap(row, row.items[n - 1], row.items[n])) else []) + Maybe(row.items[n].str, Some(row.items[n]))
  {
  }

  // ----- the page -----

  datatype Mode = SourceOrder | OneColumn | TwoColumns

  datatype Page = Page(mode: Mode, utf16: nat, pieces: seq<Piece>) | OverBudget | Invalid

  function Units(items: seq<Item>): nat {
    if items == [] then 0 else Units(items[..|items| - 1]) + |items[|items| - 1].str|
  }

  predicate WithinBudget(items: seq<Item>) { |items| <= PAGE_ITEMS && Units(items) <= PAGE_UNITS }

  /** Only upright left-to-right text is laid out by geometry. */
  predicate Ambiguous(items: seq<Item>) { exists k :: 0 <= k < |items| && Visible(items[k].str) && (!items[k].ltr || !items[k].upright) }

  /** The lines of a page from top to bottom, each from left to right. */
  function PageRows(items: seq<Item>): (rows: seq<Row>)
    ensures Filled(rows) && multiset(Flat(rows)) == multiset(NonEmpty(items))
  {
    hide Flat, Sorted, Gathered, Aligned, NonEmpty;
    var sorted := Sorted(NonEmpty(items), Above);
    SortKeeps(NonEmpty(items), Above);
    GatheredFlat(sorted);
    AlignedKeeps(Gathered(sorted));
    Aligned(Gathered(sorted))
  }

  /** And their reading order, when they elect a gutter and when they do not. */
  function ReadingOrder(items: seq<Item>, gutter: Option<real>): (rows: seq<Row>)
    ensures Filled(rows) && multiset(Flat(rows)) == multiset(NonEmpty(items))
  {
    hide Flat, ColumnsFrom, PageRows, NonEmpty;
    var rows := PageRows(items);
    if gutter.None? then rows
    else
      ColumnsKeepAll(rows, gutter.value, 0, 0);
      assert rows[0..] == rows;
      ColumnOrder(rows, gutter.value)
  }

  function PagePieces(items: seq<Item>, gutter: Option<real>): seq<Piece> {
    if Ambiguous(items) then SourcePieces(items) else GeometricPieces(ReadingOrder(items, gutter))
  }

  function PageMode(items: seq<Item>, gutter: Option<real>): Mode {
    if Ambiguous(items) then SourceOrder else if gutter.None? then OneColumn else TwoColumns
  }

  /** The whole page, refused when its items or its text exceed their budgets. */
  function PageOf(items: seq<Item>, gutter: Option<real>): Page {
    var pieces := PagePieces(items, gutter);
    if !WithinBudget(items) || Length(pieces) > PAGE_UNITS then OverBudget else Page(PageMode(items, gutter), Length(pieces), pieces)
  }

  lemma {:induction false} NonEmptyIs(items: seq<Item>)
    ensures NoneEmpty(NonEmpty(items))
    decreases |items|
  {
    if items != [] {
      NonEmptyIs(items[..|items| - 1]);
    }
  }

  lemma {:induction false} ItemInFlat(rows: seq<Row>, r: Row, i: Item)
    requires r in rows && i in r.items
    ensures i in Flat(rows)
    decreases |rows|
  {
    var front, last := rows[..|rows| - 1], rows[|rows| - 1];
    assert rows == front + [last];
    if r != last {
      ItemInFlat(front, r, i);
    }
  }

  lemma FlatHolds(rows: seq<Row>, items: seq<Item>)
    requires multiset(Flat(rows)) == multiset(items) && NoneEmpty(items)
    ensures AllNonEmpty(rows)
  {
    hide Flat;
    forall r, i | r in rows && i in r.items ensures i.str != [] {
      ItemInFlat(rows, r, i);
      assert i in multiset(Flat(rows));
      assert i in multiset(items);
    }
  }

  /** Whatever the layout, the source pieces are the nonempty items, each once and whole, and
      everything else is generated white space: in source order when the page is ambiguous,
      in reading order otherwise. */
  lemma PageHolds(items: seq<Item>, gutter: Option<real>)
    ensures AllWhole(PagePieces(items, gutter))
    ensures multiset(Sources(PagePieces(items, gutter))) == multiset(NonEmpty(items))
    ensures Sources(PagePieces(items, gutter)) == if Ambiguous(items) then NonEmpty(items) else Flat(ReadingOrder(items, gutter))
  {
    hide Sources, Whole, Flat, NonEmpty, GeometricPieces, SourcePieces, Ambiguous, ReadingOrder;
    if Ambiguous(items) {
      SourceHolds(items);
    } else {
      var rows := ReadingOrder(items, gutter);
      NonEmptyIs(items);
      FlatHolds(rows, NonEmpty(items));
      GeometricHolds(rows);
    }
  }

  /** The items' own text, a line feed behind every item that ends a line. */
  function AsGiven(items: seq<Item>): Text {
    if items == [] then []
    else
      var last := items[|items| - 1];
      AsGiven(items[..|items| - 1]) + last.str + (if last.endOfLine then [10] else [])
  }

  lemma TextMore(pieces: seq<Piece>, more: seq<Piece>)
    requires |more| <= 1
    ensures TextOf(pieces + more) == TextOf(pieces) + (if more == [] then [] else more[0].text)
  {
    if more == [] {
      assert pieces + more == pieces && TextOf(pieces) + [] == TextOf(pieces);
    } else {
      assert (pieces + more)[..|pieces|] == pieces;
    }
  }

  lemma {:induction false} SourceReads(items: seq<Item>)
    ensures TextOf(SourcePieces(items)) == AsGiven(items)
  {
    hide TextOf;
    if items == [] {
      TextOfNone();
    } else {
      var front, last := items[..|items| - 1], items[|items| - 1];
      SourceReads(front);
      var text, end := Maybe(last.str, Some(last)), if last.endOfLine then Mark([NEWLINE]) else [];
      TextMore(SourcePieces(front), text);
      TextMore(SourcePieces(front) + text, end);
      assert AsGiven(front) + last.str == if last.str == [] then AsGiven(front) else AsGiven(front) + last.str;
    }
  }

  lemma TextOfNone()
    ensures TextOf([]) == []
  {
  }

  lemma {:induction false} LengthIs(pieces: seq<Piece>)
    ensures Length(pieces) == |TextOf(pieces)|
  {
    if pieces != [] {
      LengthIs(pieces[..|pieces| - 1]);
    }
  }

  /** A page is refused exactly for more than 10,000 items, or more than 262,144 units in its items
      or in its text. */
  lemma BudgetIs(items: seq<Item>, gutter: Option<real>)
    ensures PageOf(items, gutter) == OverBudget <==> |items| > 10000 || Units(items) > 262144 || |TextOf(PagePieces(items, gutter))| > 262144
    ensures var page := PageOf(items, gutter);
      page != OverBudget ==> page.Page? && page.pieces == PagePieces(items, gutter) && page.utf16 == |TextOf(page.pieces)|
  {
    hide PagePieces, TextOf, Length, Units;
    LengthIs(PagePieces(items, gutter));
  }

  /** A visible item that runs another way, or is turned. */
  predicate Astray(i: Item) { !(i.ltr && i.upright) && exists k :: 0 <= k < |i.str| && !Space(i.str[k]) }

  /** One such item, and the whole page is read as it was given; without one, row by row. */
  lemma ReadAsGiven(items: seq<Item>, gutter: Option<real>)
    ensures PageMode(items, gutter) == SourceOrder <==> exists i :: i in items && Astray(i)
    ensures (exists i :: i in items && Astray(i)) ==> TextOf(PagePieces(items, gutter)) == AsGiven(items)
    ensures (forall i :: i in items ==> !Astray(i)) ==> PagePieces(items, gutter) == GeometricPieces(ReadingOrder(items, gutter))
  {
    hide TextOf, SourcePieces, GeometricPieces, ReadingOrder, AsGiven, Ambiguous, Astray;
    SourceReads(items);
    AstrayIsAmbiguous(items);
  }

  lemma AstrayIsAmbiguous(items: seq<Item>)
    ensures Ambiguous(items) <==> exists i :: i in items && Astray(i)
  {
    if i :| i in items && Astray(i) {
      var k :| 0 <= k < |items| && items[k] == i;
      assert Visible(items[k].str);
    }
    if k :| 0 <= k < |items| && Visible(items[k].str) && (!items[k].ltr || !items[k].upright) {
      assert items[k] in items && Astray(items[k]);
    }
  }

  /** The rows of a page are its lines as gathered from above, each from left to right. */
  lemma PageRowsRead(items: seq<Item>)
    ensures var sorted := Sorted(NonEmpty(items), Above);
      && Descends(sorted) && multiset(sorted) == multiset(NonEmpty(items))
      && Lines(Gathered(sorted)) && Flat(Gathered(sorted)) == sorted
      && |PageRows(items)| == |Gathered(sorted)|
      && forall k :: 0 <= k < |PageRows(items)| ==>
        RunsRight(PageRows(items)[k].items) && multiset(PageRows(items)[k].items) == multiset(Gathered(sorted)[k].items)
  {
    hide Flat, Sorted, Gathered, NonEmpty, InOrder, Lines, Total, Descends, RunsRight;
    var visible := NonEmpty(items);
    var sorted := Sorted(visible, Above);
    BeforeIsTotal();
    SortKeeps(visible, Above);
    SortOrders(visible, Above);
    OrderedDescends(sorted);
    GatheredFlat(sorted);
    GatheredLines(sorted);
    var rows := Gathered(sorted);
    forall k | 0 <= k < |rows|
      ensures RunsRight(PageRows(items)[k].items) && multiset(PageRows(items)[k].items) == multiset(rows[k].items)
    {
      SortKeeps(rows[k].items, Before);
      SortOrders(rows[k].items, Before);
      OrderedRunsRight(PageRows(items)[k].items);
    }
  }

  /** Items within the budget are laid out as specified, with the gutter their rows elect. */
  method LayOutItems(items: seq<Item>) returns (page: Page, gutter: Option<real>)
    requires WithinBudget(items)
    ensures page == PageOf(items, gutter)
    ensures !Ambiguous(items) ==> Elects(PageRows(items), gutter)
  {
    hide Length, Sources, NonEmpty, Flat, ColumnsFrom, Sorted, Units, Ambiguous, Elects, GeometricPieces, SourcePieces, Aligned, Gathered;
    gutter := None;
    var text := new PageText();
    Nothing([]);
    NoPieces();
    assert [] + PagePieces(items, gutter) == PagePieces(items, gutter);
    if Ambiguous(items) {
      var fits := text.InSourceOrder(items);
      if !fits {
        return OverBudget, gutter;
      }
      return Page(SourceOrder, text.utf16, text.pieces), gutter;
    }
    var sorted := Sorted(NonEmpty(items), Above);
    var gathered := GatherRows(sorted);
    var rows := SortRows(gathered);
    assert rows == PageRows(items);
    gutter := FindGutter(rows);
    var ordered := rows;
    if gutter.Some? {
      ordered := Columns(rows, gutter.value);
    }
    assert ordered == ReadingOrder(items, gutter);
    assert [] + GeometricPieces(ordered) == GeometricPieces(ordered);
    var fits := text.Rows(ordered);
    if !fits {
      return OverBudget, gutter;
    }
    return Page(PageMode(items, gutter), text.utf16, text.pieces), gutter;
  }

  lemma {:induction false} MeasuredUnits(input: seq<Given>, hypot: (real, real) -> real)
    requires forall v :: v in input ==> Sound(v)
    ensures Units(MeasuredAll(input, hypot)) == GivenUnits(input)
    decreases |input|
  {
    hide Sound;
    if input != [] {
      var n := |input| - 1;
      MeasuredUnits(input[..n], hypot);
      assert MeasuredAll(input, hypot)[..n] == MeasuredAll(input[..n], hypot);
    }
  }

  /** A page is refused as invalid exactly when an unsound item comes before its source text
      overruns the budget, refused for its size when that overruns it first or what is emitted
      does, and laid out as specified otherwise. */
  method NormalizePage(input: seq<Given>, hypot: (real, real) -> real) returns (page: Page, gutter: Option<real>)
    ensures page.Invalid? <==> Spoiled(input)
    ensures !Spoiled(input) && TooMuch(input) ==> page.OverBudget?
    ensures !Spoiled(input) && !TooMuch(input) ==>
      && (forall v :: v in input ==> Sound(v))
      && page == PageOf(MeasuredAll(input, hypot), gutter)
      && (!Ambiguous(MeasuredAll(input, hypot)) ==> Elects(PageRows(MeasuredAll(input, hypot)), gutter))
  {
    hide Spoiled, Sound, PageOf, PageRows, Ambiguous, Elects, Units, GivenUnits;
    gutter := None;
    var reading := ReadItems(input, hypot);
    match reading
    case Unsound => page := Invalid;
    case TooLong => page := OverBudget;
    case Read(items) =>
      MeasuredUnits(input, hypot);
      page, gutter := LayOutItems(items);
      NeverInvalid(items, gutter);
  }

  lemma NeverInvalid(items: seq<Item>, gutter: Option<real>)
    ensures !PageOf(items, gutter).Invalid?
  {
    hide PagePieces, WithinBudget, Length;
  }
}
