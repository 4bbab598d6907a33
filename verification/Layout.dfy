/** Page-local PDF text layout, packages/documents/src/layout.ts. Items may be reordered
    into rows and columns; none may be lost, repeated or cut. */
module Layout {
  import opened Common
  import opened Utf16

  type Text = seq<Unit>

  /** An extent computed from a transform and a height, at least a thousandth. */
  type Extent = r: real | r >= 0.001 witness 0.001

  /** A source item; `upright` says that its transform is neither rotated nor skewed. */
  datatype Item = Item(index: nat, str: Text, x: real, y: real, width: real, size: Extent,
                       ltr: bool, upright: bool, endOfLine: bool, monospace: bool)

  datatype Row = Row(items: seq<Item>, y: real, size: real, block: nat)

  function Abs(r: real): real { if r < 0.0 then -r else r }

  function MinR(a: real, b: real): real { if a < b then a else b }

  function MaxR(a: real, b: real): real { if a < b then b else a }

  predicate Visible(t: Text) { exists k :: 0 <= k < |t| && !Space(t[k]) }

  // ----- accounts of text -----

  function NonEmpty(items: seq<Item>): seq<Item> {
    if items == [] then []
    else
      var last := items[|items| - 1];
      NonEmpty(items[..|items| - 1]) + (if last.str != [] then [last] else [])
  }

  function Flat(rows: seq<Row>): seq<Item> {
    if rows == [] then [] else Flat(rows[..|rows| - 1]) + rows[|rows| - 1].items
  }

  lemma FlatMore(rows: seq<Row>, row: Row)
    ensures Flat(rows + [row]) == Flat(rows) + row.items
  {
    assert (rows + [row])[..|rows|] == rows;
  }

  lemma {:induction false} FlatAppend(a: seq<Row>, b: seq<Row>)
    ensures Flat(a + b) == Flat(a) + Flat(b)
    decreases |b|
  {
    hide Flat;
    if b == [] {
      assert a + b == a;
      NoRows();
    } else {
      var n := |b| - 1;
      FlatAppend(a, b[..n]);
      assert a + b == (a + b[..n]) + [b[n]] && b == b[..n] + [b[n]];
      FlatMore(a + b[..n], b[n]);
      FlatMore(b[..n], b[n]);
    }
  }

  // ----- sorting -----

  /** Reading order: down the page, then across, then as given. */
  predicate Above(a: Item, b: Item) { a.y > b.y || (a.y == b.y && (a.x < b.x || (a.x == b.x && a.index <= b.index))) }

  predicate Before(a: Item, b: Item) { a.x < b.x || (a.x == b.x && a.index <= b.index) }

  function Insert(item: Item, items: seq<Item>, first: (Item, Item) -> bool): seq<Item> {
    if items == [] || first(item, items[0]) then [item] + items else [items[0]] + Insert(item, items[1..], first)
  }

  function Sorted(items: seq<Item>, first: (Item, Item) -> bool): seq<Item> {
    if items == [] then [] else Insert(items[0], Sorted(items[1..], first), first)
  }

  lemma {:induction false} InsertKeeps(item: Item, items: seq<Item>, first: (Item, Item) -> bool)
    ensures multiset(Insert(item, items, first)) == multiset{item} + multiset(items)
  {
    if items == [] || first(item, items[0]) {
      assert multiset([item] + items) == multiset([item]) + multiset(items);
    } else {
      var rest := Insert(item, items[1..], first);
      InsertKeeps(item, items[1..], first);
      assert items == [items[0]] + items[1..];
      assert multiset([items[0]] + rest) == multiset([items[0]]) + multiset(rest);
    }
  }

  lemma {:induction false} SortKeeps(items: seq<Item>, first: (Item, Item) -> bool)
    ensures multiset(Sorted(items, first)) == multiset(items)
  {
    if items != [] {
      SortKeeps(items[1..], first);
      InsertKeeps(items[0], Sorted(items[1..], first), first);
      assert items == [items[0]] + items[1..];
    }
  }

  /** Each item stands in the order before the next, whatever total order it is. */
  predicate InOrder(items: seq<Item>, first: (Item, Item) -> bool) {
    forall i :: 0 < i < |items| ==> first(items[i - 1], items[i])
  }

  ghost predicate Total(first: (Item, Item) -> bool) { forall a, b :: first(a, b) || first(b, a) }

  /** From top to bottom; at one height from left to right; at one place as given. */
  predicate Descends(items: seq<Item>) {
    forall i, j :: 0 <= i < j < |items| ==>
      && items[j].y <= items[i].y
      && (items[j].y == items[i].y ==> items[i].x <= items[j].x && (items[i].x == items[j].x ==> items[i].index <= items[j].index))
  }

  /** From left to right; at one place as given. */
  predicate RunsRight(items: seq<Item>) {
    forall i, j :: 0 <= i < j < |items| ==> items[i].x <= items[j].x && (items[i].x == items[j].x ==> items[i].index <= items[j].index)
  }

  lemma {:induction false} OrderedDescends(items: seq<Item>)
    requires InOrder(items, Above)
    ensures Descends(items)
    decreases |items|
  {
    if items != [] {
      var n := |items| - 1;
      OrderedDescends(items[..n]);
      assert n > 0 ==> Above(items[n - 1], items[n]) && items[..n][n - 1] == items[n - 1];
    }
  }

  lemma {:induction false} OrderedRunsRight(items: seq<Item>)
    requires InOrder(items, Before)
    ensures RunsRight(items)
    decreases |items|
  {
    if items != [] {
      var n := |items| - 1;
      OrderedRunsRight(items[..n]);
      assert n > 0 ==> Before(items[n - 1], items[n]) && items[..n][n - 1] == items[n - 1];
    }
  }

  lemma {:induction false} InsertOrders(item: Item, items: seq<Item>, first: (Item, Item) -> bool)
    requires Total(first) && InOrder(items, first)
    ensures InOrder(Insert(item, items, first), first)
    ensures Insert(item, items, first)[0] == item || (items != [] && Insert(item, items, first)[0] == items[0])
  {
    if items != [] && !first(item, items[0]) {
      InsertOrders(item, items[1..], first);
    }
  }

  lemma {:induction false} SortOrders(items: seq<Item>, first: (Item, Item) -> bool)
    requires Total(first)
    ensures InOrder(Sorted(items, first), first)
  {
    if items != [] {
      SortOrders(items[1..], first);
      InsertOrders(items[0], Sorted(items[1..], first), first);
    }
  }

  // ----- rows -----

  predicate SameLine(row: Row, item: Item) { Abs(row.y - item.y) <= MinR(row.size, item.size) * 0.25 }

  predicate Filled(rows: seq<Row>) { forall r :: r in rows ==> r.items != [] }

  /** An item joins the last row when it stands on its line, and begins a row otherwise. */
  function Joined(rows: seq<Row>, item: Item): seq<Row> {
    if rows != [] && SameLine(rows[|rows| - 1], item) then
      var row := rows[|rows| - 1];
      rows[..|rows| - 1] + [row.(items := row.items + [item], size := MaxR(row.size, item.size))]
    else rows + [Row([item], item.y, item.size, 0)]
  }

  function Gathered(sorted: seq<Item>): seq<Row> {
    if sorted == [] then [] else Joined(Gathered(sorted[..|sorted| - 1]), sorted[|sorted| - 1])
  }

  lemma GatheredMore(sorted: seq<Item>, i: nat)
    requires i < |sorted|
    ensures Gathered(sorted[..i + 1]) == Joined(Gathered(sorted[..i]), sorted[i])
  {
    assert sorted[..i + 1][..i] == sorted[..i];
  }

  lemma JoinedFlat(rows: seq<Row>, item: Item)
    ensures Flat(Joined(rows, item)) == Flat(rows) + [item]
  {
    hide Flat;
    var n := |rows|;
    if n > 0 && SameLine(rows[n - 1], item) {
      var row := rows[n - 1];
      var grown := row.(items := row.items + [item], size := MaxR(row.size, item.size));
      FlatMore(rows[..n - 1], row);
      FlatMore(rows[..n - 1], grown);
      assert rows == rows[..n - 1] + [row];
    } else {
      FlatMore(rows, Row([item], item.y, item.size, 0));
    }
  }

  /** Gathering loses nothing and moves nothing. */
  lemma {:induction false} GatheredFlat(sorted: seq<Item>)
    ensures Flat(Gathered(sorted)) == sorted && Filled(Gathered(sorted))
    decreases |sorted|
  {
    hide Flat;
    if sorted == [] {
      NoRows();
    } else {
      var front, last := sorted[..|sorted| - 1], sorted[|sorted| - 1];
      GatheredFlat(front);
      JoinedFlat(Gathered(front), last);
      assert sorted == front + [last];
    }
  }

  lemma NoRows()
    ensures Flat([]) == []
  {
  }

  /** The largest extent of a row's items. */
  function Tallest(items: seq<Item>): real
    requires items != []
  {
    if |items| == 1 then items[0].size else MaxR(Tallest(items[..|items| - 1]), items[|items| - 1].size)
  }

  /** A row is its first item's line: every further item stands within a quarter of the
      smaller of its own extent and the row's so far. */
  predicate OneLine(row: Row) {
    && row.items != [] && row.y == row.items[0].y && row.size == Tallest(row.items)
    && forall k :: 0 < k < |row.items| ==> Abs(row.y - row.items[k].y) <= MinR(Tallest(row.items[..k]), row.items[k].size) * 0.25
  }

  /** And the next row begins with an item off that line. */
  predicate Lines(rows: seq<Row>) {
    && (forall r :: r in rows ==> OneLine(r))
    && forall k :: 0 < k < |rows| ==> rows[k].items != [] && !SameLine(rows[k - 1], rows[k].items[0])
  }

  lemma OneLineMore(row: Row, item: Item)
    requires OneLine(row) && SameLine(row, item)
    ensures OneLine(row.(items := row.items + [item], size := MaxR(row.size, item.size)))
  {
    var items := row.items + [item];
    assert items[..|row.items|] == row.items;
    forall k | 0 < k < |items| ensures Abs(row.y - items[k].y) <= MinR(Tallest(items[..k]), items[k].size) * 0.25 {
      if k < |row.items| {
        assert items[..k] == row.items[..k];
      }
    }
  }

  lemma JoinedLines(rows: seq<Row>, item: Item)
    requires Lines(rows)
    ensures Lines(Joined(rows, item))
  {
    hide OneLine;
    var n := |rows|;
    var next := Joined(rows, item);
    if n > 0 && SameLine(rows[n - 1], item) {
      assert rows[n - 1] in rows;
      OneLineMore(rows[n - 1], item);
      assert forall r :: r in next ==> r in rows || r == next[n - 1];
      LineStarts(rows[n - 1], item);
    } else {
      SingleLine(item);
      assert forall r :: r in next ==> r in rows || r == next[n];
    }
  }

  lemma LineStarts(row: Row, item: Item)
    requires OneLine(row)
    ensures row.items != [] && (row.items + [item])[0] == row.items[0]
  {
  }

  lemma SingleLine(item: Item)
    ensures OneLine(Row([item], item.y, item.size, 0))
  {
  }

  /** The rows of a page are its lines. */
  lemma {:induction false} GatheredLines(sorted: seq<Item>)
    ensures Lines(Gathered(sorted))
    decreases |sorted|
  {
    hide Joined;
    if sorted != [] {
      GatheredLines(sorted[..|sorted| - 1]);
      JoinedLines(Gathered(sorted[..|sorted| - 1]), sorted[|sorted| - 1]);
    }
  }

  /** The loop that gathers rows. */
  method GatherRows(sorted: seq<Item>) returns (rows: seq<Row>)
    ensures rows == Gathered(sorted)
  {
    hide Gathered;
    rows := [];
    assert sorted[..0] == [] && Gathered([]) == [] by { NothingGathered(); }
    for i := 0 to |sorted|
      invariant rows == Gathered(sorted[..i])
    {
      GatheredMore(sorted, i);
      var item, n := sorted[i], |rows|;
      if n > 0 && SameLine(rows[n - 1], item) {
        var row := rows[n - 1];
        rows := rows[..n - 1] + [row.(items := row.items + [item], size := MaxR(row.size, item.size))];
      } else {
        rows := rows + [Row([item], item.y, item.size, 0)];
      }
    }
    assert sorted[..|sorted|] == sorted;
  }

  lemma NothingGathered()
    ensures Gathered([]) == []
  {
  }

  /** Each row's items left to right. */
  function Aligned(rows: seq<Row>): (r: seq<Row>)
    ensures |r| == |rows| && forall k :: 0 <= k < |r| ==> r[k] == rows[k].(items := Sorted(rows[k].items, Before))
  {
    if rows == [] then []
    else
      var last := rows[|rows| - 1];
      Aligned(rows[..|rows| - 1]) + [last.(items := Sorted(last.items, Before))]
  }

  lemma NotEmpty(a: seq<Item>, b: seq<Item>)
    requires multiset(a) == multiset(b) && b != []
    ensures a != []
  {
    assert b[0] in multiset(b);
  }

  lemma BeforeIsTotal()
    ensures Total(Before) && Total(Above)
  {
  }

  /** Aligning keeps every row's items, nonempty and left to right. */
  lemma {:induction false} AlignedKeeps(rows: seq<Row>)
    requires Filled(rows)
    ensures multiset(Flat(Aligned(rows))) == multiset(Flat(rows))
    ensures Filled(Aligned(rows)) && forall r :: r in Aligned(rows) ==> RunsRight(r.items)
    decreases |rows|
  {
    hide Flat, Sorted, InOrder, Total, RunsRight;
    if rows == [] {
      assert Aligned(rows) == [];
    } else {
      var front, last := rows[..|rows| - 1], rows[|rows| - 1];
      assert forall r :: r in front ==> r in rows;
      AlignedKeeps(front);
      BeforeIsTotal();
      SortKeeps(last.items, Before);
      SortOrders(last.items, Before);
      OrderedRunsRight(Sorted(last.items, Before));
      NotEmpty(Sorted(last.items, Before), last.items) by { assert last in rows; }
      FlatMore(Aligned(front), last.(items := Sorted(last.items, Before)));
      FlatMore(front, last);
      assert rows == front + [last];
    }
  }

  method SortRows(rows: seq<Row>) returns (sorted: seq<Row>)
    ensures sorted == Aligned(rows)
  {
    hide Sorted;
    sorted := [];
    for i := 0 to |rows|
      invariant |sorted| == i && forall k :: 0 <= k < i ==> sorted[k] == rows[k].(items := Sorted(rows[k].items, Before))
    {
      sorted := sorted + [rows[i].(items := Sorted(rows[i].items, Before))];
    }
  }

  // ----- columns -----

  predicate Spans(row: Row, gutter: real) { exists k :: 0 <= k < |row.items| && row.items[k].x < gutter < row.items[k].x + Abs(row.items[k].width) }

  function LeftOf(items: seq<Item>, gutter: real): (r: seq<Item>)
    ensures forall i :: i in r ==> i in items && i.x < gutter
  {
    if items == [] then []
    else
      var last := items[|items| - 1];
      LeftOf(items[..|items| - 1], gutter) + (if last.x < gutter then [last] else [])
  }

  function RightOf(items: seq<Item>, gutter: real): (r: seq<Item>)
    ensures forall i :: i in r ==> i in items && gutter <= i.x
  {
    if items == [] then []
    else
      var last := items[|items| - 1];
      RightOf(items[..|items| - 1], gutter) + (if last.x < gutter then [] else [last])
  }

  function SideOf(items: seq<Item>, gutter: real, left: bool): seq<Item> { if left then LeftOf(items, gutter) else RightOf(items, gutter) }

  /** The rows of one column, in row order, those without items left out. */
  function Column(rows: seq<Row>, gutter: real, left: bool): seq<Row> {
    if rows == [] then []
    else
      var last := rows[|rows| - 1];
      var side := SideOf(last.items, gutter, left);
      Column(rows[..|rows| - 1], gutter, left) + (if side == [] then [] else [last.(items := side)])
  }

  /** A group of rows under a new block number. */
  function Placed(group: seq<Row>, block: nat): (r: seq<Row>)
    ensures |r| == |group| && forall k :: 0 <= k < |r| ==> r[k] == group[k].(block := block)
  {
    if group == [] then [] else Placed(group[..|group| - 1], block) + [group[|group| - 1].(block := block)]
  }

  /** The first row at or after `from` that spans the gutter. */
  function BandEnd(rows: seq<Row>, gutter: real, from: nat): (end: nat)
    requires from <= |rows|
    ensures from <= end <= |rows| && (end < |rows| ==> Spans(rows[end], gutter))
    ensures forall k :: from <= k < end ==> !Spans(rows[k], gutter)
    decreases |rows| - from
  {
    if from == |rows| || Spans(rows[from], gutter) then from else BandEnd(rows, gutter, from + 1)
  }

  /** One band: the whole left column, then the whole right column. */
  function Band(rows: seq<Row>, gutter: real, block: nat): seq<Row> {
    Placed(Column(rows, gutter, true), block) + Placed(Column(rows, gutter, false), block + 1)
  }

  /** Two columns: band after band from a row on, each closed by the row that spans the gutter. */
  function ColumnsFrom(rows: seq<Row>, gutter: real, from: nat, block: nat): seq<Row>
    requires from <= |rows|
    decreases |rows| - from
  {
    var end := BandEnd(rows, gutter, from);
    Band(rows[from..end], gutter, block) +
    (if end == |rows| then [] else [rows[end].(block := block + 2)] + ColumnsFrom(rows, gutter, end + 1, block + 3))
  }

  function ColumnOrder(rows: seq<Row>, gutter: real): seq<Row> { ColumnsFrom(rows, gutter, 0, 0) }

  lemma JoinLeft<T>(l: seq<T>, r: seq<T>, f: seq<T>, x: T)
    requires multiset(l) + multiset(r) == multiset(f)
    ensures multiset(l + [x]) + multiset(r) == multiset(f + [x])
  {
    assert multiset(l + [x]) == multiset(l) + multiset([x]);
    assert multiset(f + [x]) == multiset(f) + multiset([x]);
  }

  lemma SidesMore(front: seq<Item>, last: Item, gutter: real)
    ensures LeftOf(front + [last], gutter) == if last.x < gutter then LeftOf(front, gutter) + [last] else LeftOf(front, gutter)
    ensures RightOf(front + [last], gutter) == if last.x < gutter then RightOf(front, gutter) else RightOf(front, gutter) + [last]
  {
    assert (front + [last])[..|front|] == front;
  }

  lemma NoSides(gutter: real)
    ensures LeftOf([], gutter) == [] && RightOf([], gutter) == []
  {
  }

  lemma {:induction false} SidesKeep(items: seq<Item>, gutter: real)
    ensures multiset(LeftOf(items, gutter)) + multiset(RightOf(items, gutter)) == multiset(items)
    decreases |items|
  {
    hide *;
    NoSides(gutter);
    if items != [] {
      var front, last := items[..|items| - 1], items[|items| - 1];
      SidesKeep(front, gutter);
      assert items == front + [last];
      SidesMore(front, last, gutter);
      if last.x < gutter {
        JoinLeft(LeftOf(front, gutter), RightOf(front, gutter), front, last);
      } else {
        JoinLeft(RightOf(front, gutter), LeftOf(front, gutter), front, last);
      }
    }
  }

  lemma {:induction false} PlacedFlat(group: seq<Row>, block: nat)
    ensures Flat(Placed(group, block)) == Flat(group)
    decreases |group|
  {
    if group != [] {
      PlacedFlat(group[..|group| - 1], block);
      FlatMore(Placed(group[..|group| - 1], block), group[|group| - 1].(block := block));
    }
  }

  lemma ColumnMore(rows: seq<Row>, row: Row, gutter: real, left: bool)
    ensures var side := SideOf(row.items, gutter, left);
      Column(rows + [row], gutter, left) == Column(rows, gutter, left) + (if side == [] then [] else [row.(items := side)])
    ensures Flat(Column(rows + [row], gutter, left)) == Flat(Column(rows, gutter, left)) + SideOf(row.items, gutter, left)
  {
    hide Flat, SideOf;
    assert (rows + [row])[..|rows|] == rows;
    var side, column := SideOf(row.items, gutter, left), Column(rows, gutter, left);
    if side != [] {
      FlatMore(column, row.(items := side));
    } else {
      assert column + [] == column;
      assert Flat(column) + side == Flat(column);
    }
  }

  lemma NoColumn(gutter: real, left: bool)
    ensures Column([], gutter, left) == [] && Flat([]) == []
  {
  }

  /** A column holds its side's items of every row, row by row, and no row of it is empty. */
  lemma {:induction false} ColumnSide(rows: seq<Row>, gutter: real, left: bool)
    ensures Filled(Column(rows, gutter, left))
    ensures forall i :: i in Flat(Column(rows, gutter, left)) ==> (i.x < gutter <==> left)
    decreases |rows|
  {
    hide Flat, Column, LeftOf, RightOf;
    NoColumn(gutter, left);
    if rows != [] {
      var front, last := rows[..|rows| - 1], rows[|rows| - 1];
      assert rows == front + [last];
      ColumnSide(front, gutter, left);
      ColumnMore(front, last, gutter, left);
    }
  }

  lemma {:induction false} ColumnsKeep(rows: seq<Row>, gutter: real)
    ensures multiset(Flat(Column(rows, gutter, true))) + multiset(Flat(Column(rows, gutter, false))) == multiset(Flat(rows))
    decreases |rows|
  {
    hide *;
    NoColumn(gutter, true);
    NoColumn(gutter, false);
    if rows != [] {
      var front, last := rows[..|rows| - 1], rows[|rows| - 1];
      assert rows == front + [last];
      ColumnsKeep(front, gutter);
      ColumnMore(front, last, gutter, true);
      ColumnMore(front, last, gutter, false);
      SidesKeep(last.items, gutter);
      SideIs(last.items, gutter);
      FlatMore(front, last);
      AddUp(Flat(Column(front, gutter, true)), SideOf(last.items, gutter, true),
            Flat(Column(front, gutter, false)), SideOf(last.items, gutter, false), Flat(front), last.items);
    }
  }

  lemma SideIs(items: seq<Item>, gutter: real)
    ensures SideOf(items, gutter, true) == LeftOf(items, gutter) && SideOf(items, gutter, false) == RightOf(items, gutter)
  {
  }

  lemma AddUp<T>(a: seq<T>, b: seq<T>, d: seq<T>, e: seq<T>, f: seq<T>, g: seq<T>)
    requires multiset(a) + multiset(d) == multiset(f) && multiset(b) + multiset(e) == multiset(g)
    ensures multiset(a + b) + multiset(d + e) == multiset(f + g)
  {
    assert multiset(a + b) == multiset(a) + multiset(b);
    assert multiset(d + e) == multiset(d) + multiset(e);
    assert multiset(f + g) == multiset(f) + multiset(g);
  }

  /** In a band every item left of the gutter comes before every other, and nothing is lost. */
  lemma BandOrder(rows: seq<Row>, gutter: real, block: nat)
    ensures var left, right := Flat(Column(rows, gutter, true)), Flat(Column(rows, gutter, false));
      && Flat(Band(rows, gutter, block)) == left + right
      && (forall i :: i in left ==> i.x < gutter) && (forall i :: i in right ==> gutter <= i.x)
    ensures multiset(Flat(Band(rows, gutter, block))) == multiset(Flat(rows)) && Filled(Band(rows, gutter, block))
  {
    hide Flat, Column;
    var left, right := Column(rows, gutter, true), Column(rows, gutter, false);
    PlacedFlat(left, block);
    PlacedFlat(right, block + 1);
    FlatAppend(Placed(left, block), Placed(right, block + 1));
    ColumnSide(rows, gutter, true);
    ColumnSide(rows, gutter, false);
    ColumnsKeep(rows, gutter);
    assert multiset(Flat(left) + Flat(right)) == multiset(Flat(left)) + multiset(Flat(right));
    PlacedFilled(left, block);
    PlacedFilled(right, block + 1);
  }

  lemma PlacedFilled(group: seq<Row>, block: nat)
    requires Filled(group)
    ensures forall r :: r in Placed(group, block) ==> r.items != [] && r.block == block
  {
    forall r | r in Placed(group, block) ensures r.items != [] && r.block == block {
      var k :| 0 <= k < |group| && Placed(group, block)[k] == r;
      assert group[k] in group;
    }
  }

  lemma RestIn(rows: seq<Row>, from: nat, end: nat)
    requires from <= end < |rows|
    ensures rows[from..] == rows[from..end] + [rows[end]] + rows[end + 1..] && rows[end] in rows
  {
  }

  lemma ColumnsFromIs(rows: seq<Row>, gutter: real, from: nat, block: nat)
    requires from <= |rows|
    ensures var end := BandEnd(rows, gutter, from);
      var band := Band(rows[from..end], gutter, block);
      ColumnsFrom(rows, gutter, from, block) ==
      if end == |rows| then band else band + [rows[end].(block := block + 2)] + ColumnsFrom(rows, gutter, end + 1, block + 3)
  {
    hide Band, Spans;
    var end := BandEnd(rows, gutter, from);
    if end == |rows| {
      assert Band(rows[from..end], gutter, block) + [] == Band(rows[from..end], gutter, block);
    } else {
      Grouped(Band(rows[from..end], gutter, block), rows[end].(block := block + 2), ColumnsFrom(rows, gutter, end + 1, block + 3));
    }
  }

  lemma Grouped<T>(a: seq<T>, x: T, b: seq<T>)
    ensures a + ([x] + b) == a + [x] + b
  {
  }

  lemma {:induction false} ColumnsFilled(rows: seq<Row>, gutter: real, from: nat, block: nat)
    requires Filled(rows) && from <= |rows|
    ensures Filled(ColumnsFrom(rows, gutter, from, block))
    decreases |rows| - from
  {
    hide *;
    var end := BandEnd(rows, gutter, from);
    BandOrder(rows[from..end], gutter, block);
    ColumnsFromIs(rows, gutter, from, block);
    if end < |rows| {
      ColumnsFilled(rows, gutter, end + 1, block + 3);
      FilledHas(rows, end);
      FilledParts(Band(rows[from..end], gutter, block), rows[end].(block := block + 2), ColumnsFrom(rows, gutter, end + 1, block + 3));
    }
  }

  /** Two runs of three parts hold the same items when their parts do. */
  lemma SameParts(a: seq<Row>, x: Row, b: seq<Row>, c: seq<Row>, y: Row, d: seq<Row>)
    requires multiset(Flat(a)) == multiset(Flat(c)) && x.items == y.items && multiset(Flat(b)) == multiset(Flat(d))
    ensures multiset(Flat(a + [x] + b)) == multiset(Flat(c + [y] + d))
  {
    hide *;
    ThreeParts(a, x, b);
    ThreeParts(c, y, d);
  }

  /** Columns lose nothing. */
  lemma {:induction false} ColumnsKeepAll(rows: seq<Row>, gutter: real, from: nat, block: nat)
    requires Filled(rows) && from <= |rows|
    ensures multiset(Flat(ColumnsFrom(rows, gutter, from, block))) == multiset(Flat(rows[from..]))
    ensures Filled(ColumnsFrom(rows, gutter, from, block))
    decreases |rows| - from
  {
    hide *;
    var end := BandEnd(rows, gutter, from);
    var band := Band(rows[from..end], gutter, block);
    BandOrder(rows[from..end], gutter, block);
    ColumnsFromIs(rows, gutter, from, block);
    ColumnsFilled(rows, gutter, from, block);
    if end == |rows| {
      assert rows[from..end] == rows[from..];
    } else {
      var rest := ColumnsFrom(rows, gutter, end + 1, block + 3);
      ColumnsKeepAll(rows, gutter, end + 1, block + 3);
      RestIn(rows, from, end);
      SameParts(band, rows[end].(block := block + 2), rest, rows[from..end], rows[end], rows[end + 1..]);
    }
  }

  lemma FilledHas(rows: seq<Row>, k: nat)
    requires Filled(rows) && k < |rows|
    ensures rows[k].items != []
  {
  }

  lemma FilledParts(a: seq<Row>, row: Row, b: seq<Row>)
    requires Filled(a) && row.items != [] && Filled(b)
    ensures Filled(a + [row] + b)
  {
  }

  lemma ThreeParts(a: seq<Row>, row: Row, b: seq<Row>)
    ensures Flat(a + [row] + b) == Flat(a) + row.items + Flat(b)
    ensures multiset(Flat(a + [row] + b)) == multiset(Flat(a)) + multiset(row.items) + multiset(Flat(b))
  {
    hide Flat;
    FlatMore(a, row);
    FlatAppend(a + [row], b);
  }

  /** An item begins before the gutter and reaches over it, whichever way it runs. */
  predicate Crossed(row: Row, gutter: real) {
    exists i :: i in row.items && i.x < gutter && (gutter < i.x + i.width || gutter < i.x - i.width)
  }

  lemma SpansIsCrossed(row: Row, gutter: real)
    ensures Spans(row, gutter) <==> Crossed(row, gutter)
  {
  }

  /** Two columns read band by band: everything of a band left of the gutter, in row order,
      before everything right of it, before the row that closes the band, before the rest. */
  lemma ColumnsRead(rows: seq<Row>, gutter: real, from: nat, block: nat)
    requires from <= |rows|
    ensures var end := BandEnd(rows, gutter, from);
      var left, right := Flat(Column(rows[from..end], gutter, true)), Flat(Column(rows[from..end], gutter, false));
      && (forall k :: from <= k < end ==> !Crossed(rows[k], gutter)) && (end < |rows| ==> Crossed(rows[end], gutter))
      && (forall i :: i in left ==> i.x < gutter) && (forall i :: i in right ==> gutter <= i.x)
      && Flat(ColumnsFrom(rows, gutter, from, block)) ==
         left + right + (if end == |rows| then [] else rows[end].items + Flat(ColumnsFrom(rows, gutter, end + 1, block + 3)))
  {
    hide *;
    var end := BandEnd(rows, gutter, from);
    var band := Band(rows[from..end], gutter, block);
    forall k | from <= k <= end && k < |rows| ensures Spans(rows[k], gutter) <==> Crossed(rows[k], gutter) {
      SpansIsCrossed(rows[k], gutter);
    }
    BandOrder(rows[from..end], gutter, block);
    ColumnsFromIs(rows, gutter, from, block);
    if end < |rows| {
      var rest := ColumnsFrom(rows, gutter, end + 1, block + 3);
      var closing := rows[end].(block := block + 2);
      ThreeParts(band, closing, rest);
      assert Flat(band) + closing.items + Flat(rest) == Flat(band) + (closing.items + Flat(rest));
    }
  }

  // ----- the loop -----

  /** Columns from a row on, when the band's rows before `i` have been divided already. */
  function Pending(rows: seq<Row>, gutter: real, from: nat, i: nat, block: nat): seq<Row>
    requires from <= i <= |rows|
  {
    var end := BandEnd(rows, gutter, i);
    Band(rows[from..end], gutter, block) +
    (if end == |rows| then [] else [rows[end].(block := block + 2)] + ColumnsFrom(rows, gutter, end + 1, block + 3))
  }

  /** The left column, the right one and the row that spans them are blocks of their own, and what
      follows them others still. */
  lemma BlocksPart(rows: seq<Row>, gutter: real, from: nat, block: nat)
    requires from <= |rows|
    ensures var out, end := ColumnsFrom(rows, gutter, from, block), BandEnd(rows, gutter, from);
      var left := |Column(rows[from..end], gutter, true)|;
      var both := left + |Column(rows[from..end], gutter, false)|;
      && both <= |out| && (end == |rows| ==> |out| == both) && (end < |rows| ==> both < |out| && out[both] == rows[end].(block := block + 2))
      && (forall k :: 0 <= k < left ==> out[k].block == block) && (forall k :: left <= k < both ==> out[k].block == block + 1)
      && (forall k :: both < k < |out| ==> out[k].block >= block + 3)
  {
    hide Column, Spans, ColumnsFrom;
    ColumnsFromIs(rows, gutter, from, block);
    var end := BandEnd(rows, gutter, from);
    if end < |rows| {
      var out, rest := ColumnsFrom(rows, gutter, from, block), ColumnsFrom(rows, gutter, end + 1, block + 3);
      var both := |Band(rows[from..end], gutter, block)|;
      BlocksRise(rows, gutter, end + 1, block + 3);
      forall k | both < k < |out| ensures out[k].block >= block + 3 {
        assert out[k] == rest[k - both - 1];
      }
    }
  }

  lemma {:induction false} BlocksRise(rows: seq<Row>, gutter: real, from: nat, block: nat)
    requires from <= |rows|
    ensures forall k :: 0 <= k < |ColumnsFrom(rows, gutter, from, block)| ==> ColumnsFrom(rows, gutter, from, block)[k].block >= block
    decreases |rows| - from
  {
    hide Column, Spans, ColumnsFrom;
    ColumnsFromIs(rows, gutter, from, block);
    var end := BandEnd(rows, gutter, from);
    if end < |rows| {
      BlocksRise(rows, gutter, end + 1, block + 3);
    }
  }

  lemma PendingBegins(rows: seq<Row>, gutter: real, from: nat, block: nat)
    requires from <= |rows|
    ensures Pending(rows, gutter, from, from, block) == ColumnsFrom(rows, gutter, from, block)
  {
  }

  lemma PendingSkips(rows: seq<Row>, gutter: real, from: nat, i: nat, block: nat)
    requires from <= i < |rows| && !Spans(rows[i], gutter)
    ensures Pending(rows, gutter, from, i, block) == Pending(rows, gutter, from, i + 1, block)
  {
    hide Band, ColumnsFrom, Spans;
  }

  lemma PendingCloses(rows: seq<Row>, gutter: real, from: nat, i: nat, block: nat)
    requires from <= i <= |rows| && (i < |rows| ==> Spans(rows[i], gutter))
    ensures Pending(rows, gutter, from, i, block) == Band(rows[from..i], gutter, block) +
                                                    (if i == |rows| then [] else [rows[i].(block := block + 2)] + ColumnsFrom(rows, gutter, i + 1, block + 3))
  {
    hide Band, ColumnsFrom, Spans;
  }

  /** The loop that divides rows into columns and flushes a band at every spanning row. */
  method Columns(rows: seq<Row>, gutter: real) returns (ordered: seq<Row>)
    ensures ordered == ColumnOrder(rows, gutter)
  {
    hide Spans, ColumnsFrom, Column, LeftOf, RightOf, Placed, BandEnd, Pending;
    ordered := [];
    var left: seq<Row>, right: seq<Row>, block: nat := [], [], 0;
    ghost var from := 0;
    ghost var all := ColumnsFrom(rows, gutter, 0, 0);
    assert rows[0..0] == [];
    NoColumn(gutter, true);
    NoColumn(gutter, false);
    PendingBegins(rows, gutter, 0, 0);
    for i := 0 to |rows|
      invariant from <= i && left == Column(rows[from..i], gutter, true) && right == Column(rows[from..i], gutter, false)
      invariant ordered + Pending(rows, gutter, from, i, block) == all
    {
      var row := rows[i];
      if Spans(row, gutter) {
        PendingCloses(rows, gutter, from, i, block);
        PendingBegins(rows, gutter, i + 1, block + 3);
        Regroup(ordered, Placed(left, block) + Placed(right, block + 1), row.(block := block + 2), ColumnsFrom(rows, gutter, i + 1, block + 3));
        ordered := ordered + (Placed(left, block) + Placed(right, block + 1)) + [row.(block := block + 2)];
        left, right, block, from := [], [], block + 3, i + 1;
        assert rows[i + 1..i + 1] == [];
      } else {
        PendingSkips(rows, gutter, from, i, block);
        assert rows[from..i + 1] == rows[from..i] + [row];
        ColumnMore(rows[from..i], row, gutter, true);
        ColumnMore(rows[from..i], row, gutter, false);
        var l, r := LeftOf(row.items, gutter), RightOf(row.items, gutter);
        if l != [] {
          left := left + [row.(items := l)];
        }
        if r != [] {
          right := right + [row.(items := r)];
        }
      }
    }
    PendingCloses(rows, gutter, from, |rows|, block);
    ordered := ordered + (Placed(left, block) + Placed(right, block + 1));
  }

  lemma Regroup<T>(a: seq<T>, b: seq<T>, x: T, c: seq<T>)
    ensures a + (b + ([x] + c)) == (a + b + [x]) + c
  {
  }
}
