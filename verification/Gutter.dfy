/** The gutter between two columns of prose, `findGutter` of packages/documents/src/layout.ts. */
module Gutter {
  import opened Common
  import opened Utf16
  import opened Layout

  const PROBES := 64
  const PROSE := 16

  /** Length of a text without the white space around it. */
  function Trimmed(t: Text): nat {
    if t == [] then 0
    else if Space(t[0]) then Trimmed(t[1..])
    else if Space(t[|t| - 1]) then Trimmed(t[..|t| - 1])
    else |t|
  }

  function TrimmedSum(items: seq<Item>): nat {
    if items == [] then 0 else TrimmedSum(items[..|items| - 1]) + Trimmed(items[|items| - 1].str)
  }

  function Share(width: real, probe: real): real { width * probe / 64.0 }

  function ProbeAt(left: real, right: real, probe: nat): real { left + Share(right - left, probe as real) }

  /** The gap behind an item lies between substantial prose and is wide. */
  predicate WideGap(row: Row, at: nat)
    requires at + 1 < |row.items|
  {
    var before := TrimmedSum(row.items[..at + 1]);
    && before >= PROSE && TrimmedSum(row.items) - before >= PROSE
    && row.items[at + 1].x - (row.items[at].x + Abs(row.items[at].width)) >= row.size * 2.0
  }

  /** And the probe stands clear inside it. */
  predicate Backs(row: Row, at: nat, x: real)
    requires at + 1 < |row.items|
  {
    WideGap(row, at) && row.items[at].x + Abs(row.items[at].width) + row.size < x < row.items[at + 1].x - row.size
  }

  /** Gaps of a row, up to the one behind item `n - 1`, that back a probe. */
  function RowVotes(row: Row, n: nat, x: real): nat
    requires n < |row.items| || n == 0
  {
    if n == 0 then 0 else RowVotes(row, n - 1, x) + (if Backs(row, n - 1, x) then 1 else 0)
  }

  function Gaps(row: Row): (n: nat)
    ensures n < |row.items| || n == 0
  {
    if row.items == [] then 0 else |row.items| - 1
  }

  function Votes(rows: seq<Row>, x: real): nat {
    if rows == [] then 0 else Votes(rows[..|rows| - 1], x) + RowVotes(rows[|rows| - 1], Gaps(rows[|rows| - 1]), x)
  }

  lemma VotesMore(rows: seq<Row>, k: nat, x: real)
    requires k < |rows|
    ensures Votes(rows[..k + 1], x) == Votes(rows[..k], x) + RowVotes(rows[k], Gaps(rows[k]), x)
  {
    assert rows[..k + 1][..k] == rows[..k];
  }

  /** One gap's votes, probe by probe. */
  method CountGap(votes: array<nat>, row: Row, at: nat, left: real, right: real)
    requires votes.Length == PROBES && at + 1 < |row.items|
    modifies votes
    ensures forall p :: 0 < p < PROBES - 1 ==> votes[p] == old(votes[p]) + (if Backs(row, at, ProbeAt(left, right, p)) then 1 else 0)
  {
    hide Backs, WideGap, ProbeAt;
    for probe := 1 to PROBES - 1
      invariant forall p :: 0 < p < probe ==> votes[p] == old(votes[p]) + (if Backs(row, at, ProbeAt(left, right, p)) then 1 else 0)
      invariant forall p :: probe <= p < PROBES ==> votes[p] == old(votes[p])
    {
      if Backs(row, at, ProbeAt(left, right, probe)) {
        votes[probe] := votes[probe] + 1;
      }
    }
  }

  /** Every row's votes. */
  method CountVotes(rows: seq<Row>, left: real, right: real) returns (votes: array<nat>)
    ensures fresh(votes) && votes.Length == PROBES
    ensures forall p :: 0 < p < PROBES - 1 ==> votes[p] == Votes(rows, ProbeAt(left, right, p))
  {
    hide Backs, ProbeAt, Votes;
    votes := new nat[PROBES](_ => 0);
    assert rows[..0] == [] && forall x :: Votes([], x) == 0 by { NoVotes(); }
    for k := 0 to |rows|
      invariant fresh(votes) && votes.Length == PROBES
      invariant forall p :: 0 < p < PROBES - 1 ==> votes[p] == Votes(rows[..k], ProbeAt(left, right, p))
    {
      var row := rows[k];
      for at := 0 to Gaps(row)
        invariant fresh(votes) && votes.Length == PROBES
        invariant forall p :: 0 < p < PROBES - 1 ==>
          votes[p] == Votes(rows[..k], ProbeAt(left, right, p)) + RowVotes(row, at, ProbeAt(left, right, p))
      {
        CountGap(votes, row, at, left, right);
      }
      forall p | 0 < p < PROBES - 1 ensures votes[p] == Votes(rows[..k + 1], ProbeAt(left, right, p)) {
        VotesMore(rows, k, ProbeAt(left, right, p));
      }
    }
    assert rows[..|rows|] == rows;
  }

  lemma NoVotes()
    ensures forall x :: Votes([], x) == 0
  {
  }

  function Distance(probe: int): nat { if probe < PROBES / 2 then PROBES / 2 - probe else probe - PROBES / 2 }

  /** Of two probes with equal votes, the nearer to the middle, then the earlier. */
  predicate Nearer(a: int, b: int) { Distance(a) < Distance(b) || (Distance(a) == Distance(b) && a <= b) }

  /** The probe with most votes, at least three, and the nearest among equals. */
  ghost predicate Best(tally: int -> nat, best: int) {
    && 0 < best < PROBES - 1 && tally(best) > 2
    && forall p :: 0 < p < PROBES - 1 ==> tally(p) <= tally(best) && (tally(p) == tally(best) ==> Nearer(best, p))
  }

  method Elect(votes: array<nat>) returns (best: int)
    requires votes.Length == PROBES
    ensures best == -1 ==> forall p :: 0 < p < PROBES - 1 ==> votes[p] <= 2
    ensures best != -1 ==> 0 < best < PROBES - 1 && votes[best] > 2
    ensures best != -1 ==> forall p :: 0 < p < PROBES - 1 ==> votes[p] <= votes[best] && (votes[p] == votes[best] ==> Nearer(best, p))
  {
    best := -1;
    var count := 2;
    for probe := 1 to PROBES - 1
      invariant best == -1 ==> count == 2 && forall p :: 0 < p < probe ==> votes[p] <= 2
      invariant best != -1 ==> 0 < best < probe && votes[best] == count > 2
      invariant best != -1 ==> forall p :: 0 < p < probe ==> votes[p] <= count && (votes[p] == count ==> Nearer(best, p))
    {
      if votes[probe] > count || (votes[probe] == count && best != -1 && Distance(probe) < Distance(best)) {
        best, count := probe, votes[probe];
      }
    }
  }

  /** All items lie between two edges. */
  ghost predicate Edges(items: seq<Item>, left: real, right: real) {
    && (forall i :: i in items ==> left <= i.x && i.x + Abs(i.width) <= right)
    && (exists i :: i in items && i.x == left) && (exists i :: i in items && i.x + Abs(i.width) == right)
  }

  method FindEdges(items: seq<Item>) returns (left: real, right: real)
    requires items != []
    ensures Edges(items, left, right)
  {
    left, right := items[0].x, items[0].x + Abs(items[0].width);
    ghost var l, r := items[0], items[0];
    for k := 0 to |items|
      invariant l in items && l.x == left && r in items && r.x + Abs(r.width) == right
      invariant forall j :: 0 <= j < k ==> left <= items[j].x && items[j].x + Abs(items[j].width) <= right
    {
      if items[k].x < left {
        left, l := items[k].x, items[k];
      }
      if items[k].x + Abs(items[k].width) > right {
        right, r := items[k].x + Abs(items[k].width), items[k];
      }
    }
  }

  lemma Positive(a: real, b: real)
    requires a > 0.0 && b > 0.0
    ensures a * b > 0.0
  {
  }

  /** A proper share of a width lies strictly inside it. */
  lemma ShareInside(width: real, p: real)
    requires width > 0.0 && 0.0 < p < 64.0
    ensures 0.0 < Share(width, p) < width
  {
    var rest := 64.0 - p;
    Positive(width, p);
    Positive(width, rest);
    var a, b := width * p, width * rest;
    assert a + b == width * (p + rest);
    assert a + b == width * 64.0;
  }

  lemma ProbeInside(left: real, right: real, probe: nat)
    requires left < right && 0 < probe < PROBES
    ensures left < ProbeAt(left, right, probe) < right
  {
    hide Share;
    ShareInside(right - left, probe as real);
  }

  /** How the rows vote on the probes between two edges. */
  function Tally(rows: seq<Row>, left: real, right: real): int -> nat { (p: int) => if p < 0 then 0 else Votes(rows, ProbeAt(left, right, p)) }

  /** What the rows elect: the best probe between their outermost edges, and nothing when
      there are no such edges or no probe has more than two votes. */
  ghost predicate Elects(rows: seq<Row>, gutter: Option<real>) {
    match gutter
    case Some(g) => exists left, right, best: nat ::
      && Edges(Flat(rows), left, right) && left < right && Best(Tally(rows, left, right), best) && g == ProbeAt(left, right, best)
    case None => forall left, right, p ::
      Edges(Flat(rows), left, right) && left < right && 0 < p < PROBES - 1 ==> Tally(rows, left, right)(p) <= 2
  }

  /** The rows elect one gutter or none. */
  lemma OneGutter(rows: seq<Row>, a: Option<real>, b: Option<real>)
    requires Elects(rows, a) && Elects(rows, b)
    ensures a == b
  {
    hide Tally, ProbeAt, Edges, Flat;
    var all := Flat(rows);
    if a.Some? {
      var left, right, best: nat :| Edges(all, left, right) && left < right && Best(Tally(rows, left, right), best) && a.value == ProbeAt(left, right, best);
      OneEdges(all, left, right);
      assert Tally(rows, left, right)(best) > 2;
    }
  }

  /** A gutter lies strictly between the outermost edges. */
  lemma GutterInside(rows: seq<Row>, gutter: real)
    requires Elects(rows, Some(gutter))
    ensures forall left, right :: Edges(Flat(rows), left, right) ==> left < gutter < right
  {
    hide Tally, ProbeAt, Edges, Flat;
    var all := Flat(rows);
    var left, right, best: nat :| Edges(all, left, right) && left < right && Best(Tally(rows, left, right), best) && gutter == ProbeAt(left, right, best);
    OneEdges(all, left, right);
    ProbeInside(left, right, best);
  }

  /** The gutter the rows elect. */
  method FindGutter(rows: seq<Row>) returns (gutter: Option<real>)
    ensures Elects(rows, gutter)
  {
    hide Votes, ProbeAt, Edges, Flat;
    var all := Flat(rows);
    if all == [] {
      assert forall left, right :: !Edges(all, left, right) by { NoEdges(); }
      return None;
    }
    var left, right := FindEdges(all);
    assert forall l, r :: Edges(all, l, r) ==> l == left && r == right by { OneEdges(all, left, right); }
    if right <= left {
      return None;
    }
    var votes := CountVotes(rows, left, right);
    var best := Elect(votes);
    if best == -1 {
      return None;
    }
    assert Best(Tally(rows, left, right), best);
    return Some(ProbeAt(left, right, best));
  }

  lemma NoEdges()
    ensures forall left, right :: !Edges([], left, right)
  {
  }

  lemma OneEdges(items: seq<Item>, left: real, right: real)
    requires Edges(items, left, right)
    ensures forall l, r :: Edges(items, l, r) ==> l == left && r == right
  {
  }

  // ----- what a gutter is -----

  /** What lies between the first and the last visible unit counts. */
  lemma {:induction false} TrimmedIs(t: Text, i: nat, j: nat)
    requires i <= j <= |t| && (forall k :: 0 <= k < i || j <= k < |t| ==> Space(t[k]))
    requires i < j ==> !Space(t[i]) && !Space(t[j - 1])
    ensures Trimmed(t) == j - i
    decreases |t|
  {
    if t != [] {
      if Space(t[0]) {
        TrimmedIs(t[1..], if i > 0 then i - 1 else 0, if i > 0 then j - 1 else 0);
      } else if Space(t[|t| - 1]) {
        TrimmedIs(t[..|t| - 1], i, j);
      }
    }
  }

  /** Where an item ends, whichever way it runs. */
  function Reach(i: Item): real { MaxR(i.x + i.width, i.x - i.width) }

  /** The probe stands clear in the gap behind item `at`: sixteen units of prose on either side,
      a gap of twice the row's extent, and the extent itself free on both sides of the probe. */
  predicate Clear(row: Row, at: nat, x: real)
    requires at + 1 < |row.items|
  {
    var gap := row.items[at + 1].x - Reach(row.items[at]);
    && TrimmedSum(row.items[..at + 1]) >= 16 && TrimmedSum(row.items[at + 1..]) >= 16
    && gap >= row.size + row.size && Reach(row.items[at]) < x - row.size && x + row.size < row.items[at + 1].x
  }

  lemma {:induction false} TrimmedSplit(items: seq<Item>, n: nat)
    requires n <= |items|
    ensures TrimmedSum(items) == TrimmedSum(items[..n]) + TrimmedSum(items[n..])
    decreases |items|
  {
    hide TrimmedSum, Trimmed;
    if n == |items| {
      assert items[..n] == items && items[n..] == [];
      TrimmedNone();
    } else {
      var last := |items| - 1;
      TrimmedSplit(items[..last], n);
      TrimmedMore(items[..last], items[last]);
      TrimmedMore(items[..last][n..], items[last]);
      assert items == items[..last] + [items[last]] && items[..last][..n] == items[..n];
      assert items[n..] == items[..last][n..] + [items[last]];
    }
  }

  lemma TrimmedNone()
    ensures TrimmedSum([]) == 0
  {
  }

  lemma TrimmedMore(items: seq<Item>, item: Item)
    ensures TrimmedSum(items + [item]) == TrimmedSum(items) + Trimmed(item.str)
  {
    assert (items + [item])[..|items|] == items;
  }

  lemma BacksIffClear(row: Row, at: nat, x: real)
    requires at + 1 < |row.items|
    ensures Backs(row, at, x) <==> Clear(row, at, x)
  {
    hide TrimmedSum;
    TrimmedSplit(row.items, at + 1);
  }

  /** The gaps of one row, and of all rows, that a probe stands clear in. */
  ghost function RowVoters(row: Row, n: nat, x: real): set<nat>
    requires n < |row.items| || n == 0
  {
    set at: nat | at < n && Clear(row, at, x)
  }

  ghost function Voters(rows: seq<Row>, x: real): set<(nat, nat)> {
    set r: nat, at: nat | r < |rows| && at < Gaps(rows[r]) && Clear(rows[r], at, x) :: (r, at)
  }

  lemma {:induction false} RowVotesCount(row: Row, n: nat, x: real)
    requires n < |row.items| || n == 0
    ensures RowVotes(row, n, x) == |RowVoters(row, n, x)|
  {
    hide Backs, Clear;
    if n > 0 {
      RowVotesCount(row, n - 1, x);
      BacksIffClear(row, n - 1, x);
      assert RowVoters(row, n, x) == RowVoters(row, n - 1, x) + (if Clear(row, n - 1, x) then {n - 1} else {});
    }
  }

  lemma {:induction false} PairedWith(r: nat, ats: set<nat>, pairs: set<(nat, nat)>)
    requires pairs == set at | at in ats :: (r, at)
    ensures |pairs| == |ats|
    decreases |ats|
  {
    if ats != {} {
      var at :| at in ats;
      PairedWith(r, ats - {at}, pairs - {(r, at)});
    }
  }

  /** The votes for a probe are the gaps it stands clear in. */
  lemma {:induction false} VotesCount(rows: seq<Row>, x: real)
    ensures Votes(rows, x) == |Voters(rows, x)|
    decreases |rows|
  {
    hide Clear, RowVotes, Gaps;
    if rows != [] {
      var n := |rows| - 1;
      VotesCount(rows[..n], x);
      RowVotesCount(rows[n], Gaps(rows[n]), x);
      var here := RowVoters(rows[n], Gaps(rows[n]), x);
      var pairs := set at | at in here :: (n, at);
      PairedWith(n, here, pairs);
      assert Voters(rows, x) == Voters(rows[..n], x) + pairs;
    }
  }

  /** One of the sixty-two places that divide a width in sixty-fourths, its ends apart. */
  predicate Probes(left: real, right: real, p: int, x: real) { 1 <= p <= 62 && (x - left) * 64.0 == (right - left) * (p as real) }

  lemma ProbesAt(left: real, right: real, p: int, x: real)
    ensures Probes(left, right, p, x) <==> 1 <= p <= 62 && x == ProbeAt(left, right, p)
  {
  }

  function FromMiddle(p: int): nat { if p < 32 then 32 - p else p - 32 }

  ghost predicate Outpolls(rows: seq<Row>, best: int, g: real, p: int, x: real) {
    || |Voters(rows, x)| < |Voters(rows, g)|
    || (|Voters(rows, x)| == |Voters(rows, g)| && (FromMiddle(best) < FromMiddle(p) || (FromMiddle(best) == FromMiddle(p) && best <= p)))
  }

  /** The elected gutter stands clear in at least three gaps, and in more than any other place
      does, or in as many and nearer the middle, or as near and further left. Without one, no
      place stands clear in three. */
  lemma GutterClear(rows: seq<Row>, gutter: Option<real>)
    requires Elects(rows, gutter)
    ensures gutter.Some? ==> exists left, right, best ::
      && Edges(Flat(rows), left, right) && Probes(left, right, best, gutter.value) && |Voters(rows, gutter.value)| >= 3
      && forall p, x :: Probes(left, right, p, x) ==> Outpolls(rows, best, gutter.value, p, x)
    ensures gutter.None? ==> forall left, right, p, x ::
      Edges(Flat(rows), left, right) && left < right && Probes(left, right, p, x) ==> |Voters(rows, x)| <= 2
  {
    hide Edges, Flat, Voters, Probes, ProbeAt, Votes;
    if gutter.Some? {
      var g := gutter.value;
      var left, right, best: nat :| Edges(Flat(rows), left, right) && left < right && Best(Tally(rows, left, right), best) && g == ProbeAt(left, right, best);
      ProbesAt(left, right, best, g);
      VotesCount(rows, g);
      assert Tally(rows, left, right)(best) == |Voters(rows, g)|;
      forall p, x | Probes(left, right, p, x) ensures Outpolls(rows, best, g, p, x) {
        ProbesAt(left, right, p, x);
        VotesCount(rows, x);
        assert Tally(rows, left, right)(p) == |Voters(rows, x)|;
      }
      assert Probes(left, right, best, g);
    } else {
      forall left, right, p, x | Edges(Flat(rows), left, right) && left < right && Probes(left, right, p, x)
        ensures |Voters(rows, x)| <= 2
      {
        ProbesAt(left, right, p, x);
        VotesCount(rows, x);
        assert Tally(rows, left, right)(p) == |Voters(rows, x)|;
      }
    }
  }
}
