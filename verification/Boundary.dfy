/** The structural cut points of packages/search/src/chunker.ts: five prioritised
    patterns, then white space, then a hard cut. Every pattern is deterministic
    from its first unit, so one end per start describes all of its matches. */
module Boundary {
  import opened Common
  import opened Utf16

  datatype Pattern = Heading | BlankLine | ListItem | Fence | Sentence | Whitespace

  const PRIORITIES: seq<Pattern> := [Heading, BlankLine, ListItem, Fence, Sentence]

  datatype Cut = Cut(end: nat, split: bool)

  predicate Blank(u: Unit) { u == 9 || u == 0x20 }

  predicate Hash(u: Unit) { u == 0x23 }

  predicate Digit(u: Unit) { 0x30 <= u <= 0x39 }

  predicate Bullet(u: Unit) { u in {0x2D, 0x2A, 0x2B} }

  predicate Stop(u: Unit) { u in {0x2E, 0x21, 0x3F, 0x3002, 0xFF01, 0xFF1F} }

  predicate Closing(u: Unit) { u in {0x22, 0x27, 0x201D, 0x2019, 0x29} }

  predicate OneOf(u: Unit, characters: string) { exists k :: 0 <= k < |characters| && characters[k] as int == u }

  /** The classes as the expressions spell them. */
  lemma Classes(u: Unit)
    ensures Blank(u) <==> OneOf(u, " \t")
    ensures Hash(u) <==> OneOf(u, "#")
    ensures Digit(u) <==> OneOf(u, "0123456789")
    ensures Bullet(u) <==> OneOf(u, "-*+")
    ensures Stop(u) <==> OneOf(u, ".!?。！？")
    ensures Closing(u) <==> OneOf(u, "\"'”’)")
  {
    forall k: nat | k < 10 ensures "0123456789"[k] as int == 0x30 + k {
    }
    if Digit(u) {
      assert "0123456789"[u - 0x30] as int == u;
    }
    assert "-*+"[0] as int == 0x2D && "-*+"[1] as int == 0x2A && "-*+"[2] as int == 0x2B;
    assert " \t"[0] as int == 0x20 && " \t"[1] as int == 9;
    assert "#"[0] as int == 0x23;
    var stops, closing := ".!?。！？", "\"'”’)";
    assert stops[0] as int == 0x2E && stops[1] as int == 0x21 && stops[2] as int == 0x3F;
    assert stops[3] as int == 0x3002 && stops[4] as int == 0xFF01 && stops[5] as int == 0xFF1F;
    assert closing[0] as int == 0x22 && closing[1] as int == 0x27 && closing[2] as int == 0x201D && closing[3] as int == 0x2019 && closing[4] as int == 0x29;
  }

  /** First position at or after `i` whose unit is not in the class. */
  function Skip(w: seq<Unit>, i: nat, inClass: Unit -> bool): (j: nat)
    requires i <= |w|
    ensures i <= j <= |w|
    ensures forall k :: i <= k < j ==> inClass(w[k])
    ensures j < |w| ==> !inClass(w[j])
    decreases |w| - i
  {
    if i < |w| && inClass(w[i]) then Skip(w, i + 1, inClass) else i
  }

  predicate Triple(w: seq<Unit>, i: nat) {
    i + 3 <= |w| && (w[i] == 0x60 || w[i] == 0x7E) && w[i + 1] == w[i] && w[i + 2] == w[i]
  }

  predicate ListMark(w: seq<Unit>, i: nat)
    requires i <= |w|
  {
    (i + 1 < |w| && Bullet(w[i]) && Space(w[i + 1])) ||
    var d := Skip(w, i, Digit);
    i < d && d + 1 < |w| && (w[d] == 0x2E || w[d] == 0x29) && Space(w[d + 1])
  }

  /** End of the match that starts at `i`; `i` itself when there is none. */
  function MatchEnd(p: Pattern, w: seq<Unit>, i: nat): (e: nat)
    requires i < |w|
    ensures i <= e <= |w|
    ensures i < e ==> Space(w[e - 1]) && !Splits(w, e)
  {
    match p
    case Heading =>
      var h := Skip(w, i + 1, Hash);
      if w[i] == LF && 1 <= h - i - 1 <= 6 && h < |w| && Space(w[h]) then i + 1 else i
    case BlankLine =>
      var n := if w[i] == CR then i + 1 else i;
      if n < |w| && w[n] == LF then
        var b := Skip(w, n + 1, Blank);
        var m := if b < |w| && w[b] == CR then b + 1 else b;
        if m < |w| && w[m] == LF then m + 1 else i
      else i
    case ListItem => if w[i] == LF && ListMark(w, Skip(w, i + 1, Blank)) then i + 1 else i
    case Fence => if w[i] == LF && Triple(w, Skip(w, i + 1, Blank)) then i + 1 else i
    case Sentence =>
      var c := Skip(w, i + 1, Closing);
      var e := Skip(w, c, Space);
      if Stop(w[i]) && c < e then e else i
    case Whitespace => Skip(w, i, Space)
  }

  /** Last match end within `limit` among the successive matches from `at`. */
  function LastCut(p: Pattern, w: seq<Unit>, limit: nat, at: nat): (r: nat)
    requires at <= |w|
    decreases |w| - at
  {
    if at == |w| then 0
    else
      var e := MatchEnd(p, w, at);
      if e == at then LastCut(p, w, limit, at + 1)
      else
        var later := LastCut(p, w, limit, e);
        if later != 0 then later else if e <= limit then e else 0
  }

  /** The matches within a window are the ones a scan of it visits in turn. */
  method FindLast(p: Pattern, w: seq<Unit>, limit: nat) returns (last: nat)
    ensures last == LastCut(p, w, limit, 0)
  {
    hide MatchEnd;
    last := 0;
    var at := 0;
    while at < |w|
      invariant at <= |w|
      invariant LastCut(p, w, limit, 0) == if LastCut(p, w, limit, at) != 0 then LastCut(p, w, limit, at) else last
      decreases |w| - at
    {
      var e := MatchEnd(p, w, at);
      if e == at {
        at := at + 1;
      } else {
        if 0 < e <= limit {
          last := e;
        } else {
          PastLimit(p, w, limit, e);
        }
        at := e;
      }
    }
  }

  lemma {:induction false} PastLimit(p: Pattern, w: seq<Unit>, limit: nat, at: nat)
    requires limit < at <= |w|
    ensures LastCut(p, w, limit, at) == 0
    decreases |w| - at
  {
    hide MatchEnd;
    if at < |w| {
      var e := MatchEnd(p, w, at);
      PastLimit(p, w, limit, if e == at then at + 1 else e);
    }
  }

  /** A unit a pattern may end after, where nothing is separated. */
  predicate CleanCut(w: seq<Unit>, limit: nat, e: nat) {
    0 < e <= limit && e <= |w| && Space(w[e - 1]) && !Splits(w, e)
  }

  lemma {:induction false} LastCutClean(p: Pattern, w: seq<Unit>, limit: nat, at: nat)
    requires at <= |w|
    ensures var r := LastCut(p, w, limit, at); r == 0 || CleanCut(w, limit, r)
    decreases |w| - at
  {
    hide MatchEnd;
    if at < |w| {
      var e := MatchEnd(p, w, at);
      LastCutClean(p, w, limit, if e == at then at + 1 else e);
    }
  }

  lemma {:induction false} SkipFurther(w: seq<Unit>, i: nat, j: nat, inClass: Unit -> bool)
    requires i <= |w| && i <= j <= Skip(w, i, inClass)
    ensures Skip(w, j, inClass) == Skip(w, i, inClass)
    decreases j - i
  {
    if i < j {
      SkipFurther(w, i + 1, j, inClass);
    }
  }

  /** No match but a blank line's can begin inside another and end past it. */
  lemma MatchesNest(p: Pattern, w: seq<Unit>, i: nat, j: nat)
    requires p != BlankLine && i <= j < |w| && j < MatchEnd(p, w, i)
    ensures MatchEnd(p, w, j) in {j, MatchEnd(p, w, i)}
  {
    hide ListMark, Triple;
    if p == Whitespace {
      SkipFurther(w, i, j, Space);
    } else if p == Sentence && i < j {
      var c := Skip(w, i + 1, Closing);
      assert Closing(w[j]) || Space(w[j]);
      assert !Stop(w[j]);
    }
  }

  /** Of all the places a pattern matches from `at` on, the last cut is the furthest end
      within the limit, blank lines apart. */
  lemma {:induction false} LastCutIsLast(p: Pattern, w: seq<Unit>, limit: nat, at: nat)
    requires at <= |w| && p != BlankLine
    ensures var r := LastCut(p, w, limit, at);
      && (r != 0 ==> at < r <= limit && r <= |w| && exists i :: at <= i < r && MatchEnd(p, w, i) == r)
      && (forall i :: at <= i < |w| && MatchEnd(p, w, i) != i && MatchEnd(p, w, i) <= limit ==> MatchEnd(p, w, i) <= r)
    decreases |w| - at
  {
    hide MatchEnd;
    if at < |w| {
      var e := MatchEnd(p, w, at);
      LastCutIsLast(p, w, limit, if e == at then at + 1 else e);
      forall i | at <= i < e
        ensures MatchEnd(p, w, i) in {i, e}
      {
        MatchesNest(p, w, at, i);
      }
    }
  }

  /** Blank lines are matched one behind another: of three line feeds the first two are the
      match, and the end of the third is no cut. */
  lemma BlankLinesFollow()
    ensures var w: seq<Unit> := [LF, LF, LF];
      LastCut(BlankLine, w, 3, 0) == 2 && MatchEnd(BlankLine, w, 1) == 3
  {
    var w: seq<Unit> := [LF, LF, LF];
    assert MatchEnd(BlankLine, w, 0) == 2 && MatchEnd(BlankLine, w, 2) == 2;
    assert LastCut(BlankLine, w, 3, 3) == 0 && LastCut(BlankLine, w, 3, 2) == 0;
  }

  function FirstPriority(w: seq<Unit>, limit: nat, k: nat): (r: nat)
    requires k <= |PRIORITIES|
    decreases |PRIORITIES| - k
  {
    if k == |PRIORITIES| then 0
    else
      var last := LastCut(PRIORITIES[k], w, limit, 0);
      if last != 0 then last else FirstPriority(w, limit, k + 1)
  }

  lemma {:induction false} FirstPriorityClean(w: seq<Unit>, limit: nat, k: nat)
    requires k <= |PRIORITIES|
    ensures var r := FirstPriority(w, limit, k); r == 0 || CleanCut(w, limit, r)
    decreases |PRIORITIES| - k
  {
    hide LastCut, CleanCut;
    if k < |PRIORITIES| {
      LastCutClean(PRIORITIES[k], w, limit, 0);
      FirstPriorityClean(w, limit, k + 1);
    }
  }

  function CutAt(text: seq<Unit>, limit: nat): (cut: Cut)
    ensures cut.end <= limit
  {
    var w := text[..Min(limit + 1, |text|)];
    FirstPriorityClean(w, limit, 0);
    LastCutClean(Whitespace, w, limit, 0);
    var structural := FirstPriority(w, limit, 0);
    if structural != 0 then Cut(SafeEnd(text, structural), false)
    else
      var space := LastCut(Whitespace, w, limit, 0);
      Cut(SafeEnd(text, if space != 0 then space else limit), true)
  }

  method FindBoundary(text: seq<Unit>, limit: nat) returns (cut: Cut)
    ensures cut == CutAt(text, limit)
  {
    var w := text[..Min(limit + 1, |text|)];
    var k := 0;
    while k < |PRIORITIES|
      invariant k <= |PRIORITIES|
      invariant FirstPriority(w, limit, 0) == FirstPriority(w, limit, k)
    {
      var last := FindLast(PRIORITIES[k], w, limit);
      if last != 0 {
        return Cut(SafeEnd(text, last), false);
      }
      k := k + 1;
    }
    var space := FindLast(Whitespace, w, limit);
    return Cut(SafeEnd(text, if space != 0 then space else limit), true);
  }

  /** A cut always makes progress: a pattern never ends between CR and LF, because
      the window shows the unit after the limit. */
  lemma CutProgress(text: seq<Unit>, limit: nat)
    requires 1 <= limit < |text| && !Splits(text, limit)
    ensures 1 <= CutAt(text, limit).end <= limit
    ensures !Splits(text, CutAt(text, limit).end)
  {
    var w := text[..Min(limit + 1, |text|)];
    hide LastCut, FirstPriority;
    FirstPriorityClean(w, limit, 0);
    LastCutClean(Whitespace, w, limit, 0);
    forall e: nat | CleanCut(w, limit, e)
      ensures !Splits(text, e)
    {
      assert text[e - 1] == w[e - 1] && text[e] == w[e];
    }
  }

  /** What lies beyond the window cannot move the cut. */
  lemma CutIsLocal(text: seq<Unit>, more: seq<Unit>, limit: nat)
    requires limit + 1 <= |text|
    ensures CutAt(text + more, limit) == CutAt(text, limit)
  {
    hide LastCut, FirstPriority;
    var w := text[..limit + 1];
    assert (text + more)[..limit + 1] == w;
    FirstPriorityClean(w, limit, 0);
    LastCutClean(Whitespace, w, limit, 0);
  }

  // ----- the patterns as expressions -----

  /** Nothing but units of a class between two places. */
  predicate All(w: seq<Unit>, i: nat, j: nat, inClass: Unit -> bool) { i <= j <= |w| && forall k :: i <= k < j ==> inClass(w[k]) }

  /** An optional carriage return and a line feed, from `i` to `j`. */
  predicate LineEnd(w: seq<Unit>, i: nat, j: nat) {
    j <= |w| && ((j == i + 1 && w[i] == 10) || (j == i + 2 && w[i] == 13 && w[i + 1] == 10))
  }

  /** A bullet or a number with a point or a bracket, and white space. */
  ghost predicate Item(w: seq<Unit>, i: nat) {
    || (i + 1 < |w| && w[i] in {0x2D, 0x2A, 0x2B} && Space(w[i + 1]))
    || exists d :: i < d && d + 1 < |w| && All(w, i, d, Digit) && w[d] in {0x2E, 0x29} && Space(w[d + 1])
  }

  /** The expression matches from `i` to `e`: a line feed before a heading of one to six number
      signs, before a list item, or before a fence of three backticks or tildes; a blank line; a
      stop, closing marks and all the white space behind them; all the white space there is. */
  ghost predicate Matches(p: Pattern, w: seq<Unit>, i: nat, e: nat)
    requires i < |w|
  {
    match p
    case Heading =>
      e == i + 1 && w[i] == 10 && exists h :: e < h <= e + 6 && h < |w| && All(w, e, h, Hash) && Space(w[h])
    case BlankLine =>
      exists n, b :: i < n <= b <= |w| && LineEnd(w, i, n) && All(w, n, b, Blank) && LineEnd(w, b, e)
    case ListItem => e == i + 1 && w[i] == 10 && exists b: nat :: All(w, e, b, Blank) && Item(w, b)
    case Fence =>
      e == i + 1 && w[i] == 10 && exists b: nat :: All(w, e, b, Blank) && b + 3 <= |w| && w[b..b + 3] in {[0x60, 0x60, 0x60], [0x7E, 0x7E, 0x7E]}
    case Sentence =>
      Stop(w[i]) && exists c :: i < c < e && All(w, i + 1, c, Closing) && All(w, c, e, Space) && (e < |w| ==> !Space(w[e]))
    case Whitespace => i < e && All(w, i, e, Space) && (e < |w| ==> !Space(w[e]))
  }

  lemma {:induction false} SkipIs(w: seq<Unit>, i: nat, j: nat, inClass: Unit -> bool)
    requires All(w, i, j, inClass) && (j < |w| ==> !inClass(w[j]))
    ensures Skip(w, i, inClass) == j
  {
    var s := Skip(w, i, inClass);
    assert !(s < j);
    assert !(j < s);
  }

  lemma ItemIsMark(w: seq<Unit>, i: nat)
    requires i <= |w|
    ensures ListMark(w, i) <==> Item(w, i)
  {
    var s := Skip(w, i, Digit);
    assert All(w, i, s, Digit);
    if d :| i < d && d + 1 < |w| && All(w, i, d, Digit) && w[d] in {0x2E, 0x29} && Space(w[d + 1]) {
      SkipIs(w, i, d, Digit);
    }
  }

  lemma HeadingIs(w: seq<Unit>, i: nat, e: nat)
    requires i < |w|
    ensures MatchEnd(Heading, w, i) == e && e != i <==> Matches(Heading, w, i, e)
  {
    var s := Skip(w, i + 1, Hash);
    assert All(w, i + 1, s, Hash);
    if e == i + 1 {
      forall h | e < h <= e + 6 && h < |w| && All(w, e, h, Hash) && Space(w[h])
        ensures h == s
      {
        SkipIs(w, e, h, Hash);
      }
    }
  }

  lemma BlankLineIs(w: seq<Unit>, i: nat, e: nat)
    requires i < |w|
    ensures MatchEnd(BlankLine, w, i) == e && e != i <==> Matches(BlankLine, w, i, e)
  {
    var n := if w[i] == CR then i + 1 else i;
    if n < |w| && w[n] == LF {
      var b := Skip(w, n + 1, Blank);
      assert All(w, n + 1, b, Blank) && LineEnd(w, i, n + 1);
      forall m, c | i < m <= c <= |w| && LineEnd(w, i, m) && All(w, m, c, Blank) && LineEnd(w, c, e)
        ensures m == n + 1 && c == b
      {
        SkipIs(w, m, c, Blank);
      }
    }
  }

  lemma ListItemIs(w: seq<Unit>, i: nat, e: nat)
    requires i < |w|
    ensures MatchEnd(ListItem, w, i) == e && e != i <==> Matches(ListItem, w, i, e)
  {
    hide ListMark, Item;
    var s := Skip(w, i + 1, Blank);
    assert All(w, i + 1, s, Blank);
    ItemIsMark(w, s);
    if e == i + 1 {
      forall b: nat | All(w, e, b, Blank) && Item(w, b)
        ensures b == s
      {
        ItemBegins(w, b);
        SkipIs(w, e, b, Blank);
      }
    }
  }

  lemma ItemBegins(w: seq<Unit>, b: nat)
    requires Item(w, b)
    ensures b < |w| && !Blank(w[b])
  {
    if d :| b < d && d + 1 < |w| && All(w, b, d, Digit) && w[d] in {0x2E, 0x29} && Space(w[d + 1]) {
      assert Digit(w[b]);
    }
  }

  lemma FenceIs(w: seq<Unit>, i: nat, e: nat)
    requires i < |w|
    ensures MatchEnd(Fence, w, i) == e && e != i <==> Matches(Fence, w, i, e)
  {
    var s := Skip(w, i + 1, Blank);
    assert All(w, i + 1, s, Blank);
    if Triple(w, s) {
      assert w[s..s + 3] == [w[s], w[s], w[s]];
    }
    if e == i + 1 {
      forall b: nat | All(w, e, b, Blank) && b + 3 <= |w| && w[b..b + 3] in {[0x60, 0x60, 0x60], [0x7E, 0x7E, 0x7E]}
        ensures b == s && Triple(w, s)
      {
        assert w[b] == w[b..b + 3][0] && w[b + 1] == w[b..b + 3][1] && w[b + 2] == w[b..b + 3][2];
        SkipIs(w, e, b, Blank);
      }
    }
  }

  lemma SentenceIs(w: seq<Unit>, i: nat, e: nat)
    requires i < |w|
    ensures MatchEnd(Sentence, w, i) == e && e != i <==> Matches(Sentence, w, i, e)
  {
    var s := Skip(w, i + 1, Closing);
    var z := Skip(w, s, Space);
    assert All(w, i + 1, s, Closing) && All(w, s, z, Space);
    forall c | i < c < e && All(w, i + 1, c, Closing) && All(w, c, e, Space) && (e < |w| ==> !Space(w[e]))
      ensures c == s && e == z
    {
      SkipIs(w, i + 1, c, Closing);
      SkipIs(w, c, e, Space);
    }
  }

  /** The scan's matches are the expression's, each at its one end. */
  lemma MatchEndMatches(p: Pattern, w: seq<Unit>, i: nat, e: nat)
    requires i < |w|
    ensures MatchEnd(p, w, i) == e && e != i <==> Matches(p, w, i, e)
  {
    match p
    case Heading => HeadingIs(w, i, e);
    case BlankLine => BlankLineIs(w, i, e);
    case ListItem => ListItemIs(w, i, e);
    case Fence => FenceIs(w, i, e);
    case Sentence => SentenceIs(w, i, e);
    case Whitespace =>
      var s := Skip(w, i, Space);
      if i < e && All(w, i, e, Space) && (e < |w| ==> !Space(w[e])) {
        SkipIs(w, i, e, Space);
      }
  }

  // ----- where a cut is -----

  /** A match that ends within the limit. */
  ghost predicate Ends(p: Pattern, w: seq<Unit>, limit: nat, e: nat) { e <= limit && exists i :: 0 <= i < |w| && Matches(p, w, i, e) }

  ghost predicate Occurs(p: Pattern, w: seq<Unit>, limit: nat) { exists e: nat :: Ends(p, w, limit, e) }

  /** The furthest end of a match within the limit. */
  ghost predicate Furthest(p: Pattern, w: seq<Unit>, limit: nat, e: nat) {
    Ends(p, w, limit, e) && forall f: nat :: Ends(p, w, limit, f) ==> f <= e
  }

  /** A match that begins inside another does not end before it. */
  lemma NoneEndsInside(p: Pattern, w: seq<Unit>, i: nat, j: nat)
    requires i <= j < |w| && j < MatchEnd(p, w, i)
    ensures MatchEnd(p, w, j) == j || MatchEnd(p, w, j) >= MatchEnd(p, w, i)
  {
    if p != BlankLine {
      MatchesNest(p, w, i, j);
    }
  }

  /** There is a last cut exactly if some match ends within the limit. */
  lemma {:induction false} LastCutOccurs(p: Pattern, w: seq<Unit>, limit: nat, at: nat)
    requires at <= |w|
    ensures var r := LastCut(p, w, limit, at);
      && (r != 0 ==> r <= limit && exists i :: at <= i < |w| && MatchEnd(p, w, i) == r && r != i)
      && (r == 0 ==> forall i :: at <= i < |w| && MatchEnd(p, w, i) != i ==> MatchEnd(p, w, i) > limit)
    decreases |w| - at
  {
    hide MatchEnd;
    if at < |w| {
      var e := MatchEnd(p, w, at);
      LastCutOccurs(p, w, limit, if e == at then at + 1 else e);
      forall i | at <= i < e
        ensures MatchEnd(p, w, i) == i || MatchEnd(p, w, i) >= e
      {
        NoneEndsInside(p, w, at, i);
      }
    }
  }

  lemma CutOccurs(p: Pattern, w: seq<Unit>, limit: nat)
    ensures var r := LastCut(p, w, limit, 0);
      && (r != 0 <==> Occurs(p, w, limit)) && (r != 0 ==> Ends(p, w, limit, r))
      && (r != 0 && p != BlankLine ==> Furthest(p, w, limit, r))
  {
    hide MatchEnd, Matches, LastCut;
    LastCutOccurs(p, w, limit, 0);
    var r := LastCut(p, w, limit, 0);
    forall i, e: nat | 0 <= i < |w|
      ensures MatchEnd(p, w, i) == e && e != i <==> Matches(p, w, i, e)
    {
      MatchEndMatches(p, w, i, e);
    }
    if r != 0 {
      var i :| 0 <= i < |w| && MatchEnd(p, w, i) == r && r != i;
      assert Matches(p, w, i, r);
      assert Ends(p, w, limit, r);
    }
    if e: nat :| Ends(p, w, limit, e) {
      var i :| 0 <= i < |w| && Matches(p, w, i, e);
      assert MatchEnd(p, w, i) == e && e != i;
    }
    if p != BlankLine {
      LastCutIsLast(p, w, limit, 0);
    }
  }

  /** A structural place: a heading, a blank line, a list item, a fence or a sentence's end. */
  ghost predicate Structural(w: seq<Unit>, limit: nat) {
    Occurs(Heading, w, limit) || Occurs(BlankLine, w, limit) || Occurs(ListItem, w, limit) || Occurs(Fence, w, limit) || Occurs(Sentence, w, limit)
  }

  /** Places of this kind, and of none that is preferred to it. */
  ghost predicate Decides(p: Pattern, w: seq<Unit>, limit: nat) {
    && Occurs(p, w, limit)
    && (p in {BlankLine, ListItem, Fence, Sentence, Whitespace} ==> !Occurs(Heading, w, limit))
    && (p in {ListItem, Fence, Sentence, Whitespace} ==> !Occurs(BlankLine, w, limit))
    && (p in {Fence, Sentence, Whitespace} ==> !Occurs(ListItem, w, limit))
    && (p in {Sentence, Whitespace} ==> !Occurs(Fence, w, limit))
    && (p == Whitespace ==> !Occurs(Sentence, w, limit))
  }

  /** Where a text is cut: behind the last match of the preferred kind of place there is, else at
      the limit; and moved off a pair or CRLF. */
  lemma CutPlaces(text: seq<Unit>, limit: nat)
    ensures var w, cut := text[..Min(limit + 1, |text|)], CutAt(text, limit);
      && (cut.split <==> !Structural(w, limit))
      && (forall p :: p != BlankLine && Decides(p, w, limit) ==> exists e: nat :: Furthest(p, w, limit, e) && cut.end == SafeEnd(text, e))
      && (Decides(BlankLine, w, limit) ==> exists e: nat :: Ends(BlankLine, w, limit, e) && cut.end == SafeEnd(text, e))
      && (!Structural(w, limit) && !Occurs(Whitespace, w, limit) ==> cut.end == SafeEnd(text, limit))
  {
    hide LastCut, Ends, Furthest, Occurs;
    var w := text[..Min(limit + 1, |text|)];
    CutOccurs(Heading, w, limit);
    CutOccurs(BlankLine, w, limit);
    CutOccurs(ListItem, w, limit);
    CutOccurs(Fence, w, limit);
    CutOccurs(Sentence, w, limit);
    CutOccurs(Whitespace, w, limit);
    PriorityIs(w, limit);
  }

  lemma PriorityIs(w: seq<Unit>, limit: nat)
    ensures FirstPriority(w, limit, 0) ==
      var h, b, l, f := LastCut(Heading, w, limit, 0), LastCut(BlankLine, w, limit, 0), LastCut(ListItem, w, limit, 0), LastCut(Fence, w, limit, 0);
      if h != 0 then h else if b != 0 then b else if l != 0 then l else if f != 0 then f else LastCut(Sentence, w, limit, 0)
  {
    hide LastCut;
    assert PRIORITIES[0] == Heading && PRIORITIES[1] == BlankLine && PRIORITIES[2] == ListItem && PRIORITIES[3] == Fence && PRIORITIES[4] == Sentence;
    assert FirstPriority(w, limit, 5) == 0;
    assert FirstPriority(w, limit, 4) == LastCut(Sentence, w, limit, 0);
    assert FirstPriority(w, limit, 3) == if LastCut(Fence, w, limit, 0) != 0 then LastCut(Fence, w, limit, 0) else FirstPriority(w, limit, 4);
    assert FirstPriority(w, limit, 2) == if LastCut(ListItem, w, limit, 0) != 0 then LastCut(ListItem, w, limit, 0) else FirstPriority(w, limit, 3);
    assert FirstPriority(w, limit, 1) == if LastCut(BlankLine, w, limit, 0) != 0 then LastCut(BlankLine, w, limit, 0) else FirstPriority(w, limit, 2);
  }
}
