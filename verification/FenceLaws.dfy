/** What the classifier of packages/search/src/chunker.ts finds in a source, line by line: where
    fences open and close, and which chunks hold code. */
module FenceLaws {
  import opened Common
  import opened Utf16
  import opened Boundary
  import opened Chunker
  import opened ChunkGeometry
  import opened Classifier

  type Text = seq<Unit>

  // ----- one line -----

  /** A line begins with at most three blanks and this run of three or more backticks or tildes. */
  ghost predicate Marks(line: Text, mark: Text) {
    && |mark| >= 3 && (forall u :: u in mark ==> u == mark[0]) && mark[0] in {0x60, 0x7E}
    && exists b: nat :: b <= 3 && MarkedAt(line, mark, b)
  }

  predicate MarkedAt(line: Text, mark: Text, b: nat)
    requires mark != []
  {
    && All(line, 0, b, Blank) && b + |mark| <= |line| && line[b..b + |mark|] == mark
    && (b + |mark| < |line| ==> line[b + |mark|] != mark[0])
  }

  lemma MarkIs(line: Text, mark: Text)
    ensures FenceMark(line) == Some(mark) <==> Marks(line, mark)
  {
    if FenceMark(line) == Some(mark) {
      MarkFound(line, mark);
    }
    if Marks(line, mark) {
      var b: nat :| b <= 3 && MarkedAt(line, mark, b);
      MarkRead(line, mark, b);
    }
  }

  lemma MarkFound(line: Text, mark: Text)
    requires FenceMark(line) == Some(mark)
    ensures Marks(line, mark)
  {
    var b := Skip(line, 0, Blank);
    var e := Skip(line, b, u => u == line[b]);
    assert mark == line[b..e] && mark[0] == line[b];
    assert All(line, 0, b, Blank);
    assert MarkedAt(line, mark, b);
  }

  lemma MarkRead(line: Text, mark: Text, b: nat)
    requires |mark| >= 3 && (forall u :: u in mark ==> u == mark[0]) && mark[0] in {0x60, 0x7E}
    requires b <= 3 && MarkedAt(line, mark, b)
    ensures FenceMark(line) == Some(mark)
  {
    assert forall k :: b <= k < b + |mark| ==> line[k] == mark[k - b] && mark[k - b] in mark;
    SkipIs(line, 0, b, Blank);
    var same: Unit -> bool := u => u == line[b];
    SkipIs(line, b, b + |mark|, same);
    var e := Skip(line, b, u => u == line[b]);
    assert !(e < b + |mark|);
    assert !(b + |mark| < e);
  }

  /** A line closes a fence with a mark of the same kind that is no shorter. */
  ghost predicate Closes(line: Text, open: Text) {
    open != [] && exists mark :: Marks(line, mark) && mark[0] == open[0] && |mark| >= |open|
  }

  /** Behind these lines the fence `open` is open: a line opened it where none was, and no line
      has closed it. */
  ghost predicate InFence(lines: seq<Text>, open: Text)
    decreases |lines|
  {
    lines != [] &&
    var front, last := lines[..|lines| - 1], lines[|lines| - 1];
    (InFence(front, open) && !Closes(last, open)) || ((forall other :: !InFence(front, other)) && Marks(last, open))
  }

  /** A line is read up to its 256th unit, or one more in the middle of a pair. */
  function Kept(line: Text): Text {
    line[..if |line| <= 256 then |line| else if SplitsPair(line, 256) then 257 else 256]
  }

  lemma OneKept(f: Option<Text>, full: Text, i: nat)
    requires LF !in full && i < |full| && !SplitsPair(full, i)
    ensures var kept, n := |Kept(full)|, CharLength(full, i);
      && Accept(Scan(f, full[..Min(i, kept)]), full[i..i + n]) == Scan(f, full[..Min(i + n, kept)])
      && !SplitsPair(full, i + n) && full[i..i + n] != [LF]
  {
    hide EndLine;
    var kept, n := |Kept(full)|, CharLength(full, i);
    var point := full[i..i + n];
    assert full[i] in full && point[0] == full[i];
    if Min(i, kept) < 256 {
      assert i < 256 && Min(i, kept) == i && Min(i + n, kept) == i + n;
      assert full[..i] + point == full[..i + n];
    } else {
      assert Min(i + n, kept) == Min(i, kept);
    }
  }

  lemma {:induction false} KeptFrom(f: Option<Text>, full: Text, i: nat)
    requires LF !in full && i <= |full| && !SplitsPair(full, i)
    ensures var kept := |Kept(full)|; ScanText(Scan(f, full[..Min(i, kept)]), full[i..]) == Scan(f, Kept(full))
    decreases |full| - i
  {
    hide ScanText, EndLine, Accept, SplitsPair;
    var kept := |Kept(full)|;
    var s := Scan(f, full[..Min(i, kept)]);
    if i == |full| {
      ScanNothing(s);
      assert full[i..] == [];
    } else {
      OneKept(f, full, i);
      StepOn(s, full, i);
      KeptFrom(f, full, i + CharLength(full, i));
    }
  }

  /** The scan takes the next code point of a text. */
  lemma StepOn(s: Scan, text: Text, i: nat)
    requires i < |text|
    ensures var n := CharLength(text, i); ScanText(s, text[i..]) == ScanText(Accept(s, text[i..i + n]), text[i + n..])
  {
    hide ScanText, Accept;
    var n := CharLength(text, i);
    ScanOne(s, text[i..]);
    assert CharLength(text[i..], 0) == n && text[i..][..n] == text[i..i + n] && text[i..][n..] == text[i + n..];
  }

  lemma LineKept(f: Option<Text>, line: Text)
    requires LF !in line
    ensures ScanText(Scan(f, []), line) == Scan(f, Kept(line))
  {
    KeptFrom(f, line, 0);
    assert line[0..] == line && line[..0] == [];
  }

  // ----- many lines -----

  function TextOf(lines: seq<Text>): Text {
    if lines == [] then [] else TextOf(lines[..|lines| - 1]) + lines[|lines| - 1] + [LF]
  }

  predicate Plain(lines: seq<Text>) { forall l :: l in lines ==> LF !in l }

  function KeptAll(lines: seq<Text>): (r: seq<Text>)
    ensures |r| == |lines| && forall k :: 0 <= k < |r| ==> r[k] == Kept(lines[k])
  {
    seq(|lines|, k requires 0 <= k < |lines| => Kept(lines[k]))
  }

  /** What the end of a line does to the fence. */
  lemma EndsLine(lines: seq<Text>, last: Text, f: Option<Text>)
    requires forall open :: f == Some(open) <==> InFence(lines, open)
    requires f.Some? ==> f.value != []
    ensures var g := EndLine(Scan(f, last)).fence;
      && EndLine(Scan(f, last)).line == [] && (g.Some? ==> g.value != [])
      && forall open :: g == Some(open) <==> InFence(lines + [last], open)
  {
    hide FenceMark, Marks;
    var g := EndLine(Scan(f, last)).fence;
    assert (lines + [last])[..|lines|] == lines;
    var mark := FenceMark(last);
    if mark.Some? {
      MarkIs(last, mark.value);
    }
    forall open ensures g == Some(open) <==> InFence(lines + [last], open) {
      MarkIs(last, open);
      assert f == Some(open) <==> InFence(lines, open);
      if f.Some? {
        assert InFence(lines, f.value);
        forall other | Marks(last, other) ensures mark == Some(other) {
          MarkIs(last, other);
        }
      } else {
        assert forall other :: !InFence(lines, other);
      }
    }
  }

  /** The scan of any text is what its lines say. */
  lemma {:induction false} LinesScanned(lines: seq<Text>, rest: Text)
    requires Plain(lines) && LF !in rest
    ensures var s := ScanText(Scan(None, []), TextOf(lines) + rest);
      && s.line == Kept(rest) && (s.fence.Some? ==> s.fence.value != [])
      && forall open :: s.fence == Some(open) <==> InFence(KeptAll(lines), open)
    decreases |lines|
  {
    hide ScanText, InFence, EndLine, Kept;
    var start := Scan(None, []);
    if lines == [] {
      assert TextOf(lines) + rest == rest && KeptAll(lines) == [];
      LineKept(None, rest);
      NoFence();
    } else {
      var front, last := lines[..|lines| - 1], lines[|lines| - 1];
      assert last in lines && forall l :: l in front ==> l in lines;
      LinesScanned(front, last);
      var read := ScanText(start, TextOf(front) + last);
      ReadLine(TextOf(front) + last, rest);
      assert TextOf(lines) == TextOf(front) + last + [LF];
      EndsLine(KeptAll(front), Kept(last), read.fence);
      assert KeptAll(lines) == KeptAll(front) + [Kept(last)];
      LineKept(EndLine(read).fence, rest);
      assert read == Scan(read.fence, Kept(last));
    }
  }

  lemma NoFence()
    ensures forall open :: !InFence([], open)
  {
  }

  /** A line feed ends the line, and the next begins empty. */
  lemma ReadLine(before: Text, rest: Text)
    ensures ScanText(Scan(None, []), before + [LF] + rest) == ScanText(EndLine(ScanText(Scan(None, []), before)), rest)
  {
    hide EndLine;
    var start := Scan(None, []);
    assert before + [LF] + rest == before + ([LF] + rest);
    ScanAppend(start, before, [LF] + rest);
    var s := ScanText(start, before);
    ScanAppend(s, [LF], rest);
    ScanOne(s, [LF]);
    ScanNothing(EndLine(s));
    assert [LF][..1] == [LF] && [LF][1..] == [];
  }

  // ----- chunks -----

  /** Some line of the text begins with at most three blanks and a fence mark. */
  ghost predicate BeginsFence(text: Text) { exists j: nat, b: nat :: BeginsAt(text, 0, j, b) }

  predicate BeginsAt(text: Text, from: nat, j: nat, b: nat) {
    && from <= j <= |text| && (j == from || text[j - 1] == LF) && j <= b <= j + 3 && All(text, j, b, Blank)
    && b + 3 <= |text| && text[b..b + 3] in {[0x60, 0x60, 0x60], [0x7E, 0x7E, 0x7E]}
  }

  lemma TripleIs(text: Text, b: nat)
    ensures Triple(text, b) <==> b + 3 <= |text| && text[b..b + 3] in {[0x60, 0x60, 0x60], [0x7E, 0x7E, 0x7E]}
  {
    if b + 3 <= |text| {
      assert text[b..b + 3] == [text[b], text[b + 1], text[b + 2]];
    }
  }

  /** The first line of a text begins with a fence mark. */
  lemma FirstLineIs(text: Text, i: nat)
    requires i <= |text|
    ensures var b := Skip(text, i, Blank); (b - i <= 3 && Triple(text, b)) <==> exists c: nat :: BeginsAt(text, i, i, c)
  {
    hide Triple;
    var b := Skip(text, i, Blank);
    assert All(text, i, b, Blank);
    TripleIs(text, b);
    if b - i <= 3 && Triple(text, b) {
      assert BeginsAt(text, i, i, b);
    }
    forall c: nat | BeginsAt(text, i, i, c) ensures b == c {
      assert text[c] == text[c..c + 3][0];
      SkipIs(text, i, c, Blank);
    }
  }

  /** Behind a line that ends at n, the lines are those from n + 1. */
  lemma LaterLine(text: Text, i: nat, n: nat, j: nat, b: nat)
    requires i <= n < |text| && LF !in text[i..n] && text[n] == LF
    ensures i != j && BeginsAt(text, i, j, b) <==> BeginsAt(text, n + 1, j, b)
  {
    forall k | i <= k < n ensures text[k] != LF {
      assert text[i..n][k - i] == text[k];
    }
  }

  lemma LastLine(text: Text, i: nat, j: nat, b: nat)
    requires i <= |text| && LF !in text[i..] && BeginsAt(text, i, j, b)
    ensures i == j
  {
    forall k | i <= k < |text| ensures text[k] != LF {
      assert text[i..][k - i] == text[k];
    }
  }

  lemma {:induction false} FenceAtLineIs(text: Text, i: nat)
    requires i <= |text|
    ensures FenceAtLine(text, i) <==> exists j: nat, b: nat :: BeginsAt(text, i, j, b)
    decreases |text| - i
  {
    hide Triple, BeginsAt;
    var n := Skip(text, i, u => u != LF);
    FirstLineIs(text, i);
    if n < |text| {
      FenceAtLineIs(text, n + 1);
      var next := n + 1;
      forall j: nat, b: nat ensures i != j && BeginsAt(text, i, j, b) <==> BeginsAt(text, next, j, b) {
        LaterLine(text, i, n, j, b);
      }
      FromLater(text, i, next);
    } else {
      forall j: nat, b: nat | BeginsAt(text, i, j, b) ensures i == j {
        LastLine(text, i, j, b);
      }
    }
  }

  lemma FromLater(text: Text, i: nat, next: nat)
    requires forall j: nat, b: nat :: i != j && BeginsAt(text, i, j, b) <==> BeginsAt(text, next, j, b)
    ensures (exists j: nat, b: nat :: BeginsAt(text, i, j, b)) <==>
      (exists b: nat :: BeginsAt(text, i, i, b)) || exists j: nat, b: nat :: BeginsAt(text, next, j, b)
  {
    hide BeginsAt;
    if j: nat, b: nat :| BeginsAt(text, i, j, b) {
      assert i != j ==> BeginsAt(text, next, j, b);
    }
    if j: nat, b: nat :| BeginsAt(text, next, j, b) {
      assert BeginsAt(text, i, j, b);
    }
  }

  lemma {:induction false} SawFenceIs(s: Scan, text: Text)
    ensures SawFence(s, text) <==> exists n :: 0 <= n < |text| && text[n] == LF && FenceMark(ScanText(s, text[..n]).line).Some?
    decreases |text|
  {
    hide ScanText, FenceMark, Accept;
    if text != [] {
      var n := CharLength(text, 0);
      var next := Accept(s, text[..n]);
      ScanOne(s, text);
      SawFenceIs(next, text[n..]);
      assert text[..0] == [];
      ScanNothing(s);
      forall k | n <= k < |text| && text[k] == LF ensures ScanText(s, text[..k]) == ScanText(next, text[n..][..k - n]) && text[n..][k - n] == LF {
        ScanOne(s, text[..k]);
        assert text[..k][..n] == text[..n] && text[..k][n..] == text[n..][..k - n];
      }
      if SawFence(next, text[n..]) {
        var k :| 0 <= k < |text[n..]| && text[n..][k] == LF && FenceMark(ScanText(next, text[n..][..k]).line).Some?;
        assert text[k + n] == LF && text[n..][..k] == text[n..][..k + n - n];
      }
      assert text[..n] == [LF] <==> text[0] == LF;
    } else {
      ScanNothing(s);
    }
  }

  // ----- sources -----

  /** A fence is open behind the last complete line of the text. */
  ghost predicate Fenced(text: Text) {
    exists lines, rest, open :: Plain(lines) && LF !in rest && text == TextOf(lines) + rest && InFence(KeptAll(lines), open)
  }

  /** A line that ends with a line feed in this stretch of the source has a fence mark. */
  ghost predicate EndsFence(source: Text, from: nat, to: nat) { exists j: nat, n: nat :: from <= n < to && EndsAt(source, j, n) }

  ghost predicate EndsAt(source: Text, j: nat, n: nat) {
    && j <= n < |source| && source[n] == LF && (j == 0 || source[j - 1] == LF) && LF !in source[j..n]
    && exists mark :: Marks(Kept(source[j..n]), mark)
  }

  lemma {:induction false} LinesOf(text: Text) returns (lines: seq<Text>, rest: Text)
    ensures Plain(lines) && LF !in rest && text == TextOf(lines) + rest
    ensures lines == [] ==> rest == text
    ensures lines != [] ==> |rest| < |text| && text[|text| - |rest| - 1] == LF
    decreases |text|
  {
    if text == [] {
      return [], [];
    }
    var n := |text| - 1;
    lines, rest := LinesOf(text[..n]);
    assert text == text[..n] + [text[n]];
    if text[n] == LF {
      var more := lines + [rest];
      assert more[..|lines|] == lines;
      lines, rest := more, [];
    } else {
      rest := rest + [text[n]];
      assert text == TextOf(lines) + rest;
    }
  }

  lemma ScannedFence(text: Text)
    ensures ScanText(Scan(None, []), text).fence.Some? <==> Fenced(text)
  {
    hide ScanText, InFence, Kept;
    var s := ScanText(Scan(None, []), text);
    var lines, rest := LinesOf(text);
    LinesScanned(lines, rest);
    if s.fence.Some? {
      assert InFence(KeptAll(lines), s.fence.value);
    }
    forall others, tail, open | Plain(others) && LF !in tail && text == TextOf(others) + tail && InFence(KeptAll(others), open)
      ensures s.fence.Some?
    {
      LinesScanned(others, tail);
    }
  }

  /** A line has one beginning. */
  lemma SameStart(source: Text, i: nat, j: nat, n: nat)
    requires i <= n <= |source| && LF !in source[i..n] && (i == 0 || source[i - 1] == LF)
    requires j <= n && LF !in source[j..n] && (j == 0 || source[j - 1] == LF)
    ensures i == j
  {
    forall k | i <= k < n ensures source[k] != LF {
      assert source[i..n][k - i] == source[k];
    }
    forall k | j <= k < n ensures source[k] != LF {
      assert source[j..n][k - j] == source[k];
    }
  }

  /** The line read so far when a line feed comes. */
  lemma LineAt(source: Text, n: nat)
    requires n < |source| && source[n] == LF
    ensures FenceMark(ScanText(Scan(None, []), source[..n]).line).Some? <==> exists j: nat :: EndsAt(source, j, n)
  {
    hide ScanText, InFence, Kept, Marks, FenceMark;
    var lines, rest := LinesOf(source[..n]);
    LinesScanned(lines, rest);
    var j := n - |rest|;
    assert source[j..n] == rest;
    var line := Kept(rest);
    if FenceMark(line).Some? {
      MarkIs(line, FenceMark(line).value);
      assert EndsAt(source, j, n);
    }
    forall i: nat | EndsAt(source, i, n) ensures FenceMark(line).Some? {
      SameStart(source, i, j, n);
      var mark :| Marks(Kept(source[i..n]), mark);
      MarkIs(line, mark);
    }
  }

  lemma {:induction false} LaidFront(p: Policy, source: Text, base: nat, at: nat, index: nat, cs: seq<Chunk>, k: nat)
    requires Laid(p, source, base, at, index, cs) && k <= |cs|
    ensures Laid(p, source, base, at, index, cs[..k])
    decreases |cs|
  {
    hide CutWell, Splits;
    if k > 1 {
      LaidFront(p, source, base, cs[1].start - base, index + 1, cs[1..], k - 1);
      assert cs[..k][1..] == cs[1..][..k - 1];
    }
  }

  /** Where a chunk lies, and how far the chunks before it have read. */
  lemma {:induction false} PlaceOf(p: Policy, source: Text, base: nat, at: nat, index: nat, cs: seq<Chunk>, k: nat, from: nat)
    requires Laid(p, source, base, at, index, cs) && k < |cs|
    requires base + at <= from <= base + |source| && !Splits(source, from - base)
    ensures var c, read := cs[k], FurthestEnd(cs[..k], from) - base;
      && 0 <= c.start - base <= read <= |source| && c.start <= c.end <= base + |source|
      && c.text == source[c.start - base..c.end - base] && !Splits(source, read)
    decreases |cs|
  {
    hide CutWell, Splits;
    if k > 0 {
      PlaceOf(p, source, base, cs[1].start - base, index + 1, cs[1..], k - 1, Max(from, cs[0].end));
      assert cs[..k][1..] == cs[1..][..k - 1];
    }
  }

  /** What is new of a stretch, scanned from where the scan stands. */
  lemma NewlySaw(source: Text, at: nat, read: nat, to: nat)
    requires at <= read <= |source| && at <= to <= |source| && !Splits(source, read)
    ensures SawFence(ScanText(Scan(None, []), source[..read]), source[at..to][Min(read - at, to - at)..]) <==> EndsFence(source, read, to)
  {
    hide ScanText, FenceMark, SawFence, EndsAt;
    var s := ScanText(Scan(None, []), source[..read]);
    var unseen := source[at..to][Min(read - at, to - at)..];
    SawFenceIs(s, unseen);
    if read <= to {
      assert unseen == source[read..to];
      forall n | 0 <= n < |unseen| ensures ScanText(s, unseen[..n]) == ScanText(Scan(None, []), source[..read + n]) {
        assert source[..read + n] == source[..read] + unseen[..n];
        SplitsInPrefix(source, read, read + n);
        ScanAppend(Scan(None, []), source[..read], unseen[..n]);
      }
      forall n: nat | read <= n < to && source[n] == LF
        ensures FenceMark(ScanText(s, unseen[..n - read]).line).Some? <==> exists j: nat :: EndsAt(source, j, n)
      {
        LineAt(source, n);
      }
      NewlyIs(source, read, to, s, unseen);
    } else {
      assert unseen == [];
    }
  }

  lemma NewlyIs(source: Text, read: nat, to: nat, s: Scan, unseen: Text)
    requires read <= to <= |source| && unseen == source[read..to]
    requires forall n: nat :: read <= n < to && source[n] == LF ==>
      (FenceMark(ScanText(s, unseen[..n - read]).line).Some? <==> exists j: nat :: EndsAt(source, j, n))
    ensures (exists n :: 0 <= n < |unseen| && unseen[n] == LF && FenceMark(ScanText(s, unseen[..n]).line).Some?) <==> EndsFence(source, read, to)
  {
    hide ScanText, FenceMark;
    if n :| 0 <= n < |unseen| && unseen[n] == LF && FenceMark(ScanText(s, unseen[..n]).line).Some? {
      var m := n + read;
      assert source[m] == LF && unseen[..m - read] == unseen[..n];
      var j: nat :| EndsAt(source, j, m);
    }
    if j: nat, n: nat :| read <= n < to && EndsAt(source, j, n) {
      assert unseen[n - read] == LF;
    }
  }

  /** Where the classifier stands when it comes to a chunk. */
  lemma StandsAt(p: Policy, source: Text, base: nat, cs: seq<Chunk>, k: nat)
    requires Laid(p, source, base, 0, 0, cs) && k < |cs|
    ensures var read, c := FurthestEnd(cs[..k], base) - base, cs[k];
      && 0 <= c.start - base <= read <= |source| && c.start <= c.end <= base + |source| && !Splits(source, read)
      && c.text == source[c.start - base..c.end - base]
      && Before(cs, k).0 == ScanText(Scan(None, []), source[..read])
      && Min(Max(0, Before(cs, k).1 - c.start), |c.text|) == Min(read - (c.start - base), |c.text|)
  {
    hide ScanText, Laid, ClassifyAll, Splits, FurthestEnd;
    assert !Splits(source, 0) by { NotAtStart(source); }
    PlaceOf(p, source, base, 0, 0, cs, k, base);
    LaidFront(p, source, base, 0, 0, cs, k);
    assert source[..0] == [];
    ScanNothing(Scan(None, []));
    ClassifyReadsOnce(p, source, base, 0, 0, cs[..k], Scan(None, []), 0, 0);
    if k == 0 {
      assert cs[..k] == [];
      NothingRead(base);
    }
  }

  lemma NothingRead(base: nat)
    ensures FurthestEnd([], base) == base
  {
  }

  /** A chunk of a source is rederived as code exactly when it is no tool output and a fence is
      open where the chunks before it have read to, one of its own lines begins with a fence
      mark, or a line with one ends in what it adds. */
  lemma ClassifiedExactly(p: Policy, source: Text, base: nat, cs: seq<Chunk>, k: nat, kind: Kind)
    requires Laid(p, source, base, 0, 0, cs) && k < |cs|
    ensures var read := FurthestEnd(cs[..k], base) - base;
      && 0 <= read <= |source| && base <= cs[k].end <= base + |source|
      && var code := kind != ToolOutput && (Fenced(source[..read]) || BeginsFence(cs[k].text) || EndsFence(source, read, cs[k].end - base));
        Classified(cs, k, kind) == Located(cs[k], if code then Code else kind, code)
  {
    hide ScanText, SawFence, FenceAtLine, Laid, Before, Fenced, EndsFence, BeginsAt, Splits, FurthestEnd;
    var c, read := cs[k], FurthestEnd(cs[..k], base) - base;
    StandsAt(p, source, base, cs, k);
    ScannedFence(source[..read]);
    FenceAtLineIs(c.text, 0);
    NewlySaw(source, c.start - base, read, c.end - base);
  }

  lemma NotAtStart(source: Text)
    ensures !Splits(source, 0)
  {
  }
}
