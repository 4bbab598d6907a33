/** Code classification of overlapping chunks, packages/search/src/query.ts. The
    classifier reads every source unit once although chunks repeat text. */
module Classifier {
  import opened Common
  import opened Utf16
  import opened Boundary
  import opened Chunker
  import opened ChunkGeometry

  const LINE_LIMIT := 256

  datatype Kind = ToolOutput | Code | Other

  /** A chunk with its source kind; code chunks also get a derived identity. */
  datatype Located = Located(chunk: Chunk, kind: Kind, rederived: bool)

  /** The open fence, if any, and the line read so far. */
  datatype Scan = Scan(fence: Option<seq<Unit>>, line: seq<Unit>)

  function FenceMark(line: seq<Unit>): (m: Option<seq<Unit>>)
    ensures m.Some? ==> |m.value| >= 3
  {
    var b := Skip(line, 0, Blank);
    if b > 3 || b == |line| || (line[b] != 0x60 && line[b] != 0x7E) then None
    else
      var e := Skip(line, b, u => u == line[b]);
      if e - b >= 3 then Some(line[b..e]) else None
  }

  function EndLine(s: Scan): Scan {
    var mark := FenceMark(s.line);
    if mark.None? then Scan(s.fence, [])
    else if s.fence.Some? && s.fence.value != [] && mark.value[0] == s.fence.value[0] && |mark.value| >= |s.fence.value|
      then Scan(None, [])
    else if s.fence.None? then Scan(mark, [])
    else Scan(s.fence, [])
  }

  function Accept(s: Scan, point: seq<Unit>): Scan {
    if point == [LF] then EndLine(s)
    else if |s.line| < LINE_LIMIT then s.(line := s.line + point)
    else s
  }

  /** One scan of a text, code point by code point. */
  function ScanText(s: Scan, text: seq<Unit>): Scan
    decreases |text|
  {
    if text == [] then s
    else
      var n := CharLength(text, 0);
      ScanText(Accept(s, text[..n]), text[n..])
  }

  /** Some line of the text closes, or opens, a fence while it is scanned. */
  function SawFence(s: Scan, text: seq<Unit>): bool
    decreases |text|
  {
    if text == [] then false
    else
      var n := CharLength(text, 0);
      (text[..n] == [LF] && FenceMark(s.line).Some?) || SawFence(Accept(s, text[..n]), text[n..])
  }

  /** A line start followed by at most three blanks and a fence mark. */
  function FenceAtLine(text: seq<Unit>, i: nat): bool
    requires i <= |text|
    decreases |text| - i
  {
    (var b := Skip(text, i, Blank); b - i <= 3 && Triple(text, b)) ||
    (var j := Skip(text, i, u => u != LF); j < |text| && FenceAtLine(text, j + 1))
  }

  lemma {:induction false} ScanAppend(s: Scan, a: seq<Unit>, b: seq<Unit>)
    requires !SplitsPair(a + b, |a|)
    ensures ScanText(s, a + b) == ScanText(ScanText(s, a), b)
    decreases |a|
  {
    hide Accept;
    if a == [] {
      assert a + b == b;
    } else {
      var n := CharLength(a + b, 0);
      assert n == CharLength(a, 0);
      assert (a + b)[..n] == a[..n];
      assert (a + b)[n..] == a[n..] + b;
      ScanAppend(Accept(s, a[..n]), a[n..], b);
    }
  }

  lemma ScanOne(s: Scan, text: seq<Unit>)
    requires text != []
    ensures var n := CharLength(text, 0);
      && ScanText(s, text) == ScanText(Accept(s, text[..n]), text[n..])
      && (SawFence(s, text) <==> (text[..n] == [LF] && FenceMark(s.line).Some?) || SawFence(Accept(s, text[..n]), text[n..]))
  {
  }

  lemma ScanNothing(s: Scan)
    ensures ScanText(s, []) == s && !SawFence(s, [])
  {
  }

  class CodeChunkClassifier {
    var fence: Option<seq<Unit>>
    var consumed: nat
    var line: seq<Unit>
    var codePresent: bool

    ghost function State(): Scan
      reads this
    {
      Scan(fence, line)
    }

    constructor ()
      ensures State() == Scan(None, []) && consumed == 0 && !codePresent
    {
      fence, consumed, line, codePresent := None, 0, [], false;
    }

    /** Text and place of a chunk never change; what is new in it is scanned. */
    method Classify(item: Located) returns (r: Located)
      modifies this
      ensures r.chunk == item.chunk
      ensures var unseen := item.chunk.text[Min(Max(0, old(consumed) - item.chunk.start), |item.chunk.text|)..];
        && State() == ScanText(old(State()), unseen)
        && (codePresent <==> old(fence).Some? || FenceAtLine(item.chunk.text, 0) || SawFence(old(State()), unseen))
      ensures consumed == Max(old(consumed), item.chunk.end)
      ensures if codePresent && item.kind != ToolOutput then r.kind == Code && r.rederived else r == item
    {
      hide ScanText, SawFence, FenceAtLine, FenceMark;
      var hasCode := fence.Some? || FenceAtLine(item.chunk.text, 0);
      var from := Min(Max(0, consumed - item.chunk.start), |item.chunk.text|);
      var text := item.chunk.text[from..];
      ghost var already := hasCode;
      var i := 0;
      assert text[0..] == text;
      while i < |text|
        invariant i <= |text|
        invariant ScanText(State(), text[i..]) == ScanText(old(State()), text)
        invariant (hasCode || SawFence(State(), text[i..])) == (already || SawFence(old(State()), text))
        invariant consumed == old(consumed)
        decreases |text| - i
      {
        ghost var before := State();
        ghost var rest := text[i..];
        var n := CharLength(text, i);
        assert CharLength(rest, 0) == n;
        var point := text[i..i + n];
        assert rest[..n] == point && rest[n..] == text[i + n..];
        ScanOne(before, rest);
        if point == [LF] {
          var mark := FenceMark(line);
          if mark.Some? {
            if fence.Some? && fence.value != [] && mark.value[0] == fence.value[0] && |mark.value| >= |fence.value| {
              fence := None;
            } else if fence.None? {
              fence := mark;
            }
            hasCode := true;
          }
          line := [];
        } else if |line| < LINE_LIMIT {
          line := line + point;
        }
        assert State() == Accept(before, point);
        i := i + n;
      }
      ScanNothing(State());
      assert text[i..] == [];
      consumed := Max(consumed, item.chunk.end);
      codePresent := hasCode;
      if hasCode && item.kind != ToolOutput {
        return item.(kind := Code, rederived := true);
      }
      return item;
    }
  }

  /** Scan state and consumed offset after classifying chunks in turn, as `Classify`
      leaves them. */
  function ClassifyAll(s: Scan, consumed: nat, cs: seq<Chunk>): (r: (Scan, nat))
    decreases |cs|
  {
    if cs == [] then (s, consumed)
    else
      var from := Min(Max(0, consumed - cs[0].start), |cs[0].text|);
      ClassifyAll(ScanText(s, cs[0].text[from..]), Max(consumed, cs[0].end), cs[1..])
  }

  /** Classifying the chunks of a source in turn reads the source once, from its
      start to the furthest end seen, even when a chunk lies inside an earlier one. */
  lemma {:induction false} ClassifyReadsOnce(p: Policy, source: seq<Unit>, base: nat, at: nat, index: nat, cs: seq<Chunk>,
                                             init: Scan, read: nat, consumed: nat)
    requires Laid(p, source, base, at, index, cs)
    requires at <= read <= |source| && !Splits(source, read)
    requires consumed == base + read || (read == 0 && consumed <= base)
    ensures var end := FurthestEnd(cs, base + read);
      && base + read <= end <= base + |source|
      && ClassifyAll(ScanText(init, source[..read]), consumed, cs) ==
           (ScanText(init, source[..end - base]), if cs == [] then consumed else end)
    decreases |cs|
  {
    hide Splits, ScanText, CutWell;
    if cs != [] {
      var c := cs[0];
      var to := c.end - base;
      var from := Min(Max(0, consumed - c.start), |c.text|);
      var next := Max(read, to);
      assert from == Min(read - at, to - at);
      ReadNext(source, at, read, to, init);
      if |cs| > 1 {
        ClassifyReadsOnce(p, source, base, cs[1].start - base, index + 1, cs[1..], init, next, Max(consumed, c.end));
      }
    }
  }

  /** Reading what is new in the source between `at` and `to`. */
  lemma ReadNext(source: seq<Unit>, at: nat, read: nat, to: nat, init: Scan)
    requires at <= read <= |source| && at <= to <= |source| && !Splits(source, read)
    ensures var unseen := source[at..to][Min(read - at, to - at)..];
      ScanText(ScanText(init, source[..read]), unseen) == ScanText(init, source[..Max(read, to)])
  {
    hide ScanText;
    var unseen := source[at..to][Min(read - at, to - at)..];
    if read <= to {
      assert unseen == source[read..to];
      assert source[..to] == source[..read] + unseen;
      SplitsInPrefix(source, read, to);
      ScanAppend(init, source[..read], unseen);
    } else {
      assert unseen == [];
      ScanNothing(ScanText(init, source[..read]));
    }
  }

  lemma SplitsInPrefix(source: seq<Unit>, i: nat, n: nat)
    requires i <= n <= |source| && !Splits(source, i)
    ensures !SplitsPair(source[..n], i)
  {
  }

  /** The classifier and the chunker together: after a complete run the classifier is
      where one scan of the whole source would leave it. */
  lemma ClassifiedSource(p: Policy, source: seq<Unit>, base: nat)
    requires ValidPolicy(p) && source != []
    requires Chunks(p, source, base, 0).fault.None?
    ensures ClassifyAll(Scan(None, []), 0, Chunks(p, source, base, 0).chunks) ==
      (ScanText(Scan(None, []), source), base + |source|)
  {
    hide ScanText, ClassifyAll, Laid, ValidPolicy, Next, Chunks;
    var cs := Chunks(p, source, base, 0).chunks;
    assert source[0..] == source && source[..|source|] == source;
    ChunksLaid(p, source, base, 0, 0);
    assert source[..0] == [];
    ScanNothing(Scan(None, []));
    ClassifyReadsOnce(p, source, base, 0, 0, cs, Scan(None, []), 0, 0);
    LastReaches(cs, base);
    assert FurthestEnd(cs, base) == base + |source|;
  }

  lemma {:induction false} LastReaches(cs: seq<Chunk>, from: nat)
    ensures FurthestEnd(cs, from) >= from
    ensures cs != [] ==> FurthestEnd(cs, from) >= cs[|cs| - 1].end
    decreases |cs|
  {
    if cs != [] {
      LastReaches(cs[1..], Max(from, cs[0].end));
    }
  }

  /** Whether a chunk holds code, given the scan before it: a fence is open, or one is in its
      text, or one closes or opens in what is new of it. */
  predicate HoldsCode(before: (Scan, nat), c: Chunk) {
    var unseen := c.text[Min(Max(0, before.1 - c.start), |c.text|)..];
    before.0.fence.Some? || FenceAtLine(c.text, 0) || SawFence(before.0, unseen)
  }

  function Before(cs: seq<Chunk>, k: nat): (Scan, nat)
    requires k <= |cs|
  {
    ClassifyAll(Scan(None, []), 0, cs[..k])
  }

  lemma {:induction false} ClassifyMore(s: Scan, consumed: nat, cs: seq<Chunk>, c: Chunk)
    ensures ClassifyAll(s, consumed, cs + [c]) ==
      var b := ClassifyAll(s, consumed, cs);
      (ScanText(b.0, c.text[Min(Max(0, b.1 - c.start), |c.text|)..]), Max(b.1, c.end))
    decreases |cs|
  {
    hide ScanText;
    if cs == [] {
      assert cs + [c] == [c] && [c][1..] == [];
    } else {
      var from := Min(Max(0, consumed - cs[0].start), |cs[0].text|);
      assert (cs + [c])[1..] == cs[1..] + [c];
      ClassifyMore(ScanText(s, cs[0].text[from..]), Max(consumed, cs[0].end), cs[1..], c);
    }
  }

  lemma BeforeNext(cs: seq<Chunk>, k: nat)
    requires k < |cs|
    ensures Before(cs, k + 1) ==
      var b := Before(cs, k);
      (ScanText(b.0, cs[k].text[Min(Max(0, b.1 - cs[k].start), |cs[k].text|)..]), Max(b.1, cs[k].end))
  {
    hide ClassifyAll;
    assert cs[..k + 1] == cs[..k] + [cs[k]];
    ClassifyMore(Scan(None, []), 0, cs[..k], cs[k]);
  }

  /** What classifying the k-th chunk returns. */
  function Classified(cs: seq<Chunk>, k: nat, kind: Kind): Located
    requires k < |cs|
  {
    var code := kind != ToolOutput && HoldsCode(Before(cs, k), cs[k]);
    Located(cs[k], if code then Code else kind, code)
  }

  /** One more chunk of a source. */
  method ClassifyNext(classifier: CodeChunkClassifier, ghost cs: seq<Chunk>, ghost k: nat, c: Chunk, kind: Kind) returns (item: Located)
    requires k < |cs| && c == cs[k] && (classifier.State(), classifier.consumed) == Before(cs, k)
    modifies classifier
    ensures item == Classified(cs, k, kind) && (classifier.State(), classifier.consumed) == Before(cs, k + 1)
  {
    hide ClassifyAll, ScanText, SawFence, FenceAtLine, Before;
    BeforeNext(cs, k);
    item := classifier.Classify(Located(c, kind, false));
  }

  /** A source cut into chunks and classified chunk by chunk: every chunk keeps its text and
      place, is code exactly when it holds some, and after a complete run the classifier has
      read the source once. */
  method ClassifySource(p: Policy, source: seq<Unit>, base: nat, kind: Kind) returns (items: seq<Located>, o: Outcome, classifier: CodeChunkClassifier)
    requires ValidPolicy(p)
    ensures o == Chunks(p, source, base, 0) && |items| == |o.chunks|
    ensures forall k :: 0 <= k < |items| ==> items[k] == Classified(o.chunks, k, kind)
    ensures o.fault.None? && source != [] ==> classifier.State() == ScanText(Scan(None, []), source) && classifier.consumed == base + |source|
  {
    hide Chunks, ClassifyAll, ScanText, Classified, Before, ValidPolicy;
    o := ChunkText(source, p, base);
    classifier := new CodeChunkClassifier();
    items := [];
    NothingClassified(o.chunks);
    for k := 0 to |o.chunks|
      invariant fresh(classifier) && |items| == k && (classifier.State(), classifier.consumed) == Before(o.chunks, k)
      invariant forall j :: 0 <= j < k ==> items[j] == Classified(o.chunks, j, kind)
    {
      var item := ClassifyNext(classifier, o.chunks, k, o.chunks[k], kind);
      items := items + [item];
    }
    if o.fault.None? && source != [] {
      WholeClassified(p, source, base, o.chunks);
    }
  }

  lemma WholeClassified(p: Policy, source: seq<Unit>, base: nat, cs: seq<Chunk>)
    requires ValidPolicy(p) && source != [] && Chunks(p, source, base, 0).fault.None? && cs == Chunks(p, source, base, 0).chunks
    ensures Before(cs, |cs|) == (ScanText(Scan(None, []), source), base + |source|)
  {
    hide Chunks, ClassifyAll, ScanText, ValidPolicy;
    assert cs[..|cs|] == cs;
    ClassifiedSource(p, source, base);
  }

  lemma NothingClassified(cs: seq<Chunk>)
    ensures Before(cs, 0) == (Scan(None, []), 0)
  {
  }
}
