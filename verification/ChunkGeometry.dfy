/** Where the chunks of packages/search/src/chunker.ts lie in their source, and when
    chunking can fail. */
module ChunkGeometry {
  import opened Common
  import opened Utf16
  import opened Boundary
  import opened Chunker

  /** Where the start behind a cut inside a block is: the overlap back, though not at the very
      start; one more where that would separate a pair or CRLF; at the cut if that is the start. */
  predicate StepsBack(overlap: nat, w: seq<Unit>, end: nat, advance: nat) {
    var back := if overlap < end then end - overlap else 1;
    advance == if !Splits(w, back) then back else if back == 1 then end else back - 1
  }

  /** Or the place before, where this one separates a pair or CRLF. */
  predicate SafeAt(w: seq<Unit>, place: int, at: nat) { at == if Splits(w, place) then place - 1 else place }

  /** Of a window of this size, how much the token budget leaves. */
  predicate Budgeted(p: Policy, w: seq<Unit>, size: nat, limit: nat)
    requires size <= |w|
  {
    if p.tokenizer.None? then limit == size
    else
      var spans := p.tokenizer.value(w[..size]);
      spans.Some? && if |spans.value| <= p.maxTokens then limit == size else SafeAt(w, spans.value[p.maxTokens].start, limit)
  }

  /** How far a chunk may reach: as far as the policy's size allows, and with a tokenizer no
      further than where the first token beyond the budget starts. */
  ghost predicate Reaches(p: Policy, w: seq<Unit>, limit: nat) {
    exists size: nat :: size <= |w| && SafeAt(w, if p.max < |w| then p.max else |w|, size) && Budgeted(p, w, size, limit)
  }

  /** A window is cut at its end when a chunk may reach that far, and otherwise where
      `Boundary.CutPlaces` says. The next start is at the cut when nothing is left of the window
      or a structural place decided it, and otherwise the overlap back. */
  ghost predicate CutWell(p: Policy, w: seq<Unit>, end: nat, advance: nat) {
    exists limit: nat :: limit <= |w| && Reaches(p, w, limit)
      && end == (if limit == |w| then |w| else CutAt(w, limit).end)
      && if end == |w| || Structural(w[..Min(limit + 1, |w|)], limit) then advance == end else StepsBack(p.overlap, w, end, advance)
  }

  /** The chunks lie in the source from position `at`: each is the source between its
      ends, no end separates a pair or CRLF, each start lies beyond the previous start
      and within the previous chunk, and little is repeated. */
  ghost predicate Laid(p: Policy, source: seq<Unit>, base: nat, at: nat, index: nat, cs: seq<Chunk>)
    decreases |cs|
  {
    cs == [] ||
    (var c := cs[0];
     && c.index == index
     && c.start == base + at
     && at < c.end - base <= |source|
     && c.end - c.start <= p.max
     && c.text == source[at..c.end - base]
     && !Splits(source, at)
     && !Splits(source, c.end - base)
     && (|cs| > 1 ==>
           var next := cs[1].start - base;
           && at < next <= c.end - base
           && c.end - base - next <= p.overlap + 1
           && CutWell(p, Window(p, source[at..]), c.end - base - at, next - at)
           && Laid(p, source, base, next, index + 1, cs[1..])))
  }

  /** Each chunk cut where the next one starts, and the last one whole. */
  function Rebuild(cs: seq<Chunk>): seq<Unit> {
    if cs == [] then []
    else if |cs| == 1 then cs[0].text
    else if 0 <= cs[1].start - cs[0].start <= |cs[0].text| then
      cs[0].text[..cs[1].start - cs[0].start] + Rebuild(cs[1..])
    else []
  }

  function FurthestEnd(cs: seq<Chunk>, from: nat): nat {
    if cs == [] then from else FurthestEnd(cs[1..], Max(from, cs[0].end))
  }

  /** Geometry of one step, within the window. */
  lemma StepGeometry(p: Policy, buffer: seq<Unit>, offset: nat)
    requires ValidPolicy(p) && buffer != []
    requires var s := Next(p, buffer, offset); s.Step?
    ensures var s := Next(p, buffer, offset);
      && s.end <= p.max
      && !Splits(buffer, s.end) && !Splits(buffer, s.advance)
      && s.end - s.advance <= p.overlap + 1
      && (s.end == |buffer| ==> s.advance == s.end)
  {
    hide CutAt, SpansOrdered;
    var limit := TokenLimit(p, buffer, SafeEnd(buffer, Min(p.max, |buffer|)));
    if limit.at < |buffer| {
      CutProgress(buffer, limit.at);
    }
  }

  /** End and overlap of one step. */
  lemma StepCutsWell(p: Policy, buffer: seq<Unit>, offset: nat)
    requires ValidPolicy(p) && buffer != []
    requires Next(p, buffer, offset).Step?
    ensures CutWell(p, buffer, Next(p, buffer, offset).end, Next(p, buffer, offset).advance)
  {
    hide CutAt, SpansOrdered, Structural;
    var size := SafeEnd(buffer, Min(p.max, |buffer|));
    var limit := TokenLimit(p, buffer, size);
    assert SafeAt(buffer, if p.max < |buffer| then p.max else |buffer|, size);
    assert Reaches(p, buffer, limit.at) by { LimitReaches(p, buffer, size); }
    if limit.at < |buffer| {
      CutPlaces(buffer, limit.at);
      CutProgress(buffer, limit.at);
    }
  }

  lemma LimitReaches(p: Policy, w: seq<Unit>, size: nat)
    requires size <= |w| && !Splits(w, size) && SafeAt(w, if p.max < |w| then p.max else |w|, size) && TokenLimit(p, w, size).Limit?
    ensures Reaches(p, w, TokenLimit(p, w, size).at)
  {
    assert Budgeted(p, w, size, TokenLimit(p, w, size).at);
  }

  lemma SplitsInWindow(source: seq<Unit>, at: nat, n: nat, e: nat)
    requires at + n <= |source| && 0 < e < n
    ensures Splits(source, at + e) == Splits(source[at..][..n], e)
  {
    var w := source[at..][..n];
    assert w[e - 1] == source[at + e - 1] && w[e] == source[at + e];
  }

  lemma LaidCons(p: Policy, source: seq<Unit>, base: nat, at: nat, index: nat, s: Step, more: seq<Chunk>)
    requires ValidPolicy(p) && at <= |source| && s.Step? && 1 <= s.advance <= s.end && at + s.end <= |source|
    requires CutWell(p, Window(p, source[at..]), s.end, s.advance)
    requires s.end <= p.max && s.end - s.advance <= p.overlap + 1
    requires !Splits(source, at) && !Splits(source, at + s.end)
    requires Laid(p, source, base, at + s.advance, index + 1, more)
    ensures Laid(p, source, base, at, index, [Chunk(index, base + at, base + at + s.end, source[at..at + s.end])] + more)
  {
    hide Splits, CutWell, ValidPolicy;
    var c := Chunk(index, base + at, base + at + s.end, source[at..at + s.end]);
    assert ([c] + more)[1..] == more;
  }

  /** The layout, and completeness when nothing fails: the chunks reach the end. */
  lemma {:induction false} ChunksLaid(p: Policy, source: seq<Unit>, base: nat, at: nat, index: nat)
    requires ValidPolicy(p) && at <= |source| && !Splits(source, at)
    ensures var o := Chunks(p, source[at..], base + at, index);
      && Laid(p, source, base, at, index, o.chunks)
      && (o.fault.None? && at < |source| ==> o.chunks != [] && o.chunks[|o.chunks| - 1].end == base + |source|)
      && (o.fault.None? && at == |source| ==> o.chunks == [])
    decreases |source| - at
  {
    hide Next, Splits, Laid, ValidPolicy, Chunks, CutWell;
    var rest := source[at..];
    ChunksOne(p, rest, base + at, index);
    if rest == [] {
      assert Laid(p, source, base, at, index, []) by { LaidNil(p, source, base, at, index); }
    } else {
      var w := Window(p, rest);
      var s := Next(p, w, base + at);
      if s.StepFault? {
        LaidNil(p, source, base, at, index);
      } else {
        StepGeometry(p, w, base + at);
        StepCutsWell(p, w, base + at);
        EdgesClean(p, source, at, s.end);
        EdgesClean(p, source, at, s.advance);
        assert rest[s.advance..] == source[at + s.advance..];
        assert rest[..s.end] == source[at..at + s.end];
        var more := Chunks(p, source[at + s.advance..], base + at + s.advance, index + 1);
        ChunksLaid(p, source, base, at + s.advance, index + 1);
        LaidCons(p, source, base, at, index, s, more.chunks);
      }
    }
  }

  lemma LaidNil(p: Policy, source: seq<Unit>, base: nat, at: nat, index: nat)
    requires ValidPolicy(p)
    ensures Laid(p, source, base, at, index, [])
  {
  }

  lemma EdgesClean(p: Policy, source: seq<Unit>, at: nat, e: nat)
    requires at < |source|
    requires var w := Window(p, source[at..]); 0 < e <= |w| && e <= p.max && !Splits(w, e)
    ensures !Splits(source, at + e)
  {
    var n := |Window(p, source[at..])|;
    if e < n {
      SplitsInWindow(source, at, n, e);
    }
  }

  /** The chunks give the source back. */
  lemma {:induction false} ChunksRebuild(p: Policy, source: seq<Unit>, base: nat, at: nat, index: nat, cs: seq<Chunk>)
    requires ValidPolicy(p) && Laid(p, source, base, at, index, cs)
    requires cs != [] && cs[|cs| - 1].end == base + |source|
    ensures Rebuild(cs) == source[at..]
    decreases |cs|
  {
    hide Splits, CutWell;
    if |cs| > 1 {
      var next := cs[1].start - base;
      ChunksRebuild(p, source, base, next, index + 1, cs[1..]);
      assert source[at..cs[0].end - base][..next - at] + source[next..] == source[at..];
    }
  }

  /** For a whole source from its base: layout, and the source back. */
  lemma ChunkingIsFaithful(p: Policy, source: seq<Unit>, base: nat)
    requires ValidPolicy(p)
    ensures var o := Chunks(p, source, base, 0);
      Laid(p, source, base, 0, 0, o.chunks) && (o.fault.None? ==> Rebuild(o.chunks) == source)
  {
    hide Laid, Next, Chunks, Rebuild, ValidPolicy;
    assert source[0..] == source;
    ChunksLaid(p, source, base, 0, 0);
    var o := Chunks(p, source, base, 0);
    if o.fault.None? {
      if source == [] {
        assert Rebuild([]) == [] by { RebuildNil(); }
      } else {
        ChunksRebuild(p, source, base, 0, 0, o.chunks);
      }
    }
  }

  lemma RebuildNil()
    ensures Rebuild([]) == []
  {
  }

  /** Exactly when one cut fails. The pattern boundary itself always makes progress:
      the only way to get stuck is a token budget that ends before the first safe cut. */
  lemma StepFaultExactly(p: Policy, buffer: seq<Unit>, offset: nat)
    requires ValidPolicy(p) && buffer != [] && offset + |buffer| <= MAX_SAFE_INTEGER
    ensures p.tokenizer.None? ==> Next(p, buffer, offset).Step?
    ensures p.tokenizer.Some? ==>
      var limit := SafeEnd(buffer, Min(p.max, |buffer|));
      var spans := p.tokenizer.value(buffer[..limit]);
      (Next(p, buffer, offset).StepFault? <==>
        || spans.None?
        || |spans.value| > MAX_OFFSETS
        || !SpansOrdered(spans.value, limit, 0)
        || (p.maxTokens < |spans.value| && SafeEnd(buffer, spans.value[p.maxTokens].start) == 0))
  {
    hide CutAt, SpansOrdered;
    var limit := TokenLimit(p, buffer, SafeEnd(buffer, Min(p.max, |buffer|)));
    if limit.Limit? && 1 <= limit.at < |buffer| {
      CutProgress(buffer, limit.at);
    }
  }

  /** With spans the check accepts, only the token budget can fail. */
  lemma StepFaultKind(p: Policy, buffer: seq<Unit>, offset: nat)
    requires ValidPolicy(p) && buffer != [] && offset + |buffer| <= MAX_SAFE_INTEGER && p.tokenizer.Some?
    requires var limit := SafeEnd(buffer, Min(p.max, |buffer|));
      var spans := p.tokenizer.value(buffer[..limit]);
      spans.Some? && |spans.value| <= MAX_OFFSETS && SpansOrdered(spans.value, limit, 0)
    ensures Next(p, buffer, offset).StepFault? ==> Next(p, buffer, offset).fault == TokenBudget
  {
    hide CutAt, SpansOrdered;
    var limit := TokenLimit(p, buffer, SafeEnd(buffer, Min(p.max, |buffer|)));
    if limit.Limit? && 1 <= limit.at < |buffer| {
      CutProgress(buffer, limit.at);
    }
  }

  /** Without a tokenizer chunking never fails. */
  lemma {:induction false} PlainChunkingNeverFails(p: Policy, rest: seq<Unit>, offset: nat, index: nat)
    requires ValidPolicy(p) && p.tokenizer.None? && offset + |rest| <= MAX_SAFE_INTEGER
    ensures Chunks(p, rest, offset, index).fault.None?
    decreases |rest|
  {
    hide Next;
    if rest != [] {
      var w := Window(p, rest);
      StepFaultExactly(p, w, offset);
      var s := Next(p, w, offset);
      PlainChunkingNeverFails(p, rest[s.advance..], offset + s.advance, index + 1);
    }
  }

  lemma StepNotStuck(p: Policy, buffer: seq<Unit>, offset: nat)
    requires ValidPolicy(p) && buffer != []
    ensures Next(p, buffer, offset) != StepFault(NoProgress)
  {
    hide CutAt, SpansOrdered, ValidPolicy;
    var limit := TokenLimit(p, buffer, SafeEnd(buffer, Min(p.max, |buffer|)));
    if limit.Limit? && 1 <= limit.at < |buffer| {
      CutProgress(buffer, limit.at);
    }
  }

  /** The failure "chunk policy cannot make source progress" is unreachable. */
  lemma {:induction false} BoundaryNeverStuck(p: Policy, rest: seq<Unit>, offset: nat, index: nat)
    requires ValidPolicy(p)
    ensures Chunks(p, rest, offset, index).fault != Some(NoProgress)
    decreases |rest|
  {
    hide Next, Chunks, ValidPolicy;
    ChunksOne(p, rest, offset, index);
    if rest != [] {
      var w := Window(p, rest);
      StepNotStuck(p, w, offset);
      var s := Next(p, w, offset);
      if s.Step? {
        BoundaryNeverStuck(p, rest[s.advance..], offset + s.advance, index + 1);
      }
    }
  }
}
