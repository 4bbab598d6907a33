/** The streaming structural chunker of packages/search/src/chunker.ts. `Chunks` is
    one recursive definition over a whole source; the class buffers fragments and
    refines it, whatever the fragments are. */
module Chunker {
  import opened Common
  import opened Utf16
  import opened Boundary

  datatype Span = Span(start: int, end: int)

  const MAX_FRAGMENT := 65536
  const MAX_OFFSETS := 65536
  const MAX_SAFE_INTEGER := 0x1F_FFFF_FFFF_FFFF

  datatype Fault = TokenizerFailed | UnboundedOffsets | InvalidOffsets | TokenBudget | NoProgress
                 | UnsafePosition | AlreadyFinished | FragmentTooLong

  /** A tokenizer maps a window to source spans, or fails. */
  type Tokenizer = seq<Unit> -> Option<seq<Span>>

  datatype Policy = Policy(max: nat, overlap: nat, tokenizer: Option<Tokenizer>, maxTokens: nat)

  predicate ValidPolicy(p: Policy) {
    && 16 <= p.max <= 65536
    && 4 * p.overlap <= p.max
    && (p.tokenizer.Some? ==> 1 <= p.maxTokens <= 65536)
  }

  /** What a caller asks for, before defaults and bounds. */
  datatype Request = Request(max: Option<int>, overlap: Option<int>, tokenizer: Option<Tokenizer>, maxTokens: Option<int>)

  function Resolve(r: Request): (p: Option<Policy>)
    ensures p.Some? ==> ValidPolicy(p.value)
    ensures r.max.None? && r.overlap.None? && r.tokenizer.None? && r.maxTokens.None? ==>
      p == Some(Policy(4096, 64, None, 0))
    ensures r.tokenizer.Some? != r.maxTokens.Some? ==> p.None?
  {
    var max := if r.max.Some? then r.max.value else 4096;
    if max < 16 || max > 65536 then None
    else
      var overlap := if r.overlap.Some? then r.overlap.value else Min(64, max / 8);
      if overlap < 0 || 4 * overlap > max then None
      else if r.tokenizer.Some? != r.maxTokens.Some? then None
      else if r.maxTokens.None? then Some(Policy(max, overlap, None, 0))
      else if r.maxTokens.value < 1 || r.maxTokens.value > 65536 then None
      else Some(Policy(max, overlap, r.tokenizer, r.maxTokens.value))
  }

  /** Which requests are admissible, and the policy they give: 4096 units unless said otherwise, and
      an overlap of an eighth of the maximum, at most 64, unless said otherwise. */
  lemma PolicyIs(r: Request)
    ensures var max := if r.max.Some? then r.max.value else 4096;
      && (Resolve(r).Some? <==>
            && 16 <= max <= 65536 && (r.overlap.Some? ==> 0 <= 4 * r.overlap.value <= max)
            && (r.tokenizer.Some? <==> r.maxTokens.Some?) && (r.maxTokens.Some? ==> 1 <= r.maxTokens.value <= 65536))
      && (Resolve(r).Some? ==>
            var p := Resolve(r).value;
            && p.max == max && p.tokenizer == r.tokenizer && (r.maxTokens.Some? ==> p.maxTokens == r.maxTokens.value)
            && (if r.overlap.Some? then p.overlap == r.overlap.value
                else if max >= 512 then p.overlap == 64 else 8 * p.overlap <= max < 8 * p.overlap + 8))
  {
  }

  datatype Chunk = Chunk(index: nat, start: nat, end: nat, text: seq<Unit>)

  /** Everything a run yields before it stops, and why it stopped early. */
  datatype Outcome = Outcome(chunks: seq<Chunk>, fault: Option<Fault>)

  datatype Limit = Limit(at: nat) | LimitFault(fault: Fault)

  // ----- one cut -----

  predicate SpansOrdered(spans: seq<Span>, limit: nat, previous: int) {
    && (forall i :: 0 <= i < |spans| ==> previous <= spans[i].start < spans[i].end <= limit)
    && (forall i, j :: 0 <= i < j < |spans| ==> spans[i].start <= spans[j].start)
  }

  /** The loop that rejects unordered, empty or out-of-window spans. */
  method CheckSpans(spans: seq<Span>, limit: nat) returns (ok: bool)
    ensures ok <==> SpansOrdered(spans, limit, 0)
  {
    var previous := 0;
    for i := 0 to |spans|
      invariant SpansOrdered(spans[..i], limit, 0)
      invariant previous == if i == 0 then 0 else spans[i - 1].start
    {
      if spans[i].start < previous || spans[i].end <= spans[i].start || spans[i].end > limit {
        assert i > 0 ==> spans[i - 1].start == previous;
        return false;
      }
      assert i > 0 ==> spans[..i][i - 1].start == previous;
      previous := spans[i].start;
    }
    assert spans[..|spans|] == spans;
    return true;
  }

  function TokenLimit(p: Policy, buffer: seq<Unit>, limit: nat): (l: Limit)
    requires limit <= |buffer| && !Splits(buffer, limit)
    ensures l.Limit? ==> l.at <= limit && !Splits(buffer, l.at)
  {
    if p.tokenizer.None? then Limit(limit)
    else
      var offsets := p.tokenizer.value(buffer[..limit]);
      if offsets.None? then LimitFault(TokenizerFailed)
      else if |offsets.value| > MAX_OFFSETS then LimitFault(UnboundedOffsets)
      else if !SpansOrdered(offsets.value, limit, 0) then LimitFault(InvalidOffsets)
      else if p.maxTokens < |offsets.value| then Limit(SafeEnd(buffer, offsets.value[p.maxTokens].start))
      else Limit(limit)
  }

  datatype Step = Step(end: nat, advance: nat) | StepFault(fault: Fault)

  /** The cut of one window, and how far the next window starts after this one. */
  function Next(p: Policy, buffer: seq<Unit>, offset: nat): (s: Step)
    requires ValidPolicy(p) && buffer != []
    ensures s.Step? ==> 1 <= s.advance <= s.end <= |buffer|
  {
    var limit := TokenLimit(p, buffer, SafeEnd(buffer, Min(p.max, |buffer|)));
    if limit.LimitFault? then StepFault(limit.fault)
    else if limit.at < 1 then StepFault(TokenBudget)
    else
      var cut := if limit.at == |buffer| then Cut(limit.at, false) else CutAt(buffer, limit.at);
      if cut.end < 1 then StepFault(NoProgress)
      else if offset + cut.end > MAX_SAFE_INTEGER then StepFault(UnsafePosition)
      else
        var advance := if cut.split && cut.end < |buffer| then SafeEnd(buffer, Max(1, cut.end - p.overlap)) else cut.end;
        Step(cut.end, if advance < 1 then cut.end else advance)
  }

  /** The part of the remaining source one window shows. */
  function Window(p: Policy, rest: seq<Unit>): seq<Unit> { rest[..Min(p.max + 2, |rest|)] }

  function Prepend(c: Chunk, o: Outcome): Outcome { Outcome([c] + o.chunks, o.fault) }

  function Cat(out: seq<Chunk>, o: Outcome): Outcome { Outcome(out + o.chunks, o.fault) }

  /** The chunks of a whole source. */
  function Chunks(p: Policy, rest: seq<Unit>, offset: nat, index: nat): Outcome
    requires ValidPolicy(p)
    decreases |rest|
  {
    if rest == [] then Outcome([], None)
    else
      var s := Next(p, Window(p, rest), offset);
      if s.StepFault? then Outcome([], Some(s.fault))
      else Prepend(Chunk(index, offset, offset + s.end, rest[..s.end]), Chunks(p, rest[s.advance..], offset + s.advance, index + 1))
  }

  // ----- the buffer -----

  datatype State = State(buffer: seq<Unit>, offset: nat, index: nat)

  datatype Drained = Drained(state: State, out: seq<Chunk>, fault: Option<Fault>)

  /** What draining yields: every full window, or everything at the end. */
  function Drain(p: Policy, s: State, final: bool): (d: Drained)
    requires ValidPolicy(p)
    ensures d.fault.None? ==> |d.state.buffer| < p.max + 2 && (final ==> d.state.buffer == [])
    decreases |s.buffer|
  {
    if |s.buffer| < p.max + 2 && (!final || s.buffer == []) then Drained(s, [], None)
    else
      var n := Next(p, s.buffer, s.offset);
      if n.StepFault? then Drained(s, [], Some(n.fault))
      else
        var c := Chunk(s.index, s.offset, s.offset + n.end, s.buffer[..n.end]);
        var d := Drain(p, State(s.buffer[n.advance..], s.offset + n.advance, s.index + 1), final);
        Drained(d.state, [c] + d.out, d.fault)
  }

  /** What pushing a fragment yields. */
  function Push(p: Policy, s: State, fragment: seq<Unit>): (d: Drained)
    requires ValidPolicy(p) && |s.buffer| < p.max + 2
    ensures d.fault.None? ==> |d.state.buffer| < p.max + 2
    decreases |fragment|
  {
    if fragment == [] then Drained(s, [], None)
    else
      var count := Min(|fragment|, p.max + 2 - |s.buffer|);
      var d := Drain(p, s.(buffer := s.buffer + fragment[..count]), false);
      if d.fault.Some? then d
      else
        var more := Push(p, d.state, fragment[count..]);
        Drained(more.state, d.out + more.out, more.fault)
  }

  lemma DrainNothing(p: Policy, s: State, final: bool)
    requires ValidPolicy(p) && |s.buffer| < p.max + 2 && (!final || s.buffer == [])
    ensures Drain(p, s, final) == Drained(s, [], None)
  {
    hide ValidPolicy, Next;
  }

  lemma PushNothing(p: Policy, s: State)
    requires ValidPolicy(p) && |s.buffer| < p.max + 2
    ensures Push(p, s, []) == Drained(s, [], None)
  {
  }

  lemma PushOne(p: Policy, s: State, fragment: seq<Unit>)
    requires ValidPolicy(p) && |s.buffer| < p.max + 2 && fragment != []
    ensures var count := Min(|fragment|, p.max + 2 - |s.buffer|);
      var d := Drain(p, s.(buffer := s.buffer + fragment[..count]), false);
      Push(p, s, fragment) ==
        if d.fault.Some? then d
        else var more := Push(p, d.state, fragment[count..]); Drained(more.state, d.out + more.out, more.fault)
  {
    hide Next, Drain, ValidPolicy;
  }

  /** Pushing the fragments one after another, then finishing. */
  function Run(p: Policy, s: State, fragments: seq<seq<Unit>>): Outcome
    requires ValidPolicy(p) && |s.buffer| < p.max + 2
    decreases |fragments|
  {
    if fragments == [] then
      var d := Drain(p, s, true); Outcome(d.out, d.fault)
    else
      var d := Push(p, s, fragments[0]);
      if d.fault.Some? then Outcome(d.out, d.fault) else Cat(d.out, Run(p, d.state, fragments[1..]))
  }

  function Flatten(fragments: seq<seq<Unit>>): seq<Unit> {
    if fragments == [] then [] else fragments[0] + Flatten(fragments[1..])
  }

  /** Object state between calls, as the source keeps it. */
  class StructuralChunker {
    const policy: Policy
    var buffer: seq<Unit>
    var offset: nat
    var chunkIndex: nat
    var finished: bool
    var highWater: nat
    var failed: bool  // a generator that has thrown is never resumed

    ghost predicate Valid()
      reads this
    {
      ValidPolicy(policy) && highWater <= policy.max + 2 &&
      (!failed && !finished ==> |buffer| < policy.max + 2)
    }

    ghost function Current(): State
      reads this
    {
      State(buffer, offset, chunkIndex)
    }

    constructor (p: Policy, offsetBase: nat)
      requires ValidPolicy(p)
      ensures Valid() && policy == p && Current() == State([], offsetBase, 0) && !finished && !failed && highWater == 0
    {
      policy := p;
      buffer, offset, chunkIndex, finished, highWater, failed := [], offsetBase, 0, false, 0, false;
    }

    /** One buffered window at a time; `|buffer|` never exceeds a full window. */
    method DrainBuffer(final: bool) returns (out: seq<Chunk>, fault: Option<Fault>)
      requires ValidPolicy(policy)
      requires final ==> |buffer| < policy.max + 2
      modifies this`buffer, this`offset, this`chunkIndex
      ensures Drain(policy, old(Current()), final) == Drained(Current(), out, fault)
    {
      hide Next, Drain, ValidPolicy;
      out := [];
      fault := None;
      ghost var start := Current();
      while |buffer| >= policy.max + 2 || (final && buffer != [])
        invariant final ==> |buffer| < policy.max + 2
        invariant var d := Drain(policy, Current(), final);
          Drain(policy, start, final) == Drained(d.state, out + d.out, d.fault)
        decreases |buffer|
      {
        DrainOne(policy, Current(), final);
        ghost var emitted := out;
        var n := Next(policy, buffer, offset);
        if n.StepFault? {
          return out, Some(n.fault);
        }
        var chunk := Chunk(chunkIndex, offset, offset + n.end, buffer[..n.end]);
        buffer, offset, chunkIndex := buffer[n.advance..], offset + n.advance, chunkIndex + 1;
        out := out + [chunk];
        ghost var d := Drain(policy, Current(), final);
        assert emitted + ([chunk] + d.out) == out + d.out;
      }
      DrainNothing(policy, Current(), final);
      assert out + [] == out;
    }

    /** One slice that fills the buffer, or all there is, drained. */
    method PushSlice(slice: seq<Unit>, ghost rest: seq<Unit>) returns (out: seq<Chunk>, fault: Option<Fault>)
      requires Valid() && |buffer| < policy.max + 2
      requires rest != [] && slice == rest[..Min(|rest|, policy.max + 2 - |buffer|)]
      modifies this`buffer, this`offset, this`chunkIndex, this`highWater
      ensures highWater <= policy.max + 2 && (fault.None? ==> |buffer| < policy.max + 2)
      ensures highWater == Max(old(highWater), |old(buffer)| + |slice|)
      ensures fault.Some? ==> Push(policy, old(Current()), rest) == Drained(Current(), out, fault)
      ensures fault.None? ==>
        var more := Push(policy, Current(), rest[|slice|..]);
        Push(policy, old(Current()), rest) == Drained(more.state, out + more.out, more.fault)
    {
      hide Next, Drain, Push, ValidPolicy;
      PushOne(policy, Current(), rest);
      buffer := buffer + slice;
      highWater := Max(highWater, |buffer|);
      out, fault := DrainBuffer(false);
    }

    /** Slices that fill the buffer, drained one by one. */
    method PushSlices(fragment: seq<Unit>) returns (out: seq<Chunk>, fault: Option<Fault>)
      requires Valid() && |buffer| < policy.max + 2
      modifies this`buffer, this`offset, this`chunkIndex, this`highWater
      ensures highWater <= policy.max + 2 && (fault.None? ==> |buffer| < policy.max + 2)
      ensures Push(policy, old(Current()), fragment) == Drained(Current(), out, fault)
    {
      hide Next, Drain, Push, ValidPolicy;
      out := [];
      ghost var start := Current();
      var cursor := 0;
      assert fragment[0..] == fragment;
      while cursor < |fragment|
        invariant cursor <= |fragment|
        invariant |buffer| < policy.max + 2 && highWater <= policy.max + 2
        invariant var d := Push(policy, Current(), fragment[cursor..]);
          Push(policy, start, fragment) == Drained(d.state, out + d.out, d.fault)
        decreases |fragment| - cursor
      {
        ghost var emitted, rest := out, fragment[cursor..];
        var count := Min(|fragment| - cursor, policy.max + 2 - |buffer|);
        assert rest[..count] == fragment[cursor..cursor + count];
        assert rest[count..] == fragment[cursor + count..];
        var chunks, problem := PushSlice(fragment[cursor..cursor + count], rest);
        cursor := cursor + count;
        out := out + chunks;
        if problem.Some? {
          return out, problem;
        }
        ghost var d := Push(policy, Current(), fragment[cursor..]);
        assert emitted + (chunks + d.out) == out + d.out;
      }
      assert fragment[cursor..] == [];
      PushNothing(policy, Current());
      assert out + [] == out;
      return out, None;
    }

    method PushFragment(fragment: seq<Unit>) returns (out: seq<Chunk>, fault: Option<Fault>)
      requires Valid() && !failed
      modifies this
      ensures Valid() && finished == old(finished) && failed == fault.Some?
      ensures old(finished) ==> out == [] && fault == Some(AlreadyFinished) && Current() == old(Current())
      ensures !old(finished) && |fragment| > 65536 ==> out == [] && fault == Some(FragmentTooLong) && Current() == old(Current())
      ensures !old(finished) && |fragment| <= 65536 ==>
        Push(policy, old(Current()), fragment) == Drained(Current(), out, fault)
    {
      hide Push, ValidPolicy;
      if finished {
        failed := true;
        return [], Some(AlreadyFinished);
      }
      if |fragment| > MAX_FRAGMENT {
        failed := true;
        return [], Some(FragmentTooLong);
      }
      out, fault := PushSlices(fragment);
      failed := fault.Some?;
    }

    method Finish() returns (out: seq<Chunk>, fault: Option<Fault>)
      requires Valid() && !failed
      modifies this
      ensures Valid() && finished && failed == fault.Some?
      ensures old(finished) ==> out == [] && fault == Some(AlreadyFinished) && Current() == old(Current())
      ensures !old(finished) ==> Drain(policy, old(Current()), true) == Drained(Current(), out, fault)
    {
      if finished {
        failed := true;
        return [], Some(AlreadyFinished);
      }
      finished := true;
      out, fault := DrainBuffer(true);
      failed := fault.Some?;
    }
  }

  // ----- independence from fragmentation -----

  lemma ChunksOne(p: Policy, rest: seq<Unit>, offset: nat, index: nat)
    requires ValidPolicy(p)
    ensures Chunks(p, rest, offset, index) ==
      if rest == [] then Outcome([], None)
      else
        var s := Next(p, Window(p, rest), offset);
        if s.StepFault? then Outcome([], Some(s.fault))
        else Prepend(Chunk(index, offset, offset + s.end, rest[..s.end]), Chunks(p, rest[s.advance..], offset + s.advance, index + 1))
  {
    hide Next, ValidPolicy;
  }

  function AfterStep(p: Policy, s: State): State
    requires ValidPolicy(p) && s.buffer != [] && Next(p, s.buffer, s.offset).Step?
  {
    var n := Next(p, s.buffer, s.offset);
    State(s.buffer[n.advance..], s.offset + n.advance, s.index + 1)
  }

  function Emitted(p: Policy, s: State): Chunk
    requires ValidPolicy(p) && s.buffer != [] && Next(p, s.buffer, s.offset).Step?
  {
    var n := Next(p, s.buffer, s.offset);
    Chunk(s.index, s.offset, s.offset + n.end, s.buffer[..n.end])
  }

  lemma DrainOne(p: Policy, s: State, final: bool)
    requires ValidPolicy(p) && (|s.buffer| >= p.max + 2 || (final && s.buffer != []))
    ensures Drain(p, s, final) ==
      if Next(p, s.buffer, s.offset).StepFault? then Drained(s, [], Some(Next(p, s.buffer, s.offset).fault))
      else
        var d := Drain(p, AfterStep(p, s), final);
        Drained(d.state, [Emitted(p, s)] + d.out, d.fault)
  {
    hide Next;
  }

  /** A window the buffer has filled is the window the whole source shows, so
      draining early emits what the source as a whole would. */
  lemma {:induction false} DrainIsPrefix(p: Policy, s: State, future: seq<Unit>)
    requires ValidPolicy(p) && |s.buffer| <= p.max + 2
    ensures var d := Drain(p, s, false);
      Chunks(p, s.buffer + future, s.offset, s.index) ==
      if d.fault.Some? then Outcome(d.out, d.fault)
      else Cat(d.out, Chunks(p, d.state.buffer + future, d.state.offset, d.state.index))
    decreases |s.buffer|
  {
    var whole := s.buffer + future;
    if |s.buffer| < p.max + 2 {
      hide Next, Chunks, ValidPolicy;
      var o := Chunks(p, whole, s.offset, s.index);
      assert [] + o.chunks == o.chunks;
    } else {
      hide Next, Chunks, Drain;
      DrainOne(p, s, false);
      assert Window(p, whole) == s.buffer;
      ChunksOne(p, whole, s.offset, s.index);
      var n := Next(p, s.buffer, s.offset);
      if n.Step? {
        var rest := AfterStep(p, s);
        assert whole[n.advance..] == rest.buffer + future;
        assert whole[..n.end] == s.buffer[..n.end];
        DrainIsPrefix(p, rest, future);
        var d := Drain(p, rest, false);
        if d.fault.None? {
          var o := Chunks(p, d.state.buffer + future, d.state.offset, d.state.index);
          assert [Emitted(p, s)] + (d.out + o.chunks) == [Emitted(p, s)] + d.out + o.chunks;
        }
      }
    }
  }

  lemma {:induction false} FinishIsChunks(p: Policy, s: State)
    requires ValidPolicy(p) && |s.buffer| < p.max + 2
    ensures var d := Drain(p, s, true); Chunks(p, s.buffer, s.offset, s.index) == Outcome(d.out, d.fault)
    decreases |s.buffer|
  {
    hide Next, Chunks, Drain, ValidPolicy;
    ChunksOne(p, s.buffer, s.offset, s.index);
    if s.buffer == [] {
      DrainNothing(p, s, true);
    } else {
      DrainOne(p, s, true);
      assert Window(p, s.buffer) == s.buffer;
      if Next(p, s.buffer, s.offset).Step? {
        FinishIsChunks(p, AfterStep(p, s));
      }
    }
  }

  lemma {:induction false} PushIsPrefix(p: Policy, s: State, fragment: seq<Unit>, future: seq<Unit>)
    requires ValidPolicy(p) && |s.buffer| < p.max + 2
    ensures var d := Push(p, s, fragment);
      Chunks(p, s.buffer + (fragment + future), s.offset, s.index) ==
      if d.fault.Some? then Outcome(d.out, d.fault)
      else Cat(d.out, Chunks(p, d.state.buffer + future, d.state.offset, d.state.index))
    decreases |fragment|
  {
    hide Chunks, Drain, Push, ValidPolicy;
    if fragment == [] {
      PushNothing(p, s);
      assert [] + future == future;
      var o := Chunks(p, s.buffer + future, s.offset, s.index);
      assert [] + o.chunks == o.chunks;
    } else {
      PushOne(p, s, fragment);
      var count := Min(|fragment|, p.max + 2 - |s.buffer|);
      var filled := s.(buffer := s.buffer + fragment[..count]);
      var rest := fragment[count..] + future;
      assert s.buffer + (fragment + future) == filled.buffer + rest;
      DrainIsPrefix(p, filled, rest);
      var d := Drain(p, filled, false);
      if d.fault.None? {
        PushIsPrefix(p, d.state, fragment[count..], future);
        var more := Push(p, d.state, fragment[count..]);
        if more.fault.None? {
          var o := Chunks(p, more.state.buffer + future, more.state.offset, more.state.index);
          assert d.out + (more.out + o.chunks) == d.out + more.out + o.chunks;
        }
      }
    }
  }

  /** However a source is split into fragments, the chunks and the failure, if any,
      are those of the whole source. */
  lemma {:induction false} FragmentationIndependence(p: Policy, s: State, fragments: seq<seq<Unit>>)
    requires ValidPolicy(p) && |s.buffer| < p.max + 2
    ensures Run(p, s, fragments) == Chunks(p, s.buffer + Flatten(fragments), s.offset, s.index)
    decreases |fragments|
  {
    hide Chunks, Drain, Push;
    if fragments == [] {
      assert s.buffer + [] == s.buffer;
      FinishIsChunks(p, s);
    } else {
      PushIsPrefix(p, s, fragments[0], Flatten(fragments[1..]));
      var d := Push(p, s, fragments[0]);
      if d.fault.None? {
        FragmentationIndependence(p, d.state, fragments[1..]);
      }
    }
  }

  /** Whole texts go through the chunker in fragments of the largest size. */
  method ChunkText(text: seq<Unit>, p: Policy, offsetBase: nat) returns (o: Outcome)
    requires ValidPolicy(p)
    ensures o == Chunks(p, text, offsetBase, 0)
  {
    hide Chunks, Push, Drain, Next;
    var chunker := new StructuralChunker(p, offsetBase);
    var at := 0;
    var out: seq<Chunk> := [];
    assert [] + text == text[0..] == text;
    assert [] + Chunks(p, text, offsetBase, 0).chunks == Chunks(p, text, offsetBase, 0).chunks;
    while at < |text|
      invariant at <= |text| && chunker.Valid() && !chunker.failed && !chunker.finished
      invariant fresh(chunker) && chunker.policy == p
      invariant Chunks(p, text, offsetBase, 0) ==
        Cat(out, Chunks(p, chunker.buffer + text[at..], chunker.offset, chunker.chunkIndex))
      decreases |text| - at
    {
      var end := Min(at + MAX_FRAGMENT, |text|);
      ghost var before := chunker.Current();
      PushIsPrefix(p, before, text[at..end], text[end..]);
      assert text[at..] == text[at..end] + text[end..];
      var chunks, fault := chunker.PushFragment(text[at..end]);
      ghost var emitted := out;
      out := out + chunks;
      if fault.Some? {
        return Outcome(out, fault);
      }
      ghost var tail := Chunks(p, chunker.buffer + text[end..], chunker.offset, chunker.chunkIndex);
      assert emitted + (chunks + tail.chunks) == out + tail.chunks;
      at := end;
    }
    assert chunker.buffer + text[at..] == chunker.buffer;
    FinishIsChunks(p, chunker.Current());
    var chunks, fault := chunker.Finish();
    return Outcome(out + chunks, fault);
  }
}
