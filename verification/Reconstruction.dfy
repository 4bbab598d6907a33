/** `reconstructThinkingReceipts` of packages/providers/src/reasoning.ts: receipts rebuilt
    from the retained transport segments, against the receipts the live run wrote. */
module Reconstruction {
  import opened Common
  import opened Utf16
  import opened Normalizer
  import opened Receipts
  import Sse
  import TextStream
  import Utf8

  const REPLAY_BYTES := 8388608

  /** The bytes of a retained transport segment. */
  type Segment = seq<Utf8.Byte>

  /** What segments come to: items, the framing decoder's state, and what the text decoder
      holds of an unfinished character. */
  datatype Fed = Fed(items: seq<Item>, state: Sse.State, held: TextStream.Held, fault: bool)

  function Parsed(records: seq<Sse.Record>, parse: Sse.Record -> Data): (r: seq<Item>)
    ensures |r| == |records| && forall k :: 0 <= k < |r| ==> r[k] == Rec(parse(records[k]))
  {
    if records == [] then [] else [Rec(parse(records[0]))] + Parsed(records[1..], parse)
  }

  /** Segments as the chunks and records the normalizer sees; `parse` is what JSON parsing
      and shape checks make of a framed record. A segment that does not decode gives none. */
  function Feed(s: Sse.State, h: TextStream.Held, segments: seq<Segment>, final: bool, parse: Sse.Record -> Data): Fed
    decreases |segments|
  {
    if segments == [] then Fed([], s, h, false)
    else
      var last := final && |segments| == 1;
      var t := TextStream.Chunk(h, segments[0], !last);
      if t.Fault? then Fed([Chunk(|segments[0]|)], s, h, true)
      else
        var d := Sse.PushAll(s, [t.text], last);
        var here := [Chunk(|segments[0]|)] + Parsed(d.records, parse);
        if d.fault.Some? then Fed(here, d.state, t.held, true)
        else
          var rest := Feed(d.state, t.held, segments[1..], final, parse);
          Fed(here + rest.items, rest.state, rest.held, rest.fault)
  }

  function FeedAll(segments: seq<Segment>, final: bool, parse: Sse.Record -> Data): Fed {
    Feed(Sse.START, TextStream.NOTHING, segments, final, parse)
  }

  /** A block the replay has seen close, and how much had been retained by then. */
  datatype Closed = Closed(index: nat, start: nat, end: nat, block: Block, segments: nat, bytes: nat)

  function Collect(closed: seq<Closed>, events: seq<Event>, segments: nat, bytes: nat): seq<Closed>
    decreases |events|
  {
    if events == [] then closed
    else
      var e := events[0];
      Collect(if e.Reasoning? then closed + [Closed(e.index, e.start, e.end, e.block, segments, bytes)] else closed, events[1..], segments, bytes)
  }

  datatype Replayed = Replayed(stream: State, closed: seq<Closed>) | Broken

  ghost function Replay(s: State, closed: seq<Closed>, segments: nat, bytes: nat, items: seq<Item>, parses: Text -> bool): Replayed
    decreases |items|
  {
    if items == [] then Replayed(s, closed)
    else
      match items[0]
      case Chunk(n) => Replay(s, closed, segments + 1, bytes + n, items[1..], parses)
      case Rec(data) =>
        var one := Accept(s, data, parses);
        if one.Rejected? then Broken
        else Replay(one.state, Collect(closed, one.events, segments, bytes), segments, bytes, items[1..], parses)
  }

  function Size(segments: seq<Segment>): nat {
    if segments == [] then 0 else Size(segments[..|segments| - 1]) + |segments[|segments| - 1]|
  }

  function Spent(closed: seq<Closed>): nat {
    if closed == [] then 0 else Spent(closed[..|closed| - 1]) + BlockBytes(closed[|closed| - 1].block)
  }

  /** Bounds on the rebuilt blocks: each within its size, all within the total, no index twice. */
  predicate Within(closed: seq<Closed>) {
    closed == [] ||
    (var front, last := closed[..|closed| - 1], closed[|closed| - 1];
     && Within(front) && BlockBytes(last.block) <= BLOCK_BYTES
     && (forall c :: c in front ==> c.index != last.index) && Spent(closed) <= REASONING_TOTAL)
  }

  function ReceiptFor(names: Names, responseId: Text, model: Option<Text>, c: Closed): Receipt {
    Receipt(names.generation, names.message, responseId, names.model, model, c.index, c.start, c.end, c.segments, c.bytes, c.block)
  }

  function ReceiptsFor(names: Names, responseId: Text, model: Option<Text>, closed: seq<Closed>): (r: seq<Receipt>)
    ensures |r| == |closed| && forall k :: 0 <= k < |r| ==> r[k] == ReceiptFor(names, responseId, model, closed[k])
  {
    if closed == [] then []
    else ReceiptsFor(names, responseId, model, closed[..|closed| - 1]) + [ReceiptFor(names, responseId, model, closed[|closed| - 1])]
  }

  datatype Problem = TooLong | Failed | Incomplete | OutOfBounds

  datatype Rebuilt = Rebuilt(receipts: seq<Receipt>) | Refusal(problem: Problem)

  ghost function Reconstructed(names: Names, segments: seq<Segment>, parse: Sse.Record -> Data, parses: Text -> bool): Rebuilt {
    var fed := FeedAll(segments, true, parse);
    var run := Replay(START, [], 0, 0, fed.items, parses);
    if Size(segments) > REPLAY_BYTES then Refusal(TooLong)
    else if run.Broken? || fed.fault then Refusal(Failed)
    else if !run.stream.ended || run.stream.responseId.None? || run.stream.responseId.value == [] then Refusal(Incomplete)
    else if !Within(run.closed) then Refusal(OutOfBounds)
    else Rebuilt(ReceiptsFor(names, run.stream.responseId.value, run.stream.model, run.closed))
  }

  // ----- the loops -----

  lemma SizeMore(segments: seq<Segment>, k: nat)
    requires k < |segments|
    ensures Size(segments[..k + 1]) == Size(segments[..k]) + |segments[k]|
  {
    assert segments[..k + 1][..k] == segments[..k];
  }

  lemma {:induction false} SizeGrows(segments: seq<Segment>, k: nat)
    requires k <= |segments|
    ensures Size(segments[..k]) <= Size(segments)
    decreases |segments| - k
  {
    if k < |segments| {
      SizeMore(segments, k);
      SizeGrows(segments, k + 1);
    } else {
      assert segments[..k] == segments;
    }
  }

  method TooMuch(segments: seq<Segment>) returns (over: bool)
    ensures over == (Size(segments) > REPLAY_BYTES)
  {
    hide Size;
    var total := 0;
    assert segments[..0] == [] && Size([]) == 0 by { NoSize(); }
    for at := 0 to |segments|
      invariant total == Size(segments[..at])
    {
      SizeMore(segments, at);
      total := total + |segments[at]|;
      if total > REPLAY_BYTES {
        SizeGrows(segments, at + 1);
        return true;
      }
      assert total <= REPLAY_BYTES;
    }
    assert segments[..|segments|] == segments;
    return total > REPLAY_BYTES;
  }

  lemma NoSize()
    ensures Size([]) == 0
  {
  }

  method CollectBlocks(before: seq<Closed>, events: seq<Event>, segments: nat, bytes: nat) returns (closed: seq<Closed>)
    ensures closed == Collect(before, events, segments, bytes)
  {
    closed := before;
    for i := 0 to |events|
      invariant Collect(before, events, segments, bytes) == Collect(closed, events[i..], segments, bytes)
    {
      var e := events[i];
      assert events[i..][1..] == events[i + 1..];
      if e.Reasoning? {
        closed := closed + [Closed(e.index, e.start, e.end, e.block, segments, bytes)];
      }
    }
  }

  lemma ReplayOne(s: State, closed: seq<Closed>, segments: nat, bytes: nat, data: Data, items: seq<Item>, parses: Text -> bool)
    ensures Replay(s, closed, segments, bytes, [Rec(data)] + items, parses) ==
      var one := Accept(s, data, parses);
      if one.Rejected? then Broken
      else Replay(one.state, Collect(closed, one.events, segments, bytes), segments, bytes, items, parses)
  {
    hide Accept, Collect;
    assert ([Rec(data)] + items)[1..] == items;
  }

  lemma ReplayChunk(s: State, closed: seq<Closed>, segments: nat, bytes: nat, n: nat, items: seq<Item>, parses: Text -> bool)
    ensures Replay(s, closed, segments, bytes, [Chunk(n)] + items, parses) == Replay(s, closed, segments + 1, bytes + n, items, parses)
  {
    assert ([Chunk(n)] + items)[1..] == items;
  }

  lemma ReplayDone(s: State, closed: seq<Closed>, segments: nat, bytes: nat, parses: Text -> bool)
    ensures Replay(s, closed, segments, bytes, [], parses) == Replayed(s, closed)
  {
  }

  /** The records of one segment, through the normalizer. */
  method TakeAll(stream: Stream, before: seq<Closed>, segments: nat, bytes: nat, records: seq<Sse.Record>,
                 parse: Sse.Record -> Data, ghost rest: seq<Item>)
    returns (ok: bool, closed: seq<Closed>)
    modifies stream
    ensures ok ==>
      Replay(old(stream.Current()), before, segments, bytes, Parsed(records, parse) + rest, stream.parses)
      == Replay(stream.Current(), closed, segments, bytes, rest, stream.parses)
    ensures !ok ==> Replay(old(stream.Current()), before, segments, bytes, Parsed(records, parse) + rest, stream.parses).Broken?
  {
    hide Replay, Accept, Collect, Parsed;
    closed := before;
    ghost var all := Parsed(records, parse);
    assert all[0..] + rest == all + rest;
    for i := 0 to |records|
      invariant Replay(old(stream.Current()), before, segments, bytes, all + rest, stream.parses)
                == Replay(stream.Current(), closed, segments, bytes, all[i..] + rest, stream.parses)
    {
      var data := parse(records[i]);
      assert all[i..] + rest == [Rec(data)] + (all[i + 1..] + rest);
      ReplayOne(stream.Current(), closed, segments, bytes, data, all[i + 1..] + rest, stream.parses);
      var took, events := stream.Take(data);
      if !took {
        return false, closed;
      }
      closed := CollectBlocks(closed, events, segments, bytes);
    }
    assert all[|records|..] + rest == rest;
    return true, closed;
  }

  lemma FeedOne(s: Sse.State, h: TextStream.Held, segments: seq<Segment>, final: bool, parse: Sse.Record -> Data)
    requires segments != []
    ensures Feed(s, h, segments, final, parse) ==
      var last := final && |segments| == 1;
      var t := TextStream.Chunk(h, segments[0], !last);
      if t.Fault? then Fed([Chunk(|segments[0]|)], s, h, true)
      else
        var d := Sse.PushAll(s, [t.text], last);
        var here := [Chunk(|segments[0]|)] + Parsed(d.records, parse);
        if d.fault.Some? then Fed(here, d.state, t.held, true)
        else
          var rest := Feed(d.state, t.held, segments[1..], final, parse);
          Fed(here + rest.items, rest.state, rest.held, rest.fault)
  {
    hide TextStream.Chunk, Sse.PushAll, Parsed;
  }

  /** All segments, through decoders and normalizer. */
  method ReplayAll(segments: seq<Segment>, parse: Sse.Record -> Data, parses: Text -> bool)
    returns (ok: bool, closed: seq<Closed>, stream: Stream)
    ensures fresh(stream)
    ensures var fed := FeedAll(segments, true, parse);
      var run := Replay(START, [], 0, 0, fed.items, parses);
      if ok then run == Replayed(stream.Current(), closed) && !fed.fault else run.Broken? || fed.fault
  {
    hide Feed, Replay, Parsed, Sse.PushAll, TextStream.Chunk;
    stream := new Stream(parses);
    var decoder := new Sse.SSEDecoder();
    var held := TextStream.NOTHING;
    var seen: nat, bytes: nat := 0, 0;
    closed := [];
    ghost var fed := FeedAll(segments, true, parse);
    assert segments[0..] == segments;
    for at := 0 to |segments|
      invariant stream.parses == parses && fresh(stream) && fresh(decoder)
      invariant var left := Feed(decoder.Current(), held, segments[at..], true, parse);
        && Replay(START, [], 0, 0, fed.items, parses) == Replay(stream.Current(), closed, seen, bytes, left.items, parses)
        && left.fault == fed.fault
    {
      ghost var left := Feed(decoder.Current(), held, segments[at..], true, parse);
      var final := at == |segments| - 1;
      FeedOne(decoder.Current(), held, segments[at..], true, parse);
      assert segments[at..][1..] == segments[at + 1..];
      var text := TextStream.Chunk(held, segments[at], !final);
      if text.Fault? {
        return false, closed, stream;
      }
      held := text.held;
      var records, fault := decoder.PushText(text.text, final);
      ghost var rest := if fault.Some? then [] else Feed(decoder.Current(), held, segments[at + 1..], true, parse).items;
      assert left.items == [Chunk(|segments[at]|)] + (Parsed(records, parse) + rest);
      ReplayChunk(stream.Current(), closed, seen, bytes, |segments[at]|, Parsed(records, parse) + rest, parses);
      seen, bytes := seen + 1, bytes + |segments[at]|;
      ok, closed := TakeAll(stream, closed, seen, bytes, records, parse, rest);
      if !ok {
        return;
      }
      if fault.Some? {
        ok := false;
        return;
      }
    }
    assert segments[|segments|..] == [];
    FeedNone(decoder.Current(), held, true, parse);
    ReplayDone(stream.Current(), closed, seen, bytes, parses);
    ok := true;
  }

  lemma FeedNone(s: Sse.State, h: TextStream.Held, final: bool, parse: Sse.Record -> Data)
    ensures Feed(s, h, [], final, parse) == Fed([], s, h, false)
  {
  }

  lemma WithinMore(closed: seq<Closed>, k: nat)
    requires k < |closed|
    ensures Within(closed[..k + 1]) ==
      (Within(closed[..k]) && BlockBytes(closed[k].block) <= BLOCK_BYTES
       && (forall c :: c in closed[..k] ==> c.index != closed[k].index) && Spent(closed[..k + 1]) <= REASONING_TOTAL)
    ensures Spent(closed[..k + 1]) == Spent(closed[..k]) + BlockBytes(closed[k].block)
  {
    assert closed[..k + 1][..k] == closed[..k];
  }

  lemma {:induction false} WithinPrefix(closed: seq<Closed>, k: nat)
    requires k <= |closed| && Within(closed)
    ensures Within(closed[..k])
    decreases |closed| - k
  {
    hide Within, Spent;
    if k == |closed| {
      assert closed[..k] == closed;
    } else {
      WithinPrefix(closed, k + 1);
      WithinMore(closed, k);
    }
  }

  lemma NothingWithin()
    ensures Within([]) && Spent([]) == 0
  {
  }

  method Reconstruct(names: Names, segments: seq<Segment>, parse: Sse.Record -> Data, parses: Text -> bool) returns (result: Rebuilt)
    ensures result == Reconstructed(names, segments, parse, parses)
  {
    hide Feed, Replay, Size, Within, Spent, ReceiptsFor, BlockBytes;
    var over := TooMuch(segments);
    if over {
      return Refusal(TooLong);
    }
    var ok, closed, stream := ReplayAll(segments, parse, parses);
    if !ok {
      return Refusal(Failed);
    }
    if !stream.ended || stream.responseId.None? || stream.responseId.value == [] {
      return Refusal(Incomplete);
    }
    var receipts := Finish(names, stream.responseId.value, stream.model, closed);
    return if receipts.Some? then Rebuilt(receipts.value) else Refusal(OutOfBounds);
  }

  method Finish(names: Names, responseId: Text, model: Option<Text>, closed: seq<Closed>) returns (receipts: Option<seq<Receipt>>)
    ensures receipts == if Within(closed) then Some(ReceiptsFor(names, responseId, model, closed)) else None
  {
    hide Within, Spent, BlockBytes;
    var seen: set<nat>, bytes, built := {}, 0, [];
    NothingWithin();
    assert closed[..0] == [];
    for at := 0 to |closed|
      invariant Within(closed[..at]) && bytes == Spent(closed[..at])
      invariant forall i :: i in seen <==> exists c :: c in closed[..at] && c.index == i
      invariant built == ReceiptsFor(names, responseId, model, closed[..at])
    {
      WithinMore(closed, at);
      var c := closed[at];
      var size := BlockBytes(c.block);
      assert closed[..at + 1] == closed[..at] + [c];
      assert closed[..at + 1][..at] == closed[..at];
      bytes := bytes + size;
      if size > BLOCK_BYTES || c.index in seen || bytes > REASONING_TOTAL {
        if Within(closed) {
          WithinPrefix(closed, at + 1);
        }
        return None;
      }
      seen := seen + {c.index};
      built := built + [ReceiptFor(names, responseId, model, c)];
    }
    assert closed[..|closed|] == closed;
    return Some(built);
  }

  // ----- agreement with the live run -----

  /** The loop's receipts are the replayed blocks, stamped with the live names. */
  ghost predicate Mirrors(names: Names, g: Loop, closed: seq<Closed>) {
    && |g.receipts| == |closed| && (closed != [] ==> g.responseId.Some?)
    && (forall k :: 0 <= k < |closed| ==> g.receipts[k] == ReceiptFor(names, g.responseId.value, g.returnedModel, closed[k]))
    && Within(closed) && Spent(closed) == g.reasoningBytes
    && (forall c :: c in closed ==> c.index in g.indexes)
  }

  lemma {:induction false} QuietCollects(closed: seq<Closed>, events: seq<Event>, segments: nat, bytes: nat)
    requires QuietAll(events)
    ensures Collect(closed, events, segments, bytes) == closed
    decreases |events|
  {
    if events != [] {
      assert Quiet(events[0]);
      QuietCollects(closed, events[1..], segments, bytes);
    }
  }

  lemma CollectFirst(closed: seq<Closed>, events: seq<Event>, segments: nat, bytes: nat)
    requires events != []
    ensures Collect(closed, events, segments, bytes) ==
      var e := events[0];
      Collect(if e.Reasoning? then closed + [Closed(e.index, e.start, e.end, e.block, segments, bytes)] else closed, events[1..], segments, bytes)
  {
  }

  lemma CollectNone(closed: seq<Closed>, segments: nat, bytes: nat)
    ensures Collect(closed, [], segments, bytes) == closed
  {
  }

  /** What a step adds to the replayed blocks. */
  lemma EffectCollects(held: map<nat, Capture>, t: State, closed: seq<Closed>, events: seq<Event>, effect: Effect, segments: nat, bytes: nat)
    requires Shows(held, t, events, effect)
    ensures Collect(closed, events, segments, bytes) ==
      if effect.Closes? then closed + [Closed(effect.index, held[effect.index].start, t.records, held[effect.index].block, segments, bytes)]
      else closed
  {
    hide Collect, QuietAll;
    CollectNone(closed, segments, bytes);
    match effect
    case Opens(_, _) =>
      CollectFirst(closed, events, segments, bytes);
      CollectFirst(closed, events[1..], segments, bytes);
    case Closes(index) =>
      CollectFirst(closed, events, segments, bytes);
      CollectNone(closed + [Closed(index, held[index].start, t.records, held[index].block, segments, bytes)], segments, bytes);
    case Begins(_, _) =>
      CollectFirst(closed, events, segments, bytes);
      QuietCollects(closed, events[1..], segments, bytes);
    case LooksAlike(_) => CollectFirst(closed, events, segments, bytes);
    case Grows(_, _, _) => QuietCollects(closed, events, segments, bytes);
    case Nothing => QuietCollects(closed, events, segments, bytes);
  }

  lemma MirrorsStep(names: Names, s: State, t: State, g: Loop, h: Loop, closed: seq<Closed>, effect: Effect)
    requires Joined(names, s, g) && Mirrors(names, g, closed) && Moves(s, t, effect) && Stores(names, s.reasoning, t.records, g, h, effect)
    ensures Mirrors(names, h, if effect.Closes? then closed + [Closed(effect.index, s.reasoning[effect.index].start, t.records,
                                                                       s.reasoning[effect.index].block, g.rawCount, g.rawBytes)] else closed)
  {
    hide Relevant, BlockBytes, Within, Spent, Ledger, Counted;
    if effect.Closes? {
      var c := Closed(effect.index, s.reasoning[effect.index].start, t.records, s.reasoning[effect.index].block, g.rawCount, g.rawBytes);
      WithinMore(closed + [c], |closed|);
      assert (closed + [c])[..|closed|] == closed && (closed + [c])[..|closed| + 1] == closed + [c];
    }
  }

  /** The replay of what a live run saw closes the same blocks at the same places. */
  lemma {:induction false} PlayMirrors(names: Names, s: State, g: Loop, closed: seq<Closed>, items: seq<Item>, parses: Text -> bool)
    requires Joined(names, s, g) && Mirrors(names, g, closed)
    requires g.rawCount > 0 || (items != [] ==> items[0].Chunk?)
    requires Play(names, s, g, items, parses).Live?
    ensures var l := Play(names, s, g, items, parses);
      var r := Replay(s, closed, g.rawCount, g.rawBytes, items, parses);
      r.Replayed? && r.stream == l.stream && Joined(names, l.stream, l.loop) && Mirrors(names, l.loop, r.closed)
    decreases |items|
  {
    hide Joined, Accept, HandleAll, Stores, Mirrors, EffectOf, Moves, Shows, Collect;
    if items != [] {
      match items[0]
      case Chunk(bytes) =>
        ChunkJoined(names, s, g, bytes);
        ChunkMirrors(names, g, closed, bytes);
        PlayMirrors(names, s, StoreChunk(g, bytes), closed, items[1..], parses);
      case Rec(data) =>
        var one := Accept(s, data, parses);
        var effect := EffectOf(s, data);
        StepIsStored(names, s, g, data, parses);
        assert Ledger(s) by { JoinedLedger(names, s, g); }
        AcceptShows(s, data, parses);
        var h := HandleAll(names, g, one.events).value;
        StoresKeepsRaw(names, s.reasoning, one.state.records, g, h, effect);
        EffectCollects(s.reasoning, one.state, closed, one.events, effect, g.rawCount, g.rawBytes);
        MirrorsStep(names, s, one.state, g, h, closed, effect);
        PlayMirrors(names, one.state, h, Collect(closed, one.events, g.rawCount, g.rawBytes), items[1..], parses);
    }
  }

  lemma JoinedLedger(names: Names, s: State, g: Loop)
    requires Joined(names, s, g)
    ensures Ledger(s)
  {
  }

  lemma ChunkMirrors(names: Names, g: Loop, closed: seq<Closed>, bytes: nat)
    requires Mirrors(names, g, closed)
    ensures Mirrors(names, StoreChunk(g, bytes), closed)
  {
    hide Within, Spent;
  }

  lemma NothingMirrored(names: Names)
    ensures Mirrors(names, Begin(names), [])
  {
  }

  /** Telling the decoders that the last segment is final changes nothing but the checks that
      no record and no character is unfinished: the latter loses the segment's records. */
  lemma {:induction false} FeedFinal(s: Sse.State, h: TextStream.Held, segments: seq<Segment>, final: bool, parse: Sse.Record -> Data)
    requires !Feed(s, h, segments, final, parse).fault && segments != []
    ensures var live, again := Feed(s, h, segments, final, parse), Feed(s, h, segments, true, parse);
      && (again.fault <==> live.held.bytes != [] || live.state.line != [] || live.state.fields.data != [])
      && (live.held.bytes == [] ==> again.items == live.items && again.state == live.state)
    decreases |segments|
  {
    hide Sse.PushAll, Parsed, TextStream.Chunk, Feed;
    FeedOne(s, h, segments, final, parse);
    FeedOne(s, h, segments, true, parse);
    var last := final && |segments| == 1;
    var t := TextStream.Chunk(h, segments[0], !last);
    var d := Sse.PushAll(s, [t.text], last);
    if |segments| > 1 {
      FeedFinal(d.state, t.held, segments[1..], final, parse);
    } else {
      assert segments[1..] == [];
      FeedNone(d.state, t.held, final, parse);
      ChunkFinal(h, segments[0], !last);
      var u := TextStream.Chunk(h, segments[0], false);
      if u.Chunked? {
        FeedNone(d.state, u.held, true, parse);
        PushFinal(s, t.text, last);
      }
    }
  }

  lemma ChunkFinal(h: TextStream.Held, bytes: Segment, stream: bool)
    requires TextStream.Chunk(h, bytes, stream).Chunked?
    ensures var live, again := TextStream.Chunk(h, bytes, stream), TextStream.Chunk(h, bytes, false);
      if live.held.bytes != [] then again.Fault? else again.Chunked? && again.text == live.text
  {
    hide TextStream.Scan;
  }

  lemma PushFinal(s: Sse.State, text: Sse.Text, final: bool)
    requires Sse.PushAll(s, [text], final).fault.None?
    ensures var live, again := Sse.PushAll(s, [text], final), Sse.PushAll(s, [text], true);
      && again.records == live.records && again.state == live.state
      && (again.fault.Some? <==> live.state.line != [] || live.state.fields.data != [])
  {
    hide Sse.Push;
    Sse.PushAllOne(s, text, [], final);
    Sse.PushAllOne(s, text, [], true);
    assert [text] + [] == [text];
  }

  lemma FeedStarts(segments: seq<Segment>, final: bool, parse: Sse.Record -> Data)
    ensures FeedAll(segments, final, parse).items != [] ==> FeedAll(segments, final, parse).items[0].Chunk?
    ensures FeedAll(segments, final, parse).items == [] ==> segments == []
  {
    hide Sse.PushAll, Parsed, TextStream.Chunk;
  }

  lemma LiveEnded(names: Names, s: State, g: Loop)
    requires Joined(names, s, g) && s.started
    ensures s.responseId.Some? && s.responseId.value != [] && g.responseId == s.responseId
    ensures g.returnedModel == if s.model.Some? then s.model else Some(names.model)
  {
  }

  lemma {:induction false} EndedIsStarted(s: State, closed: seq<Closed>, segments: nat, bytes: nat, items: seq<Item>, parses: Text -> bool)
    requires s.ended ==> s.started
    requires Replay(s, closed, segments, bytes, items, parses).Replayed?
    ensures var r := Replay(s, closed, segments, bytes, items, parses); r.stream.ended ==> r.stream.started
    decreases |items|
  {
    hide Accept, Collect;
    if items != [] {
      match items[0]
      case Chunk(n) => EndedIsStarted(s, closed, segments + 1, bytes + n, items[1..], parses);
      case Rec(data) =>
        var one := Accept(s, data, parses);
        OnlyStartedEnds(s, data, parses);
        EndedIsStarted(one.state, Collect(closed, one.events, segments, bytes), segments, bytes, items[1..], parses);
    }
  }

  lemma OnlyStartedEnds(s: State, data: Data, parses: Text -> bool)
    requires (s.ended ==> s.started) && Accept(s, data, parses).Accepted?
    ensures Accept(s, data, parses).state.ended ==> Accept(s, data, parses).state.started
  {
    hide TextEvents, BlockBytes;
  }

  /** Neither a character nor a record is unfinished. */
  predicate BetweenRecords(fed: Fed) { fed.held.bytes == [] && fed.state.line == [] && fed.state.fields.data == [] }

  lemma NothingFed(names: Names, final: bool, parse: Sse.Record -> Data, parses: Text -> bool)
    ensures FeedAll([], final, parse) == Fed([], Sse.START, TextStream.NOTHING, false)
    ensures Play(names, START, Begin(names), [], parses) == Live(START, Begin(names))
    ensures Replay(START, [], 0, 0, [], parses) == Replayed(START, [])
  {
  }

  /** Rebuilding from the segments of any live run gives exactly the receipts it wrote if, and
      only if, the run reached its terminal marker, the segments are at most 8 MiB, the last
      one ends between records and not inside a character, and (when there is a receipt at
      all) the stream named its model: otherwise the live receipt carries the requested model
      and the rebuilt one none. */
  lemma RebuildsIffWhole(names: Names, segments: seq<Segment>, final: bool, parse: Sse.Record -> Data, parses: Text -> bool)
    requires !FeedAll(segments, final, parse).fault
    requires Play(names, START, Begin(names), FeedAll(segments, final, parse).items, parses).Live?
    ensures var fed := FeedAll(segments, final, parse);
      var live := Play(names, START, Begin(names), fed.items, parses);
      Reconstructed(names, segments, parse, parses) == Rebuilt(live.loop.receipts) <==>
        && live.stream.ended && Size(segments) <= 8388608 && BetweenRecords(fed)
        && (live.loop.receipts == [] || live.stream.model.Some?)
  {
    hide Feed, Play, Replay, Size, Within, Spent, Joined, Mirrors, ReceiptsFor;
    var fed := FeedAll(segments, final, parse);
    var live := Play(names, START, Begin(names), fed.items, parses);
    if segments == [] {
      NothingFed(names, final, parse, parses);
      NothingFed(names, true, parse, parses);
    } else {
      FeedStarts(segments, final, parse);
      BeginsJoined(names);
      NothingMirrored(names);
      PlayMirrors(names, START, Begin(names), [], fed.items, parses);
      FeedFinal(Sse.START, TextStream.NOTHING, segments, final, parse);
      if live.stream.ended {
        EndedIsStarted(START, [], 0, 0, fed.items, parses);
        LiveEnded(names, live.stream, live.loop);
        SameReceipts(names, live.stream, live.loop, Replay(START, [], 0, 0, fed.items, parses).closed);
      }
    }
  }

  /** What rebuilding a live run comes to: the first of four checks that fails, or its receipts with
      the model the stream named, if it did, for the one that was requested. */
  lemma RebuildsOrRefuses(names: Names, segments: seq<Segment>, final: bool, parse: Sse.Record -> Data, parses: Text -> bool)
    requires !FeedAll(segments, final, parse).fault
    requires Play(names, START, Begin(names), FeedAll(segments, final, parse).items, parses).Live?
    ensures var fed := FeedAll(segments, final, parse);
      var live := Play(names, START, Begin(names), fed.items, parses);
      var r := Reconstructed(names, segments, parse, parses);
      if Size(segments) > 8388608 then r == Refusal(TooLong)
      else if !BetweenRecords(fed) then r == Refusal(Failed)
      else if !live.stream.ended then r == Refusal(Incomplete)
      else r.Rebuilt? && Remodelled(live.loop.receipts, r.receipts, live.stream.model)
  {
    hide Feed, Play, Replay, Size, Within, Spent, Joined, Mirrors, ReceiptsFor, Remodelled;
    var fed := FeedAll(segments, final, parse);
    var live := Play(names, START, Begin(names), fed.items, parses);
    if segments == [] {
      NothingFed(names, final, parse, parses);
      NothingFed(names, true, parse, parses);
    } else {
      FeedStarts(segments, final, parse);
      BeginsJoined(names);
      NothingMirrored(names);
      PlayMirrors(names, START, Begin(names), [], fed.items, parses);
      FeedFinal(Sse.START, TextStream.NOTHING, segments, final, parse);
      if live.stream.ended {
        EndedIsStarted(START, [], 0, 0, fed.items, parses);
        LiveEnded(names, live.stream, live.loop);
        var closed := Replay(START, [], 0, 0, fed.items, parses).closed;
        SameReceipts(names, live.stream, live.loop, closed);
        RemodelledAre(names, live.stream, live.loop, closed);
      }
    }
  }

  /** The same receipts under another returned model. */
  predicate Remodelled(written: seq<Receipt>, rebuilt: seq<Receipt>, model: Option<Text>) {
    |rebuilt| == |written| && forall k :: 0 <= k < |written| ==> rebuilt[k] == written[k].(returnedModel := model)
  }

  lemma RemodelledAre(names: Names, s: State, g: Loop, closed: seq<Closed>)
    requires Mirrors(names, g, closed) && s.responseId.Some? && g.responseId == s.responseId
    ensures Remodelled(g.receipts, ReceiptsFor(names, s.responseId.value, s.model, closed), s.model)
  {
    hide Within, Spent;
  }

  lemma SameReceipts(names: Names, s: State, g: Loop, closed: seq<Closed>)
    requires Mirrors(names, g, closed) && s.responseId.Some? && g.responseId == s.responseId
    requires g.returnedModel == if s.model.Some? then s.model else Some(names.model)
    ensures Within(closed)
    ensures ReceiptsFor(names, s.responseId.value, s.model, closed) == g.receipts <==> g.receipts == [] || s.model.Some?
  {
    hide Within, Spent;
    var rebuilt := ReceiptsFor(names, s.responseId.value, s.model, closed);
    if closed != [] {
      assert rebuilt[0].returnedModel == s.model && g.receipts[0].returnedModel == g.returnedModel;
    }
  }
}
