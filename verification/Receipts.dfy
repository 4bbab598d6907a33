/** What a live Anthropic generation persists about thinking blocks: the event loop of
    packages/providers/src/generation.ts fed by packages/providers/src/adapter.ts. Text
    parts and their batching are the matter of `Generation`. */
module Receipts {
  import opened Common
  import opened Utf16
  import opened ByteCounts
  import opened Normalizer

  const RAW_KIND := "quixi.provider.raw-stream-chunk"
  const RECEIPT_KIND := "quixi.provider.anthropic-thinking-block"

  /** A stored part; `record` is the N of a locator `generation-stream/record/N`. */
  datatype Content =
    | TextPart
    | MarkerPart(redacted: bool)
    | ArtifactPart(kind: string, record: Option<nat>)
    | OtherPart

  /** One version-1 receipt. */
  datatype Receipt = Receipt(generation: nat, message: nat, responseId: Text, model: Text, returnedModel: Option<Text>,
                             index: nat, start: nat, end: nat, segments: nat, bytes: nat, block: Block)

  /** The run's fixed names: generation, output message and requested model. */
  datatype Names = Names(generation: nat, message: nat, model: Text)

  /** The loop's variables, and what it has stored so far beside text. */
  datatype Loop = Loop(responseId: Option<Text>, returnedModel: Option<Text>, rawCount: nat, rawBytes: nat,
                       reasoningBytes: nat, indexes: set<nat>, parts: seq<Content>, receipts: seq<Receipt>)

  /** The adapter announces the requested model before the first chunk. */
  function Begin(names: Names): Loop { Loop(None, Some(names.model), 0, 0, 0, {}, [], []) }

  predicate SoundBlock(b: Block) {
    match b
    case Thinking(_, signature) => signature != []
    case Redacted(data) => data != []
  }

  /** The loop's own check of a complete block before it writes the receipt. */
  predicate AcceptsBlock(g: Loop, index: nat, start: nat, end: nat, block: Block) {
    && g.responseId.Some? && g.responseId.value != []
    && g.rawCount > 0
    && SoundBlock(block)
    && index < MAX_PARTS && index !in g.indexes
    && 1 <= start < end <= MAX_RECORDS
    && BlockBytes(block) <= BLOCK_BYTES
    && BlockBytes(block) <= REASONING_TOTAL - g.reasoningBytes
  }

  /** One event; None when the loop throws. */
  function Handle(names: Names, g: Loop, e: Event): Option<Loop> {
    match e
    case Metadata(id, model) => Some(g.(responseId := Some(id), returnedModel := if model.Some? then model else g.returnedModel))
    case UsageEvent => Some(g)
    case TextEvent(_, _) => Some(g)
    case Marker(redacted) => Some(g.(parts := g.parts + [MarkerPart(redacted)]))
    case ToolCall(_, _, _) => Some(g.(parts := g.parts + [OtherPart]))
    case Citation => Some(g.(parts := g.parts + [OtherPart]))
    case Artifact(kind, record) =>
      if g.rawCount == 0 then None else Some(g.(parts := g.parts + [ArtifactPart(kind, Some(record))]))
    case Reasoning(index, start, end, block) =>
      if !AcceptsBlock(g, index, start, end, block) then None
      else
        var receipt := Receipt(names.generation, names.message, g.responseId.value, names.model, g.returnedModel,
                               index, start, end, g.rawCount, g.rawBytes, block);
        Some(g.(parts := g.parts + [ArtifactPart(RECEIPT_KIND, None)], receipts := g.receipts + [receipt],
                reasoningBytes := g.reasoningBytes + BlockBytes(block), indexes := g.indexes + {index}))
  }

  function HandleAll(names: Names, g: Loop, events: seq<Event>): Option<Loop>
    decreases |events|
  {
    if events == [] then Some(g)
    else
      var one := Handle(names, g, events[0]);
      if one.None? then None else HandleAll(names, one.value, events[1..])
  }

  /** What reaches the adapter: a transport chunk of some bytes, or a record framed from it. */
  datatype Item = Chunk(bytes: nat) | Rec(data: Data)

  function StoreChunk(g: Loop, bytes: nat): Loop {
    g.(parts := g.parts + [ArtifactPart(RAW_KIND, None)], rawCount := g.rawCount + 1, rawBytes := g.rawBytes + bytes)
  }

  datatype Live = Live(stream: State, loop: Loop) | Refused(byNormalizer: bool)

  /** The live run over chunks and records. */
  ghost function Play(names: Names, s: State, g: Loop, items: seq<Item>, parses: Text -> bool): Live
    decreases |items|
  {
    if items == [] then Live(s, g)
    else
      match items[0]
      case Chunk(bytes) => Play(names, s, StoreChunk(g, bytes), items[1..], parses)
      case Rec(data) =>
        var one := Accept(s, data, parses);
        if one.Rejected? then Refused(true)
        else
          var handled := HandleAll(names, g, one.events);
          if handled.None? then Refused(false) else Play(names, one.state, handled.value, items[1..], parses)
  }

  // ----- the shape of one step -----

  predicate Typed(kind: string) { kind == "thinking" || kind == "redacted_thinking" }

  /** What a record does to thinking blocks. */
  datatype Effect = Opens(index: nat, block: Block) | Grows(index: nat, signature: bool, text: Text) | Closes(index: nat)
                  | Begins(id: Text, model: Option<Text>) | LooksAlike(kind: string) | Nothing

  function EffectOf(s: State, data: Data): Effect {
    match data
    case MessageStart(id, model, _) =>
      var named := Bounded(id, STRING_LIMIT);
      if named.Some? then Begins(named.value, Renamed(s.model, model)) else Nothing
    case BlockStart(index, block) =>
      if index.None? then Nothing
      else (match block
            case ThinkingBlock(thinking, signature) => Opens(index.value, Thinking(thinking, signature))
            case RedactedBlock(opaqueData) => Opens(index.value, Redacted(opaqueData))
            case OtherBlock(kind) => if Typed(kind) then LooksAlike(kind) else Nothing
            case TextBlock(_) => Nothing
            case ToolBlock(_, _) => Nothing
            case MalformedBlock => Nothing)
    case BlockDelta(index, delta) =>
      if index.None? || index.value !in s.blocks then Nothing
      else if s.blocks[index.value].kind in {ThinkingKind, RedactedKind} then
        if delta.ThinkingDelta? && delta.text.Some? then Grows(index.value, false, delta.text.value)
        else if delta.SignatureDelta? && delta.text.Some? then Grows(index.value, true, delta.text.value)
        else Nothing
      else if delta.OtherDelta? && Typed(delta.kind) then LooksAlike(delta.kind)
      else Nothing
    case BlockStop(index) =>
      if index.Some? && index.value in s.blocks && s.blocks[index.value].kind in {ThinkingKind, RedactedKind} then Closes(index.value)
      else Nothing
    case OtherEvent(kind) => if Typed(kind) then LooksAlike(kind) else Nothing
    case Malformed => Nothing
    case Ping => Nothing
    case MessageDelta(_, _) => Nothing
    case MessageStop => Nothing
  }

  function GrownBlock(b: Block, signature: bool, text: Text): Block {
    if b.Redacted? then b
    else if signature then b.(signature := b.signature + text)
    else b.(thinking := b.thinking + text)
  }

  /** Events that leave no thinking evidence. */
  predicate Quiet(e: Event) { !e.Metadata? && !e.Marker? && !e.Reasoning? && (e.Artifact? ==> !Typed(e.kind)) }

  predicate QuietAll(events: seq<Event>) { forall e :: e in events ==> Quiet(e) }

  /** The state's captures, closed blocks and names after a step with this effect. */
  ghost predicate Moves(s: State, t: State, effect: Effect) {
    && t.records == s.records + 1
    && (forall i :: i in s.blocks && s.blocks[i].closed ==> i in t.blocks && t.blocks[i].closed)
    && (forall i :: i in s.blocks ==> i in t.blocks)
    && match effect
       case Opens(index, block) =>
         && index !in s.blocks && s.started && t.started && t.responseId == s.responseId && t.model == s.model
         && index in t.reasoning && t.reasoning[index].block == block && t.reasoning[index].start == t.records
         && t.reasoning - {index} == s.reasoning && index in t.blocks
       case Grows(index, signature, text) =>
         && t.started == s.started && t.responseId == s.responseId && t.model == s.model
         && index in s.reasoning && s.reasoning[index].block.Thinking?
         && t.reasoning.Keys == s.reasoning.Keys
         && t.reasoning[index].block == GrownBlock(s.reasoning[index].block, signature, text)
         && t.reasoning[index].start == s.reasoning[index].start
         && t.reasoning - {index} == s.reasoning - {index}
       case Closes(index) =>
         && t.started == s.started && t.responseId == s.responseId && t.model == s.model
         && index in s.reasoning && t.reasoning == s.reasoning - {index}
         && SoundBlock(s.reasoning[index].block)
         && index in s.blocks && !s.blocks[index].closed && t.blocks[index].closed
       case Begins(id, model) =>
         && !s.started && t.started && id != [] && t.responseId == Some(id) && t.model == model
         && t.reasoning == s.reasoning
       case LooksAlike(kind) => Typed(kind) && t.started == s.started && t.responseId == s.responseId && t.model == s.model && t.reasoning == s.reasoning
       case Nothing => t.started == s.started && t.responseId == s.responseId && t.model == s.model && t.reasoning == s.reasoning
  }

  /** The events of a step with this effect. */
  ghost predicate Shows(held: map<nat, Capture>, t: State, events: seq<Event>, effect: Effect) {
    match effect
    case Opens(index, block) => events == [Marker(block.Redacted?), Artifact(KindName(block), t.records)]
    case Grows(index, _, _) => |events| == 1 && QuietAll(events)
    case Closes(index) =>
      index in held && events == [Reasoning(index, held[index].start, t.records, held[index].block)]
    case Begins(id, model) => |events| >= 1 && events[0] == Metadata(id, model) && QuietAll(events[1..])
    case LooksAlike(kind) => events == [Artifact(kind, t.records)]
    case Nothing => QuietAll(events)
  }

  lemma {:induction false} TextIsQuiet(key: nat, text: Text)
    ensures QuietAll(TextEvents(key, text))
    decreases |text|
  {
    if text != [] {
      var end := Min(TEXT_PIECE, |text|);
      var cut := if end < |text| && High(text[end - 1]) then end - 1 else end;
      TextIsQuiet(key, text[cut..]);
      assert TextEvents(key, text) == [TextEvent(key, text[..cut])] + TextEvents(key, text[cut..]);
    }
  }

  lemma CapturingShows(s: State, index: nat, kind: Kind, block: Block, signing: bool)
    requires index !in s.reasoning && index !in s.blocks && s.started && 1 <= s.records
    requires Capturing(s, index, kind, block, signing).Accepted?
    ensures var o := Capturing(s, index, kind, block, signing);
      Moves(s.(records := s.records - 1), o.state, Opens(index, block)) && Shows(s.reasoning, o.state, o.events, Opens(index, block))
  {
    hide BlockBytes, KindName;
    var o := Capturing(s, index, kind, block, signing);
    assert o.state.reasoning - {index} == s.reasoning;
  }

  lemma NewBlockMoves(s: State, t: State, index: nat, block: BlockState, effect: Effect)
    requires index !in s.blocks && t.blocks == s.blocks[index := block] && t.records == s.records && 1 <= s.records
    requires t.started == s.started && t.responseId == s.responseId && t.model == s.model && t.reasoning == s.reasoning
    requires (effect.LooksAlike? && Typed(effect.kind)) || effect.Nothing?
    ensures Moves(s.(records := s.records - 1), t, effect)
  {
  }

  lemma StartShows(s: State, index: nat, block: BlockData)
    requires Ledger(s) && s.started && index !in s.blocks && 1 <= s.records
    requires Start(s, index, block).Accepted?
    ensures var o := Start(s, index, block); var e := EffectOf(s, BlockStart(Some(index), block));
      Moves(s.(records := s.records - 1), o.state, e) && Shows(s.reasoning, o.state, o.events, e)
  {
    hide Capturing, TextEvents, Fits, QuietAll, Moves, Ledger;
    var o := Start(s, index, block);
    match block
    case TextBlock(text) =>
      NewBlockMoves(s, o.state, index, BlockState(TextKind, false), Nothing);
      TextIsQuiet(index, text.value);
    case ToolBlock(_, _) =>
      NewBlockMoves(s, o.state, index, BlockState(ToolKind, false), Nothing);
      QuietFew([]);
    case ThinkingBlock(thinking, signature) =>
      NotHeld(s, index);
      CapturingShows(s, index, ThinkingKind, Thinking(thinking, signature), signature != []);
    case RedactedBlock(data) =>
      NotHeld(s, index);
      CapturingShows(s, index, RedactedKind, Redacted(data), false);
    case OtherBlock(kind) =>
      NewBlockMoves(s, o.state, index, BlockState(OtherKind, false), if Typed(kind) then LooksAlike(kind) else Nothing);
      QuietFew([Artifact(kind, s.records)]);
    case MalformedBlock =>
  }

  lemma QuietFew(events: seq<Event>)
    requires |events| <= 1
    ensures QuietAll(events) == (events == [] || Quiet(events[0]))
  {
  }

  lemma NotHeld(s: State, index: nat)
    requires Ledger(s) && index !in s.blocks
    ensures index !in s.reasoning
  {
    assert Fits(s, index);
  }

  lemma ExtendShows(s: State, index: nat, signature: bool, text: Text)
    requires Extend(s, index, signature, text).Some? && 1 <= s.records
    ensures Moves(s.(records := s.records - 1), Extend(s, index, signature, text).value, Grows(index, signature, text))
  {
    hide JsonBody;
    var next := Extend(s, index, signature, text).value;
    assert next.reasoning - {index} == s.reasoning - {index};
  }

  lemma DeltaShows(s: State, index: nat, delta: DeltaData)
    requires 1 <= s.records && index in s.blocks
    requires Delta(s, index, delta).Accepted?
    ensures var o := Delta(s, index, delta); var e := EffectOf(s, BlockDelta(Some(index), delta));
      Moves(s.(records := s.records - 1), o.state, e) && Shows(s.reasoning, o.state, o.events, e)
  {
    hide TextEvents, Extend, Utf8Length, QuietAll;
    var o := Delta(s, index, delta);
    var kind := s.blocks[index].kind;
    if kind in {ThinkingKind, RedactedKind} {
      ExtendShows(s, index, delta.SignatureDelta?, delta.text.value);
      QuietFew([Artifact(DeltaName(delta), s.records)]);
    } else if delta.TextDelta? && kind.TextKind? {
      TextIsQuiet(index, delta.text.value);
    } else {
      QuietFew(o.events);
    }
  }

  lemma StopShows(s: State, index: nat, parses: Text -> bool)
    requires Ledger(s) && 1 <= s.records && index in s.blocks && !s.blocks[index].closed
    requires Stop(s, index, parses).Accepted?
    ensures var o := Stop(s, index, parses); var e := EffectOf(s, BlockStop(Some(index)));
      Moves(s.(records := s.records - 1), o.state, e) && Shows(s.reasoning, o.state, o.events, e)
  {
    hide SoundCapture, Utf8Length;
    assert Fits(s, index);
    CaptureIsSound(s, index);
  }

  /** A capture closes only with its signature, and redacted data is never empty. */
  lemma CaptureIsSound(s: State, index: nat)
    requires Ledger(s)
    ensures index in s.reasoning && s.reasoning[index].block.Redacted? ==> s.reasoning[index].block.data != []
    ensures index in s.reasoning ==>
      && 1 <= s.reasoning[index].start <= s.records && index < MAX_PARTS
      && BlockBytes(s.reasoning[index].block) <= s.reasoning[index].bytes <= BLOCK_BYTES
      && s.started
  {
    assert Fits(s, index);
  }

  lemma PlainShows(s: State, data: Data, parses: Text -> bool)
    requires !data.BlockStart? && !data.BlockDelta? && !data.BlockStop? && 1 <= s.records
    requires Interpret(s, data, parses).Accepted?
    ensures var o := Interpret(s, data, parses); var e := EffectOf(s, data);
      Moves(s.(records := s.records - 1), o.state, e) && Shows(s.reasoning, o.state, o.events, e)
  {
    hide QuietAll;
    var o := Interpret(s, data, parses);
    QuietFew([]);
    if data.MessageStart? {
      QuietFew(o.events[1..]);
    } else {
      QuietFew(o.events);
    }
  }

  lemma SameEffect(s: State, data: Data)
    ensures EffectOf(s.(records := s.records + 1), data) == EffectOf(s, data)
  {
  }

  /** Every accepted record is one of the six effects. */
  lemma AcceptShows(s: State, data: Data, parses: Text -> bool)
    requires Ledger(s) && Accept(s, data, parses).Accepted?
    ensures var o := Accept(s, data, parses); var e := EffectOf(s, data);
      Moves(s, o.state, e) && Shows(s.reasoning, o.state, o.events, e)
  {
    hide Start, Delta, Stop, Ledger, Moves, EffectOf, Shows;
    var here := s.(records := s.records + 1);
    Unmoved(s, here);
    SameEffect(s, data);
    assert here.(records := here.records - 1) == s;
    if data.BlockStart? {
      assert data == BlockStart(Some(data.index.value), data.block);
      StartShows(here, data.index.value, data.block);
    } else if data.BlockDelta? {
      assert data == BlockDelta(Some(data.index.value), data.delta);
      DeltaShows(here, data.index.value, data.delta);
    } else if data.BlockStop? {
      assert data == BlockStop(Some(data.index.value));
      StopShows(here, data.index.value, parses);
    } else {
      PlainShows(here, data, parses);
    }
  }

  // ----- the loop accepts what the normalizer emits -----

  predicate Evidence(p: Content) { p.MarkerPart? || (p.ArtifactPart? && Typed(p.kind) && p.record.Some?) }

  /** Markers and typed locators, in order. */
  function Relevant(parts: seq<Content>): seq<Content> {
    if parts == [] then []
    else
      var last := parts[|parts| - 1];
      Relevant(parts[..|parts| - 1]) + (if Evidence(last) then [last] else [])
  }

  lemma RelevantMore(parts: seq<Content>, p: Content)
    ensures Relevant(parts + [p]) == Relevant(parts) + (if Evidence(p) then [p] else [])
  {
    assert (parts + [p])[..|parts|] == parts;
  }

  lemma {:induction false} QuietHandled(names: Names, g: Loop, events: seq<Event>)
    requires QuietAll(events) && g.rawCount > 0
    ensures var h := HandleAll(names, g, events);
      h.Some? && h.value == g.(parts := h.value.parts) && Relevant(h.value.parts) == Relevant(g.parts)
    decreases |events|
  {
    hide Relevant, Typed;
    if events != [] {
      assert Quiet(events[0]);
      var one := Handle(names, g, events[0]).value;
      if one.parts != g.parts {
        RelevantMore(g.parts, one.parts[|one.parts| - 1]);
      }
      QuietHandled(names, one, events[1..]);
    }
  }

  /** Stream state and loop agree, and the loop has room for what the stream may yet close. */
  ghost predicate Joined(names: Names, s: State, g: Loop) {
    && Ledger(s) && Counted(s, g.reasoningBytes)
    && (s.started ==> g.responseId == s.responseId)
    && g.returnedModel == (if s.model.Some? then s.model else Some(names.model))
    && (forall i :: i in g.indexes ==> i in s.blocks && s.blocks[i].closed)
    && (g.receipts != [] ==> s.started)
  }

  /** What a step with this effect stores; `records` is its record number. */
  ghost predicate Stores(names: Names, held: map<nat, Capture>, records: nat, g: Loop, h: Loop, effect: Effect) {
    && h.rawCount == g.rawCount && h.rawBytes == g.rawBytes
    && match effect
       case Opens(_, block) =>
         && Relevant(h.parts) == Relevant(g.parts) + [MarkerPart(block.Redacted?), ArtifactPart(KindName(block), Some(records))]
         && h == g.(parts := h.parts)
       case LooksAlike(kind) =>
         && Relevant(h.parts) == Relevant(g.parts) + [ArtifactPart(kind, Some(records))]
         && h == g.(parts := h.parts)
       case Closes(index) =>
         && Relevant(h.parts) == Relevant(g.parts)
         && index in held && g.responseId.Some?
         && AcceptsBlock(g, index, held[index].start, records, held[index].block)
         && h == g.(parts := h.parts, reasoningBytes := g.reasoningBytes + BlockBytes(held[index].block), indexes := g.indexes + {index},
                    receipts := g.receipts + [Receipt(names.generation, names.message, g.responseId.value, names.model, g.returnedModel,
                                                      index, held[index].start, records, g.rawCount, g.rawBytes, held[index].block)])
       case Begins(id, model) =>
         && Relevant(h.parts) == Relevant(g.parts)
         && h == g.(parts := h.parts, responseId := Some(id), returnedModel := if model.Some? then model else g.returnedModel)
       case Grows(_, _, _) => Relevant(h.parts) == Relevant(g.parts) && h == g.(parts := h.parts)
       case Nothing => Relevant(h.parts) == Relevant(g.parts) && h == g.(parts := h.parts)
  }

  /** A block the normalizer closes passes every check of the loop. */
  lemma BlockIsAccepted(names: Names, s: State, g: Loop, index: nat)
    requires Joined(names, s, g) && g.rawCount > 0 && s.records < MAX_RECORDS
    requires index in s.reasoning && SoundBlock(s.reasoning[index].block)
    requires index in s.blocks && !s.blocks[index].closed
    ensures AcceptsBlock(g, index, s.reasoning[index].start, s.records + 1, s.reasoning[index].block)
  {
    hide Total, BlockBytes, Fits;
    CaptureIsSound(s, index);
    CreditBytes(s.reasoning, index, s.reasoning[index]);
  }

  lemma HandleOne(names: Names, g: Loop, e: Event)
    ensures HandleAll(names, g, [e]) == Handle(names, g, e)
  {
  }

  lemma HandleFirst(names: Names, g: Loop, events: seq<Event>)
    requires events != [] && Handle(names, g, events[0]).Some?
    ensures HandleAll(names, g, events) == HandleAll(names, Handle(names, g, events[0]).value, events[1..])
  {
  }

  lemma EffectStores(names: Names, s: State, t: State, g: Loop, events: seq<Event>, effect: Effect)
    requires Joined(names, s, g) && g.rawCount > 0 && s.records < MAX_RECORDS
    requires Moves(s, t, effect) && Shows(s.reasoning, t, events, effect)
    ensures HandleAll(names, g, events).Some?
    ensures Stores(names, s.reasoning, t.records, g, HandleAll(names, g, events).value, effect)
  {
    hide HandleAll, Relevant, Joined, QuietAll, AcceptsBlock, BlockBytes;
    match effect
    case Opens(index, block) =>
      HandleFirst(names, g, events);
      HandleOne(names, Handle(names, g, events[0]).value, events[1]);
      assert events[1..] == [events[1]];
      RelevantMore(g.parts, MarkerPart(block.Redacted?));
      RelevantMore(g.parts + [MarkerPart(block.Redacted?)], ArtifactPart(KindName(block), Some(t.records)));
    case Closes(index) =>
      BlockIsAccepted(names, s, g, index);
      AcceptedHasResponse(g, index, s.reasoning[index].start, t.records, s.reasoning[index].block);
      HandleOne(names, g, events[0]);
      RelevantMore(g.parts, ArtifactPart(RECEIPT_KIND, None));
    case Begins(id, model) =>
      HandleFirst(names, g, events);
      QuietHandled(names, Handle(names, g, events[0]).value, events[1..]);
    case LooksAlike(kind) =>
      HandleOne(names, g, events[0]);
      RelevantMore(g.parts, ArtifactPart(kind, Some(t.records)));
    case Grows(_, _, _) => QuietHandled(names, g, events);
    case Nothing => QuietHandled(names, g, events);
  }

  lemma AcceptedHasResponse(g: Loop, index: nat, start: nat, end: nat, block: Block)
    requires AcceptsBlock(g, index, start, end, block)
    ensures g.responseId.Some? && g.rawCount > 0
  {
  }

  /** What a step emits, measured in bytes of complete blocks. */
  lemma EffectSpends(held: map<nat, Capture>, t: State, events: seq<Event>, effect: Effect)
    requires Shows(held, t, events, effect)
    ensures Emitted(events) == if effect.Closes? then BlockBytes(held[effect.index].block) else 0
  {
    hide BlockBytes, Emitted, QuietAll;
    match effect
    case Opens(_, _) => NothingEmitted(events);
    case Closes(_) => OneEmitted(events[0]);
    case Begins(_, _) =>
      QuietEmits(events[1..]);
      NothingEmitted([events[0]]);
      assert events == [events[0]] + events[1..];
      EmittedAppend([events[0]], events[1..]);
    case LooksAlike(_) => NothingEmitted(events);
    case Grows(_, _, _) => QuietEmits(events);
    case Nothing => QuietEmits(events);
  }

  lemma {:induction false} QuietEmits(events: seq<Event>)
    requires QuietAll(events)
    ensures Emitted(events) == 0
    decreases |events|
  {
    if events != [] {
      assert Quiet(events[0]);
      QuietEmits(events[1..]);
    }
  }

  /** One accepted record: the loop accepts all its events and both stay in agreement. */
  lemma StepIsStored(names: Names, s: State, g: Loop, data: Data, parses: Text -> bool)
    requires Joined(names, s, g) && g.rawCount > 0 && Accept(s, data, parses).Accepted?
    ensures var one := Accept(s, data, parses);
      var h := HandleAll(names, g, one.events);
      h.Some? && Stores(names, s.reasoning, one.state.records, g, h.value, EffectOf(s, data)) && Joined(names, one.state, h.value)
  {
    hide HandleAll, Relevant, EffectOf, Shows, Emitted, Ledger, AcceptsBlock, BlockBytes, Start, Delta, Stop;
    AcceptShows(s, data, parses);
    AcceptKeeps(s, g.reasoningBytes, data, parses);
    var one := Accept(s, data, parses);
    var effect := EffectOf(s, data);
    assert s.records < MAX_RECORDS;
    EffectStores(names, s, one.state, g, one.events, effect);
    EffectSpends(s.reasoning, one.state, one.events, effect);
    StaysJoined(names, s, one.state, g, HandleAll(names, g, one.events).value, effect);
  }

  lemma StaysJoined(names: Names, s: State, t: State, g: Loop, h: Loop, effect: Effect)
    requires Joined(names, s, g) && Moves(s, t, effect) && Stores(names, s.reasoning, t.records, g, h, effect)
    requires Ledger(t) && Counted(t, g.reasoningBytes + if effect.Closes? then BlockBytes(s.reasoning[effect.index].block) else 0)
    ensures Joined(names, t, h)
  {
    hide Relevant, Ledger, Counted, AcceptsBlock, BlockBytes;
    NoModelYet(s);
    if effect.Closes? {
      CaptureIsSound(s, effect.index);
    }
  }

  lemma NoModelYet(s: State)
    requires Ledger(s)
    ensures !s.started ==> s.model.None?
  {
  }

  lemma BeginsJoined(names: Names)
    ensures Joined(names, START, Begin(names))
  {
    hide Ledger, Counted;
    StartKeepsNothing();
  }

  lemma {:induction false} PlayAccepts(names: Names, s: State, g: Loop, items: seq<Item>, parses: Text -> bool)
    requires Joined(names, s, g) && (g.rawCount > 0 || (items != [] ==> items[0].Chunk?))
    ensures var l := Play(names, s, g, items, parses);
      l.Live? || l.byNormalizer
    ensures var l := Play(names, s, g, items, parses);
      l.Live? ==> Joined(names, l.stream, l.loop)
    decreases |items|
  {
    hide Joined, Accept, HandleAll, Stores;
    if items != [] {
      match items[0]
      case Chunk(bytes) =>
        ChunkJoined(names, s, g, bytes);
        PlayAccepts(names, s, StoreChunk(g, bytes), items[1..], parses);
      case Rec(data) =>
        var one := Accept(s, data, parses);
        if one.Accepted? {
          StepIsStored(names, s, g, data, parses);
          var h := HandleAll(names, g, one.events).value;
          StoresKeepsRaw(names, s.reasoning, one.state.records, g, h, EffectOf(s, data));
          PlayAccepts(names, one.state, h, items[1..], parses);
        }
    }
  }

  lemma StoresKeepsRaw(names: Names, held: map<nat, Capture>, records: nat, g: Loop, h: Loop, effect: Effect)
    requires Stores(names, held, records, g, h, effect)
    ensures h.rawCount == g.rawCount && h.rawBytes == g.rawBytes
  {
  }

  lemma ChunkJoined(names: Names, s: State, g: Loop, bytes: nat)
    requires Joined(names, s, g)
    ensures Joined(names, s, StoreChunk(g, bytes))
  {
    hide Ledger, Counted;
  }

  /** However a stream is chunked, the generation never throws on an event the normalizer
      emits: a run is refused by the normalizer or not at all. */
  lemma GenerationAcceptsStream(names: Names, items: seq<Item>, parses: Text -> bool)
    requires items != [] ==> items[0].Chunk?
    ensures var l := Play(names, START, Begin(names), items, parses); l.Live? || l.byNormalizer
  {
    hide Play, Joined;
    BeginsJoined(names);
    PlayAccepts(names, START, Begin(names), items, parses);
  }

  // ----- where receipts stand -----

  function ChunksIn(items: seq<Item>): nat {
    if items == [] then 0 else ChunksIn(items[..|items| - 1]) + (if items[|items| - 1].Chunk? then 1 else 0)
  }

  function BytesIn(items: seq<Item>): nat {
    if items == [] then 0 else BytesIn(items[..|items| - 1]) + (if items[|items| - 1].Chunk? then items[|items| - 1].bytes else 0)
  }

  function RecordsIn(items: seq<Item>): nat {
    if items == [] then 0 else RecordsIn(items[..|items| - 1]) + (if items[|items| - 1].Rec? then 1 else 0)
  }

  lemma CountsMore(items: seq<Item>, i: Item)
    ensures ChunksIn(items + [i]) == ChunksIn(items) + (if i.Chunk? then 1 else 0)
    ensures BytesIn(items + [i]) == BytesIn(items) + (if i.Chunk? then i.bytes else 0)
    ensures RecordsIn(items + [i]) == RecordsIn(items) + (if i.Rec? then 1 else 0)
  {
    assert (items + [i])[..|items|] == items;
  }

  /** The n-th item is the record that closes the receipt's block: the receipt counts the records
      up to it, and the chunks and bytes before it. */
  predicate ClosedAt(r: Receipt, items: seq<Item>, n: nat) {
    && n < |items| && items[n].Rec? && r.end == RecordsIn(items[..n]) + 1
    && r.segments == ChunksIn(items[..n]) && r.bytes == BytesIn(items[..n])
  }

  ghost predicate EachCloses(receipts: seq<Receipt>, items: seq<Item>) { forall r :: r in receipts ==> exists n: nat :: ClosedAt(r, items, n) }

  lemma StepCloses(names: Names, held: map<nat, Capture>, records: nat, g: Loop, h: Loop, effect: Effect, items: seq<Item>, n: nat)
    requires Stores(names, held, records, g, h, effect) && EachCloses(g.receipts, items)
    requires n < |items| && items[n].Rec? && records == RecordsIn(items[..n]) + 1
    requires g.rawCount == ChunksIn(items[..n]) && g.rawBytes == BytesIn(items[..n])
    ensures EachCloses(h.receipts, items) && h.rawCount == g.rawCount && h.rawBytes == g.rawBytes
  {
    hide Relevant, BlockBytes, AcceptsBlock, SoundBlock;
    forall r | r in h.receipts ensures exists n: nat :: ClosedAt(r, items, n) {
      if r !in g.receipts {
        assert effect.Closes?;
        assert ClosedAt(r, items, n);
      }
    }
  }

  lemma {:induction false} PlayCloses(names: Names, s: State, g: Loop, before: seq<Item>, items: seq<Item>, parses: Text -> bool)
    requires Joined(names, s, g) && Play(names, s, g, items, parses).Live?
    requires g.rawCount > 0 || (items != [] ==> items[0].Chunk?)
    requires g.rawCount == ChunksIn(before) && g.rawBytes == BytesIn(before) && s.records == RecordsIn(before)
    requires EachCloses(g.receipts, before + items)
    ensures EachCloses(Play(names, s, g, items, parses).loop.receipts, before + items)
    decreases |items|
  {
    hide Joined, Accept, HandleAll, Stores, EffectOf, Moves, Shows, EachCloses, ChunksIn, BytesIn, RecordsIn;
    if items != [] {
      var n, all := |before|, before + items;
      assert all[..n] == before && all[n] == items[0];
      assert before + [items[0]] + items[1..] == all;
      CountsMore(before, items[0]);
      match items[0]
      case Chunk(bytes) =>
        ChunkJoined(names, s, g, bytes);
        PlayCloses(names, s, StoreChunk(g, bytes), before + [items[0]], items[1..], parses);
      case Rec(data) =>
        var one := Accept(s, data, parses);
        var effect := EffectOf(s, data);
        StepIsStored(names, s, g, data, parses);
        JoinedLedger(names, s, g);
        AcceptShows(s, data, parses);
        var h := HandleAll(names, g, one.events).value;
        CountsUp(s, one.state, effect);
        StepCloses(names, s.reasoning, one.state.records, g, h, effect, all, n);
        PlayCloses(names, one.state, h, before + [items[0]], items[1..], parses);
    }
  }

  lemma CountsUp(s: State, t: State, effect: Effect)
    requires Moves(s, t, effect)
    ensures t.records == s.records + 1
  {
  }

  lemma JoinedLedger(names: Names, s: State, g: Loop)
    requires Joined(names, s, g)
    ensures Ledger(s)
  {
  }

  /** Every receipt of a live run stands for a record that closed its block, and tells how many
      records, chunks and bytes the stream had got to. */
  lemma ReceiptsClose(names: Names, items: seq<Item>, parses: Text -> bool, r: Receipt)
    requires items != [] ==> items[0].Chunk?
    requires var l := Play(names, START, Begin(names), items, parses); l.Live? && r in l.loop.receipts
    ensures exists n: nat :: ClosedAt(r, items, n)
  {
    hide Play, Joined, ClosedAt;
    BeginsJoined(names);
    assert [] + items == items;
    PlayCloses(names, START, Begin(names), [], items, parses);
  }

  // ----- reading a receipt back -----

  const RECEIPT_BYTES := 278528
  const MODEL_LIMIT := 256
  const ID_BYTES := 36

  /** The JSON text of a receipt without its values, quotes written as apostrophes. */
  const ENVELOPE := "{'version':1,'protocol':'anthropic','generationId':'','outputMessageId':'','responseId':'','model':'','returnedModel':,'index':,'source':{'startRecord':,'endRecord':,'rawSegmentsThroughCheckpoint':,'rawBytesThroughCheckpoint':},'block':}"

  function Digits(n: nat): nat { if n < 10 then 1 else 1 + Digits(n / 10) }

  /** Bytes of a receipt as JSON text. */
  function ReceiptBytes(r: Receipt): nat {
    |ENVELOPE| + 2 * ID_BYTES + JsonBody(r.responseId) + JsonBody(r.model)
    + (if r.returnedModel.Some? then 2 + JsonBody(r.returnedModel.value) else 4)
    + Digits(r.index) + Digits(r.start) + Digits(r.end) + Digits(r.segments) + Digits(r.bytes) + BlockBytes(r.block)
  }

  datatype Reading = Readable | OverLimit | Invalid

  /** The checks of `parseThinkingReceipt`. */
  function ReadReceipt(r: Receipt): Reading {
    if ReceiptBytes(r) > RECEIPT_BYTES then OverLimit
    else if r.responseId == [] || |r.responseId| > STRING_LIMIT || r.model == [] || |r.model| > MODEL_LIMIT
            || (r.returnedModel.Some? && |r.returnedModel.value| > MODEL_LIMIT)
            || r.index >= MAX_PARTS || r.start < 1 || r.end <= r.start || r.end > MAX_RECORDS || !SoundBlock(r.block) then Invalid
    else if BlockBytes(r.block) > BLOCK_BYTES then OverLimit
    else Readable
  }

  ghost predicate AllSound(names: Names, g: Loop) {
    forall r :: r in g.receipts ==>
      && r.model == names.model && 0 < |r.responseId| <= STRING_LIMIT && r.index < MAX_PARTS && 1 <= r.start < r.end <= MAX_RECORDS
      && SoundBlock(r.block) && BlockBytes(r.block) <= BLOCK_BYTES
  }

  /** A block closes only in a response whose identity is known and bounded. */
  lemma ClosesNamed(names: Names, s: State, g: Loop, data: Data)
    requires Joined(names, s, g)
    ensures EffectOf(s, data).Closes? ==> g.responseId.Some? && 0 < |g.responseId.value| <= STRING_LIMIT
  {
    hide Counted, IsOpen, SoundCapture;
    if EffectOf(s, data).Closes? {
      assert Fits(s, data.index.value);
    }
  }

  lemma SoundStep(names: Names, held: map<nat, Capture>, records: nat, g: Loop, h: Loop, effect: Effect)
    requires AllSound(names, g) && Stores(names, held, records, g, h, effect)
    requires effect.Closes? ==> g.responseId.Some? && 0 < |g.responseId.value| <= STRING_LIMIT
    ensures AllSound(names, h)
  {
    hide Relevant, BlockBytes, SoundBlock;
  }

  lemma {:induction false} PlaySound(names: Names, s: State, g: Loop, items: seq<Item>, parses: Text -> bool)
    requires Joined(names, s, g) && AllSound(names, g) && (g.rawCount > 0 || (items != [] ==> items[0].Chunk?))
    requires Play(names, s, g, items, parses).Live?
    ensures AllSound(names, Play(names, s, g, items, parses).loop)
    decreases |items|
  {
    hide Joined, Accept, HandleAll, Stores, SoundBlock, BlockBytes;
    if items != [] {
      match items[0]
      case Chunk(bytes) =>
        ChunkJoined(names, s, g, bytes);
        PlaySound(names, s, StoreChunk(g, bytes), items[1..], parses);
      case Rec(data) =>
        var one := Accept(s, data, parses);
        StepIsStored(names, s, g, data, parses);
        var h := HandleAll(names, g, one.events).value;
        StoresKeepsRaw(names, s.reasoning, one.state.records, g, h, EffectOf(s, data));
        ClosesNamed(names, s, g, data);
        SoundStep(names, s.reasoning, one.state.records, g, h, EffectOf(s, data));
        PlaySound(names, one.state, h, items[1..], parses);
    }
  }

  /** A receipt the live run wrote reads back exactly when its JSON text fits and the model
      names do: the run bounds the response's identity and the block, and neither of these. */
  lemma LiveReceiptReadable(names: Names, items: seq<Item>, parses: Text -> bool, r: Receipt)
    requires items != [] ==> items[0].Chunk?
    requires Play(names, START, Begin(names), items, parses).Live?
    requires r in Play(names, START, Begin(names), items, parses).loop.receipts
    ensures ReadReceipt(r).Readable? <==>
      && ReceiptBytes(r) <= 278528 && 0 < |names.model| <= 256
      && (r.returnedModel.Some? ==> |r.returnedModel.value| <= 256)
  {
    hide Play, Joined, SoundBlock, BlockBytes, ReceiptBytes;
    BeginsJoined(names);
    PlaySound(names, START, Begin(names), items, parses);
  }

  // ----- receipts nobody can read -----

  const SIGNATURE: Text := [0x73]

  /** The records of a response that holds one signed thinking block. */
  function Response(id: Text, model: Option<Text>, first: Text, second: Text): seq<Data> {
    [MessageStart(Some(id), model, NoUsage), BlockStart(Some(0), ThinkingBlock(first, [])),
     BlockDelta(Some(0), ThinkingDelta(Some(second))), BlockDelta(Some(0), SignatureDelta(Some(SIGNATURE))), BlockStop(Some(0)),
     MessageDelta(Some(Some(SIGNATURE)), NoUsage), MessageStop]
  }

  function Recs(ds: seq<Data>): (items: seq<Item>)
    ensures |items| == |ds| && forall k :: 0 <= k < |ds| ==> items[k] == Rec(ds[k])
  {
    seq(|ds|, k requires 0 <= k < |ds| => Rec(ds[k]))
  }

  /** Its fields are within the normalizer's bounds. */
  predicate Taken(id: Text, model: Option<Text>, first: Text, second: Text) {
    && 0 < |id| <= STRING_LIMIT && (model.Some? ==> 0 < |model.value| <= STRING_LIMIT) && JsonBody(second) + 2 <= BLOCK_BYTES
    && 49 + JsonBody(first) + JsonBody(second) <= BLOCK_BYTES && 49 + JsonBody(first + second) <= BLOCK_BYTES
  }

  /** A loop that has retained transport and nothing else. */
  predicate Waiting(names: Names, g: Loop) {
    && g.rawCount > 0 && g.returnedModel == Some(names.model) && g.reasoningBytes == 0 && g.indexes == {} && g.receipts == []
  }

  function ItsReceipt(names: Names, g: Loop, id: Text, model: Option<Text>, first: Text, second: Text): Receipt {
    Receipt(names.generation, names.message, id, names.model, if model.Some? then model else Some(names.model),
            0, 2, 5, g.rawCount, g.rawBytes, Thinking(first + second, SIGNATURE))
  }

  lemma PlayOne(names: Names, s: State, g: Loop, items: seq<Item>, parses: Text -> bool)
    requires items != [] && items[0].Rec?
    requires Accept(s, items[0].data, parses).Accepted? && HandleAll(names, g, Accept(s, items[0].data, parses).events).Some?
    ensures var one := Accept(s, items[0].data, parses);
      Play(names, s, g, items, parses) == Play(names, one.state, HandleAll(names, g, one.events).value, items[1..], parses)
  {
    hide Accept, HandleAll;
  }

  lemma HandleTwo(names: Names, g: Loop, a: Event, b: Event)
    requires Handle(names, g, a).Some?
    ensures HandleAll(names, g, [a, b]) == Handle(names, Handle(names, g, a).value, b)
  {
    hide Handle;
    assert [a, b][1..] == [b];
    HandleOne(names, Handle(names, g, a).value, b);
  }

  lemma HandleNone(names: Names, g: Loop)
    ensures HandleAll(names, g, []) == Some(g)
  {
  }

  lemma SignatureBytes()
    ensures JsonBody(SIGNATURE) == 1 && JsonBody([]) == 0
  {
    assert SIGNATURE[1..] == [];
  }

  /** The stream when the response has begun, and when its block is open. */
  function Begun(id: Text, model: Option<Text>): State { START.(records := 1, started := true, responseId := Some(id), model := model) }

  function Opened(id: Text, model: Option<Text>, records: nat, block: Block, bytes: nat, signing: bool): State {
    Begun(id, model).(records := records, blocks := map[0 := BlockState(ThinkingKind, false)],
                      reasoning := map[0 := Capture(block, bytes, 2, signing)], reasoningBytes := bytes)
  }

  /** A live run of the response writes its receipt. */
  lemma ResponsePlays(names: Names, g: Loop, parses: Text -> bool, id: Text, model: Option<Text>, first: Text, second: Text)
    requires Taken(id, model, first, second) && Waiting(names, g)
    ensures var l := Play(names, START, g, Recs(Response(id, model, first, second)), parses);
      l.Live? && l.stream.ended && l.stream.model == model && l.loop.receipts == [ItsReceipt(names, g, id, model, first, second)]
  {
    hide Play, HandleAll, JsonBody;
    var items := Recs(Response(id, model, first, second));
    var s1, g1 := Begun(id, model), g.(responseId := Some(id), returnedModel := if model.Some? then model else g.returnedModel);
    assert Accept(START, items[0].data, parses) == Accepted(s1, [Metadata(id, model)]);
    HandleOne(names, g, Metadata(id, model));
    PlayOne(names, START, g, items, parses);
    var s2 := Opened(id, model, 2, Thinking(first, []), 48 + JsonBody(first), false);
    SignatureBytes();
    assert Accept(s1, items[1].data, parses) == Accepted(s2, [Marker(false), Artifact("thinking", 2)]);
    HandleTwo(names, g1, Marker(false), Artifact("thinking", 2));
    var g2 := g1.(parts := g1.parts + [MarkerPart(false)] + [ArtifactPart("thinking", Some(2))]);
    PlayOne(names, s1, g1, items[1..], parses);
    assert items[1..][1..] == items[2..];
    BlockGrows(names, parses, id, model, first, second, g2);
  }

  lemma {:induction false} PlayJoin(names: Names, s: State, g: Loop, a: seq<Item>, b: seq<Item>, parses: Text -> bool)
    ensures Play(names, s, g, a + b, parses) ==
      var l := Play(names, s, g, a, parses);
      if l.Live? then Play(names, l.stream, l.loop, b, parses) else l
    decreases |a|
  {
    hide Accept, HandleAll;
    if a == [] {
      assert a + b == b;
    } else {
      assert (a + b)[1..] == a[1..] + b;
      match a[0]
      case Chunk(bytes) => PlayJoin(names, s, StoreChunk(g, bytes), a[1..], b, parses);
      case Rec(data) =>
        var one := Accept(s, data, parses);
        if one.Accepted? && HandleAll(names, g, one.events).Some? {
          PlayJoin(names, one.state, HandleAll(names, g, one.events).value, a[1..], b, parses);
        }
    }
  }

  /** The records of a response that is cut off before its terminal marker. */
  function Unended(id: Text, model: Option<Text>, first: Text, second: Text): seq<Data> { Response(id, model, first, second)[..6] }

  /** It is taken all the same, and its receipt is written. */
  lemma UnendedPlays(names: Names, g: Loop, parses: Text -> bool, id: Text, model: Option<Text>, first: Text, second: Text)
    requires Taken(id, model, first, second) && Waiting(names, g)
    ensures var l := Play(names, START, g, Recs(Unended(id, model, first, second)), parses);
      l.Live? && !l.stream.ended && l.stream.model == model && l.loop.receipts == [ItsReceipt(names, g, id, model, first, second)]
  {
    hide Play, HandleAll, JsonBody, Taken;
    var ds := Response(id, model, first, second);
    assert Recs(ds) == Recs(ds[..6]) + [Rec(MessageStop)];
    ResponsePlays(names, g, parses, id, model, first, second);
    PlayJoin(names, START, g, Recs(ds[..6]), [Rec(MessageStop)], parses);
    var l := Play(names, START, g, Recs(ds[..6]), parses);
    PlayStop(names, l.stream, l.loop, parses);
  }

  /** A terminal marker that is taken ends the stream and changes nothing else of it. */
  lemma PlayStop(names: Names, s: State, g: Loop, parses: Text -> bool)
    requires Play(names, s, g, [Rec(MessageStop)], parses).Live?
    ensures var l := Play(names, s, g, [Rec(MessageStop)], parses);
      !s.ended && l.stream.model == s.model && l.loop == g
  {
    assert [Rec(MessageStop)][1..] == [];
    HandleNone(names, g);
  }

  lemma OnlyKey<V>(a: V, b: V)
    ensures map[0 as nat := a][0 := b] == map[0 := b]
  {
  }

  /** An open block extended. */
  lemma OpenedExtends(id: Text, model: Option<Text>, records: nat, block: Block, bytes: nat, signature: bool, text: Text)
    requires block.Thinking? && block.signature == [] && JsonBody(text) + 2 <= BLOCK_BYTES && bytes + JsonBody(text) <= BLOCK_BYTES
    ensures var grown := if signature then block.(signature := text) else block.(thinking := block.thinking + text);
      Extend(Opened(id, model, records, block, bytes, false), 0, signature, text)
      == Some(Opened(id, model, records, grown, bytes + JsonBody(text), signature))
  {
    hide JsonBody;
    var grown := if signature then block.(signature := text) else block.(thinking := block.thinking + text);
    assert [] + text == text;
    OnlyKey(Capture(block, bytes, 2, false), Capture(grown, bytes + JsonBody(text), 2, signature));
  }

  lemma OpenedTakes(parses: Text -> bool, id: Text, model: Option<Text>, records: nat, block: Block, bytes: nat, signature: bool, text: Text)
    requires block.Thinking? && block.signature == [] && JsonBody(text) + 2 <= BLOCK_BYTES && bytes + JsonBody(text) <= BLOCK_BYTES
    requires records < 10
    ensures var grown := if signature then block.(signature := text) else block.(thinking := block.thinking + text);
      Accept(Opened(id, model, records, block, bytes, false),
             BlockDelta(Some(0), if signature then SignatureDelta(Some(text)) else ThinkingDelta(Some(text))), parses)
      == Accepted(Opened(id, model, records + 1, grown, bytes + JsonBody(text), signature),
                  [Artifact(if signature then "signature_delta" else "thinking_delta", records + 1)])
  {
    hide JsonBody, Extend, Start, Stop, TextEvents;
    OpenedExtends(id, model, records + 1, block, bytes, signature, text);
  }

  lemma BlockGrows(names: Names, parses: Text -> bool, id: Text, model: Option<Text>, first: Text, second: Text, g2: Loop)
    requires Taken(id, model, first, second)
    requires g2.responseId == Some(id) && g2.returnedModel == (if model.Some? then model else Some(names.model)) && g2.rawCount > 0
    requires g2.reasoningBytes == 0 && g2.indexes == {} && g2.receipts == []
    ensures var s2 := Opened(id, model, 2, Thinking(first, []), 48 + JsonBody(first), false);
      var l := Play(names, s2, g2, Recs(Response(id, model, first, second))[2..], parses);
      l.Live? && l.stream.ended && l.stream.model == model && l.loop.receipts == [ItsReceipt(names, g2, id, model, first, second)]
  {
    SignatureBytes();
    hide Play, HandleAll, JsonBody, Accept;
    var items := Recs(Response(id, model, first, second));
    var a := 48 + JsonBody(first);
    var b := a + JsonBody(second);
    var s2, s3 := Opened(id, model, 2, Thinking(first, []), a, false), Opened(id, model, 3, Thinking(first + second, []), b, false);
    OpenedTakes(parses, id, model, 2, Thinking(first, []), a, false, second);
    HandleOne(names, g2, Artifact("thinking_delta", 3));
    var g3 := g2.(parts := g2.parts + [ArtifactPart("thinking_delta", Some(3))]);
    PlayOne(names, s2, g2, items[2..], parses);
    assert items[2..][1..] == items[3..];
    var s4 := Opened(id, model, 4, Thinking(first + second, SIGNATURE), b + 1, true);
    OpenedTakes(parses, id, model, 3, Thinking(first + second, []), b, true, SIGNATURE);
    HandleOne(names, g3, Artifact("signature_delta", 4));
    var g4 := g3.(parts := g3.parts + [ArtifactPart("signature_delta", Some(4))]);
    PlayOne(names, s3, g3, items[3..], parses);
    assert items[3..][1..] == items[4..];
    BlockEnds(names, parses, s4, g4, items[4..], Thinking(first + second, SIGNATURE));
  }

  lemma BlockEnds(names: Names, parses: Text -> bool, s4: State, g4: Loop, items: seq<Item>, block: Block)
    requires items == [Rec(BlockStop(Some(0))), Rec(MessageDelta(Some(Some(SIGNATURE)), NoUsage)), Rec(MessageStop)]
    requires block.Thinking? && block.signature != [] && BlockBytes(block) <= BLOCK_BYTES
    requires s4.started && !s4.ended && s4.records == 4 && s4.blocks == map[0 := BlockState(ThinkingKind, false)]
    requires 0 in s4.reasoning && s4.reasoning[0].block == block && s4.reasoning[0].start == 2
    requires g4.responseId.Some? && g4.responseId.value != [] && g4.rawCount > 0
    requires g4.reasoningBytes == 0 && g4.indexes == {} && g4.receipts == []
    ensures var l := Play(names, s4, g4, items, parses);
      && l.Live? && l.stream.ended && l.stream.model == s4.model
      && l.loop.receipts == [Receipt(names.generation, names.message, g4.responseId.value, names.model, g4.returnedModel, 0, 2, 5, g4.rawCount, g4.rawBytes, block)]
  {
    hide Play, HandleAll, BlockBytes;
    var one := Accept(s4, items[0].data, parses);
    assert one.Accepted? && one.events == [Reasoning(0, 2, 5, block)];
    HandleOne(names, g4, Reasoning(0, 2, 5, block));
    PlayOne(names, s4, g4, items, parses);
    var g5 := HandleAll(names, g4, one.events).value;
    HandleNone(names, g5);
    var two := Accept(one.state, items[1].data, parses);
    assert two == Accepted(one.state.(records := 6, stopped := true), []);
    PlayOne(names, one.state, g5, items[1..], parses);
    assert items[1..][1..] == items[2..];
    var three := Accept(two.state, items[2].data, parses);
    assert three == Accepted(two.state.(records := 7, ended := true), []);
    PlayOne(names, two.state, g5, items[2..], parses);
    assert items[2..][1..] == [];
    PlayNone(names, three.state, g5, parses);
  }

  lemma PlayNone(names: Names, s: State, g: Loop, parses: Text -> bool)
    ensures Play(names, s, g, [], parses) == Live(s, g)
  {
  }

  lemma PlayChunk(names: Names, s: State, g: Loop, items: seq<Item>, parses: Text -> bool)
    requires items != [] && items[0].Chunk?
    ensures Play(names, s, g, items, parses) == Play(names, s, StoreChunk(g, items[0].bytes), items[1..], parses)
  {
  }

  lemma ChunkedResponse(names: Names, parses: Text -> bool, id: Text, model: Option<Text>, first: Text, second: Text, n: nat)
    requires Taken(id, model, first, second)
    ensures var l := Play(names, START, Begin(names), [Chunk(n)] + Recs(Response(id, model, first, second)), parses);
      l.Live? && l.stream.ended && l.loop.receipts == [ItsReceipt(names, StoreChunk(Begin(names), n), id, model, first, second)]
  {
    hide Play, JsonBody, Response;
    var items := [Chunk(n)] + Recs(Response(id, model, first, second));
    assert items[1..] == Recs(Response(id, model, first, second));
    PlayChunk(names, START, Begin(names), items, parses);
    ResponsePlays(names, StoreChunk(Begin(names), n), parses, id, model, first, second);
  }

  /** A response that names its model in 257 to 4,096 units leaves receipts nobody can read. */
  lemma LongModelUnreadable(names: Names, parses: Text -> bool, model: Text, n: nat)
    requires 256 < |model| <= 4096
    ensures exists items: seq<Item> ::
      && items != [] && items[0].Chunk? && Play(names, START, Begin(names), items, parses).Live?
      && exists r :: r in Play(names, START, Begin(names), items, parses).loop.receipts && !ReadReceipt(r).Readable?
  {
    hide Play, JsonBody, ReceiptBytes, Response;
    SignatureBytes();
    assert [] + SIGNATURE == SIGNATURE;
    ChunkedResponse(names, parses, SIGNATURE, Some(model), [], SIGNATURE, n);
    var items := [Chunk(n)] + Recs(Response(SIGNATURE, Some(model), [], SIGNATURE));
    var r := ItsReceipt(names, StoreChunk(Begin(names), n), SIGNATURE, Some(model), [], SIGNATURE);
    assert r in Play(names, START, Begin(names), items, parses).loop.receipts && !ReadReceipt(r).Readable?;
  }

  lemma {:induction false} RepeatedBody(u: Unit, n: nat)
    requires !High(u)
    ensures JsonBody(seq(n, _ => u)) == n * EscapedLength(u)
    decreases n
  {
    hide EscapedLength;
    var t := seq(n, _ => u);
    if n > 0 {
      assert t[1..] == seq(n - 1, _ => u);
      RepeatedBody(u, n - 1);
      assert n * EscapedLength(u) == EscapedLength(u) + (n - 1) * EscapedLength(u);
    }
  }

  /** And so does one that gives itself an identity of 4,096 control characters and fills a
      block to its bound, whatever the model names. */
  lemma EscapedIdentityUnreadable(names: Names, parses: Text -> bool, n: nat)
    ensures exists items: seq<Item> ::
      && items != [] && items[0].Chunk? && Play(names, START, Begin(names), items, parses).Live?
      && exists r :: r in Play(names, START, Begin(names), items, parses).loop.receipts && ReadReceipt(r).OverLimit?
  {
    hide Play, JsonBody, Digits, Response;
    var id: Text, first: Text, second: Text := seq(4096, _ => 1), seq(131000, _ => 0x61), seq(131095, _ => 0x61);
    assert first + second == seq(262095, _ => 0x61);
    RepeatedBody(1, 4096);
    RepeatedBody(0x61, 131000);
    RepeatedBody(0x61, 131095);
    RepeatedBody(0x61, 262095);
    SignatureBytes();
    ChunkedResponse(names, parses, id, None, first, second, n);
    var items := [Chunk(n)] + Recs(Response(id, None, first, second));
    var r := ItsReceipt(names, StoreChunk(Begin(names), n), id, None, first, second);
    assert r in Play(names, START, Begin(names), items, parses).loop.receipts && ReadReceipt(r).OverLimit?;
  }

  // ----- the loop as it runs -----

  /** The event loop's variables, changed event by event. */
  class EventLoop {
    const names: Names
    var responseId: Option<Text>
    var returnedModel: Option<Text>
    var rawCount: nat
    var rawBytes: nat
    var reasoningBytes: nat
    var reasoningIndexes: set<nat>
    var parts: seq<Content>
    var receipts: seq<Receipt>

    ghost function Current(): Loop
      reads this
    {
      Loop(responseId, returnedModel, rawCount, rawBytes, reasoningBytes, reasoningIndexes, parts, receipts)
    }

    constructor (names: Names)
      ensures Current() == Begin(names) && this.names == names
    {
      this.names := names;
      responseId, returnedModel, rawCount, rawBytes := None, Some(names.model), 0, 0;
      reasoningBytes, reasoningIndexes, parts, receipts := 0, {}, [], [];
    }

    /** A transport chunk is retained before anything is parsed from it. */
    method Retain(bytes: nat)
      modifies this
      ensures Current() == StoreChunk(old(Current()), bytes)
    {
      parts := parts + [ArtifactPart(RAW_KIND, None)];
      rawCount, rawBytes := rawCount + 1, rawBytes + bytes;
    }

    method Take(e: Event) returns (ok: bool)
      modifies this
      ensures ok == Handle(names, old(Current()), e).Some?
      ensures ok ==> Current() == Handle(names, old(Current()), e).value
    {
      hide BlockBytes, SoundBlock;
      match e
      case Metadata(id, model) =>
        responseId := Some(id);
        if model.Some? {
          returnedModel := model;
        }
        return true;
      case UsageEvent => return true;
      case TextEvent(_, _) => return true;
      case Marker(redacted) =>
        parts := parts + [MarkerPart(redacted)];
        return true;
      case ToolCall(_, _, _) =>
        parts := parts + [OtherPart];
        return true;
      case Citation =>
        parts := parts + [OtherPart];
        return true;
      case Artifact(kind, record) =>
        if rawCount == 0 {
          return false;
        }
        parts := parts + [ArtifactPart(kind, Some(record))];
        return true;
      case Reasoning(index, start, end, block) =>
        var bytes := BlockBytes(block);
        if responseId.None? || responseId.value == [] || rawCount == 0 || !SoundBlock(block)
           || index >= MAX_PARTS || index in reasoningIndexes
           || start < 1 || end <= start || end > MAX_RECORDS
           || bytes > BLOCK_BYTES || bytes > REASONING_TOTAL - reasoningBytes {
          return false;
        }
        parts := parts + [ArtifactPart(RECEIPT_KIND, None)];
        receipts := receipts + [Receipt(names.generation, names.message, responseId.value, names.model, returnedModel,
                                        index, start, end, rawCount, rawBytes, block)];
        reasoningBytes := reasoningBytes + bytes;
        reasoningIndexes := reasoningIndexes + {index};
        return true;
    }
  }

  /** The adapter's records through the normalizer, and its events through the loop: a run is
      the one `Play` defines, refused where it is. */
  method Generate(names: Names, items: seq<Item>, parses: Text -> bool) returns (ok: bool, stream: Stream, events: EventLoop)
    ensures var l := Play(names, START, Begin(names), items, parses);
      ok == l.Live? && (ok ==> l == Live(stream.Current(), events.Current()))
  {
    hide Play, Accept, Handle, HandleAll;
    stream := new Stream(parses);
    events := new EventLoop(names);
    var i := 0;
    assert items[0..] == items;
    while i < |items|
      invariant i <= |items| && fresh(stream) && fresh(events) && stream.parses == parses && events.names == names
      invariant Play(names, START, Begin(names), items, parses) == Play(names, stream.Current(), events.Current(), items[i..], parses)
      decreases |items| - i
    {
      PlayNext(names, stream.Current(), events.Current(), items, i, parses);
      if items[i].Chunk? {
        events.Retain(items[i].bytes);
      } else {
        ghost var before := events.Current();
        var accepted, es := stream.Take(items[i].data);
        if !accepted {
          return false, stream, events;
        }
        ghost var accepting := stream.Current();
        var k := 0;
        assert es[0..] == es;
        while k < |es|
          invariant k <= |es| && fresh(stream) && fresh(events) && events.names == names && stream.Current() == accepting
          invariant HandleAll(names, before, es) == HandleAll(names, events.Current(), es[k..])
          decreases |es| - k
        {
          HandleNext(names, events.Current(), es, k);
          var taken := events.Take(es[k]);
          if !taken {
            return false, stream, events;
          }
          k := k + 1;
        }
        HandleNext(names, events.Current(), es, k);
      }
      i := i + 1;
    }
    PlayNone(names, stream.Current(), events.Current(), parses);
    assert items[i..] == [];
    return true, stream, events;
  }

  lemma PlayNext(names: Names, s: State, g: Loop, items: seq<Item>, i: nat, parses: Text -> bool)
    requires i < |items|
    ensures Play(names, s, g, items[i..], parses) ==
      if items[i].Chunk? then Play(names, s, StoreChunk(g, items[i].bytes), items[i + 1..], parses)
      else
        var one := Accept(s, items[i].data, parses);
        if one.Rejected? then Refused(true)
        else
          var handled := HandleAll(names, g, one.events);
          if handled.None? then Refused(false) else Play(names, one.state, handled.value, items[i + 1..], parses)
  {
    hide Accept, HandleAll;
    assert items[i..][1..] == items[i + 1..];
  }

  lemma HandleNext(names: Names, g: Loop, es: seq<Event>, k: nat)
    requires k <= |es|
    ensures HandleAll(names, g, es[k..]) ==
      if k == |es| then Some(g)
      else var one := Handle(names, g, es[k]); if one.None? then None else HandleAll(names, one.value, es[k + 1..])
  {
    hide Handle;
    if k < |es| {
      assert es[k..][1..] == es[k + 1..];
    }
  }
}
