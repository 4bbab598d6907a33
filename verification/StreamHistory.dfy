/** The normalizer of packages/providers/src/normalize.ts told by the whole history of a stream:
    which record may come next, and what it gives, by what came before. */
module StreamHistory {
  import opened Common
  import opened Utf16
  import opened ByteCounts
  import opened Normalizer

  type Records = seq<Data>

  // ----- what has come -----

  predicate Started(ds: Records) { exists d :: d in ds && d.MessageStart? }

  predicate Ended(ds: Records) { MessageStop in ds }

  predicate Stopped(ds: Records, i: nat) { BlockStop(Some(i)) in ds }

  /** The block begun under an index. */
  function BlockOf(ds: Records, i: nat): Option<BlockData> {
    if ds == [] then None
    else
      var last := ds[|ds| - 1];
      if last.BlockStart? && last.index == Some(i) then Some(last.block) else BlockOf(ds[..|ds| - 1], i)
  }

  predicate Open(ds: Records, i: nat) { BlockOf(ds, i).Some? && !Stopped(ds, i) }

  predicate IsTool(ds: Records, i: nat) { BlockOf(ds, i).Some? && BlockOf(ds, i).value.ToolBlock? }

  predicate IsThought(ds: Records, i: nat) { BlockOf(ds, i).Some? && (BlockOf(ds, i).value.ThinkingBlock? || BlockOf(ds, i).value.RedactedBlock?) }

  function OpenTools(ds: Records): set<nat> { set i: nat | i < 4096 && Open(ds, i) && IsTool(ds, i) }

  function OpenThoughts(ds: Records): set<nat> { set i: nat | i < 4096 && Open(ds, i) && IsThought(ds, i) }

  /** The record, counted from 1, that began the block. */
  function StartOf(ds: Records, i: nat): nat {
    if ds == [] then 0
    else
      var last := ds[|ds| - 1];
      if last.BlockStart? && last.index == Some(i) then |ds| else StartOf(ds[..|ds| - 1], i)
  }

  /** The last stop reason. */
  function Reason(ds: Records): Text {
    if ds == [] then []
    else
      var last := ds[|ds| - 1];
      if last.MessageDelta? && last.stop.Some? then OrEmpty(Bounded(last.stop.value, 128)) else Reason(ds[..|ds| - 1])
  }

  /** What one record adds to a block's arguments, thinking or signature. */
  function Fragment(d: Data, i: nat): Text {
    if d.BlockDelta? && d.index == Some(i) && d.delta.JsonDelta? then OrEmpty(d.delta.text) else []
  }

  function Thought(d: Data, i: nat): Text {
    if d.BlockStart? && d.index == Some(i) && d.block.ThinkingBlock? then d.block.thinking
    else if d.BlockDelta? && d.index == Some(i) && d.delta.ThinkingDelta? then OrEmpty(d.delta.text) else []
  }

  function Seal(d: Data, i: nat): Text {
    if d.BlockStart? && d.index == Some(i) && d.block.ThinkingBlock? then d.block.signature
    else if d.BlockDelta? && d.index == Some(i) && d.delta.SignatureDelta? then OrEmpty(d.delta.text) else []
  }

  /** All of it so far. */
  function Arguments(ds: Records, i: nat): Text { if ds == [] then [] else Arguments(ds[..|ds| - 1], i) + Fragment(ds[|ds| - 1], i) }

  function Thinking(ds: Records, i: nat): Text { if ds == [] then [] else Thinking(ds[..|ds| - 1], i) + Thought(ds[|ds| - 1], i) }

  function Signature(ds: Records, i: nat): Text { if ds == [] then [] else Signature(ds[..|ds| - 1], i) + Seal(ds[|ds| - 1], i) }

  /** Its signature has begun: nothing more may be thought. */
  predicate Signing(ds: Records, i: nat) {
    exists d :: d in ds && (Seal(d, i) != [] || (d.BlockDelta? && d.index == Some(i) && d.delta.SignatureDelta?))
  }

  function BlockSoFar(ds: Records, i: nat): Block
    requires IsThought(ds, i)
  {
    match BlockOf(ds, i).value
    case RedactedBlock(data) => Redacted(data)
    case _ => Block.Thinking(Thinking(ds, i), Signature(ds, i))
  }

  // ----- what has been charged -----

  /** Bytes of arguments, fragment by fragment. */
  function ArgumentCost(ds: Records, i: nat): nat { if ds == [] then 0 else ArgumentCost(ds[..|ds| - 1], i) + Utf8Length(Fragment(ds[|ds| - 1], i)) }

  /** Bytes one record adds to a thinking block as JSON. */
  function ThoughtCost(d: Data, i: nat): nat {
    if d.BlockStart? && d.index == Some(i) then
      match d.block
      case ThinkingBlock(thinking, signature) => BlockBytes(Block.Thinking(thinking, signature))
      case RedactedBlock(data) => BlockBytes(Redacted(data))
      case _ => 0
    else if d.BlockDelta? && d.index == Some(i) && (d.delta.ThinkingDelta? || d.delta.SignatureDelta?) then JsonBody(OrEmpty(d.delta.text))
    else 0
  }

  function BlockCost(ds: Records, i: nat): nat { if ds == [] then 0 else BlockCost(ds[..|ds| - 1], i) + ThoughtCost(ds[|ds| - 1], i) }

  /** Over the whole stream; what is not about a thinking block is not charged. */
  function Spent(ds: Records): nat {
    if ds == [] then 0
    else
      var front, last := ds[..|ds| - 1], ds[|ds| - 1];
      Spent(front) + (if (last.BlockStart? || last.BlockDelta?) && last.index.Some? && IsThought(ds, last.index.value)
                      then ThoughtCost(last, last.index.value) else 0)
  }

  /** Bytes of arguments charged, less the joined arguments of the calls that are finished. */
  function Buffered(ds: Records): int {
    if ds == [] then 0
    else
      var front, last := ds[..|ds| - 1], ds[|ds| - 1];
      if last.BlockDelta? && last.index.Some? && IsTool(front, last.index.value) then Buffered(front) + Utf8Length(Fragment(last, last.index.value))
      else if last.BlockStop? && last.index.Some? && IsTool(front, last.index.value) then Buffered(front) - Utf8Length(Arguments(front, last.index.value))
      else Buffered(front)
  }

  // ----- what may come next -----

  predicate FitsThought(ds: Records, bytes: nat) { |OpenThoughts(ds)| < 64 && bytes <= 262144 && bytes <= 1048576 - Spent(ds) }

  predicate AllowsStart(ds: Records, block: BlockData) {
    match block
    case TextBlock(text) => text.Some?
    case ToolBlock(_, _) => |OpenTools(ds)| < 64
    case ThinkingBlock(thinking, signature) => FitsThought(ds, BlockBytes(Block.Thinking(thinking, signature)))
    case RedactedBlock(data) => data != [] && FitsThought(ds, BlockBytes(Redacted(data)))
    case OtherBlock(_) => true
    case MalformedBlock => false
  }

  predicate AllowsDelta(ds: Records, i: nat, delta: DeltaData)
    requires BlockOf(ds, i).Some?
  {
    match BlockOf(ds, i).value
    case RedactedBlock(_) => false
    case ThinkingBlock(_, _) =>
      && (delta.SignatureDelta? || (delta.ThinkingDelta? && !Signing(ds, i))) && delta.text.Some?
      && var bytes := JsonBody(delta.text.value);
        bytes + 2 <= 262144 && bytes <= 262144 - BlockCost(ds, i) && bytes <= 1048576 - Spent(ds)
    case ToolBlock(_, _) =>
      !delta.MalformedDelta? && (delta.CitationDelta? ==> delta.valid)
      && (delta.JsonDelta? ==>
            delta.text.Some?
            && var bytes := Utf8Length(delta.text.value); Buffered(ds) + bytes <= 1048576 && ArgumentCost(ds, i) + bytes <= 262144)
    case TextBlock(_) => !delta.MalformedDelta? && (delta.CitationDelta? ==> delta.valid) && (delta.TextDelta? ==> delta.text.Some?)
    case _ => !delta.MalformedDelta? && (delta.CitationDelta? ==> delta.valid)
  }

  predicate AllowsStop(ds: Records, i: nat, parses: Text -> bool)
    requires BlockOf(ds, i).Some?
  {
    match BlockOf(ds, i).value
    case ToolBlock(id, name) =>
      && id.Some? && 0 < |id.value| <= 512 && name.Some? && 0 < |name.value| <= 128
      && (Arguments(ds, i) != [] ==> parses(Arguments(ds, i)))
    case ThinkingBlock(_, _) => Signature(ds, i) != []
    case _ => true
  }

  ghost predicate Allows(ds: Records, d: Data, parses: Text -> bool) {
    && !Ended(ds) && |ds| < 100000 && (d.Ping? || (d.MessageStart? <==> !Started(ds)))
    && match d
       case Malformed => false
       case Ping => true
       case MessageStart(id, _, usage) => id.Some? && 0 < |id.value| <= 4096 && usage != BadUsage
       case BlockStart(index, block) => index.Some? && index.value < 4096 && BlockOf(ds, index.value).None? && AllowsStart(ds, block)
       case BlockDelta(index, delta) => index.Some? && Open(ds, index.value) && AllowsDelta(ds, index.value, delta)
       case BlockStop(index) => index.Some? && Open(ds, index.value) && AllowsStop(ds, index.value, parses)
       case MessageDelta(_, usage) => usage != BadUsage
       case MessageStop => Reason(ds) != [] && forall i :: !Open(ds, i)
       case OtherEvent(_) => true
  }

  // ----- what it gives -----

  function GivesStart(ds: Records, i: nat, block: BlockData): seq<Event> {
    match block
    case TextBlock(text) => TextEvents(i, OrEmpty(text))
    case ThinkingBlock(_, _) => [Marker(false), Artifact("thinking", |ds| + 1)]
    case RedactedBlock(_) => [Marker(true), Artifact("redacted_thinking", |ds| + 1)]
    case OtherBlock(kind) => [Artifact(kind, |ds| + 1)]
    case _ => []
  }

  function GivesDelta(ds: Records, i: nat, delta: DeltaData): seq<Event>
    requires BlockOf(ds, i).Some?
  {
    match delta
    case TextDelta(text) => if BlockOf(ds, i).value.TextBlock? then TextEvents(i, OrEmpty(text)) else [Artifact("text_delta", |ds| + 1)]
    case JsonDelta(_) => if BlockOf(ds, i).value.ToolBlock? then [] else [Artifact("input_json_delta", |ds| + 1)]
    case ThinkingDelta(_) => [Artifact("thinking_delta", |ds| + 1)]
    case SignatureDelta(_) => [Artifact("signature_delta", |ds| + 1)]
    case CitationDelta(_) => [Citation]
    case OtherDelta(kind) => [Artifact(kind, |ds| + 1)]
    case MalformedDelta => []
  }

  function GivesStop(ds: Records, i: nat): seq<Event>
    requires BlockOf(ds, i).Some?
  {
    match BlockOf(ds, i).value
    case ToolBlock(id, name) => [ToolCall(OrEmpty(id), OrEmpty(name), Arguments(ds, i))]
    case ThinkingBlock(_, _) => [Reasoning(i, StartOf(ds, i), |ds| + 1, BlockSoFar(ds, i))]
    case RedactedBlock(_) => [Reasoning(i, StartOf(ds, i), |ds| + 1, BlockSoFar(ds, i))]
    case _ => []
  }

  function UsageEvents(usage: Usage): seq<Event> { if usage == GoodUsage then [UsageEvent] else [] }

  ghost function Gives(ds: Records, d: Data): seq<Event>
    requires d.BlockDelta? || d.BlockStop? ==> d.index.Some? && BlockOf(ds, d.index.value).Some?
    requires d.BlockStart? ==> d.index.Some?
  {
    match d
    case MessageStart(id, model, usage) =>
      [Metadata(OrEmpty(id), if model.Some? && 0 < |model.value| <= 4096 then model else None)] + UsageEvents(usage)
    case BlockStart(index, block) => GivesStart(ds, index.value, block)
    case BlockDelta(index, delta) => GivesDelta(ds, index.value, delta)
    case BlockStop(index) => GivesStop(ds, index.value)
    case MessageDelta(_, usage) => UsageEvents(usage)
    case OtherEvent(kind) => [Artifact(kind, |ds| + 1)]
    case _ => []
  }

  // ----- the state is the history -----

  function KindOf(block: BlockData): Kind {
    match block
    case TextBlock(_) => TextKind
    case ToolBlock(_, _) => ToolKind
    case ThinkingBlock(_, _) => ThinkingKind
    case RedactedBlock(_) => RedactedKind
    case _ => OtherKind
  }

  function ToolSoFar(ds: Records, i: nat): Tool
    requires IsTool(ds, i)
  {
    var b := BlockOf(ds, i).value;
    Tool(OrEmpty(Bounded(b.id, 512)), OrEmpty(Bounded(b.name, 128)), Arguments(ds, i), ArgumentCost(ds, i))
  }

  function CaptureSoFar(ds: Records, i: nat): Capture
    requires IsThought(ds, i)
  {
    Capture(BlockSoFar(ds, i), BlockCost(ds, i), StartOf(ds, i), Signing(ds, i))
  }

  ghost predicate BlockTold(s: State, ds: Records, i: nat) {
    && (i in s.blocks <==> BlockOf(ds, i).Some?)
    && (i in s.blocks ==> i < 4096 && s.blocks[i] == BlockState(KindOf(BlockOf(ds, i).value), Stopped(ds, i)))
    && (i in s.tools <==> Open(ds, i) && IsTool(ds, i)) && (i in s.tools ==> s.tools[i] == ToolSoFar(ds, i))
    && (i in s.reasoning <==> Open(ds, i) && IsThought(ds, i)) && (i in s.reasoning ==> s.reasoning[i] == CaptureSoFar(ds, i))
  }

  /** Nothing has been about this index before its block. */
  ghost predicate Fresh(ds: Records, i: nat) {
    BlockOf(ds, i).None? ==>
      && !Stopped(ds, i) && Arguments(ds, i) == [] && Thinking(ds, i) == [] && Signature(ds, i) == [] && !Signing(ds, i)
      && ArgumentCost(ds, i) == 0 && BlockCost(ds, i) == 0
  }

  ghost predicate Told(s: State, ds: Records) {
    && s.records == |ds| && s.started == Started(ds) && s.ended == Ended(ds) && s.stopped == (Reason(ds) != [])
    && s.toolBytes == Buffered(ds) && s.reasoningBytes == Spent(ds) && (!s.started ==> s.model.None?)
    && forall i :: BlockTold(s, ds, i) && Fresh(ds, i)
  }

  // ----- one more record -----

  lemma TextsMore(ds: Records, d: Data, i: nat)
    ensures Arguments(ds + [d], i) == Arguments(ds, i) + Fragment(d, i)
    ensures Thinking(ds + [d], i) == Thinking(ds, i) + Thought(d, i)
    ensures Signature(ds + [d], i) == Signature(ds, i) + Seal(d, i)
    ensures ArgumentCost(ds + [d], i) == ArgumentCost(ds, i) + Utf8Length(Fragment(d, i))
    ensures BlockCost(ds + [d], i) == BlockCost(ds, i) + ThoughtCost(d, i)
  {
    hide Fragment, Thought, Seal, ThoughtCost, Utf8Length;
    assert (ds + [d])[..|ds|] == ds;
  }

  lemma BlocksMore(ds: Records, d: Data, i: nat)
    ensures BlockOf(ds + [d], i) == if d.BlockStart? && d.index == Some(i) then Some(d.block) else BlockOf(ds, i)
    ensures StartOf(ds + [d], i) == if d.BlockStart? && d.index == Some(i) then |ds| + 1 else StartOf(ds, i)
    ensures Stopped(ds + [d], i) == (Stopped(ds, i) || d == BlockStop(Some(i)))
    ensures Signing(ds + [d], i) == (Signing(ds, i) || Seal(d, i) != [] || (d.BlockDelta? && d.index == Some(i) && d.delta.SignatureDelta?))
  {
    hide Seal;
    assert (ds + [d])[..|ds|] == ds;
    assert forall e :: e in ds + [d] <==> e in ds || e == d;
  }

  lemma ChargesMore(ds: Records, d: Data)
    ensures Started(ds + [d]) == (Started(ds) || d.MessageStart?) && Ended(ds + [d]) == (Ended(ds) || d == MessageStop)
    ensures Reason(ds + [d]) == if d.MessageDelta? && d.stop.Some? then OrEmpty(Bounded(d.stop.value, 128)) else Reason(ds)
    ensures Spent(ds + [d]) == Spent(ds) + (if (d.BlockStart? || d.BlockDelta?) && d.index.Some? && IsThought(ds + [d], d.index.value)
                                            then ThoughtCost(d, d.index.value) else 0)
    ensures Buffered(ds + [d]) ==
      if d.BlockDelta? && d.index.Some? && IsTool(ds, d.index.value) then Buffered(ds) + Utf8Length(Fragment(d, d.index.value))
      else if d.BlockStop? && d.index.Some? && IsTool(ds, d.index.value) then Buffered(ds) - Utf8Length(Arguments(ds, d.index.value))
      else Buffered(ds)
  {
    hide ThoughtCost, Utf8Length, Fragment, Arguments, IsThought, IsTool;
    assert (ds + [d])[..|ds|] == ds;
    assert forall e :: e in ds + [d] <==> e in ds || e == d;
  }

  /** A record about one index leaves the others as they were. */
  predicate About(d: Data, i: nat) { (d.BlockStart? || d.BlockDelta? || d.BlockStop?) && d.index == Some(i) }

  lemma OthersStay(ds: Records, d: Data, i: nat)
    requires !About(d, i)
    ensures BlockOf(ds + [d], i) == BlockOf(ds, i) && Stopped(ds + [d], i) == Stopped(ds, i) && StartOf(ds + [d], i) == StartOf(ds, i)
    ensures Arguments(ds + [d], i) == Arguments(ds, i) && ArgumentCost(ds + [d], i) == ArgumentCost(ds, i)
    ensures Thinking(ds + [d], i) == Thinking(ds, i) && Signature(ds + [d], i) == Signature(ds, i) && BlockCost(ds + [d], i) == BlockCost(ds, i)
    ensures Signing(ds + [d], i) == Signing(ds, i)
  {
    hide Arguments, Thinking, Signature, ArgumentCost, BlockCost, BlockOf, StartOf, Stopped, Signing;
    TextsMore(ds, d, i);
    BlocksMore(ds, d, i);
    assert Utf8Length([]) == 0;
    assert Arguments(ds, i) + [] == Arguments(ds, i) && Thinking(ds, i) + [] == Thinking(ds, i) && Signature(ds, i) + [] == Signature(ds, i);
  }

  /** So what is told of them stays told. */
  lemma OthersTold(s: State, t: State, ds: Records, d: Data, i: nat)
    requires BlockTold(s, ds, i) && Fresh(ds, i) && !About(d, i)
    requires (i in t.blocks <==> i in s.blocks) && (i in s.blocks ==> t.blocks[i] == s.blocks[i])
    requires (i in t.tools <==> i in s.tools) && (i in s.tools ==> t.tools[i] == s.tools[i])
    requires (i in t.reasoning <==> i in s.reasoning) && (i in s.reasoning ==> t.reasoning[i] == s.reasoning[i])
    ensures BlockTold(t, ds + [d], i) && Fresh(ds + [d], i)
  {
    hide Arguments, Thinking, Signature, ArgumentCost, BlockCost, BlockOf, StartOf, Stopped, Signing;
    OthersStay(ds, d, i);
  }

  /** A step is the history's next: taken exactly when the history allows it, and told by it. */
  ghost predicate Follows(s: State, ds: Records, d: Data, parses: Text -> bool) {
    var one := Accept(s, d, parses);
    && (one.Accepted? <==> Allows(ds, d, parses))
    && (one.Accepted? ==> Told(one.state, ds + [d]) && one.events == Gives(ds, d))
  }

  lemma PlainFollows(s: State, ds: Records, d: Data, parses: Text -> bool)
    requires Told(s, ds) && !d.BlockStart? && !d.BlockDelta? && !d.BlockStop?
    ensures Follows(s, ds, d, parses)
  {
    hide BlockOf, Fresh, BlockTold, IsThought, IsTool, Reason, Buffered, Spent, Arguments, ThoughtCost, Started, Ended;
    var one := Accept(s, d, parses);
    ChargesMore(ds, d);
    if d == MessageStop {
      forall i ensures Open(ds, i) <==> i in s.blocks && !s.blocks[i].closed
      {
        BlocksTell(s, ds, i);
      }
    }
    if one.Accepted? {
      forall i ensures BlockTold(one.state, ds + [d], i) && Fresh(ds + [d], i)
      {
        OthersTold(s, one.state, ds, d, i);
      }
    }
  }

  lemma BlocksTell(s: State, ds: Records, i: nat)
    requires BlockTold(s, ds, i)
    ensures Open(ds, i) <==> i in s.blocks && !s.blocks[i].closed
    ensures i in s.blocks <==> BlockOf(ds, i).Some?
    ensures i in s.blocks ==> s.blocks[i].kind == KindOf(BlockOf(ds, i).value)
  {
    hide BlockOf, Stopped, IsTool, IsThought, ToolSoFar, CaptureSoFar;
  }

  lemma OpenSets(s: State, ds: Records)
    requires Told(s, ds)
    ensures |s.tools| == |OpenTools(ds)| && |s.reasoning| == |OpenThoughts(ds)|
  {
    hide BlockOf, Stopped, Fresh, ToolSoFar, CaptureSoFar, Buffered, Spent, Reason;
    forall i: nat ensures i in s.tools <==> i in OpenTools(ds)
      ensures i in s.reasoning <==> i in OpenThoughts(ds)
    {
      assert BlockTold(s, ds, i);
    }
    assert s.tools.Keys == OpenTools(ds) && s.reasoning.Keys == OpenThoughts(ds);
  }

  /** What a block is when it has just begun. */
  lemma JustBegun(ds: Records, d: Data, i: nat)
    requires d.BlockStart? && d.index == Some(i) && BlockOf(ds, i).None? && Fresh(ds, i)
    ensures BlockOf(ds + [d], i) == Some(d.block) && !Stopped(ds + [d], i) && StartOf(ds + [d], i) == |ds| + 1
    ensures Arguments(ds + [d], i) == [] && ArgumentCost(ds + [d], i) == 0 && BlockCost(ds + [d], i) == ThoughtCost(d, i)
    ensures Thinking(ds + [d], i) == (if d.block.ThinkingBlock? then d.block.thinking else [])
    ensures Signature(ds + [d], i) == (if d.block.ThinkingBlock? then d.block.signature else [])
    ensures Signing(ds + [d], i) == (d.block.ThinkingBlock? && d.block.signature != [])
  {
    hide Arguments, Thinking, Signature, ArgumentCost, BlockCost, BlockOf, StartOf, Stopped, Signing, ThoughtCost;
    TextsMore(ds, d, i);
    BlocksMore(ds, d, i);
    assert Utf8Length([]) == 0;
    if d.block.ThinkingBlock? {
      assert [] + d.block.thinking == d.block.thinking && [] + d.block.signature == d.block.signature;
    }
  }

  lemma BegunTold(t: State, ds: Records, d: Data, i: nat)
    requires d.BlockStart? && d.index == Some(i) && i < 4096 && BlockOf(ds, i).None? && Fresh(ds, i)
    requires i in t.blocks && t.blocks[i] == BlockState(KindOf(d.block), false)
    requires i in t.tools <==> d.block.ToolBlock?
    requires d.block.ToolBlock? ==> t.tools[i] == Tool(OrEmpty(Bounded(d.block.id, 512)), OrEmpty(Bounded(d.block.name, 128)), [], 0)
    requires i in t.reasoning <==> d.block.ThinkingBlock? || d.block.RedactedBlock?
    requires d.block.ThinkingBlock? ==>
      t.reasoning[i] == Capture(Block.Thinking(d.block.thinking, d.block.signature), ThoughtCost(d, i), |ds| + 1, d.block.signature != [])
    requires d.block.RedactedBlock? ==> t.reasoning[i] == Capture(Redacted(d.block.data), ThoughtCost(d, i), |ds| + 1, false)
    ensures BlockTold(t, ds + [d], i) && Fresh(ds + [d], i)
  {
    hide Arguments, Thinking, Signature, ArgumentCost, BlockCost, BlockOf, StartOf, Stopped, Signing, ThoughtCost;
    JustBegun(ds, d, i);
  }

  lemma StartGives(s: State, ds: Records, d: Data, parses: Text -> bool)
    requires Told(s, ds) && d.BlockStart?
    ensures var one := Accept(s, d, parses);
      (one.Accepted? <==> Allows(ds, d, parses)) && (one.Accepted? ==> one.events == Gives(ds, d))
  {
    hide BlockOf, Fresh, BlockTold, Reason, Buffered, Spent, BlockBytes, Started, Ended, OpenTools, OpenThoughts, TextEvents;
    OpenSets(s, ds);
    if d.index.Some? {
      assert BlockTold(s, ds, d.index.value);
      BlocksTell(s, ds, d.index.value);
    }
  }

  /** What beginning a block changes of the state. */
  lemma StartMoves(s: State, d: Data, parses: Text -> bool)
    requires d.BlockStart? && Accept(s, d, parses).Accepted?
    ensures var t, i, b := Accept(s, d, parses).state, d.index.value, d.block;
      && i < 4096 && s.started && t.records == s.records + 1 && t.started && t.ended == s.ended && t.stopped == s.stopped
      && t.toolBytes == s.toolBytes
      && t.reasoningBytes == s.reasoningBytes + (if b.ThinkingBlock? || b.RedactedBlock? then ThoughtCost(d, i) else 0)
      && t.blocks == s.blocks[i := BlockState(KindOf(b), false)]
      && t.tools == (if b.ToolBlock? then s.tools[i := Tool(OrEmpty(Bounded(b.id, 512)), OrEmpty(Bounded(b.name, 128)), [], 0)] else s.tools)
      && (b.ThinkingBlock? ==>
            t.reasoning == s.reasoning[i := Capture(Block.Thinking(b.thinking, b.signature), ThoughtCost(d, i), s.records + 1, b.signature != [])])
      && (b.RedactedBlock? ==> t.reasoning == s.reasoning[i := Capture(Redacted(b.data), ThoughtCost(d, i), s.records + 1, false)])
      && (!b.ThinkingBlock? && !b.RedactedBlock? ==> t.reasoning == s.reasoning)
  {
    hide BlockBytes, TextEvents;
  }

  lemma StartTold(s: State, ds: Records, d: Data, parses: Text -> bool)
    requires Told(s, ds) && d.BlockStart? && d.index.Some? && Accept(s, d, parses).Accepted? && BlockOf(ds, d.index.value).None?
    ensures Told(Accept(s, d, parses).state, ds + [d])
  {
    hide BlockOf, Fresh, BlockTold, Reason, Buffered, Spent, Started, Ended, ThoughtCost, Accept, Arguments;
    StartMoves(s, d, parses);
    ChargesMore(ds, d);
    var t, i := Accept(s, d, parses).state, d.index.value;
    assert BlockTold(s, ds, i) && Fresh(ds, i);
    BlocksMore(ds, d, i);
    NoToolNorThought(s, ds, i);
    BegunTold(t, ds, d, i);
    forall j | j != i
      ensures BlockTold(t, ds + [d], j) && Fresh(ds + [d], j)
    {
      assert BlockTold(s, ds, j) && Fresh(ds, j);
      OthersTold(s, t, ds, d, j);
    }
  }

  lemma NoToolNorThought(s: State, ds: Records, i: nat)
    requires BlockTold(s, ds, i) && BlockOf(ds, i).None?
    ensures i !in s.blocks && i !in s.tools && i !in s.reasoning
  {
    hide BlockOf, Stopped;
  }

  lemma StartFollows(s: State, ds: Records, d: Data, parses: Text -> bool)
    requires Told(s, ds) && d.BlockStart?
    ensures Follows(s, ds, d, parses)
  {
    StartGives(s, ds, d, parses);
    hide BlockOf, Told, Accept, Gives;
    if Accept(s, d, parses).Accepted? {
      StartTold(s, ds, d, parses);
    }
  }

  // ----- deltas -----

  lemma DeltaGives(s: State, ds: Records, d: Data, parses: Text -> bool)
    requires Told(s, ds) && d.BlockDelta?
    ensures var one := Accept(s, d, parses);
      (one.Accepted? <==> Allows(ds, d, parses)) && (one.Accepted? ==> one.events == Gives(ds, d))
  {
    hide BlockOf, Fresh, Reason, Buffered, Spent, JsonBody, Utf8Length, Started, Ended, OpenTools, OpenThoughts, TextEvents,
      Arguments, ArgumentCost, BlockCost, Thinking, Signature, Signing, StartOf, Stopped;
    if d.index.Some? {
      assert BlockTold(s, ds, d.index.value);
      BlocksTell(s, ds, d.index.value);
    }
  }

  /** What a delta changes of the state. */
  lemma DeltaMoves(s: State, d: Data, parses: Text -> bool)
    requires d.BlockDelta? && Accept(s, d, parses).Accepted?
    ensures var t, i := Accept(s, d, parses).state, d.index.value;
      && i in s.blocks && s.started && t.records == s.records + 1 && t.started && t.ended == s.ended && t.stopped == s.stopped && t.blocks == s.blocks
      && (if s.blocks[i].kind == ToolKind && d.delta.JsonDelta? then
            && i in s.tools && t.toolBytes == s.toolBytes + Utf8Length(OrEmpty(d.delta.text))
            && t.tools == s.tools[i := s.tools[i].(bytes := s.tools[i].bytes + Utf8Length(OrEmpty(d.delta.text)),
                                                   arguments := s.tools[i].arguments + OrEmpty(d.delta.text))]
          else t.tools == s.tools && t.toolBytes == s.toolBytes)
      && (if s.blocks[i].kind in {ThinkingKind, RedactedKind} then
            && i in s.reasoning && s.reasoning[i].block.Thinking? && t.reasoningBytes == s.reasoningBytes + JsonBody(OrEmpty(d.delta.text))
            && (d.delta.SignatureDelta? || d.delta.ThinkingDelta?)
            && t.reasoning == s.reasoning[i := Grown(s.reasoning[i], d.delta.SignatureDelta?, OrEmpty(d.delta.text))]
          else t.reasoning == s.reasoning && t.reasoningBytes == s.reasoningBytes)
  {
    hide JsonBody, Utf8Length, TextEvents;
  }

  function Grown(c: Capture, signature: bool, text: Text): Capture
    requires c.block.Thinking?
  {
    Capture(if signature then c.block.(signature := c.block.signature + text) else c.block.(thinking := c.block.thinking + text),
            c.bytes + JsonBody(text), c.start, c.signing || signature)
  }

  /** What a delta adds to its block. */
  lemma JustGrown(ds: Records, d: Data, i: nat)
    requires d.BlockDelta? && d.index == Some(i)
    ensures BlockOf(ds + [d], i) == BlockOf(ds, i) && Stopped(ds + [d], i) == Stopped(ds, i) && StartOf(ds + [d], i) == StartOf(ds, i)
    ensures var text := OrEmpty(if d.delta.TextDelta? || d.delta.JsonDelta? || d.delta.ThinkingDelta? || d.delta.SignatureDelta? then d.delta.text else None);
      && Arguments(ds + [d], i) == (if d.delta.JsonDelta? then Arguments(ds, i) + text else Arguments(ds, i))
      && ArgumentCost(ds + [d], i) == (if d.delta.JsonDelta? then ArgumentCost(ds, i) + Utf8Length(text) else ArgumentCost(ds, i))
      && Thinking(ds + [d], i) == (if d.delta.ThinkingDelta? then Thinking(ds, i) + text else Thinking(ds, i))
      && Signature(ds + [d], i) == (if d.delta.SignatureDelta? then Signature(ds, i) + text else Signature(ds, i))
      && BlockCost(ds + [d], i) == (if d.delta.ThinkingDelta? || d.delta.SignatureDelta? then BlockCost(ds, i) + JsonBody(text) else BlockCost(ds, i))
      && Signing(ds + [d], i) == (Signing(ds, i) || d.delta.SignatureDelta?)
  {
    hide Arguments, Thinking, Signature, ArgumentCost, BlockCost, BlockOf, StartOf, Stopped, Signing, JsonBody;
    TextsMore(ds, d, i);
    BlocksMore(ds, d, i);
    assert Utf8Length([]) == 0;
    assert Arguments(ds, i) + [] == Arguments(ds, i) && Thinking(ds, i) + [] == Thinking(ds, i) && Signature(ds, i) + [] == Signature(ds, i);
  }

  lemma GrownTold(s: State, t: State, ds: Records, d: Data, i: nat)
    requires BlockTold(s, ds, i) && d.BlockDelta? && d.index == Some(i) && Open(ds, i) && t.blocks == s.blocks
    requires
      if IsTool(ds, i) && d.delta.JsonDelta? then
        i in s.tools && t.tools == s.tools[i := s.tools[i].(bytes := s.tools[i].bytes + Utf8Length(OrEmpty(d.delta.text)),
                                                            arguments := s.tools[i].arguments + OrEmpty(d.delta.text))]
      else t.tools == s.tools
    requires
      if IsThought(ds, i) then
        && i in s.reasoning && s.reasoning[i].block.Thinking? && (d.delta.SignatureDelta? || d.delta.ThinkingDelta?)
        && t.reasoning == s.reasoning[i := Grown(s.reasoning[i], d.delta.SignatureDelta?, OrEmpty(d.delta.text))]
      else t.reasoning == s.reasoning
    ensures BlockTold(t, ds + [d], i) && Fresh(ds + [d], i)
  {
    hide Arguments, Thinking, Signature, ArgumentCost, BlockCost, BlockOf, StartOf, Stopped, Signing, JsonBody, Utf8Length;
    JustGrown(ds, d, i);
  }

  lemma DeltaTold(s: State, ds: Records, d: Data, parses: Text -> bool)
    requires Told(s, ds) && d.BlockDelta? && d.index.Some? && Accept(s, d, parses).Accepted? && Open(ds, d.index.value)
    ensures Told(Accept(s, d, parses).state, ds + [d])
  {
    hide BlockOf, Stopped, Fresh, BlockTold, Reason, Buffered, Spent, Started, Ended, Accept, Arguments, JsonBody, Utf8Length, Grown;
    DeltaMoves(s, d, parses);
    ChargesMore(ds, d);
    var t, i := Accept(s, d, parses).state, d.index.value;
    assert BlockTold(s, ds, i) && Fresh(ds, i);
    BlocksTell(s, ds, i);
    BlocksMore(ds, d, i);
    GrownTold(s, t, ds, d, i);
    NoCost();
    forall j | j != i
      ensures BlockTold(t, ds + [d], j) && Fresh(ds + [d], j)
    {
      assert BlockTold(s, ds, j) && Fresh(ds, j);
      OthersTold(s, t, ds, d, j);
    }
  }

  lemma NoCost()
    ensures Utf8Length([]) == 0
  {
  }

  lemma DeltaFollows(s: State, ds: Records, d: Data, parses: Text -> bool)
    requires Told(s, ds) && d.BlockDelta?
    ensures Follows(s, ds, d, parses)
  {
    DeltaGives(s, ds, d, parses);
    hide BlockOf, Told, Accept, Gives, Stopped, AllowsDelta;
    if Accept(s, d, parses).Accepted? {
      DeltaTold(s, ds, d, parses);
    }
  }

  // ----- stops -----

  lemma StopGives(s: State, ds: Records, d: Data, parses: Text -> bool)
    requires Told(s, ds) && d.BlockStop?
    ensures var one := Accept(s, d, parses);
      (one.Accepted? <==> Allows(ds, d, parses)) && (one.Accepted? ==> one.events == Gives(ds, d))
  {
    hide BlockOf, Fresh, Reason, Buffered, Spent, JsonBody, Utf8Length, Started, Ended, OpenTools, OpenThoughts, TextEvents,
      Arguments, ArgumentCost, BlockCost, Thinking, Signature, Signing, StartOf, Stopped;
    if d.index.Some? {
      assert BlockTold(s, ds, d.index.value);
      BlocksTell(s, ds, d.index.value);
    }
  }

  /** What a stop changes of the state. */
  lemma StopMoves(s: State, d: Data, parses: Text -> bool)
    requires d.BlockStop? && Accept(s, d, parses).Accepted?
    ensures var t, i := Accept(s, d, parses).state, d.index.value;
      && i in s.blocks && s.started && t.records == s.records + 1 && t.started && t.ended == s.ended && t.stopped == s.stopped
      && t.reasoningBytes == s.reasoningBytes && t.blocks == s.blocks[i := BlockState(s.blocks[i].kind, true)]
      && (if s.blocks[i].kind == ToolKind then
            i in s.tools && t.tools == s.tools - {i} && t.toolBytes == s.toolBytes - Utf8Length(s.tools[i].arguments)
          else t.tools == s.tools && t.toolBytes == s.toolBytes)
      && t.reasoning == (if s.blocks[i].kind in {ThinkingKind, RedactedKind} then s.reasoning - {i} else s.reasoning)
  {
    hide JsonBody, Utf8Length, TextEvents;
  }

  lemma StoppedTold(s: State, t: State, ds: Records, d: Data, i: nat)
    requires BlockTold(s, ds, i) && d == BlockStop(Some(i)) && Open(ds, i)
    requires i in s.blocks && t.blocks == s.blocks[i := BlockState(s.blocks[i].kind, true)]
    requires t.tools == (if IsTool(ds, i) then s.tools - {i} else s.tools)
    requires t.reasoning == (if IsThought(ds, i) then s.reasoning - {i} else s.reasoning)
    ensures BlockTold(t, ds + [d], i) && Fresh(ds + [d], i)
  {
    hide Arguments, Thinking, Signature, ArgumentCost, BlockCost, BlockOf, StartOf, Stopped, Signing, JsonBody, Utf8Length;
    BlocksMore(ds, d, i);
  }

  lemma StopTold(s: State, ds: Records, d: Data, parses: Text -> bool)
    requires Told(s, ds) && d.BlockStop? && d.index.Some? && Accept(s, d, parses).Accepted? && Open(ds, d.index.value)
    ensures Told(Accept(s, d, parses).state, ds + [d])
  {
    hide BlockOf, Stopped, Fresh, BlockTold, Reason, Buffered, Spent, Started, Ended, Accept, Arguments, JsonBody, Utf8Length;
    StopMoves(s, d, parses);
    ChargesMore(ds, d);
    var t, i := Accept(s, d, parses).state, d.index.value;
    assert BlockTold(s, ds, i) && Fresh(ds, i);
    BlocksTell(s, ds, i);
    ToolTold(s, ds, i);
    StoppedTold(s, t, ds, d, i);
    forall j | j != i
      ensures BlockTold(t, ds + [d], j) && Fresh(ds + [d], j)
    {
      assert BlockTold(s, ds, j) && Fresh(ds, j);
      OthersTold(s, t, ds, d, j);
    }
  }

  lemma ToolTold(s: State, ds: Records, i: nat)
    requires BlockTold(s, ds, i)
    ensures i in s.tools ==> s.tools[i].arguments == Arguments(ds, i)
  {
    hide BlockOf, Stopped, Arguments;
  }

  lemma StopFollows(s: State, ds: Records, d: Data, parses: Text -> bool)
    requires Told(s, ds) && d.BlockStop?
    ensures Follows(s, ds, d, parses)
  {
    StopGives(s, ds, d, parses);
    hide BlockOf, Told, Accept, Gives, Stopped, AllowsStop;
    if Accept(s, d, parses).Accepted? {
      StopTold(s, ds, d, parses);
    }
  }

  // ----- whole streams -----

  lemma StepFollows(s: State, ds: Records, d: Data, parses: Text -> bool)
    requires Told(s, ds)
    ensures Follows(s, ds, d, parses)
  {
    hide Told, Follows;
    if d.BlockStart? {
      StartFollows(s, ds, d, parses);
    } else if d.BlockDelta? {
      DeltaFollows(s, ds, d, parses);
    } else if d.BlockStop? {
      StopFollows(s, ds, d, parses);
    } else {
      PlainFollows(s, ds, d, parses);
    }
  }

  /** Every record is one the records before it allow. */
  ghost predicate AllAllowed(ds: Records, parses: Text -> bool) { forall k :: 0 <= k < |ds| ==> Allows(ds[..k], ds[k], parses) }

  /** The events of all of them. */
  ghost function GivesAll(ds: Records, parses: Text -> bool): seq<Event>
    requires AllAllowed(ds, parses)
  {
    if ds == [] then []
    else
      var n := |ds| - 1;
      FrontAllowed(ds, parses);
      assert Allows(ds[..n], ds[n], parses);
      GivesAll(ds[..n], parses) + Gives(ds[..n], ds[n])
  }

  lemma FrontAllowed(ds: Records, parses: Text -> bool)
    requires ds != [] && AllAllowed(ds, parses)
    ensures AllAllowed(ds[..|ds| - 1], parses)
  {
    hide Allows;
    var front := ds[..|ds| - 1];
    forall k | 0 <= k < |front|
      ensures Allows(front[..k], front[k], parses)
    {
      assert front[..k] == ds[..k] && front[k] == ds[k];
    }
  }

  lemma {:induction false} RunMore(s: State, front: Records, d: Data, parses: Text -> bool)
    ensures Run(s, front + [d], parses) ==
      var r := Run(s, front, parses);
      if r.Rejected? then Rejected
      else
        var one := Accept(r.state, d, parses);
        if one.Rejected? then Rejected else Accepted(one.state, r.events + one.events)
    decreases |front|
  {
    hide Accept;
    if front == [] {
      assert front + [d] == [d] && [d][1..] == [];
      var one := Accept(s, d, parses);
      assert one.Accepted? ==> one.events + [] == one.events && [] + one.events == one.events;
    } else {
      assert (front + [d])[1..] == front[1..] + [d];
      var one := Accept(s, front[0], parses);
      if one.Accepted? {
        RunMore(one.state, front[1..], d, parses);
        var r := Run(one.state, front[1..], parses);
        if r.Accepted? && Accept(r.state, d, parses).Accepted? {
          assert one.events + (r.events + Accept(r.state, d, parses).events) == one.events + r.events + Accept(r.state, d, parses).events;
        }
      }
    }
  }

  lemma StartTells()
    ensures Told(START, [])
  {
  }

  /** A stream is taken exactly when each of its records is one that those before it allow, and
      then it gives exactly what they say. */
  lemma {:induction false} StreamsAllowed(ds: Records, parses: Text -> bool)
    ensures Run(START, ds, parses).Accepted? <==> AllAllowed(ds, parses)
    ensures Run(START, ds, parses).Accepted? ==>
      Told(Run(START, ds, parses).state, ds) && Run(START, ds, parses).events == GivesAll(ds, parses)
    decreases |ds|
  {
    hide Accept, Told, Allows, Gives;
    if ds == [] {
      StartTells();
    } else {
      var n := |ds| - 1;
      var front := ds[..n];
      assert ds == front + [ds[n]];
      StreamsAllowed(front, parses);
      RunMore(START, front, ds[n], parses);
      if AllAllowed(ds, parses) {
        FrontAllowed(ds, parses);
      }
      if Run(START, front, parses).Accepted? {
        StepFollows(Run(START, front, parses).state, front, ds[n], parses);
        forall k | 0 <= k < |ds| && k < n
          ensures Allows(ds[..k], ds[k], parses)
        {
          assert ds[..k] == front[..k] && ds[k] == front[k];
        }
      }
    }
  }

  // ----- pieces of text -----

  /** The text of text events, joined. */
  function TextGiven(events: seq<Event>): Text
    decreases |events|
  {
    if events == [] then [] else (if events[0].TextEvent? then events[0].text else []) + TextGiven(events[1..])
  }

  /** A text event of the block, of at most 16,384 units; one that others follow is within a
      unit of that. */
  predicate IsPiece(e: Event, key: nat, last: bool) {
    e.TextEvent? && e.key == key && 0 < |e.text| <= 16384 && (!last ==> |e.text| >= 16383)
  }

  predicate Parted(a: Event, b: Event) {
    a.TextEvent? && b.TextEvent? && !SplitsPair(a.text + b.text, |a.text|)
  }

  lemma PiecesFirst(key: nat, text: Text)
    requires text != []
    ensures var es, cut := TextEvents(key, text), |TextEvents(key, text)[0].text|;
      && es[0].TextEvent? && cut <= |text| && es == [TextEvent(key, text[..cut])] + TextEvents(key, text[cut..])
      && 0 < cut <= 16384 && (cut < |text| ==> cut >= 16383 && !SplitsPair(text, cut))
  {
    hide TextEvents;
    var end := Min(16384, |text|);
    var cut := if end < |text| && High(text[end - 1]) then end - 1 else end;
    TextEventsOne(key, text);
    assert TextEvents(key, text)[0] == TextEvent(key, text[..cut]);
  }

  lemma TextEventsOne(key: nat, text: Text)
    requires text != []
    ensures var end := Min(16384, |text|);
      var cut := if end < |text| && High(text[end - 1]) then end - 1 else end;
      0 < cut <= |text| && TextEvents(key, text) == [TextEvent(key, text[..cut])] + TextEvents(key, text[cut..])
    ensures TextEvents(key, []) == []
  {
  }

  /** Text is handed over whole, in such pieces, and no pair of it in two of them. */
  lemma {:induction false} TextPieces(key: nat, text: Text)
    ensures var es := TextEvents(key, text);
      && TextGiven(es) == text
      && (forall k :: 0 <= k < |es| ==> IsPiece(es[k], key, k == |es| - 1))
      && (forall k :: 0 < k < |es| ==> Parted(es[k - 1], es[k]))
    decreases |text|
  {
    hide Parted, TextEvents, SplitsPair;
    if text == [] {
      TextEventsOne(key, [0]);
    } else {
      var es := TextEvents(key, text);
      PiecesFirst(key, text);
      var cut := |es[0].text|;
      var rest := TextEvents(key, text[cut..]);
      TextPieces(key, text[cut..]);
      assert es[1..] == rest && text == text[..cut] + text[cut..];
      if cut < |text| {
        PiecesFirst(key, text[cut..]);
        FirstParted(text, cut, es[0], rest[0]);
      } else {
        assert text[cut..] == [];
        TextEventsOne(key, [0]);
      }
      forall k | 0 < k < |es| ensures IsPiece(es[k], key, k == |es| - 1) && Parted(es[k - 1], es[k]) {
        assert es[k] == rest[k - 1] && (k > 1 ==> es[k - 1] == rest[k - 2]);
      }
    }
  }

  lemma FirstParted(text: Text, cut: nat, a: Event, b: Event)
    requires 0 < cut < |text| && !SplitsPair(text, cut) && a.TextEvent? && a.text == text[..cut]
    requires b.TextEvent? && b.text != [] && b.text[0] == text[cut]
    ensures Parted(a, b)
  {
  }
}
