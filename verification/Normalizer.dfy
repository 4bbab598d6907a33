/** The Anthropic half of packages/providers/src/normalize.ts: parsed stream records in,
    normalized events out. JSON parsing happens before this model. */
module Normalizer {
  import opened Common
  import opened Utf16
  import opened ByteCounts

  type Text = seq<Unit>

  const MAX_RECORDS := 100000
  const MAX_PARTS := 4096
  const MAX_OPEN := 64
  const TOOL_BYTES := 262144
  const TOOL_TOTAL := 1048576
  const BLOCK_BYTES := 262144
  const REASONING_TOTAL := 1048576
  const TEXT_PIECE := 16384
  const STRING_LIMIT := 4096
  const ID_LIMIT := 512
  const NAME_LIMIT := 128

  // ----- records -----

  datatype Usage = NoUsage | GoodUsage | BadUsage

  datatype BlockData =
    | TextBlock(text: Option<Text>)                       // None: present but not a string
    | ToolBlock(id: Option<Text>, name: Option<Text>)     // None: not strings
    | ThinkingBlock(thinking: Text, signature: Text)      // no signature reads as empty
    | RedactedBlock(data: Text)
    | OtherBlock(kind: string)
    | MalformedBlock                                      // wrong shape or unexpected keys

  datatype DeltaData =
    | TextDelta(text: Option<Text>)
    | JsonDelta(text: Option<Text>)
    | ThinkingDelta(text: Option<Text>)                   // None: not exactly this one field
    | SignatureDelta(text: Option<Text>)
    | CitationDelta(valid: bool)
    | OtherDelta(kind: string)
    | MalformedDelta

  datatype Data =
    | Malformed                                           // not an object, an error, a wrong name
    | Ping
    | MessageStart(id: Option<Text>, model: Option<Text>, usage: Usage)
    | BlockStart(index: Option<nat>, block: BlockData)
    | BlockDelta(index: Option<nat>, delta: DeltaData)
    | BlockStop(index: Option<nat>)
    | MessageDelta(stop: Option<Option<Text>>, usage: Usage)
    | MessageStop
    | OtherEvent(kind: string)

  // ----- events -----

  /** A complete provider block. */
  datatype Block = Thinking(thinking: Text, signature: Text) | Redacted(data: Text)

  datatype Event =
    | Metadata(responseId: Text, model: Option<Text>)
    | UsageEvent
    | TextEvent(key: nat, text: Text)
    | Marker(redacted: bool)                              // a ReasoningMetadata part
    | ToolCall(id: Text, name: Text, arguments: Text)     // no arguments: the input given with the block
    | Citation
    | Artifact(kind: string, record: nat)
    | Reasoning(index: nat, start: nat, end: nat, block: Block)

  // ----- state -----

  datatype Kind = TextKind | ToolKind | ThinkingKind | RedactedKind | OtherKind

  datatype BlockState = BlockState(kind: Kind, closed: bool)

  datatype Tool = Tool(id: Text, name: Text, arguments: Text, bytes: nat)

  datatype Capture = Capture(block: Block, bytes: nat, start: nat, signing: bool)

  datatype State = State(responseId: Option<Text>, model: Option<Text>, stopped: bool, started: bool, ended: bool,
                         records: nat, toolBytes: int, reasoningBytes: nat,
                         reasoning: map<nat, Capture>, tools: map<nat, Tool>, blocks: map<nat, BlockState>)

  const START := State(None, None, false, false, false, 0, 0, 0, map[], map[], map[])

  datatype Outcome = Accepted(state: State, events: seq<Event>) | Rejected

  /** Bytes of a complete block as JSON text. */
  function BlockBytes(b: Block): nat {
    match b
    case Thinking(thinking, signature) => 48 + JsonBody(thinking) + JsonBody(signature)
    case Redacted(data) => 38 + JsonBody(data)
  }

  /** Text in pieces of bounded size, not cut behind a high surrogate. */
  function TextEvents(key: nat, text: Text): seq<Event>
    decreases |text|
  {
    if text == [] then []
    else
      var end := Min(TEXT_PIECE, |text|);
      var cut := if end < |text| && High(text[end - 1]) then end - 1 else end;
      [TextEvent(key, text[..cut])] + TextEvents(key, text[cut..])
  }

  /** `string` of types.ts: a value that is no string, or too long a one, reads as missing. */
  function Bounded(t: Option<Text>, limit: nat): (r: Option<Text>)
    ensures r.Some? ==> |r.value| <= limit
  {
    if t.Some? && |t.value| <= limit then t else None
  }

  function OrEmpty(t: Option<Text>): Text { if t.Some? then t.value else [] }

  /** The model a response names, unless it names none. */
  function Renamed(model: Option<Text>, named: Option<Text>): Option<Text> {
    if OrEmpty(Bounded(named, STRING_LIMIT)) != [] then named else model
  }

  function Start(s: State, index: nat, block: BlockData): Outcome {
    match block
    case MalformedBlock => Rejected
    case TextBlock(text) =>
      if text.None? then Rejected
      else Accepted(s.(blocks := s.blocks[index := BlockState(TextKind, false)]), TextEvents(index, text.value))
    case ToolBlock(id, name) =>
      if |s.tools| >= MAX_OPEN then Rejected
      else Accepted(s.(blocks := s.blocks[index := BlockState(ToolKind, false)], tools := s.tools[index := Tool(OrEmpty(Bounded(id, ID_LIMIT)), OrEmpty(Bounded(name, NAME_LIMIT)), [], 0)]), [])
    case ThinkingBlock(thinking, signature) =>
      Capturing(s, index, ThinkingKind, Thinking(thinking, signature), signature != [])
    case RedactedBlock(data) =>
      if data == [] then Rejected else Capturing(s, index, RedactedKind, Redacted(data), false)
    case OtherBlock(kind) =>
      Accepted(s.(blocks := s.blocks[index := BlockState(OtherKind, false)]), [Artifact(kind, s.records)])
  }

  function KindName(b: Block): string { if b.Thinking? then "thinking" else "redacted_thinking" }

  function Capturing(s: State, index: nat, kind: Kind, block: Block, signing: bool): Outcome {
    var bytes := BlockBytes(block);
    if |s.reasoning| >= MAX_OPEN || bytes > BLOCK_BYTES || bytes > REASONING_TOTAL - s.reasoningBytes then Rejected
    else
      Accepted(s.(blocks := s.blocks[index := BlockState(kind, false)],
                  reasoning := s.reasoning[index := Capture(block, bytes, s.records, signing)],
                  reasoningBytes := s.reasoningBytes + bytes),
               [Marker(block.Redacted?), Artifact(KindName(block), s.records)])
  }

  /** A thinking or signature fragment joins its capture, if credit and order allow. */
  function Extend(s: State, index: nat, signature: bool, text: Text): Option<State> {
    if index !in s.reasoning || !s.reasoning[index].block.Thinking? then None
    else
      var c := s.reasoning[index];
      var bytes := JsonBody(text);
      if !signature && c.signing then None
      else if bytes + 2 > BLOCK_BYTES || bytes > BLOCK_BYTES - c.bytes || bytes > REASONING_TOTAL - s.reasoningBytes then None
      else
        var block := if signature then c.block.(signature := c.block.signature + text) else c.block.(thinking := c.block.thinking + text);
        Some(s.(reasoning := s.reasoning[index := Capture(block, c.bytes + bytes, c.start, c.signing || signature)],
                reasoningBytes := s.reasoningBytes + bytes))
  }

  function DeltaName(d: DeltaData): string {
    match d
    case TextDelta(_) => "text_delta"
    case JsonDelta(_) => "input_json_delta"
    case ThinkingDelta(_) => "thinking_delta"
    case SignatureDelta(_) => "signature_delta"
    case CitationDelta(_) => "citations_delta"
    case OtherDelta(kind) => kind
    case MalformedDelta => "unknown"
  }

  function Delta(s: State, index: nat, delta: DeltaData): Outcome
    requires index in s.blocks
  {
    var kind := s.blocks[index].kind;
    if kind.ThinkingKind? || kind.RedactedKind? then
      if (delta.ThinkingDelta? || delta.SignatureDelta?) && delta.text.Some? then
        var next := Extend(s, index, delta.SignatureDelta?, delta.text.value);
        if next.None? then Rejected else Accepted(next.value, [Artifact(DeltaName(delta), s.records)])
      else Rejected
    else if delta.MalformedDelta? then Rejected
    else if delta.TextDelta? && kind.TextKind? then
      if delta.text.None? then Rejected else Accepted(s, TextEvents(index, delta.text.value))
    else if delta.JsonDelta? && kind.ToolKind? then
      if delta.text.None? || index !in s.tools then Rejected
      else
        var tool := s.tools[index];
        var bytes := Utf8Length(delta.text.value);
        if s.toolBytes + bytes > TOOL_TOTAL || tool.bytes + bytes > TOOL_BYTES then Rejected
        else Accepted(s.(toolBytes := s.toolBytes + bytes,
                         tools := s.tools[index := tool.(bytes := tool.bytes + bytes, arguments := tool.arguments + delta.text.value)]), [])
    else if delta.CitationDelta? then
      if delta.valid then Accepted(s, [Citation]) else Rejected
    else Accepted(s, [Artifact(DeltaName(delta), s.records)])
  }

  /** `parses` says which argument texts are well-formed JSON within the parser bounds. */
  function Stop(s: State, index: nat, parses: Text -> bool): Outcome
    requires index in s.blocks
  {
    var closed := s.(blocks := s.blocks[index := s.blocks[index].(closed := true)]);
    match s.blocks[index].kind
    case ToolKind =>
      if index !in s.tools then Rejected
      else
        var tool := s.tools[index];
        if tool.id == [] || tool.name == [] || (tool.arguments != [] && !parses(tool.arguments)) then Rejected
        else Accepted(closed.(tools := s.tools - {index}, toolBytes := s.toolBytes - Utf8Length(tool.arguments)), [ToolCall(tool.id, tool.name, tool.arguments)])
    case ThinkingKind => Complete(s, closed, index)
    case RedactedKind => Complete(s, closed, index)
    case _ => Accepted(closed, [])
  }

  function Complete(s: State, closed: State, index: nat): Outcome {
    if index !in s.reasoning || (s.reasoning[index].block.Thinking? && s.reasoning[index].block.signature == []) then Rejected
    else
      var c := s.reasoning[index];
      Accepted(closed.(reasoning := s.reasoning - {index}), [Reasoning(index, c.start, s.records, c.block)])
  }

  ghost function Accept(before: State, data: Data, parses: Text -> bool): Outcome {
    if before.ended || before.records + 1 > MAX_RECORDS then Rejected
    else Interpret(before.(records := before.records + 1), data, parses)
  }

  ghost predicate AllClosed(s: State) { forall i :: i in s.blocks ==> s.blocks[i].closed }

  ghost predicate HasOpen(s: State, index: Option<nat>) {
    s.started && index.Some? && index.value in s.blocks && !s.blocks[index.value].closed
  }

  ghost function Interpret(s: State, data: Data, parses: Text -> bool): Outcome {
    match data
    case Malformed => Rejected
    case Ping => Accepted(s, [])
    case MessageStart(id, model, usage) =>
      var named := Bounded(id, STRING_LIMIT);
      if s.started || named.None? || named.value == [] || usage == BadUsage then Rejected
      else
        Accepted(s.(started := true, responseId := named, model := Renamed(s.model, model)),
                 [Metadata(named.value, Renamed(s.model, model))] + (if usage == GoodUsage then [UsageEvent] else []))
    case BlockStart(index, block) =>
      if !s.started || index.None? || index.value >= MAX_PARTS || index.value in s.blocks then Rejected
      else Start(s, index.value, block)
    case BlockDelta(index, delta) => if !HasOpen(s, index) then Rejected else Delta(s, index.value, delta)
    case BlockStop(index) => if !HasOpen(s, index) then Rejected else Stop(s, index.value, parses)
    case MessageDelta(stop, usage) =>
      if !s.started || usage == BadUsage then Rejected
      else Accepted(if stop.None? then s else s.(stopped := OrEmpty(Bounded(stop.value, NAME_LIMIT)) != []),
                    if usage == GoodUsage then [UsageEvent] else [])
    case MessageStop => if !s.started || !s.stopped || !AllClosed(s) then Rejected else Accepted(s.(ended := true), [])
    case OtherEvent(kind) => if !s.started then Rejected else Accepted(s, [Artifact(kind, s.records)])
  }

  // ----- the class -----

  class Stream {
    const parses: Text -> bool
    var responseId: Option<Text>
    var model: Option<Text>
    var stopped: bool
    var started: bool
    var ended: bool
    var records: nat
    var toolBytes: int
    var reasoningBytes: nat
    var reasoning: map<nat, Capture>
    var tools: map<nat, Tool>
    var blocks: map<nat, BlockState>

    ghost function Current(): State
      reads this
    {
      State(responseId, model, stopped, started, ended, records, toolBytes, reasoningBytes, reasoning, tools, blocks)
    }

    constructor (parses: Text -> bool)
      ensures Current() == START && this.parses == parses
    {
      this.parses := parses;
      responseId, model, stopped, started, ended, records := None, None, false, false, false, 0;
      toolBytes, reasoningBytes, reasoning, tools, blocks := 0, 0, map[], map[], map[];
    }

    /** One record; when it is refused the run is over and the state no longer matters. */
    method Take(data: Data) returns (ok: bool, events: seq<Event>)
      modifies this
      ensures Accept(old(Current()), data, parses) == if ok then Accepted(Current(), events) else Rejected
    {
      hide Start, Delta, Stop;
      events := [];
      if ended || records + 1 > MAX_RECORDS {
        return false, [];
      }
      records := records + 1;
      if data.Malformed? || (!started && !data.MessageStart? && !data.Ping?) {
        return false, [];
      }
      match data
      case Ping => return true, [];
      case MessageStart(id, name, usage) =>
        var named := Bounded(id, STRING_LIMIT);
        if started || named.None? || named.value == [] || usage == BadUsage {
          return false, [];
        }
        started := true;
        responseId := named;
        var renamed := Bounded(name, STRING_LIMIT);
        if renamed.Some? && renamed.value != [] {
          model := renamed;
        }
        return true, [Metadata(named.value, model)] + (if usage == GoodUsage then [UsageEvent] else []);
      case BlockStart(index, block) =>
        if index.None? || index.value >= MAX_PARTS || index.value in blocks {
          return false, [];
        }
        ok, events := Open(index.value, block);
      case BlockDelta(index, delta) =>
        if index.None? || index.value !in blocks || blocks[index.value].closed {
          return false, [];
        }
        ok, events := Grow(index.value, delta);
      case BlockStop(index) =>
        if index.None? || index.value !in blocks || blocks[index.value].closed {
          return false, [];
        }
        ok, events := Close(index.value);
      case MessageDelta(stop, usage) =>
        if stop.Some? {
          stopped := OrEmpty(Bounded(stop.value, NAME_LIMIT)) != [];
        }
        return usage != BadUsage, if usage == GoodUsage then [UsageEvent] else [];
      case MessageStop =>
        if !stopped || exists i :: i in blocks && !blocks[i].closed {
          return false, [];
        }
        ended := true;
        return true, [];
      case OtherEvent(kind) => return true, [Artifact(kind, records)];
    }

    method Open(index: nat, block: BlockData) returns (ok: bool, events: seq<Event>)
      modifies this
      ensures Start(old(Current()), index, block) == if ok then Accepted(Current(), events) else Rejected
    {
      hide Capturing, TextEvents;
      events := [];
      match block
      case MalformedBlock => return false, [];
      case TextBlock(text) =>
        blocks := blocks[index := BlockState(TextKind, false)];
        return text.Some?, if text.Some? then TextEvents(index, text.value) else [];
      case ToolBlock(id, name) =>
        blocks := blocks[index := BlockState(ToolKind, false)];
        if |tools| >= MAX_OPEN {
          return false, [];
        }
        tools := tools[index := Tool(OrEmpty(Bounded(id, ID_LIMIT)), OrEmpty(Bounded(name, NAME_LIMIT)), [], 0)];
        return true, [];
      case OtherBlock(kind) =>
        blocks := blocks[index := BlockState(OtherKind, false)];
        return true, [Artifact(kind, records)];
      case ThinkingBlock(thinking, signature) =>
        ok, events := Catch(index, ThinkingKind, Thinking(thinking, signature), signature != []);
      case RedactedBlock(data) =>
        if data == [] {
          return false, [];
        }
        ok, events := Catch(index, RedactedKind, Redacted(data), false);
    }

    method Catch(index: nat, kind: Kind, block: Block, signing: bool) returns (ok: bool, events: seq<Event>)
      modifies this
      ensures Capturing(old(Current()), index, kind, block, signing) == if ok then Accepted(Current(), events) else Rejected
    {
      hide BlockBytes;
      blocks := blocks[index := BlockState(kind, false)];
      var bytes := BlockBytes(block);
      if |reasoning| >= MAX_OPEN || bytes > BLOCK_BYTES || bytes > REASONING_TOTAL - reasoningBytes {
        return false, [];
      }
      reasoningBytes := reasoningBytes + bytes;
      reasoning := reasoning[index := Capture(block, bytes, records, signing)];
      return true, [Marker(block.Redacted?), Artifact(KindName(block), records)];
    }

    method Grow(index: nat, delta: DeltaData) returns (ok: bool, events: seq<Event>)
      requires index in blocks
      modifies this
      ensures Delta(old(Current()), index, delta) == if ok then Accepted(Current(), events) else Rejected
    {
      hide Extend, TextEvents, Utf8Length, DeltaName;
      events := [];
      var kind := blocks[index].kind;
      if kind.ThinkingKind? || kind.RedactedKind? {
        if !(delta.ThinkingDelta? || delta.SignatureDelta?) || delta.text.None? {
          return false, [];
        }
        ok := Append(index, delta.SignatureDelta?, delta.text.value);
        return ok, if ok then [Artifact(DeltaName(delta), records)] else [];
      }
      if delta.MalformedDelta? {
        return false, [];
      } else if delta.TextDelta? && kind.TextKind? {
        return delta.text.Some?, if delta.text.Some? then TextEvents(index, delta.text.value) else [];
      } else if delta.JsonDelta? && kind.ToolKind? {
        if delta.text.None? || index !in tools {
          return false, [];
        }
        var tool := tools[index];
        var bytes := Utf8Length(delta.text.value);
        toolBytes := toolBytes + bytes;
        if toolBytes > TOOL_TOTAL || tool.bytes + bytes > TOOL_BYTES {
          return false, [];
        }
        tools := tools[index := tool.(bytes := tool.bytes + bytes, arguments := tool.arguments + delta.text.value)];
        return true, [];
      } else if delta.CitationDelta? {
        return delta.valid, if delta.valid then [Citation] else [];
      } else {
        return true, [Artifact(DeltaName(delta), records)];
      }
    }

    /** A fragment for a captured block. */
    method Append(index: nat, signature: bool, text: Text) returns (ok: bool)
      modifies this
      ensures ok == Extend(old(Current()), index, signature, text).Some? && records == old(records)
      ensures ok ==> Current() == Extend(old(Current()), index, signature, text).value
    {
      hide JsonBody;
      if index !in reasoning {
        return false;
      }
      var captured := reasoning[index];
      if !captured.block.Thinking? || (!signature && captured.signing) {
        return false;
      }
      var bytes := JsonBody(text);
      if bytes + 2 > BLOCK_BYTES || bytes > BLOCK_BYTES - captured.bytes || bytes > REASONING_TOTAL - reasoningBytes {
        return false;
      }
      reasoningBytes := reasoningBytes + bytes;
      var block := if signature then captured.block.(signature := captured.block.signature + text)
                   else captured.block.(thinking := captured.block.thinking + text);
      reasoning := reasoning[index := Capture(block, captured.bytes + bytes, captured.start, captured.signing || signature)];
      return true;
    }

    method Close(index: nat) returns (ok: bool, events: seq<Event>)
      requires index in blocks
      modifies this
      ensures Stop(old(Current()), index, parses) == if ok then Accepted(Current(), events) else Rejected
    {
      hide Utf8Length;
      events := [];
      var kind := blocks[index].kind;
      blocks := blocks[index := blocks[index].(closed := true)];
      if kind.ToolKind? {
        if index !in tools {
          return false, [];
        }
        var tool := tools[index];
        if tool.id == [] || tool.name == [] || (tool.arguments != [] && !parses(tool.arguments)) {
          return false, [];
        }
        tools := tools - {index};
        toolBytes := toolBytes - Utf8Length(tool.arguments);
        return true, [ToolCall(tool.id, tool.name, tool.arguments)];
      }
      if kind.ThinkingKind? || kind.RedactedKind? {
        if index !in reasoning || (reasoning[index].block.Thinking? && reasoning[index].block.signature == []) {
          return false, [];
        }
        var captured := reasoning[index];
        reasoning := reasoning - {index};
        return true, [Reasoning(index, captured.start, records, captured.block)];
      }
      return true, [];
    }
  }

  // ----- the invariant -----

  ghost function ArgumentBytes(tools: map<nat, Tool>): map<nat, nat> { map i | i in tools :: Utf8Length(tools[i].arguments) }

  ghost function Credits(reasoning: map<nat, Capture>): map<nat, nat> { map i | i in reasoning :: reasoning[i].bytes }

  ghost predicate SoundCapture(c: Capture, records: nat, kind: Kind) {
    && 1 <= c.start <= records
    && BlockBytes(c.block) <= c.bytes <= BLOCK_BYTES
    && (c.block.Redacted? ==> c.block.data != [])
    && kind == (if c.block.Thinking? then ThinkingKind else RedactedKind)
  }

  ghost predicate IsOpen(s: State, i: nat) { i in s.blocks && !s.blocks[i].closed }

  ghost predicate Fits(s: State, i: nat) {
    && (i in s.tools <==> IsOpen(s, i) && s.blocks[i].kind == ToolKind)
    && (i in s.reasoning <==> IsOpen(s, i) && s.blocks[i].kind in {ThinkingKind, RedactedKind})
    && (i in s.blocks ==> i < MAX_PARTS && s.started)
    && (s.ended ==> !IsOpen(s, i))
    && (i in s.reasoning ==> SoundCapture(s.reasoning[i], s.records, s.blocks[i].kind))
  }

  /** Open tools and open captures are exactly the unclosed blocks of those types. */
  ghost predicate Ledger(s: State) {
    && (forall i :: Fits(s, i))
    && (s.started ==> s.responseId.Some? && 0 < |s.responseId.value| <= STRING_LIMIT)
    && (!s.started ==> s.model.None?) && (s.model.Some? ==> |s.model.value| <= STRING_LIMIT)
  }

  /** Buffered argument bytes never exceed the counter, and the credit of every block
      begun, `spent` of it by blocks already complete, never exceeds the total. */
  ghost predicate Counted(s: State, spent: nat) {
    && Total(ArgumentBytes(s.tools)) <= s.toolBytes
    && spent + Total(Credits(s.reasoning)) <= s.reasoningBytes <= REASONING_TOTAL
  }

  /** Bytes of the complete blocks a step emits. */
  ghost function Emitted(events: seq<Event>): nat {
    if events == [] then 0
    else (if events[0].Reasoning? then BlockBytes(events[0].block) else 0) + Emitted(events[1..])
  }

  lemma StartKeepsNothing()
    ensures Ledger(START) && Counted(START, 0)
  {
    assert ArgumentBytes(map[]) == map[] && Credits(map[]) == map[];
  }

  lemma {:induction false} TextEmitsNothing(key: nat, text: Text)
    ensures Emitted(TextEvents(key, text)) == 0
    decreases |text|
  {
    if text != [] {
      var end := Min(TEXT_PIECE, |text|);
      var cut := if end < |text| && High(text[end - 1]) then end - 1 else end;
      TextEmitsNothing(key, text[cut..]);
      assert TextEvents(key, text)[1..] == TextEvents(key, text[cut..]);
    }
  }

  lemma ToolBytes(tools: map<nat, Tool>, index: nat, tool: Tool)
    ensures Total(ArgumentBytes(tools[index := tool])) == Utf8Length(tool.arguments) + Total(ArgumentBytes(tools - {index}))
    ensures index !in tools ==> tools - {index} == tools
    ensures index in tools ==> Total(ArgumentBytes(tools)) == Utf8Length(tools[index].arguments) + Total(ArgumentBytes(tools - {index}))
  {
    hide Utf8Length, Total;
    var m := ArgumentBytes(tools);
    TotalAdded(m, index, Utf8Length(tool.arguments));
    assert ArgumentBytes(tools[index := tool]) == m[index := Utf8Length(tool.arguments)];
    assert ArgumentBytes(tools - {index}) == m - {index};
    if index in tools {
      TotalAt(m, index);
    }
  }

  lemma CreditBytes(reasoning: map<nat, Capture>, index: nat, c: Capture)
    ensures Total(Credits(reasoning[index := c])) == c.bytes + Total(Credits(reasoning - {index}))
    ensures index !in reasoning ==> reasoning - {index} == reasoning
    ensures index in reasoning ==> Total(Credits(reasoning)) == reasoning[index].bytes + Total(Credits(reasoning - {index}))
  {
    hide Total;
    var m := Credits(reasoning);
    TotalAdded(m, index, c.bytes);
    assert Credits(reasoning[index := c]) == m[index := c.bytes];
    assert Credits(reasoning - {index}) == m - {index};
    if index in reasoning {
      TotalAt(m, index);
    }
  }

  /** A step from `s` keeps the invariant and pays for what it emits. */
  ghost predicate Keeps(s: State, spent: nat, outcome: Outcome) {
    outcome.Accepted? ==> Ledger(outcome.state) && Counted(outcome.state, spent + Emitted(outcome.events))
  }

  lemma StartKeeps(s: State, spent: nat, index: nat, block: BlockData)
    requires Ledger(s) && Counted(s, spent) && s.started && !s.ended && 1 <= s.records
    requires index < MAX_PARTS && index !in s.blocks
    ensures Keeps(s, spent, Start(s, index, block))
  {
    hide BlockBytes, TextEvents, Total, Utf8Length, Emitted, ArgumentBytes, Credits, Capturing, Ledger;
    match block
    case MalformedBlock =>
    case TextBlock(text) =>
      if text.Some? {
        BlockOpens(s, index, TextKind);
        TextEmitsNothing(index, text.value);
      }
    case ToolBlock(id, name) =>
      NothingEmitted([]);
      ToolOpens(s, index, Tool(OrEmpty(Bounded(id, ID_LIMIT)), OrEmpty(Bounded(name, NAME_LIMIT)), [], 0));
    case ThinkingBlock(thinking, signature) =>
      CapturingKeeps(s, spent, index, ThinkingKind, Thinking(thinking, signature), signature != []);
    case RedactedBlock(data) =>
      if data != [] {
        CapturingKeeps(s, spent, index, RedactedKind, Redacted(data), false);
      }
    case OtherBlock(kind) =>
      BlockOpens(s, index, OtherKind);
      NothingEmitted([Artifact(kind, s.records)]);
  }

  lemma BlockOpens(s: State, index: nat, kind: Kind)
    requires Ledger(s) && s.started && !s.ended && index < MAX_PARTS && index !in s.blocks
    requires kind == TextKind || kind == OtherKind
    ensures Ledger(s.(blocks := s.blocks[index := BlockState(kind, false)]))
  {
    hide SoundCapture;
    var next := s.(blocks := s.blocks[index := BlockState(kind, false)]);
    forall i ensures Fits(next, i) {
      assert Fits(s, i);
    }
  }

  lemma ToolOpens(s: State, index: nat, tool: Tool)
    requires Ledger(s) && s.started && !s.ended && index < MAX_PARTS && index !in s.blocks
    requires tool.arguments == []
    ensures
      var next := s.(blocks := s.blocks[index := BlockState(ToolKind, false)], tools := s.tools[index := tool]);
      Ledger(next) && Total(ArgumentBytes(next.tools)) == Total(ArgumentBytes(s.tools))
  {
    hide SoundCapture, Total, ArgumentBytes;
    var next := s.(blocks := s.blocks[index := BlockState(ToolKind, false)], tools := s.tools[index := tool]);
    forall i ensures Fits(next, i) {
      assert Fits(s, i);
    }
    assert Fits(s, index);
    ToolBytes(s.tools, index, tool);
  }

  lemma CaptureOpens(s: State, index: nat, kind: Kind, c: Capture)
    requires Ledger(s) && s.started && !s.ended && index < MAX_PARTS && index !in s.blocks
    requires kind in {ThinkingKind, RedactedKind} && SoundCapture(c, s.records, kind)
    ensures
      var next := s.(blocks := s.blocks[index := BlockState(kind, false)], reasoning := s.reasoning[index := c]);
      Ledger(next) && Total(Credits(next.reasoning)) == c.bytes + Total(Credits(s.reasoning))
  {
    hide SoundCapture, Total, Credits;
    var next := s.(blocks := s.blocks[index := BlockState(kind, false)], reasoning := s.reasoning[index := c]);
    forall i ensures Fits(next, i) {
      assert Fits(s, i);
    }
    assert Fits(s, index);
    CreditBytes(s.reasoning, index, c);
  }

  /** Only the blocks, tools, captures, record number, `started` and `ended` matter to `Fits`. */
  lemma Unmoved(s: State, next: State)
    requires Ledger(s) && s.blocks == next.blocks && s.tools == next.tools && s.reasoning == next.reasoning
    requires s.records <= next.records && s.started == next.started && s.ended == next.ended
    requires s.responseId == next.responseId && s.model == next.model
    ensures Ledger(next)
  {
    forall i ensures Fits(next, i) {
      assert Fits(s, i);
    }
  }

  lemma NothingEmitted(events: seq<Event>)
    requires |events| <= 2 && forall e :: e in events ==> !e.Reasoning?
    ensures Emitted(events) == 0
  {
    if |events| > 0 {
      assert events[0] in events;
      if |events| > 1 {
        assert events[1] in events;
      }
    }
  }

  lemma CapturingKeeps(s: State, spent: nat, index: nat, kind: Kind, block: Block, signing: bool)
    requires Ledger(s) && Counted(s, spent) && s.started && !s.ended && 1 <= s.records
    requires index < MAX_PARTS && index !in s.blocks
    requires kind == (if block.Thinking? then ThinkingKind else RedactedKind)
    requires block.Redacted? ==> block.data != []
    ensures Keeps(s, spent, Capturing(s, index, kind, block, signing))
  {
    hide BlockBytes, Total, Emitted, ArgumentBytes, Credits, Ledger;
    NothingEmitted([Marker(block.Redacted?), Artifact(KindName(block), s.records)]);
    var outcome := Capturing(s, index, kind, block, signing);
    if outcome.Accepted? {
      CaptureOpens(s, index, kind, Capture(block, BlockBytes(block), s.records, signing));
      Unmoved(s.(blocks := outcome.state.blocks, reasoning := outcome.state.reasoning), outcome.state);
    }
  }

  lemma ExtendKeeps(s: State, spent: nat, index: nat, signature: bool, text: Text)
    requires Ledger(s) && Counted(s, spent) && s.started && !s.ended
    requires index in s.blocks && !s.blocks[index].closed
    requires Extend(s, index, signature, text).Some?
    ensures var next := Extend(s, index, signature, text).value; Ledger(next) && Counted(next, spent)
  {
    hide Total, ArgumentBytes, Credits, JsonBody;
    var c := s.reasoning[index];
    JsonSubadditive(if signature then c.block.signature else c.block.thinking, text);
    var next := Extend(s, index, signature, text).value;
    CreditBytes(s.reasoning, index, next.reasoning[index]);
    assert Fits(s, index);
    forall i ensures Fits(next, i) {
      assert Fits(s, i);
    }
  }

  lemma DeltaKeeps(s: State, spent: nat, index: nat, delta: DeltaData)
    requires Ledger(s) && Counted(s, spent) && s.started && !s.ended
    requires index in s.blocks && !s.blocks[index].closed
    ensures Keeps(s, spent, Delta(s, index, delta))
  {
    hide Total, ArgumentBytes, Credits, Extend, Emitted, TextEvents, Utf8Length, Ledger, Counted, DeltaName;
    var kind := s.blocks[index].kind;
    NothingEmitted([]);
    NothingEmitted([Citation]);
    NothingEmitted([Artifact(DeltaName(delta), s.records)]);
    if kind.ThinkingKind? || kind.RedactedKind? {
      if (delta.ThinkingDelta? || delta.SignatureDelta?) && delta.text.Some? && Extend(s, index, delta.SignatureDelta?, delta.text.value).Some? {
        ExtendKeeps(s, spent, index, delta.SignatureDelta?, delta.text.value);
      }
    } else if delta.TextDelta? && delta.text.Some? {
      TextEmitsNothing(index, delta.text.value);
    } else if delta.JsonDelta? && kind.ToolKind? && delta.text.Some? && index in s.tools {
      JsonKeeps(s, spent, index, delta.text.value);
    }
  }

  lemma JsonKeeps(s: State, spent: nat, index: nat, text: Text)
    requires Ledger(s) && Counted(s, spent) && index in s.tools
    ensures
      var tool := s.tools[index];
      var bytes := Utf8Length(text);
      var next := s.(toolBytes := s.toolBytes + bytes,
                     tools := s.tools[index := tool.(bytes := tool.bytes + bytes, arguments := tool.arguments + text)]);
      Ledger(next) && Counted(next, spent)
  {
    hide Total, ArgumentBytes, Credits, Utf8Length;
    var tool := s.tools[index];
    var grown := tool.(bytes := tool.bytes + Utf8Length(text), arguments := tool.arguments + text);
    Utf8Subadditive(tool.arguments, text);
    ToolBytes(s.tools, index, grown);
    var next := s.(toolBytes := s.toolBytes + Utf8Length(text), tools := s.tools[index := grown]);
    forall i ensures Fits(next, i) {
      assert Fits(s, i);
    }
  }

  lemma StopKeeps(s: State, spent: nat, index: nat, parses: Text -> bool)
    requires Ledger(s) && Counted(s, spent) && s.started && !s.ended
    requires index in s.blocks && !s.blocks[index].closed
    ensures Keeps(s, spent, Stop(s, index, parses))
  {
    hide Total, ArgumentBytes, Credits, Emitted, Utf8Length, BlockBytes;
    var outcome := Stop(s, index, parses);
    if outcome.Accepted? {
      StopLedger(s, index, parses);
      hide Ledger;
      if s.blocks[index].kind.ToolKind? {
        ToolBytes(s.tools, index, s.tools[index]);
        NothingEmitted(outcome.events);
      } else if index in s.reasoning {
        CreditBytes(s.reasoning, index, s.reasoning[index]);
        OneEmitted(outcome.events[0]);
      } else {
        NothingEmitted(outcome.events);
      }
    }
  }

  lemma StopLedger(s: State, index: nat, parses: Text -> bool)
    requires Ledger(s) && s.started && !s.ended
    requires index in s.blocks && !s.blocks[index].closed
    requires Stop(s, index, parses).Accepted?
    ensures Ledger(Stop(s, index, parses).state)
    ensures index in s.reasoning ==> BlockBytes(s.reasoning[index].block) <= s.reasoning[index].bytes
    ensures index in s.reasoning <==> s.blocks[index].kind in {ThinkingKind, RedactedKind}
  {
    hide BlockBytes, Utf8Length;
    assert Fits(s, index);
    var next := Stop(s, index, parses).state;
    forall i ensures Fits(next, i) {
      assert Fits(s, i);
    }
  }

  lemma OneEmitted(e: Event)
    ensures Emitted([e]) == if e.Reasoning? then BlockBytes(e.block) else 0
  {
    assert Emitted([e][1..]) == 0;
  }

  /** The records that touch no block. */
  lemma PlainKeeps(s: State, data: Data, parses: Text -> bool)
    requires Ledger(s) && !s.ended
    requires !data.BlockStart? && !data.BlockDelta? && !data.BlockStop?
    requires Interpret(s, data, parses).Accepted?
    ensures Ledger(Interpret(s, data, parses).state)
  {
    var next := Interpret(s, data, parses).state;
    forall i ensures Fits(next, i) {
      assert Fits(s, i);
    }
  }

  /** Every accepted record keeps the invariant. */
  lemma AcceptKeeps(before: State, spent: nat, data: Data, parses: Text -> bool)
    requires Ledger(before) && Counted(before, spent)
    ensures Keeps(before, spent, Accept(before, data, parses))
  {
    hide Total, ArgumentBytes, Credits, Emitted, Start, Delta, Stop, Ledger;
    var s := before.(records := before.records + 1);
    var outcome := Accept(before, data, parses);
    Unmoved(before, s);
    if outcome.Accepted? {
      if data.BlockStart? {
        StartKeeps(s, spent, data.index.value, data.block);
      } else if data.BlockDelta? {
        DeltaKeeps(s, spent, data.index.value, data.delta);
      } else if data.BlockStop? {
        StopKeeps(s, spent, data.index.value, parses);
      } else {
        NothingEmitted(outcome.events);
        PlainKeeps(s, data, parses);
      }
    }
  }

  /** Once ended nothing is open. */
  lemma EndedIsEmpty(s: State)
    requires Ledger(s) && s.ended
    ensures s.tools == map[] && s.reasoning == map[]
  {
    assert forall i :: Fits(s, i) ==> i !in s.tools;
    assert forall i :: Fits(s, i) ==> i !in s.reasoning;
  }

  // ----- whole runs -----

  /** Record after record; the events of all of them. */
  ghost function Run(s: State, records: seq<Data>, parses: Text -> bool): Outcome
    decreases |records|
  {
    if records == [] then Accepted(s, [])
    else
      var one := Accept(s, records[0], parses);
      if one.Rejected? then Rejected
      else
        var rest := Run(one.state, records[1..], parses);
        if rest.Rejected? then Rejected else Accepted(rest.state, one.events + rest.events)
  }

  lemma {:induction false} EmittedAppend(a: seq<Event>, b: seq<Event>)
    ensures Emitted(a + b) == Emitted(a) + Emitted(b)
  {
    if a == [] {
      assert a + b == b;
    } else {
      EmittedAppend(a[1..], b);
      assert (a + b)[1..] == a[1..] + b;
    }
  }

  lemma {:induction false} RunKeeps(s: State, spent: nat, records: seq<Data>, parses: Text -> bool)
    requires Ledger(s) && Counted(s, spent)
    ensures Keeps(s, spent, Run(s, records, parses))
    decreases |records|
  {
    hide Accept, Ledger, Counted;
    if records != [] {
      AcceptKeeps(s, spent, records[0], parses);
      var one := Accept(s, records[0], parses);
      if one.Accepted? {
        RunKeeps(one.state, spent + Emitted(one.events), records[1..], parses);
        var rest := Run(one.state, records[1..], parses);
        if rest.Accepted? {
          EmittedAppend(one.events, rest.events);
        }
      }
    }
  }

  /** Over every accepted run: the open tools and captures are exactly the unclosed blocks
      of those types, the tool counter covers what is still buffered, blocks stay within
      their credit, and nothing is open once the stream has ended. */
  lemma OpenBlocksAreHeld(records: seq<Data>, parses: Text -> bool)
    requires Run(START, records, parses).Accepted?
    ensures var run := Run(START, records, parses);
      var s := run.state;
      && (forall i :: i in s.tools <==> i in s.blocks && !s.blocks[i].closed && s.blocks[i].kind == ToolKind)
      && (forall i :: i in s.reasoning <==> i in s.blocks && !s.blocks[i].closed && s.blocks[i].kind in {ThinkingKind, RedactedKind})
      && Total(ArgumentBytes(s.tools)) <= s.toolBytes
      && Emitted(run.events) + Total(Credits(s.reasoning)) <= s.reasoningBytes <= REASONING_TOTAL
      && (s.ended ==> s.tools == map[] && s.reasoning == map[])
  {
    hide Run, Total, Emitted, ArgumentBytes, Credits;
    StartKeepsNothing();
    RunKeeps(START, 0, records, parses);
    var s := Run(START, records, parses).state;
    assert forall i :: Fits(s, i) ==> (i in s.tools <==> IsOpen(s, i) && s.blocks[i].kind == ToolKind);
    assert forall i :: Fits(s, i) ==> (i in s.reasoning <==> IsOpen(s, i) && s.blocks[i].kind in {ThinkingKind, RedactedKind});
    if s.ended {
      EndedIsEmpty(s);
    }
  }
}
