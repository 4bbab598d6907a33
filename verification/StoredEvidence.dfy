/** From the parts a sealed generation stores (packages/providers/src/generation.ts) to the
    evidence the binder reads (packages/providers/src/reasoning.ts): what `Evidence.Retained`
    supposes is what such a run leaves behind. */
module StoredEvidence {
  import opened Common
  import opened Receipts
  import opened Sorting
  import opened Binding
  import opened Evidence
  import opened Normalizer
  import opened ByteCounts
  import G = Generation

  /** A stored part as the binder sees it, text without its text. */
  function Seen(c: G.Content): Receipts.Content { if c.TextContent? then TextPart else c.part }

  /** Stored parts under their record ids; their orders are their places. */
  function AsParts(parts: seq<G.Content>, ids: seq<nat>): (r: seq<ContentPart>)
    requires |ids| == |parts|
    ensures |r| == |parts| && forall k :: 0 <= k < |r| ==> r[k] == ContentPart(ids[k], k, Seen(parts[k]))
  {
    seq(|parts|, k requires 0 <= k < |parts| => ContentPart(ids[k], k, Seen(parts[k])))
  }

  lemma {:induction false} RelevantStored(parts: seq<G.Content>, ids: seq<nat>)
    requires |ids| == |parts|
    ensures Relevant(Contents(AsParts(parts, ids))) == Relevant(G.Solids(parts))
    decreases |parts|
  {
    hide Relevant, G.Solids, Contents;
    if parts == [] {
      NoneStored();
    } else {
      var n := |parts| - 1;
      RelevantStored(parts[..n], ids[..n]);
      var stored, front := AsParts(parts, ids), AsParts(parts[..n], ids[..n]);
      assert stored == front + [stored[n]];
      ContentsAppend(front, stored[n]);
      RelevantMore(Contents(front), Seen(parts[n]));
      assert parts == parts[..n] + [parts[n]];
      G.SolidsOne(parts[..n], parts[n]);
      if parts[n].Solid? {
        RelevantMore(G.Solids(parts[..n]), parts[n].part);
      } else {
        assert Relevant(G.Solids(parts[..n])) + [] == Relevant(G.Solids(parts[..n])) && G.Solids(parts[..n]) + [] == G.Solids(parts[..n]);
      }
    }
  }

  lemma NoneStored()
    ensures Relevant([]) == [] && G.Solids([]) == [] && Contents([]) == []
  {
  }

  lemma ContentsAppend(front: seq<ContentPart>, p: ContentPart)
    ensures Contents(front + [p]) == Contents(front) + [p.content]
  {
    assert (front + [p])[..|front|] == front;
  }

  /** The parts a sealed run has stored. */
  ghost function StoredParts(s: G.State, ids: seq<nat>): seq<ContentPart>
    requires G.Stored(s.log).Some? && |ids| == |G.Stored(s.log).value|
  {
    AsParts(G.Stored(s.log).value, ids)
  }

  // ----- the event loop's calls -----

  /** What the event loop asks of the checkpointing code for one event of the stream. */
  function Calls(e: Event): seq<G.Event> {
    match e
    case Metadata(_, _) => []
    case UsageEvent => []
    case TextEvent(key, text) => [G.TextEvent(key, text)]
    case Marker(redacted) => [G.PartEvent(G.Solid(MarkerPart(redacted)))]
    case ToolCall(_, _, _) => [G.PartEvent(G.Solid(OtherPart))]
    case Citation => [G.PartEvent(G.Solid(OtherPart))]
    case Artifact(kind, record) => [G.PartEvent(G.Solid(ArtifactPart(kind, Some(record))))]
    case Reasoning(_, _, _, _) => [G.RawEvent(G.Solid(ArtifactPart(RECEIPT_KIND, None)), false)]
  }

  function CallsFor(events: seq<Event>): seq<G.Event>
    decreases |events|
  {
    if events == [] then [] else Calls(events[0]) + CallsFor(events[1..])
  }

  const RAW_CALL := G.RawEvent(G.Solid(ArtifactPart(RAW_KIND, None)), false)
  const LAST_CALL := G.RawEvent(G.MANIFEST, true)

  /** Its calls over a whole stream, up to the manifest. */
  ghost function Script(s: State, items: seq<Item>, parses: Text -> bool): seq<G.Event>
    decreases |items|
  {
    if items == [] then []
    else
      match items[0]
      case Chunk(_) => [RAW_CALL] + Script(s, items[1..], parses)
      case Rec(data) =>
        var one := Accept(s, data, parses);
        if one.Rejected? then [] else CallsFor(one.events) + Script(one.state, items[1..], parses)
  }

  /** The text one record of the stream adds to the answer. */
  function Spoken(s: State, data: Data): Text {
    match data
    case BlockStart(_, block) => if block.TextBlock? then OrEmpty(block.text) else []
    case BlockDelta(index, delta) =>
      if delta.TextDelta? && index.Some? && index.value in s.blocks && s.blocks[index.value].kind.TextKind? then OrEmpty(delta.text) else []
    case _ => []
  }

  /** The text of a whole stream. */
  ghost function Said(s: State, items: seq<Item>, parses: Text -> bool): Text
    decreases |items|
  {
    if items == [] then []
    else
      match items[0]
      case Chunk(_) => Said(s, items[1..], parses)
      case Rec(data) =>
        var one := Accept(s, data, parses);
        if one.Rejected? then [] else Spoken(s, data) + Said(one.state, items[1..], parses)
  }

  function GivenPart(e: G.Event): seq<Receipts.Content> {
    match e
    case TextEvent(_, _) => []
    case PartEvent(c) => if c.Solid? then [c.part] else []
    case RawEvent(c, _) => if c.Solid? then [c.part] else []
  }

  /** The parts and the text a list of calls hands over. */
  function GivenParts(calls: seq<G.Event>): seq<Receipts.Content>
    decreases |calls|
  {
    if calls == [] then [] else GivenPart(calls[0]) + GivenParts(calls[1..])
  }

  function GivenText(calls: seq<G.Event>): Text
    decreases |calls|
  {
    if calls == [] then [] else (if calls[0].TextEvent? then calls[0].text else []) + GivenText(calls[1..])
  }

  lemma {:induction false} GivenAppend(a: seq<G.Event>, b: seq<G.Event>)
    ensures GivenParts(a + b) == GivenParts(a) + GivenParts(b) && GivenText(a + b) == GivenText(a) + GivenText(b)
    decreases |a|
  {
    hide GivenParts, GivenText, GivenPart;
    if a == [] {
      assert a + b == b;
      NothingGiven();
    } else {
      GivenFirst(a);
      GivenFirst(a + b);
      assert (a + b)[1..] == a[1..] + b;
      GivenAppend(a[1..], b);
    }
  }

  lemma NothingGiven()
    ensures GivenParts([]) == [] && GivenText([]) == []
  {
  }

  lemma GivenFirst(calls: seq<G.Event>)
    requires calls != []
    ensures GivenParts(calls) == GivenPart(calls[0]) + GivenParts(calls[1..])
    ensures GivenText(calls) == (if calls[0].TextEvent? then calls[0].text else []) + GivenText(calls[1..])
  {
    hide GivenPart;
  }

  lemma GivenOne(e: G.Event)
    ensures GivenParts([e]) == GivenPart(e) && GivenText([e]) == if e.TextEvent? then e.text else []
  {
    assert [e][1..] == [];
  }

  lemma OneCall(e: Event)
    ensures GivenParts(Calls(e)) == if Calls(e) == [] then [] else GivenPart(Calls(e)[0])
    ensures GivenText(Calls(e)) == if e.TextEvent? then e.text else []
    ensures forall c :: c in Calls(e) ==> !Final(c)
  {
    if Calls(e) != [] {
      GivenOne(Calls(e)[0]);
    }
  }

  predicate Final(e: G.Event) { e.RawEvent? && e.final }

  lemma OneHandled(names: Names, g: Loop, e: Event)
    requires Handle(names, g, e).Some?
    ensures Handle(names, g, e).value.parts == g.parts + GivenParts(Calls(e))
    ensures forall c :: c in Calls(e) ==> !Final(c)
  {
    hide AcceptsBlock, GivenParts;
    NothingGiven();
    OneCall(e);
  }

  lemma NoCalls()
    ensures CallsFor([]) == [] && GivenParts([]) == []
  {
  }

  lemma CallsFirst(events: seq<Event>)
    requires events != []
    ensures CallsFor(events) == Calls(events[0]) + CallsFor(events[1..])
  {
    hide Calls;
  }

  lemma AcceptsFirst(names: Names, g: Loop, events: seq<Event>)
    requires events != [] && HandleAll(names, g, events).Some?
    ensures Handle(names, g, events[0]).Some?
  {
    hide Handle;
  }

  /** The parts handed over are the parts the event loop counts. */
  lemma {:induction false} HandledParts(names: Names, g: Loop, events: seq<Event>)
    requires HandleAll(names, g, events).Some?
    ensures HandleAll(names, g, events).value.parts == g.parts + GivenParts(CallsFor(events))
    ensures forall c :: c in CallsFor(events) ==> !Final(c)
    decreases |events|
  {
    hide Handle, HandleAll, Calls, CallsFor, GivenParts, Final;
    if events == [] {
      HandleNone(names, g);
      NoCalls();
    } else {
      AcceptsFirst(names, g, events);
      HandleFirst(names, g, events);
      CallsFirst(events);
      var e, next := events[0], Handle(names, g, events[0]).value;
      HandledParts(names, next, events[1..]);
      OneHandled(names, g, e);
      GivenAppend(Calls(e), CallsFor(events[1..]));
    }
  }

  lemma {:induction false} TextHanded(key: nat, text: Text)
    ensures GivenText(CallsFor(TextEvents(key, text))) == text
    decreases |text|
  {
    if text != [] {
      var events := TextEvents(key, text);
      var cut := |events[0].text|;
      assert events[1..] == TextEvents(key, text[cut..]);
      TextHanded(key, text[cut..]);
      OneCall(events[0]);
      GivenAppend(Calls(events[0]), CallsFor(events[1..]));
      assert text == text[..cut] + text[cut..];
    }
  }

  predicate Wordless(events: seq<Event>) { forall e :: e in events ==> !e.TextEvent? }

  lemma {:induction false} NothingHanded(events: seq<Event>)
    requires Wordless(events)
    ensures GivenText(CallsFor(events)) == []
    decreases |events|
  {
    if events != [] {
      NothingHanded(events[1..]);
      OneCall(events[0]);
      GivenAppend(Calls(events[0]), CallsFor(events[1..]));
    }
  }

  /** The text handed over for a record is the text it adds. */
  lemma RecordSpeaks(s: State, data: Data, parses: Text -> bool)
    requires Accept(s, data, parses).Accepted?
    ensures GivenText(CallsFor(Accept(s, data, parses).events)) == Spoken(s, data)
  {
    hide Extend, BlockBytes, TextEvents, CallsFor, GivenText;
    var events := Accept(s, data, parses).events;
    match data
    case BlockStart(index, block) =>
      if block.TextBlock? {
        TextHanded(index.value, block.text.value);
      } else {
        NothingHanded(events);
      }
    case BlockDelta(index, delta) =>
      if delta.TextDelta? && s.blocks[index.value].kind.TextKind? {
        TextHanded(index.value, delta.text.value);
      } else {
        NothingHanded(events);
      }
    case _ => NothingHanded(events);
  }

  lemma {:induction false} ScriptGives(names: Names, s: State, g: Loop, items: seq<Item>, parses: Text -> bool)
    requires Play(names, s, g, items, parses).Live?
    ensures Play(names, s, g, items, parses).loop.parts == g.parts + GivenParts(Script(s, items, parses))
    ensures GivenText(Script(s, items, parses)) == Said(s, items, parses)
    ensures forall c :: c in Script(s, items, parses) ==> !Final(c)
    decreases |items|
  {
    hide Accept, HandleAll, Spoken, CallsFor, GivenParts, GivenText;
    NothingGiven();
    if items != [] {
      match items[0]
      case Chunk(bytes) =>
        ScriptGives(names, s, StoreChunk(g, bytes), items[1..], parses);
        GivenOne(RAW_CALL);
        GivenAppend([RAW_CALL], Script(s, items[1..], parses));
      case Rec(data) =>
        var one := Accept(s, data, parses);
        HandledParts(names, g, one.events);
        RecordSpeaks(s, data, parses);
        ScriptGives(names, one.state, HandleAll(names, g, one.events).value, items[1..], parses);
        GivenAppend(CallsFor(one.events), Script(one.state, items[1..], parses));
    }
  }

  // ----- a run under a script -----

  /** A step that takes the next call, or none. */
  ghost predicate Turn(s: G.State, t: G.State, m: nat, n: nat, calls: seq<G.Event>) {
    || (n == m && G.Quiet(s, t))
    || (n == m + 1 <= |calls| && G.Receive(s, t, calls[m]))
  }

  /** An interleaving that takes the given calls in order; `taken` says how many by when. */
  ghost predicate Feeds(states: seq<G.State>, taken: seq<nat>, calls: seq<G.Event>) {
    && states != [] && |taken| == |states| && states[0] == G.START && taken[0] == 0
    && forall k :: 0 < k < |states| ==> Turn(states[k - 1], states[k], taken[k - 1], taken[k], calls)
  }

  /** The manifest is under way. */
  predicate Finishing(c: G.Control) { (c.RawSettle? || c.RawDigest? || c.RawStage? || c.RawWait?) && c.final }

  /** What a run has taken so far is what it was given. */
  ghost predicate Took(s: G.State, n: nat, calls: seq<G.Event>) {
    && n <= |calls| && s.solids == GivenParts(calls[..n]) && s.arrived == GivenText(calls[..n])
    && (Finishing(s.control) ==> n > 0 && Final(calls[n - 1]))
  }

  lemma TurnTakes(s: G.State, t: G.State, m: nat, n: nat, calls: seq<G.Event>)
    requires Turn(s, t, m, n, calls) && Took(s, m, calls)
    ensures Took(t, n, calls)
  {
    hide GivenParts, GivenText;
    if n == m {
      QuietTakes(s, t);
    } else {
      GivenOne(calls[m]);
      GivenAppend(calls[..m], [calls[m]]);
      assert calls[..n] == calls[..m] + [calls[m]];
      assert s.arrived + [] == s.arrived && s.solids + [] == s.solids;
    }
  }

  lemma QuietTakes(s: G.State, t: G.State)
    requires G.Quiet(s, t)
    ensures t.solids == s.solids && t.arrived == s.arrived && (Finishing(t.control) ==> Finishing(s.control))
  {
    hide G.TextStep, G.CommitStep, G.TimerStep;
    if G.TextStep(s, t) {
      TextTakes(s, t);
    } else if G.CommitStep(s, t) {
      CommitTakes(s, t);
    } else if G.TimerStep(s, t) {
      TimerTakes(s, t);
    }
  }

  lemma TextTakes(s: G.State, t: G.State)
    requires G.TextStep(s, t)
    ensures t.solids == s.solids && t.arrived == s.arrived && !Finishing(t.control)
  {
    hide Utf8Length, G.PieceEnd, G.Usable, G.Room;
  }

  lemma CommitTakes(s: G.State, t: G.State)
    requires G.CommitStep(s, t)
    ensures t.solids == s.solids && t.arrived == s.arrived && (Finishing(t.control) ==> Finishing(s.control))
  {
  }

  lemma TimerTakes(s: G.State, t: G.State)
    requires G.TimerStep(s, t)
    ensures t.solids == s.solids && t.arrived == s.arrived && t.control == s.control
  {
  }

  lemma {:induction false} FeedsTake(states: seq<G.State>, taken: seq<nat>, calls: seq<G.Event>, i: nat)
    requires Feeds(states, taken, calls) && i < |states|
    ensures Took(states[i], taken[i], calls)
    decreases i
  {
    hide Turn, G.Quiet;
    if i == 0 {
      assert calls[..0] == [];
    } else {
      FeedsTake(states, taken, calls, i - 1);
      TurnTakes(states[i - 1], states[i], taken[i - 1], taken[i], calls);
    }
  }

  lemma FeedsRuns(states: seq<G.State>, taken: seq<nat>, calls: seq<G.Event>)
    requires Feeds(states, taken, calls)
    ensures G.Run(states)
  {
    hide G.Quiet, G.Receive;
    forall k | 0 < k < |states|
      ensures G.Step(states[k - 1], states[k])
    {
      assert Turn(states[k - 1], states[k], taken[k - 1], taken[k], calls);
    }
  }

  /** A generation over a stream, in any interleaving, that has dispatched its manifest. */
  ghost predicate Sealed(states: seq<G.State>, taken: seq<nat>, i: nat, items: seq<Item>, parses: Text -> bool) {
    && Feeds(states, taken, Script(START, items, parses) + [LAST_CALL])
    && i < |states| && states[i].control.RawWait? && states[i].control.final
  }

  /** It has been given the whole stream: its text, and its parts with the manifest last. */
  lemma SealedRunTook(names: Names, items: seq<Item>, parses: Text -> bool, states: seq<G.State>, taken: seq<nat>, i: nat)
    requires Play(names, START, Begin(names), items, parses).Live? && Sealed(states, taken, i, items, parses)
    ensures G.Run(states)
    ensures var s := states[|states| - 1];
      && s.solids == Play(names, START, Begin(names), items, parses).loop.parts + [G.MANIFEST.part]
      && s.arrived == Said(START, items, parses)
  {
    hide G.Run, Turn, Play, Script, Said, GivenParts, GivenText;
    var script := Script(START, items, parses);
    var calls := script + [LAST_CALL];
    FeedsRuns(states, taken, calls);
    FeedsTake(states, taken, calls, i);
    ScriptGives(names, START, Begin(names), items, parses);
    var n := taken[i];
    assert Final(calls[n - 1]);
    assert forall k :: 0 <= k < |script| ==> calls[k] == script[k] && !Final(script[k]);
    assert calls[..n] == calls;
    GivenOne(LAST_CALL);
    GivenAppend(script, [LAST_CALL]);
    G.SealedStays(states, i);
    assert Said(START, items, parses) + [] == Said(START, items, parses);
    assert [] + GivenParts(script) == GivenParts(script);
  }

  /** Hence storage gets, whatever the interleaving, exactly the text of the stream and, with
      the manifest behind them, exactly the parts the event loop counts. */
  lemma SealedRunTells(names: Names, items: seq<Item>, parses: Text -> bool, states: seq<G.State>, taken: seq<nat>, i: nat)
    requires Play(names, START, Begin(names), items, parses).Live? && Sealed(states, taken, i, items, parses)
    ensures var stored := G.Stored(states[|states| - 1].log);
      && stored.Some? && |stored.value| == states[i].partCount + 1 && G.Texts(stored.value) == Said(START, items, parses)
      && G.Solids(stored.value) == Play(names, START, Begin(names), items, parses).loop.parts + [G.MANIFEST.part]
  {
    hide G.Run, G.Stored, G.Texts, G.Solids, G.KeepsPairs, G.Sequences, G.Bounded, Feeds, Play, Said;
    SealedRunTook(names, items, parses, states, taken, i);
    G.SealedRun(states, i);
  }

  lemma ManifestIsNoEvidence(parts: seq<Receipts.Content>)
    ensures Relevant(parts + [G.MANIFEST.part]) == Relevant(parts)
  {
    RelevantMore(parts, G.MANIFEST.part);
    assert Relevant(parts) + [] == Relevant(parts);
  }

  /** The stored parts and the loop's receipts, in any order, are retained evidence. */
  lemma SealedRunRetains(names: Names, items: seq<Item>, parses: Text -> bool, states: seq<G.State>, taken: seq<nat>, i: nat,
                         ids: seq<nat>, parts: seq<ContentPart>, receipts: seq<Receipt>)
    requires Play(names, START, Begin(names), items, parses).Live? && Sealed(states, taken, i, items, parses)
    requires |ids| == states[i].partCount + 1
    requires multiset(receipts) == multiset(Play(names, START, Begin(names), items, parses).loop.receipts)
    ensures var s := states[|states| - 1];
      && G.Stored(s.log).Some? && |ids| == |G.Stored(s.log).value|
      && (multiset(parts) == multiset(StoredParts(s, ids))
          ==> Retained(Play(names, START, Begin(names), items, parses).loop, StoredParts(s, ids), parts, receipts))
  {
    assert |states| > 0;
    hide G.Stored, G.Solids, G.Texts, Relevant, Contents, Sealed, Play, Said;
    SealedRunTells(names, items, parses, states, taken, i);
    RelevantStored(G.Stored(states[|states| - 1].log).value, ids);
    ManifestIsNoEvidence(Play(names, START, Begin(names), items, parses).loop.parts);
  }

  /** For every interleaving of a generation that was sealed over a live stream: its message
      binds exactly when nothing else of the stream is typed like a thinking block and the
      thinking blocks closed one at a time with increasing indexes. */
  lemma SealedRunBinds(names: Names, items: seq<Item>, parses: Text -> bool, states: seq<G.State>, taken: seq<nat>, i: nat,
                       ids: seq<nat>, parts: seq<ContentPart>, receipts: seq<Receipt>)
    requires items != [] ==> items[0].Chunk?
    requires Play(names, START, Begin(names), items, parses).Live?
    requires Sealed(states, taken, i, items, parses) && |ids| == states[i].partCount + 1
    requires G.Stored(states[|states| - 1].log).Some? && |ids| == |G.Stored(states[|states| - 1].log).value|
    requires multiset(parts) == multiset(StoredParts(states[|states| - 1], ids))
    requires multiset(receipts) == multiset(Play(names, START, Begin(names), items, parses).loop.receipts)
    requires Told(START, UNTOLD, items, parses).tracks != []
    ensures var told := Told(START, UNTOLD, items, parses);
      Verdict(MessageOf(names), parts, receipts).None? <==> told.lookAlikes == 0 && OneAtATime(told.tracks)
  {
    assert |states| > 0;
    hide *;
    var stored := StoredParts(states[|states| - 1], ids);
    SealedRunRetains(names, items, parses, states, taken, i, ids, parts, receipts);
    BindsIffOneAtATime(names, items, parses, stored, parts, receipts);
  }
}
