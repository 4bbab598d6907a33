/** The binder recovers what a generation stored: thinking blocks as the stream states
    them, followed through normalizer, event loop, parts, receipts and binding. */
module Evidence {
  import opened Common
  import opened Utf16
  import opened Normalizer
  import opened Receipts
  import opened Sorting
  import opened Binding

  // ----- thinking blocks as the records state them -----

  /** One block of the stream: where it opens, what its fragments join to, where it closes. */
  datatype Track = Track(index: nat, start: nat, block: Block, end: Option<nat>)

  /** The place of the block with this index. */
  function Place(tracks: seq<Track>, index: nat): (k: nat)
    ensures k <= |tracks| && (k < |tracks| ==> tracks[k].index == index)
    ensures forall j :: 0 <= j < k ==> tracks[j].index != index
  {
    if tracks == [] || tracks[0].index == index then 0 else 1 + Place(tracks[1..], index)
  }

  function Follow(tracks: seq<Track>, effect: Effect, record: nat): seq<Track> {
    match effect
    case Opens(index, block) => tracks + [Track(index, record, block, None)]
    case Grows(index, signature, text) =>
      var k := Place(tracks, index);
      if k == |tracks| then tracks else tracks[k := tracks[k].(block := GrownBlock(tracks[k].block, signature, text))]
    case Closes(index) =>
      var k := Place(tracks, index);
      if k == |tracks| then tracks else tracks[k := tracks[k].(end := Some(record))]
    case Begins(_, _) => tracks
    case LooksAlike(_) => tracks
    case Nothing => tracks
  }

  datatype Story = Story(tracks: seq<Track>, lookAlikes: nat)

  ghost function Told(s: State, story: Story, items: seq<Item>, parses: Text -> bool): Story
    decreases |items|
  {
    if items == [] then story
    else
      match items[0]
      case Chunk(_) => Told(s, story, items[1..], parses)
      case Rec(data) =>
        var one := Accept(s, data, parses);
        if one.Rejected? then story
        else
          Told(one.state,
               Story(Follow(story.tracks, EffectOf(s, data), s.records + 1), story.lookAlikes + (if EffectOf(s, data).LooksAlike? then 1 else 0)),
               items[1..], parses)
  }

  /** Every block closes before the next opens, and indexes increase. */
  predicate OneAtATime(tracks: seq<Track>) {
    forall k :: 0 <= k < |tracks| ==>
      && tracks[k].end.Some?
      && (k > 0 && tracks[k - 1].end.Some? ==> tracks[k - 1].index < tracks[k].index && tracks[k - 1].end.value <= tracks[k].start)
  }

  // ----- what the stored evidence says about them -----

  datatype Claim = Claim(index: nat, start: nat, end: nat, block: Block)

  function ClaimOf(r: Receipt): Claim { Claim(r.index, r.start, r.end, r.block) }

  function Claims(receipts: seq<Receipt>): (c: seq<Claim>)
    ensures |c| == |receipts| && forall k :: 0 <= k < |c| ==> c[k] == ClaimOf(receipts[k])
  {
    if receipts == [] then [] else Claims(receipts[..|receipts| - 1]) + [ClaimOf(receipts[|receipts| - 1])]
  }

  function Finished(t: Track): seq<Claim> { if t.end.Some? then [Claim(t.index, t.start, t.end.value, t.block)] else [] }

  /** Claims of the blocks that have closed. */
  function Done(tracks: seq<Track>): seq<Claim> {
    if tracks == [] then [] else Done(tracks[..|tracks| - 1]) + Finished(tracks[|tracks| - 1])
  }

  function Pairing(t: Track): seq<Content> { [MarkerPart(t.block.Redacted?), ArtifactPart(KindName(t.block), Some(t.start))] }

  function Weave(tracks: seq<Track>): seq<Content> {
    if tracks == [] then [] else Weave(tracks[..|tracks| - 1]) + Pairing(tracks[|tracks| - 1])
  }

  function MarkerCount(parts: seq<Content>): nat {
    if parts == [] then 0 else MarkerCount(parts[..|parts| - 1]) + (if IsMarker(parts[|parts| - 1]) then 1 else 0)
  }

  // ----- the invariant -----

  ghost predicate Placed(s: State, t: Track) {
    && t.index in s.blocks
    && 1 <= t.start <= s.records
    && (t.end.None? ==> t.index in s.reasoning && s.reasoning[t.index].block == t.block && s.reasoning[t.index].start == t.start)
    && (t.end.Some? ==> t.start < t.end.value <= s.records && s.blocks[t.index].closed)
  }

  ghost predicate Apart(tracks: seq<Track>) {
    forall j, k :: 0 <= j < k < |tracks| ==> tracks[j].index != tracks[k].index && tracks[j].start < tracks[k].start
  }

  ghost predicate Held(tracks: seq<Track>, i: nat) {
    Place(tracks, i) < |tracks| && tracks[Place(tracks, i)].end.None?
  }

  /** The tracks are the captures and closed blocks of the state. */
  ghost predicate Follows(s: State, tracks: seq<Track>) {
    && (forall t :: t in tracks ==> Placed(s, t))
    && Apart(tracks)
    && (forall i :: i in s.reasoning ==> Held(tracks, i))
  }

  /** The loop has stored exactly these blocks. */
  ghost predicate Recorded(names: Names, g: Loop, story: Story) {
    && multiset(Claims(g.receipts)) == multiset(Done(story.tracks))
    && (story.lookAlikes == 0 ==> Relevant(g.parts) == Weave(story.tracks))
    && MarkerCount(Relevant(g.parts)) == |story.tracks|
    && |Relevant(g.parts)| == 2 * |story.tracks| + story.lookAlikes
    && (forall r :: r in g.receipts ==> r.generation == names.generation && r.message == names.message && r.model == names.model
                                        && Some(r.responseId) == g.responseId)
  }

  // ----- each effect keeps it -----

  lemma {:induction false} PlaceOf(tracks: seq<Track>, k: nat)
    requires k < |tracks| && Apart(tracks)
    ensures Place(tracks, tracks[k].index) == k
  {
    assert !(k < Place(tracks, tracks[k].index));
  }

  lemma HeldAt(tracks: seq<Track>, k: nat)
    requires k < |tracks| && Apart(tracks) && tracks[k].end.None?
    ensures Held(tracks, tracks[k].index)
  {
    PlaceOf(tracks, k);
  }

  lemma FollowsOpens(s: State, t: State, tracks: seq<Track>, index: nat, block: Block)
    requires Follows(s, tracks) && Moves(s, t, Opens(index, block))
    ensures Follows(t, Follow(tracks, Opens(index, block), t.records))
  {
    hide Held, Place;
    var added := Track(index, t.records, block, None);
    var next := tracks + [added];
    forall r | r in next ensures Placed(t, r) {
      if r != added {
        assert r in tracks && Placed(s, r);
        assert r.end.None? ==> r.index in (t.reasoning - {index});
      }
    }
    assert Apart(next) by {
      forall j | 0 <= j < |tracks| ensures tracks[j].index != index && tracks[j].start < t.records {
        assert tracks[j] in tracks && Placed(s, tracks[j]);
      }
    }
    forall i | i in t.reasoning ensures Held(next, i) {
      if i != index {
        assert i in (t.reasoning - {index});
        HeldPlace(tracks, i);
        HeldAt(next, Place(tracks, i));
      } else {
        HeldAt(next, |tracks|);
      }
    }
  }

  lemma HeldPlace(tracks: seq<Track>, i: nat)
    requires Held(tracks, i)
    ensures Place(tracks, i) < |tracks| && tracks[Place(tracks, i)].end.None? && tracks[Place(tracks, i)].index == i
  {
  }

  /** A track elsewhere is as before. */
  lemma OthersPlaced(s: State, t: State, index: nat, r: Track)
    requires Placed(s, r) && r.index != index && t.records == s.records + 1
    requires forall i :: i in s.blocks && s.blocks[i].closed ==> i in t.blocks && t.blocks[i].closed
    requires forall i :: i in s.blocks ==> i in t.blocks
    requires t.reasoning - {index} == s.reasoning - {index}
    ensures Placed(t, r)
  {
    assert r.end.None? ==> r.index in (s.reasoning - {index}) && (t.reasoning - {index})[r.index] == (s.reasoning - {index})[r.index];
  }

  lemma FollowsEdit(s: State, t: State, tracks: seq<Track>, p: nat, edited: Track)
    requires Follows(s, tracks) && p < |tracks| && t.records == s.records + 1
    requires edited.index == tracks[p].index && edited.start == tracks[p].start && Placed(t, edited)
    requires forall i :: i in s.blocks && s.blocks[i].closed ==> i in t.blocks && t.blocks[i].closed
    requires forall i :: i in s.blocks ==> i in t.blocks
    requires t.reasoning - {edited.index} == s.reasoning - {edited.index}
    requires edited.index in t.reasoning ==> edited.end.None?
    ensures Follows(t, tracks[p := edited])
  {
    hide Placed, Held, Place;
    var next := tracks[p := edited];
    forall k | 0 <= k < |next| ensures Placed(t, next[k]) {
      if k != p {
        assert tracks[k] in tracks;
        assert tracks[k].index != tracks[p].index;
        OthersPlaced(s, t, edited.index, tracks[k]);
      }
    }
    assert Apart(next);
    forall i | i in t.reasoning ensures Held(next, i) {
      if i != edited.index {
        assert i in (t.reasoning - {edited.index});
        HeldPlace(tracks, i);
        HeldAt(next, Place(tracks, i));
      } else {
        HeldAt(next, p);
      }
    }
  }

  lemma FollowsStep(s: State, t: State, tracks: seq<Track>, effect: Effect)
    requires Follows(s, tracks) && Moves(s, t, effect)
    ensures Follows(t, Follow(tracks, effect, t.records))
  {
    hide Follows, GrownBlock, SoundBlock;
    match effect
    case Opens(index, block) => FollowsOpens(s, t, tracks, index, block);
    case Grows(index, signature, text) =>
      OpenTrack(s, tracks, index);
      var k := Place(tracks, index);
      var edited := tracks[k].(block := GrownBlock(tracks[k].block, signature, text));
      FollowsEdit(s, t, tracks, k, edited);
    case Closes(index) =>
      OpenTrack(s, tracks, index);
      var k := Place(tracks, index);
      var edited := tracks[k].(end := Some(t.records));
      FollowsEdit(s, t, tracks, k, edited);
    case Begins(_, _) => FollowsSame(s, t, tracks);
    case LooksAlike(_) => FollowsSame(s, t, tracks);
    case Nothing => FollowsSame(s, t, tracks);
  }

  /** An open capture is followed by exactly one open track. */
  lemma OpenTrack(s: State, tracks: seq<Track>, index: nat)
    requires Follows(s, tracks) && index in s.reasoning
    ensures var k := Place(tracks, index);
      && k < |tracks| && tracks[k].index == index && tracks[k].end.None? && index in s.blocks
      && tracks[k].block == s.reasoning[index].block && tracks[k].start == s.reasoning[index].start
      && 1 <= tracks[k].start <= s.records
  {
    assert Placed(s, tracks[Place(tracks, index)]);
  }

  lemma FollowsSame(s: State, t: State, tracks: seq<Track>)
    requires Follows(s, tracks) && t.records == s.records + 1 && t.reasoning == s.reasoning
    requires forall i :: i in s.blocks && s.blocks[i].closed ==> i in t.blocks && t.blocks[i].closed
    requires forall i :: i in s.blocks ==> i in t.blocks
    ensures Follows(t, tracks)
  {
    forall r | r in tracks ensures Placed(t, r) {
      assert Placed(s, r);
    }
  }

  lemma {:induction false} EditTracks(tracks: seq<Track>, k: nat, v: Track)
    requires k < |tracks| && tracks[k].end.None? && Pairing(v) == Pairing(tracks[k])
    ensures Weave(tracks[k := v]) == Weave(tracks)
    ensures multiset(Done(tracks[k := v])) == multiset(Done(tracks)) + multiset(Finished(v))
    decreases |tracks|
  {
    hide Pairing;
    var n := |tracks| - 1;
    var next := tracks[k := v];
    if k < n {
      EditTracks(tracks[..n], k, v);
      assert next[..n] == tracks[..n][k := v];
      assert multiset(Done(next)) == multiset(Done(next[..n])) + multiset(Finished(next[n]));
      assert multiset(Done(tracks)) == multiset(Done(tracks[..n])) + multiset(Finished(tracks[n]));
    } else {
      assert next[..n] == tracks[..n];
    }
  }

  lemma TrackMore(tracks: seq<Track>, t: Track)
    requires t.end.None?
    ensures Weave(tracks + [t]) == Weave(tracks) + Pairing(t)
    ensures Done(tracks + [t]) == Done(tracks)
  {
    assert (tracks + [t])[..|tracks|] == tracks;
  }

  lemma ClaimsMore(receipts: seq<Receipt>, r: Receipt)
    ensures Claims(receipts + [r]) == Claims(receipts) + [ClaimOf(r)]
  {
    assert (receipts + [r])[..|receipts|] == receipts;
  }

  lemma CountMore(parts: seq<Content>, p: Content)
    ensures MarkerCount(parts + [p]) == MarkerCount(parts) + (if IsMarker(p) then 1 else 0)
  {
    assert (parts + [p])[..|parts|] == parts;
  }

  lemma RecordedOpens(names: Names, s: State, t: State, g: Loop, h: Loop, story: Story, index: nat, block: Block)
    requires Recorded(names, g, story) && Stores(names, s.reasoning, t.records, g, h, Opens(index, block))
    ensures Recorded(names, h, Story(Follow(story.tracks, Opens(index, block), t.records), story.lookAlikes))
  {
    hide Relevant, KindName, Weave, Done, Claims, MarkerCount;
    TrackMore(story.tracks, Track(index, t.records, block, None));
    var marker, opener := MarkerPart(block.Redacted?), ArtifactPart(KindName(block), Some(t.records));
    CountMore(Relevant(g.parts), marker);
    CountMore(Relevant(g.parts) + [marker], opener);
    assert Relevant(g.parts) + [marker, opener] == Relevant(g.parts) + [marker] + [opener];
  }

  lemma RecordedCloses(names: Names, s: State, t: State, g: Loop, h: Loop, story: Story, index: nat)
    requires Follows(s, story.tracks)
    requires Recorded(names, g, story) && Stores(names, s.reasoning, t.records, g, h, Closes(index))
    ensures Recorded(names, h, Story(Follow(story.tracks, Closes(index), t.records), story.lookAlikes))
  {
    hide Relevant, KindName, Weave, Done, Claims, MarkerCount, AcceptsBlock, BlockBytes, Place, Follows;
    OpenTrack(s, story.tracks, index);
    var k := Place(story.tracks, index);
    var v := story.tracks[k].(end := Some(t.records));
    EditTracks(story.tracks, k, v);
    var r := h.receipts[|g.receipts|];
    ClaimsMore(g.receipts, r);
    assert ClaimOf(r) == Claim(index, v.start, t.records, v.block);
    assert multiset(Claims(h.receipts)) == multiset(Claims(g.receipts)) + multiset([ClaimOf(r)]);
  }

  lemma RecordedGrows(names: Names, s: State, t: State, g: Loop, h: Loop, story: Story, index: nat, signature: bool, text: Text)
    requires Follows(s, story.tracks) && index in s.reasoning
    requires Recorded(names, g, story) && Stores(names, s.reasoning, t.records, g, h, Grows(index, signature, text))
    ensures Recorded(names, h, Story(Follow(story.tracks, Grows(index, signature, text), t.records), story.lookAlikes))
  {
    hide Relevant, Weave, Done, Claims, MarkerCount, BlockBytes, Place, Follows;
    OpenTrack(s, story.tracks, index);
    var k := Place(story.tracks, index);
    EditTracks(story.tracks, k, story.tracks[k].(block := GrownBlock(story.tracks[k].block, signature, text)));
  }

  /** Each record keeps the account of what is stored. */
  lemma RecordedStep(names: Names, s: State, t: State, g: Loop, h: Loop, story: Story, effect: Effect)
    requires Joined(names, s, g) && Follows(s, story.tracks) && Recorded(names, g, story)
    requires Moves(s, t, effect) && Stores(names, s.reasoning, t.records, g, h, effect)
    ensures Recorded(names, h, Story(Follow(story.tracks, effect, t.records), story.lookAlikes + (if effect.LooksAlike? then 1 else 0)))
  {
    hide Relevant, Weave, Done, Claims, MarkerCount, Follows;
    match effect
    case Opens(index, block) => RecordedOpens(names, s, t, g, h, story, index, block);
    case Closes(index) => RecordedCloses(names, s, t, g, h, story, index);
    case Grows(index, signature, text) => RecordedGrows(names, s, t, g, h, story, index, signature, text);
    case LooksAlike(kind) => CountMore(Relevant(g.parts), ArtifactPart(kind, Some(t.records)));
    case Begins(_, _) =>
    case Nothing =>
  }

  /** The whole run keeps it. */
  lemma {:induction false} PlayRecords(names: Names, s: State, g: Loop, story: Story, items: seq<Item>, parses: Text -> bool)
    requires Joined(names, s, g) && Follows(s, story.tracks) && Recorded(names, g, story)
    requires g.rawCount > 0 || (items != [] ==> items[0].Chunk?)
    requires Play(names, s, g, items, parses).Live?
    ensures var l := Play(names, s, g, items, parses);
      var told := Told(s, story, items, parses);
      Joined(names, l.stream, l.loop) && Follows(l.stream, told.tracks) && Recorded(names, l.loop, told)
    decreases |items|
  {
    hide Joined, Accept, HandleAll, Stores, Follows, Recorded, Follow, EffectOf, Moves, Shows;
    if items != [] {
      match items[0]
      case Chunk(bytes) =>
        ChunkJoined(names, s, g, bytes);
        ChunkRecorded(names, g, story, bytes);
        PlayRecords(names, s, StoreChunk(g, bytes), story, items[1..], parses);
      case Rec(data) =>
        var one := Accept(s, data, parses);
        var effect := EffectOf(s, data);
        StepIsStored(names, s, g, data, parses);
        JoinedLedger(names, s, g);
        AcceptShows(s, data, parses);
        var h := HandleAll(names, g, one.events).value;
        StoresKeepsRaw(names, s.reasoning, one.state.records, g, h, effect);
        CountsUp(s, one.state, effect);
        FollowsStep(s, one.state, story.tracks, effect);
        RecordedStep(names, s, one.state, g, h, story, effect);
        PlayRecords(names, one.state, h,
                    Story(Follow(story.tracks, effect, s.records + 1), story.lookAlikes + (if effect.LooksAlike? then 1 else 0)),
                    items[1..], parses);
    }
  }

  lemma ChunkRecorded(names: Names, g: Loop, story: Story, bytes: nat)
    requires Recorded(names, g, story)
    ensures Recorded(names, StoreChunk(g, bytes), story)
  {
    hide Relevant, Weave, Done, Claims, MarkerCount;
    RelevantMore(g.parts, ArtifactPart(RAW_KIND, None));
    assert Relevant(g.parts) + [] == Relevant(g.parts);
  }

  const UNTOLD := Story([], 0)

  lemma NothingRecorded(names: Names)
    ensures Follows(START, UNTOLD.tracks) && Recorded(names, Begin(names), UNTOLD)
  {
  }

  // ----- markers and openers of the stored message -----

  function Contents(ps: seq<ContentPart>): (c: seq<Content>)
    ensures |c| == |ps| && forall k :: 0 <= k < |c| ==> c[k] == ps[k].content
  {
    if ps == [] then [] else Contents(ps[..|ps| - 1]) + [ps[|ps| - 1].content]
  }

  function EvidenceOf(ps: seq<ContentPart>): seq<ContentPart> {
    if ps == [] then []
    else
      var last := ps[|ps| - 1];
      EvidenceOf(ps[..|ps| - 1]) + (if Receipts.Evidence(last.content) then [last] else [])
  }

  lemma EvidenceOfMore(ps: seq<ContentPart>, p: ContentPart)
    ensures EvidenceOf(ps + [p]) == EvidenceOf(ps) + (if Receipts.Evidence(p.content) then [p] else [])
    ensures Contents(ps + [p]) == Contents(ps) + [p.content]
  {
    assert (ps + [p])[..|ps|] == ps;
  }

  lemma NoEvidence()
    ensures EvidenceOf([]) == [] && Contents([]) == [] && Relevant([]) == [] && MarkersOf([]) == [] && OpenersOf([]) == []
    ensures MarkerCount([]) == 0 && Rising<ContentPart>([], Order)
  {
  }

  lemma EvidenceKinds(c: Content)
    ensures Receipts.Evidence(c) <==> IsMarker(c) || IsOpener(c)
    ensures !(IsMarker(c) && IsOpener(c))
  {
  }

  /** Only evidence matters to the binder. */
  lemma {:induction false} SelectEvidence(ps: seq<ContentPart>)
    ensures Contents(EvidenceOf(ps)) == Relevant(Contents(ps))
    ensures MarkersOf(EvidenceOf(ps)) == MarkersOf(ps) && OpenersOf(EvidenceOf(ps)) == OpenersOf(ps)
    decreases |ps|
  {
    hide *;
    NoEvidence();
    if ps != [] {
      var front, last := ps[..|ps| - 1], ps[|ps| - 1];
      assert ps == front + [last];
      SelectEvidence(front);
      EvidenceOfMore(front, last);
      RelevantMore(Contents(front), last.content);
      MarkersMore(front, last);
      MarkersMore(EvidenceOf(front), last);
      EvidenceOfMore(EvidenceOf(front), last);
      EvidenceKinds(last.content);
      Neutral(EvidenceOf(front));
      Neutral(MarkersOf(front));
      Neutral(OpenersOf(front));
      Neutral(Relevant(Contents(front)));
    }
  }

  lemma Neutral<T>(s: seq<T>)
    ensures s + [] == s
  {
  }

  /** Evidence stays in the order of the parts. */
  lemma {:induction false} EvidenceRises(ps: seq<ContentPart>)
    requires Rising(ps, Order)
    ensures Rising(EvidenceOf(ps), Order)
    ensures forall p :: p in EvidenceOf(ps) ==> p in ps
    decreases |ps|
  {
    if ps != [] {
      var front, last := ps[..|ps| - 1], ps[|ps| - 1];
      assert ps == front + [last];
      EvidenceRises(front);
      EvidenceOfMore(front, last);
      hide EvidenceOf;
      var e := EvidenceOf(front);
      forall k | 0 <= k < |e| ensures Order(e[k]) < Order(last) {
        assert e[k] in front;
      }
    }
  }

  lemma {:induction false} WeaveAt(tracks: seq<Track>)
    ensures |Weave(tracks)| == 2 * |tracks|
    ensures forall k :: 0 <= k < |tracks| ==> [Weave(tracks)[2 * k], Weave(tracks)[2 * k + 1]] == Pairing(tracks[k])
    decreases |tracks|
  {
    hide Pairing;
    if tracks != [] {
      WeaveAt(tracks[..|tracks| - 1]);
      assert |Pairing(tracks[|tracks| - 1])| == 2 by { PairingIsTwo(tracks[|tracks| - 1]); }
    }
  }

  lemma PairingIsTwo(t: Track)
    ensures |Pairing(t)| == 2
  {
  }

  /** Woven evidence: marker k stands at place 2k and its opener right behind it. */
  lemma {:induction false} Alternates(e: seq<ContentPart>, tracks: seq<Track>)
    requires Contents(e) == Weave(tracks)
    ensures |e| == 2 * |tracks| && |MarkersOf(e)| == |tracks| && |OpenersOf(e)| == |tracks|
    ensures forall k :: 0 <= k < |tracks| ==> MarkersOf(e)[k] == e[2 * k] && OpenersOf(e)[k] == e[2 * k + 1]
    decreases |tracks|
  {
    hide MarkersOf, OpenersOf, IsMarker, IsOpener, Weave, Contents, Pairing;
    NoEvidence();
    WeaveAt(tracks);
    assert |e| == |Contents(e)|;
    if tracks != [] {
      var n := |tracks| - 1;
      var front := e[..2 * n];
      assert e == front + [e[2 * n]] + [e[2 * n + 1]];
      ContentsFront(e, 2 * n);
      WeaveFront(tracks);
      Alternates(front, tracks[..n]);
      LastPair(e, tracks[n], n);
      MarkersMore(front, e[2 * n]);
      MarkersMore(front + [e[2 * n]], e[2 * n + 1]);
      Neutral(OpenersOf(front));
      Neutral(MarkersOf(front) + [e[2 * n]]);
    } else {
      assert e == [];
    }
  }

  lemma WeaveFront(tracks: seq<Track>)
    requires tracks != []
    ensures |Weave(tracks)| == 2 * |tracks| && Weave(tracks[..|tracks| - 1]) == Weave(tracks)[..2 * |tracks| - 2]
  {
    WeaveAt(tracks);
    WeaveAt(tracks[..|tracks| - 1]);
  }

  lemma LastPair(e: seq<ContentPart>, t: Track, n: nat)
    requires |e| == 2 * n + 2 && [e[2 * n].content, e[2 * n + 1].content] == Pairing(t)
    ensures IsMarker(e[2 * n].content) && !IsOpener(e[2 * n].content)
    ensures IsOpener(e[2 * n + 1].content) && !IsMarker(e[2 * n + 1].content)
  {
    assert Pairing(t)[0] == e[2 * n].content && Pairing(t)[1] == e[2 * n + 1].content;
  }

  lemma ContentsFront(e: seq<ContentPart>, n: nat)
    requires n <= |e|
    ensures Contents(e[..n]) == Contents(e)[..n]
  {
  }

  /** As many openers as markers, and one more for every look-alike. */
  lemma {:induction false} CountSelected(ps: seq<ContentPart>)
    ensures |MarkersOf(ps)| == MarkerCount(Relevant(Contents(ps)))
    ensures |MarkersOf(ps)| + |OpenersOf(ps)| == |Relevant(Contents(ps))|
    decreases |ps|
  {
    hide *;
    NoEvidence();
    if ps != [] {
      var front, last := ps[..|ps| - 1], ps[|ps| - 1];
      assert ps == front + [last];
      CountSelected(front);
      EvidenceOfMore(front, last);
      RelevantMore(Contents(front), last.content);
      MarkersMore(front, last);
      CountMore(Relevant(Contents(front)), last.content);
      EvidenceKinds(last.content);
      Neutral(Relevant(Contents(front)));
    }
  }

  // ----- receipts in index order -----

  function ClaimIndex(c: Claim): int { c.index }

  lemma {:induction false} ClaimsOrdered(receipts: seq<Receipt>)
    requires Ordered(receipts, Index)
    ensures Ordered(Claims(receipts), ClaimIndex)
    decreases |receipts|
  {
    if receipts != [] {
      ClaimsOrdered(receipts[1..]);
      var c := Claims(receipts);
      assert c[1..] == Claims(receipts[1..]);
      forall x | x in c[1..] ensures c[0].index <= ClaimIndex(x) {
        var i :| 0 <= i < |c[1..]| && c[1..][i] == x;
        assert receipts[1..][i] in receipts[1..];
      }
    }
  }

  lemma ClaimsAppend(a: seq<Receipt>, b: seq<Receipt>)
    ensures Claims(a + b) == Claims(a) + Claims(b)
  {
  }

  lemma ClaimsOne(r: Receipt)
    ensures Claims([r]) == [ClaimOf(r)]
  {
  }

  lemma ClaimsSplit(a: seq<Receipt>, r: Receipt, b: seq<Receipt>)
    ensures multiset(Claims(a + [r] + b)) == multiset{ClaimOf(r)} + multiset(Claims(a + b))
  {
    hide Claims;
    ClaimsAppend(a + [r], b);
    ClaimsAppend(a, [r]);
    ClaimsAppend(a, b);
    ClaimsOne(r);
    assert multiset(Claims(a) + [ClaimOf(r)] + Claims(b)) == multiset(Claims(a)) + multiset([ClaimOf(r)]) + multiset(Claims(b));
    assert multiset(Claims(a) + Claims(b)) == multiset(Claims(a)) + multiset(Claims(b));
  }

  lemma Removed<T>(s: seq<T>, i: nat)
    requires i < |s|
    ensures s == s[..i] + [s[i]] + s[i + 1..]
    ensures multiset(s) == multiset{s[i]} + multiset(s[..i] + s[i + 1..])
  {
    var l, r := s[..i], s[i + 1..];
    assert s == l + [s[i]] + r;
    assert multiset(l + [s[i]] + r) == multiset(l) + multiset([s[i]]) + multiset(r);
    assert multiset(l + r) == multiset(l) + multiset(r);
  }

  lemma Without(a: seq<Receipt>, i: nat)
    requires i < |a|
    ensures multiset(a) == multiset{a[i]} + multiset(a[..i] + a[i + 1..])
    ensures multiset(Claims(a)) == multiset{ClaimOf(a[i])} + multiset(Claims(a[..i] + a[i + 1..]))
  {
    hide *;
    Removed(a, i);
    ClaimsSplit(a[..i], a[i], a[i + 1..]);
  }

  lemma {:induction false} SameClaims(a: seq<Receipt>, b: seq<Receipt>)
    requires multiset(a) == multiset(b)
    ensures multiset(Claims(a)) == multiset(Claims(b))
    decreases |a|
  {
    hide *;
    SizeOf(a, b);
    if a == [] {
      assert b == [];
    } else {
      assert a[0] in multiset(a);
      var i :| 0 <= i < |b| && b[i] == a[0];
      Without(b, i);
      Without(a, 0);
      Cancel(a[0], multiset(a[..0] + a[1..]), multiset(b[..i] + b[i + 1..]));
      SameClaims(a[..0] + a[1..], b[..i] + b[i + 1..]);
    }
  }

  lemma Cancel<T>(x: T, a: multiset<T>, b: multiset<T>)
    requires multiset{x} + a == multiset{x} + b
    ensures a == b
  {
    assert a == multiset{x} + a - multiset{x};
    assert b == multiset{x} + b - multiset{x};
  }

  /** No more claims than blocks, and as many only when every block has closed. */
  lemma {:induction false} DoneFull(tracks: seq<Track>)
    ensures |Done(tracks)| <= |tracks|
    ensures |Done(tracks)| == |tracks| <==> forall t :: t in tracks ==> t.end.Some?
    ensures |Done(tracks)| == |tracks| ==> forall k :: 0 <= k < |tracks| ==> [Done(tracks)[k]] == Finished(tracks[k])
    decreases |tracks|
  {
    if tracks != [] {
      var front, last := tracks[..|tracks| - 1], tracks[|tracks| - 1];
      DoneFull(front);
      assert tracks == front + [last];
    }
  }

  lemma {:induction false} IndexesRise(tracks: seq<Track>, j: nat, k: nat)
    requires OneAtATime(tracks) && j < k < |tracks|
    ensures tracks[j].index < tracks[k].index
    decreases k
  {
    if j < k - 1 {
      IndexesRise(tracks, j, k - 1);
    }
  }

  /** When blocks come one at a time, sorting the receipts by index puts the k-th behind
      the k-th marker. */
  lemma SortedAreDone(tracks: seq<Track>, receipts: seq<Receipt>)
    requires OneAtATime(tracks) && multiset(Claims(receipts)) == multiset(Done(tracks))
    ensures Claims(SortBy(receipts, Index)) == Done(tracks) && |Done(tracks)| == |tracks|
  {
    DoneFull(tracks);
    hide Done, Claims, SortBy, Ordered;
    var sorted := SortBy(receipts, Index);
    Sorted(receipts, Index);
    SameClaims(sorted, receipts);
    ClaimsOrdered(sorted);
    var done := Done(tracks);
    forall j, k | 0 <= j < k < |done| ensures ClaimIndex(done[j]) < ClaimIndex(done[k]) {
      IndexesRise(tracks, j, k);
      assert [done[j]] == Finished(tracks[j]) && [done[k]] == Finished(tracks[k]);
    }
    SameOrder(Claims(sorted), done, ClaimIndex);
  }

  /** A receipt that starts where a block starts is that block's. */
  lemma StartDecides(tracks: seq<Track>, sorted: seq<Receipt>, k: nat)
    requires Apart(tracks) && |Done(tracks)| == |tracks| == |sorted| && k < |tracks|
    requires multiset(Claims(sorted)) == multiset(Done(tracks))
    requires sorted[k].start == tracks[k].start
    ensures Done(tracks)[k] == ClaimOf(sorted[k]) && tracks[k].end.Some? && [ClaimOf(sorted[k])] == Finished(tracks[k])
  {
    DoneFull(tracks);
    hide Done;
    assert Claims(sorted)[k] in multiset(Done(tracks));
    var j :| 0 <= j < |tracks| && Done(tracks)[j] == Claims(sorted)[k];
    assert [Done(tracks)[j]] == Finished(tracks[j]);
    assert tracks[j] in tracks && tracks[k] in tracks;
    assert tracks[j].start == tracks[k].start;
    assert j == k;
  }

  /** The evidence of a message: its parts and receipts, in any order, hold what the run stored. */
  ghost predicate Retained(g: Loop, stored: seq<ContentPart>, parts: seq<ContentPart>, receipts: seq<Receipt>) {
    && Rising(stored, Order) && multiset(parts) == multiset(stored)
    && Relevant(Contents(stored)) == Relevant(g.parts)
    && multiset(receipts) == multiset(g.receipts)
  }

  function MessageOf(names: Names): Message { Message(names.message, Some(names.generation), Some(names.model)) }

  lemma NoneForeign(names: Names, g: Loop, story: Story, sorted: seq<Receipt>)
    requires Recorded(names, g, story) && multiset(sorted) == multiset(g.receipts)
    ensures forall r :: r in sorted ==> !Foreign(MessageOf(names), r)
    ensures forall r :: r in sorted ==> Some(r.responseId) == g.responseId
  {
    hide Relevant, Weave, Done, Claims, MarkerCount;
    forall r | r in sorted ensures r in g.receipts {
      assert r in multiset(sorted);
    }
  }

  /** What the binder selects and sorts, given the stored evidence. */
  lemma Selected(names: Names, g: Loop, story: Story, stored: seq<ContentPart>, parts: seq<ContentPart>, receipts: seq<Receipt>)
    requires Recorded(names, g, story) && Retained(g, stored, parts, receipts)
    ensures SortBy(parts, Order) == stored
    ensures |MarkersOf(stored)| == |story.tracks| && |OpenersOf(stored)| == |story.tracks| + story.lookAlikes
    ensures |SortBy(receipts, Index)| == |receipts| == |g.receipts|
    ensures multiset(Claims(SortBy(receipts, Index))) == multiset(Done(story.tracks))
    ensures multiset(Claims(receipts)) == multiset(Done(story.tracks))
    ensures |Done(story.tracks)| == |receipts|
    ensures forall r :: r in SortBy(receipts, Index) ==> !Foreign(MessageOf(names), r) && Some(r.responseId) == g.responseId
  {
    hide Relevant, Weave, Done, MarkersOf, OpenersOf, SortBy, Contents, Claims, MarkerCount, Foreign, Ordered, Rising;
    SortRecovers(parts, stored, Order);
    CountSelected(stored);
    var sorted := SortBy(receipts, Index);
    Sorted(receipts, Index);
    SizeOf(sorted, receipts);
    SizeOf(receipts, g.receipts);
    SameClaims(sorted, g.receipts);
    SameClaims(receipts, g.receipts);
    SizeOf(Claims(sorted), Done(story.tracks));
    NoneForeign(names, g, story, sorted);
  }

  /** Where woven evidence stands in the message. */
  lemma Aligned(names: Names, g: Loop, story: Story, stored: seq<ContentPart>, parts: seq<ContentPart>, receipts: seq<Receipt>, k: nat)
    requires Recorded(names, g, story) && Retained(g, stored, parts, receipts) && story.lookAlikes == 0 && k < |story.tracks|
    ensures |MarkersOf(stored)| == |OpenersOf(stored)| == |story.tracks|
    ensures var markers, openers, t := MarkersOf(stored), OpenersOf(stored), story.tracks[k];
      && markers[k].content == MarkerPart(t.block.Redacted?)
      && openers[k].content == ArtifactPart(KindName(t.block), Some(t.start))
      && markers[k].order < openers[k].order
      && (k > 0 ==> openers[k - 1].order < markers[k].order)
  {
    hide Relevant, MarkersOf, OpenersOf, EvidenceOf, Done, Claims, MarkerCount, Weave;
    var e := EvidenceOf(stored);
    SelectEvidence(stored);
    EvidenceRises(stored);
    Alternates(e, story.tracks);
    WeaveAt(story.tracks);
    assert Order(e[2 * k]) < Order(e[2 * k + 1]);
    assert k > 0 ==> Order(e[2 * (k - 1) + 1]) < Order(e[2 * k]);
    assert [Contents(e)[2 * k], Contents(e)[2 * k + 1]] == Pairing(story.tracks[k]);
    PairingContents(story.tracks[k], e[2 * k].content, e[2 * k + 1].content);
  }

  lemma PairingContents(t: Track, a: Content, b: Content)
    requires [a, b] == Pairing(t)
    ensures a == MarkerPart(t.block.Redacted?) && b == ArtifactPart(KindName(t.block), Some(t.start))
  {
    assert [a, b][0] == Pairing(t)[0] && [a, b][1] == Pairing(t)[1];
  }

  /** One at a time is enough. */
  lemma BoundWhenOneAtATime(names: Names, g: Loop, story: Story, stored: seq<ContentPart>, parts: seq<ContentPart>, receipts: seq<Receipt>)
    requires Recorded(names, g, story) && Retained(g, stored, parts, receipts) && story.tracks != []
    requires story.lookAlikes == 0 && OneAtATime(story.tracks)
    ensures Verdict(MessageOf(names), parts, receipts).None?
  {
    hide Recorded, Retained, Done, MarkersOf, OpenersOf, SortBy, Claims, Foreign, Agrees;
    Selected(names, g, story, stored, parts, receipts);
    SortedAreDone(story.tracks, receipts);
    var markers, openers, sorted := MarkersOf(stored), OpenersOf(stored), SortBy(receipts, Index);
    MarkersAreMarkers(stored);
    forall k: nat | k < |markers| ensures Agrees(markers, openers, sorted, k) {
      AgreesAt(names, g, story, stored, parts, receipts, k);
    }
  }

  /** The k-th receipt by index is the k-th block's. */
  lemma ReceiptOfTrack(names: Names, g: Loop, story: Story, stored: seq<ContentPart>, parts: seq<ContentPart>, receipts: seq<Receipt>, k: nat)
    requires Recorded(names, g, story) && Retained(g, stored, parts, receipts) && k < |story.tracks| == |SortBy(receipts, Index)|
    requires OneAtATime(story.tracks)
    ensures var r, t := SortBy(receipts, Index)[k], story.tracks[k];
      t.end == Some(r.end) && r.index == t.index && r.start == t.start && r.block == t.block
    ensures Some(SortBy(receipts, Index)[k].responseId) == g.responseId
  {
    hide Recorded, Retained, Done, MarkersOf, OpenersOf, SortBy, Foreign, OneAtATime;
    Selected(names, g, story, stored, parts, receipts);
    SortedAreDone(story.tracks, receipts);
    DoneFull(story.tracks);
    var sorted := SortBy(receipts, Index);
    assert sorted[k] in sorted;
    assert [Done(story.tracks)[k]] == Finished(story.tracks[k]);
    assert ClaimOf(sorted[k]) == Done(story.tracks)[k];
  }

  lemma AgreesAt(names: Names, g: Loop, story: Story, stored: seq<ContentPart>, parts: seq<ContentPart>, receipts: seq<Receipt>, k: nat)
    requires Recorded(names, g, story) && Retained(g, stored, parts, receipts) && k < |story.tracks|
    requires story.lookAlikes == 0 && OneAtATime(story.tracks)
    requires |MarkersOf(stored)| == |OpenersOf(stored)| == |SortBy(receipts, Index)| == |story.tracks|
    requires IsMarker(MarkersOf(stored)[k].content) && IsOpener(OpenersOf(stored)[k].content)
    ensures Agrees(MarkersOf(stored), OpenersOf(stored), SortBy(receipts, Index), k)
  {
    hide Recorded, Retained, MarkersOf, OpenersOf, SortBy;
    Aligned(names, g, story, stored, parts, receipts, k);
    ReceiptOfTrack(names, g, story, stored, parts, receipts, k);
    ReceiptOfTrack(names, g, story, stored, parts, receipts, 0);
    if k > 0 {
      ReceiptOfTrack(names, g, story, stored, parts, receipts, k - 1);
    }
  }

  /** And necessary: nothing binds otherwise. A bound receipt is its block's receipt. */
  lemma OneAtATimeWhenBound(names: Names, s: State, g: Loop, story: Story, stored: seq<ContentPart>, parts: seq<ContentPart>, receipts: seq<Receipt>)
    requires Recorded(names, g, story) && Follows(s, story.tracks) && Retained(g, stored, parts, receipts) && story.tracks != []
    requires Verdict(MessageOf(names), parts, receipts).None?
    ensures story.lookAlikes == 0 && OneAtATime(story.tracks)
    ensures |SortBy(receipts, Index)| == |story.tracks|
    ensures forall k :: 0 <= k < |story.tracks| ==> [ClaimOf(SortBy(receipts, Index)[k])] == Finished(story.tracks[k])
  {
    hide Recorded, Retained, Done, MarkersOf, OpenersOf, SortBy, Claims, Foreign, Agrees, Finished;
    Selected(names, g, story, stored, parts, receipts);
    var markers, openers, sorted := MarkersOf(stored), OpenersOf(stored), SortBy(receipts, Index);
    MarkersAreMarkers(stored);
    forall k | 0 <= k < |story.tracks|
      ensures [ClaimOf(sorted[k])] == Finished(story.tracks[k]) && story.tracks[k].end.Some?
    {
      assert Agrees(markers, openers, sorted, k);
      Aligned(names, g, story, stored, parts, receipts, k);
      AgreesStart(markers, openers, sorted, k);
      StartDecides(story.tracks, sorted, k);
    }
    forall k | 0 < k < |story.tracks|
      ensures story.tracks[k - 1].index < story.tracks[k].index && story.tracks[k - 1].end.value <= story.tracks[k].start
    {
      assert Agrees(markers, openers, sorted, k);
      AgreesStart(markers, openers, sorted, k);
      FinishedIs(story.tracks[k], sorted[k]);
      FinishedIs(story.tracks[k - 1], sorted[k - 1]);
    }
  }

  lemma FinishedIs(t: Track, r: Receipt)
    requires [ClaimOf(r)] == Finished(t)
    ensures t.end == Some(r.end) && t.index == r.index && t.start == r.start && t.block == r.block
  {
    assert [ClaimOf(r)][0] == Finished(t)[0];
  }

  lemma AgreesStart(markers: seq<ContentPart>, openers: seq<ContentPart>, sorted: seq<Receipt>, k: nat)
    requires k < |markers| == |openers| == |sorted| && IsMarker(markers[k].content) && IsOpener(openers[k].content)
    requires Agrees(markers, openers, sorted, k)
    ensures openers[k].content.record == Some(sorted[k].start)
    ensures k > 0 ==> sorted[k - 1].index < sorted[k].index && sorted[k - 1].end <= sorted[k].start
  {
  }

  // ----- the theorem -----

  /** Binding a stored message succeeds exactly when nothing else of the stream is typed
      like a thinking block, and its thinking blocks closed one at a time with increasing
      indexes. The parts and receipts may be handed over in any order. */
  lemma BindsIffOneAtATime(names: Names, items: seq<Item>, parses: Text -> bool,
                           stored: seq<ContentPart>, parts: seq<ContentPart>, receipts: seq<Receipt>)
    requires items != [] ==> items[0].Chunk?
    requires Play(names, START, Begin(names), items, parses).Live?
    requires Retained(Play(names, START, Begin(names), items, parses).loop, stored, parts, receipts)
    requires Told(START, UNTOLD, items, parses).tracks != []
    ensures var told := Told(START, UNTOLD, items, parses);
      Verdict(MessageOf(names), parts, receipts).None? <==> told.lookAlikes == 0 && OneAtATime(told.tracks)
  {
    hide *;
    var l, told := Play(names, START, Begin(names), items, parses), Told(START, UNTOLD, items, parses);
    BeginsJoined(names);
    NothingRecorded(names);
    PlayRecords(names, START, Begin(names), UNTOLD, items, parses);
    if Verdict(MessageOf(names), parts, receipts).None? {
      OneAtATimeWhenBound(names, l.stream, l.loop, told, stored, parts, receipts);
    } else if told.lookAlikes == 0 && OneAtATime(told.tracks) {
      BoundWhenOneAtATime(names, l.loop, told, stored, parts, receipts);
    }
  }

  /** When it succeeds, the k-th marker is bound to the k-th block: its index, and the text,
      signature or data its fragments joined to. */
  lemma MarkersBindTheirBlocks(names: Names, items: seq<Item>, parses: Text -> bool,
                               stored: seq<ContentPart>, parts: seq<ContentPart>, receipts: seq<Receipt>, entries: map<nat, Entry>, k: nat)
    requires items != [] ==> items[0].Chunk?
    requires Play(names, START, Begin(names), items, parses).Live?
    requires Retained(Play(names, START, Begin(names), items, parses).loop, stored, parts, receipts)
    requires k < |Told(START, UNTOLD, items, parses).tracks|
    requires Verdict(MessageOf(names), parts, receipts).None?
    requires |MarkersOf(stored)| <= |SortBy(receipts, Index)| && Paired(MessageOf(names), MarkersOf(stored), SortBy(receipts, Index), entries)
    requires forall i, j :: 0 <= i < j < |stored| ==> stored[i].id != stored[j].id
    ensures |MarkersOf(stored)| == |Told(START, UNTOLD, items, parses).tracks|
    ensures var t := Told(START, UNTOLD, items, parses).tracks[k];
      var marker := MarkersOf(stored)[k];
      && marker.content == MarkerPart(t.block.Redacted?)
      && marker.id in entries && entries[marker.id] == Entry(names.message, names.model, t.index, t.block)
  {
    hide *;
    var l, told := Play(names, START, Begin(names), items, parses), Told(START, UNTOLD, items, parses);
    BeginsJoined(names);
    NothingRecorded(names);
    PlayRecords(names, START, Begin(names), UNTOLD, items, parses);
    OneAtATimeWhenBound(names, l.stream, l.loop, told, stored, parts, receipts);
    Aligned(names, l.loop, told, stored, parts, receipts, k);
    var markers, sorted := MarkersOf(stored), SortBy(receipts, Index);
    FinishedIs(told.tracks[k], sorted[k]);
    MarkersDiffer(stored);
    PairedAt(names, markers, sorted, entries, k);
  }

  lemma PairedAt(names: Names, markers: seq<ContentPart>, sorted: seq<Receipt>, entries: map<nat, Entry>, k: nat)
    requires k < |markers| <= |sorted| && Paired(MessageOf(names), markers, sorted, entries)
    requires forall i, j :: 0 <= i < j < |markers| ==> markers[i].id != markers[j].id
    ensures markers[k].id in entries && entries[markers[k].id] == Entry(names.message, names.model, sorted[k].index, sorted[k].block)
  {
    assert markers[k] in markers;
    assert Last(markers, k);
  }

  lemma {:induction false} MarkersDiffer(ps: seq<ContentPart>)
    requires forall i, j :: 0 <= i < j < |ps| ==> ps[i].id != ps[j].id
    ensures forall i, j :: 0 <= i < j < |MarkersOf(ps)| ==> MarkersOf(ps)[i].id != MarkersOf(ps)[j].id
    ensures forall p :: p in MarkersOf(ps) ==> p in ps
    decreases |ps|
  {
    if ps != [] {
      var front, last := ps[..|ps| - 1], ps[|ps| - 1];
      assert ps == front + [last];
      MarkersDiffer(front);
      MarkersMore(front, last);
      hide MarkersOf;
      forall i | 0 <= i < |MarkersOf(front)| ensures MarkersOf(front)[i].id != last.id {
        assert MarkersOf(front)[i] in front;
      }
    }
  }
}
