/** Checkpointing of one generation, packages/providers/src/generation.ts, as a machine
    whose steps are the code between two awaits. The idle flush timer and the commits it
    starts interleave freely with the event loop. */
module Generation {
  import opened Common
  import opened Utf16
  import opened ByteCounts
  import R = Receipts

  type Text = seq<Unit>

  const SEGMENT := 8192
  const MAX_PARTS := 100000
  const FLUSH_BYTES := 4096
  const FLUSH_MUTATIONS := 16

  // ----- what reaches storage -----

  /** A stored part: text, or anything else as the event loop hands it over. */
  datatype Content = TextContent(text: Text) | Solid(part: R.Content)

  const MANIFEST_KIND := "quixi.provider.response-manifest"
  const MANIFEST := Solid(R.ArtifactPart(MANIFEST_KIND, None))

  /** Transport evidence, which keeps the text part before it open. */
  predicate Transport(c: Content) { c.Solid? && c.part.ArtifactPart? && c.part.kind in {R.RAW_KIND, MANIFEST_KIND} }

  datatype Mutation = NewPart(sequence: nat, order: nat, content: Content)
                    | AppendText(sequence: nat, order: nat, text: Text)
                    | Unsequenced

  /** The stored parts after one mutation. A new part takes the next order; text may be
      appended only to a text part that only transport evidence follows. */
  function Apply(parts: seq<Content>, m: Mutation): Option<seq<Content>> {
    match m
    case Unsequenced => Some(parts)
    case NewPart(_, order, content) => if order == |parts| then Some(parts + [content]) else None
    case AppendText(_, order, text) =>
      if order < |parts| && parts[order].TextContent? && OnlyTransport(parts[order + 1..])
      then Some(parts[order := TextContent(parts[order].text + text)]) else None
  }

  predicate OnlyTransport(parts: seq<Content>) { forall k :: 0 <= k < |parts| ==> Transport(parts[k]) }

  function Stored(ms: seq<Mutation>): Option<seq<Content>> {
    if ms == [] then Some([])
    else
      var front := Stored(ms[..|ms| - 1]);
      if front.None? then None else Apply(front.value, ms[|ms| - 1])
  }

  /** Sequence numbers so far, when they are exactly 1, 2, 3, … */
  function Sequences(ms: seq<Mutation>): Option<nat> {
    if ms == [] then Some(0)
    else
      var front := Sequences(ms[..|ms| - 1]);
      var m := ms[|ms| - 1];
      if m.Unsequenced? then front
      else if front.Some? && m.sequence == front.value + 1 then Some(m.sequence) else None
  }

  function Texts(parts: seq<Content>): Text {
    if parts == [] then []
    else
      var last := parts[|parts| - 1];
      Texts(parts[..|parts| - 1]) + (if last.TextContent? then last.text else [])
  }

  /** The parts that are not text, in order. */
  function Solids(parts: seq<Content>): seq<R.Content> {
    if parts == [] then []
    else
      var last := parts[|parts| - 1];
      Solids(parts[..|parts| - 1]) + (if last.Solid? then [last.part] else [])
  }

  // ----- the loop -----

  datatype Active = Active(key: nat, order: nat, characters: nat)

  datatype Control =
    | Idle
    | Texting(key: nat, rest: Text)               // inside the text loop
    | FlushWait(key: nat, rest: Text)             // awaiting a flush the text loop started
    | AppendSettle(content: Content)              // waiting for `committing` to clear
    | AppendWait                                  // a part's commit is in flight
    | RawSettle(raw: Content, final: bool)
    | RawDigest(raw: Content, final: bool)        // hashing the bytes
    | RawStage(raw: Content, batch: seq<Mutation>, final: bool) // the blob is being staged
    | RawWait(raw: Content, final: bool)
    | Closed                                      // returned, or failed

  /** The run's variables; and what has been dispatched, the text that arrived, where in it
      events began, and the other parts that arrived. */
  datatype State = State(sequence: nat, partCount: nat, pending: seq<Mutation>, pendingBytes: nat,
                         active: Option<Active>, timer: bool, committing: bool, background: nat, flushFailed: bool,
                         control: Control, log: seq<Mutation>, arrived: Text, starts: set<nat>, solids: seq<R.Content>)

  const START := State(0, 0, [], 0, None, false, false, 0, false, Idle, [], [], {}, [])

  /** Where the next piece ends: at the room left, but not inside a surrogate pair. */
  function PieceEnd(rest: Text, room: nat): (end: nat)
    requires 0 < room
    ensures end <= |rest| && end <= room && !SplitsPair(rest, end)
    ensures rest != [] && end == 0 ==> room == 1
  {
    var end := Min(|rest|, room);
    if 0 < end < |rest| && High(rest[end - 1]) && Low(rest[end]) then end - 1 else end
  }

  function Usable(active: Option<Active>, key: nat): Option<Active> {
    if active.Some? && active.value.key == key && active.value.characters < SEGMENT then active else None
  }

  function Room(active: Option<Active>): (room: int)
    ensures active.Some? && active.value.characters < SEGMENT ==> room > 0
    ensures active.None? ==> room == SEGMENT
  {
    SEGMENT - (if active.Some? then active.value.characters else 0)
  }

  /** One turn of the text loop, before it decides to flush. */
  function TextTurn(s: State, key: nat, rest: Text): State
    requires rest != []
  {
    var active := Usable(s.active, key);
    var end := PieceEnd(rest, Room(active));
    if end == 0 then s.(active := None)
    else if active.None? && s.partCount >= MAX_PARTS then s.(control := Closed, timer := false)
    else
      var piece := rest[..end];
      var m := if active.Some? then AppendText(s.sequence + 1, active.value.order, piece)
               else NewPart(s.sequence + 1, s.partCount, TextContent(piece));
      s.(sequence := s.sequence + 1,
         partCount := if active.Some? then s.partCount else s.partCount + 1,
         active := Some(if active.Some? then active.value.(characters := active.value.characters + end) else Active(key, s.partCount, end)),
         pending := s.pending + [m],
         pendingBytes := s.pendingBytes + Utf8Length(piece),
         control := Texting(key, rest[end..]))
  }

  function Flushed(s: State): State {
    s.(pending := [], pendingBytes := 0, committing := true, log := s.log + s.pending)
  }

  datatype Event = TextEvent(key: nat, text: Text) | PartEvent(content: Content) | RawEvent(raw: Content, final: bool)

  /** Every step the run can take. */
  ghost predicate Step(s: State, t: State) { (exists e :: Receive(s, t, e)) || Quiet(s, t) }

  /** Every step that takes no event. */
  ghost predicate Quiet(s: State, t: State) {
    || TextStep(s, t)
    || CommitStep(s, t)
    || TimerStep(s, t)
    || (s.control != Closed && t == s.(control := Closed, timer := false))
  }

  /** The loop takes the next event. Only raw transport keeps the open text segment. */
  ghost predicate Receive(s: State, t: State, e: Event) {
    s.control == Idle &&
    match e
    case TextEvent(key, text) => t == s.(control := Texting(key, text), arrived := s.arrived + text, starts := s.starts + {|s.arrived|})
    case PartEvent(content) =>
      !content.TextContent? && t == s.(active := None, control := AppendSettle(content), solids := s.solids + [content.part])
    case RawEvent(raw, final) =>
      && !raw.TextContent? && s.partCount < MAX_PARTS && (final ==> raw == MANIFEST)
      && t == s.(active := if Transport(raw) then s.active else None, control := RawSettle(raw, final), solids := s.solids + [raw.part])
  }

  ghost predicate TextStep(s: State, t: State) {
    s.control.Texting? &&
    var key, rest := s.control.key, s.control.rest;
    if rest == [] then t == s.(control := Idle)
    else
      var turned := TextTurn(s, key, rest);
      if turned.control == Closed || turned.pending == s.pending then t == turned
      else if s.flushFailed then t == turned.(control := Closed, timer := false)
      else if turned.pendingBytes >= FLUSH_BYTES || |turned.pending| >= FLUSH_MUTATIONS then
        t == Flushed(turned).(control := FlushWait(key, turned.control.rest))
      else t == turned.(timer := true)
  }

  /** The commits of the loop itself: waiting, dispatching, and their replies. */
  ghost predicate CommitStep(s: State, t: State) {
    match s.control
    case FlushWait(key, rest) => t == s.(control := Texting(key, rest), committing := false)
    case AppendSettle(content) =>
      && !s.committing && !s.flushFailed && s.partCount < MAX_PARTS
      && t == s.(control := AppendWait, pending := [], pendingBytes := 0,
                 log := s.log + s.pending + [NewPart(s.sequence + 1, s.partCount, content)])
    case AppendWait => t == s.(control := Idle, sequence := s.sequence + 1, partCount := s.partCount + 1)
    case RawSettle(raw, final) => !s.committing && t == s.(control := RawDigest(raw, final))
    case RawDigest(raw, final) =>
      && !s.flushFailed
      && t == s.(control := RawStage(raw, s.pending + [Unsequenced, NewPart(s.sequence + 1, s.partCount, raw)], final),
                 pending := [], pendingBytes := 0)
    case RawStage(raw, batch, final) => t == s.(control := RawWait(raw, final), log := s.log + batch)
    case RawWait(raw, final) =>
      t == s.(control := if final then Closed else Idle, timer := s.timer && !final,
              sequence := s.sequence + 1, partCount := s.partCount + 1)
    case _ => false
  }

  /** The timer has gone off: it starts a flush, unless a commit is in flight or nothing waits. */
  function Fired(s: State): State {
    if s.committing || s.pending == [] then s.(timer := false)
    else Flushed(s).(timer := false, background := s.background + 1)
  }

  /** The timer may fire whenever it is set; a commit it started may end at any time. */
  ghost predicate TimerStep(s: State, t: State) {
    || (s.timer && t == Fired(s))
    || (s.background > 0 && t == s.(background := s.background - 1, committing := false))
    || (s.background > 0 && t == s.(background := s.background - 1, committing := false, flushFailed := true))
  }

  // ----- the invariant -----

  function Staged(c: Control): seq<Mutation> { if c.RawStage? then c.batch else [] }

  function Unread(c: Control): Text { if c.Texting? || c.FlushWait? then c.rest else [] }

  /** The part the loop is about to store. */
  function Unplaced(c: Control): seq<R.Content> {
    if c.AppendSettle? && c.content.Solid? then [c.content.part]
    else if (c.RawSettle? || c.RawDigest?) && c.raw.Solid? then [c.raw.part]
    else []
  }

  /** One mutation is out whose sequence and order the counters do not include yet. */
  function Ahead(c: Control): nat { if c.AppendWait? || c.RawStage? || c.RawWait? then 1 else 0 }

  function All(s: State): seq<Mutation> { s.log + Staged(s.control) + s.pending }

  ghost predicate ActiveFits(active: Option<Active>, parts: seq<Content>) {
    active.Some? ==>
      var a := active.value;
      && a.order < |parts| && parts[a.order].TextContent?
      && |parts[a.order].text| == a.characters <= SEGMENT
      && OnlyTransport(parts[a.order + 1..])
  }

  ghost predicate Bounded(parts: seq<Content>) {
    forall k :: 0 <= k < |parts| ==> parts[k].TextContent? ==> |parts[k].text| <= 8192
  }

  /** A part ends in no surrogate pair of the text that arrived, unless an event began there. */
  predicate EndsWell(parts: seq<Content>, k: nat, arrived: Text, starts: set<nat>)
    requires k < |parts|
  {
    var end := |Texts(parts[..k + 1])|;
    end in starts || !SplitsPair(arrived, end)
  }

  predicate KeepsPairs(parts: seq<Content>, arrived: Text, starts: set<nat>) {
    forall k :: 0 <= k < |parts| && parts[k].TextContent? ==> EndsWell(parts, k, arrived, starts)
  }

  /** While a raw checkpoint is out, it is the last part. */
  predicate Trails(c: Control, parts: seq<Content>) {
    c.RawStage? || c.RawWait? ==> (c.final ==> c.raw == MANIFEST) && parts != [] && parts[|parts| - 1] == c.raw
  }

  /** Sequences are 1, 2, 3, …; part orders are 0, 1, 2, …; no append is refused; the
      text parts in order are the text that arrived and was read. */
  ghost predicate Consistent(s: State) {
    var parts := Stored(All(s));
    && Sequences(All(s)) == Some(s.sequence + Ahead(s.control))
    && parts.Some?
    && |parts.value| == s.partCount + Ahead(s.control)
    && Bounded(parts.value)
    && ActiveFits(s.active, parts.value)
    && Texts(parts.value) + Unread(s.control) == s.arrived
    && KeepsPairs(parts.value, s.arrived, s.starts)
    && Trails(s.control, parts.value)
    && Solids(parts.value) + Unplaced(s.control) == s.solids
  }

  ghost predicate Inv(s: State) {
    && (if s.control == Closed then !s.timer else Consistent(s))
    && (Ahead(s.control) == 1 ==> s.pending == [])
    && (s.control.AppendSettle? ==> !s.control.content.TextContent? && s.active.None?)
    && ((s.control.RawSettle? || s.control.RawDigest?) ==>
          && !s.control.raw.TextContent? && (!Transport(s.control.raw) ==> s.active.None?)
          && (s.control.final ==> s.control.raw == MANIFEST))
    && Sequences(s.log).Some? && Stored(s.log).Some?
  }

  // ----- lemmas about mutation lists -----

  lemma StoredOne(ms: seq<Mutation>, m: Mutation)
    ensures Stored(ms + [m]) == if Stored(ms).None? then None else Apply(Stored(ms).value, m)
    ensures Sequences(ms + [m]) ==
      if m.Unsequenced? then Sequences(ms)
      else if Sequences(ms).Some? && m.sequence == Sequences(ms).value + 1 then Some(m.sequence) else None
  {
    assert (ms + [m])[..|ms|] == ms;
  }

  /** What is stored so far was storable at every moment before. */
  lemma {:induction false} StoredPrefix(a: seq<Mutation>, b: seq<Mutation>)
    requires Stored(a + b).Some? && Sequences(a + b).Some?
    ensures Stored(a).Some? && Sequences(a).Some?
    decreases |b|
  {
    if b == [] {
      assert a + b == a;
    } else {
      var n := |b| - 1;
      assert a + b == (a + b[..n]) + [b[n]];
      StoredOne(a + b[..n], b[n]);
      StoredPrefix(a, b[..n]);
    }
  }

  lemma TextsOne(parts: seq<Content>, c: Content)
    ensures Texts(parts + [c]) == Texts(parts) + (if c.TextContent? then c.text else [])
  {
    assert (parts + [c])[..|parts|] == parts;
  }

  lemma SolidsOne(parts: seq<Content>, c: Content)
    ensures Solids(parts + [c]) == Solids(parts) + (if c.Solid? then [c.part] else [])
  {
    assert (parts + [c])[..|parts|] == parts;
  }

  lemma {:induction false} SolidsAppend(parts: seq<Content>, order: nat, text: Text)
    requires order < |parts| && parts[order].TextContent?
    ensures Solids(parts[order := TextContent(parts[order].text + text)]) == Solids(parts)
    decreases |parts|
  {
    var n := |parts| - 1;
    var grown := parts[order := TextContent(parts[order].text + text)];
    if order == n {
      assert grown[..n] == parts[..n];
    } else {
      SolidsAppend(parts[..n], order, text);
      assert grown[..n] == parts[..n][order := TextContent(parts[order].text + text)];
    }
  }

  /** Text appended to the last text part appears at the end of the text. */
  lemma {:induction false} TextsAppend(parts: seq<Content>, order: nat, text: Text)
    requires order < |parts| && parts[order].TextContent? && OnlyTransport(parts[order + 1..])
    ensures Texts(parts[order := TextContent(parts[order].text + text)]) == Texts(parts) + text
    decreases |parts|
  {
    var n := |parts| - 1;
    var grown := parts[order := TextContent(parts[order].text + text)];
    if order == n {
      assert grown[..n] == parts[..n];
    } else {
      assert parts[n] == parts[order + 1..][n - order - 1];
      assert OnlyTransport(parts[..n][order + 1..]) by {
        assert parts[..n][order + 1..] == parts[order + 1..][..n - order - 1];
      }
      TextsAppend(parts[..n], order, text);
      assert grown[..n] == parts[..n][order := TextContent(parts[order].text + text)];
    }
  }

  // ----- the steps keep the invariant -----

  /** The next mutation, fitting the counters and the open segment, keeps everything. */
  lemma TurnKeeps(s: State, key: nat, rest: Text)
    requires Inv(s) && s.control == Texting(key, rest) && rest != []
    ensures TextTurn(s, key, rest).control != Closed ==> Inv(TextTurn(s, key, rest))
  {
    hide Stored, Sequences, Texts, Solids, Utf8Length, SplitsPair, Bounded, ActiveFits;
    var active := Usable(s.active, key);
    var end := PieceEnd(rest, Room(active));
    var t := TextTurn(s, key, rest);
    if end == 0 {
      assert All(t) == All(s);
      NoActive(Stored(All(s)).value);
    } else if active.Some? {
      TurnAppends(s, key, rest, end);
    } else if t.control != Closed {
      TurnStarts(s, key, rest, end);
    }
  }

  lemma TurnAppends(s: State, key: nat, rest: Text, end: nat)
    requires Inv(s) && s.control == Texting(key, rest) && rest != [] && Usable(s.active, key).Some?
    requires end == PieceEnd(rest, Room(Usable(s.active, key))) && end > 0
    ensures Inv(TextTurn(s, key, rest))
  {
    hide Stored, Sequences, Texts, Solids, Utf8Length, PieceEnd;
    var t := TextTurn(s, key, rest);
    var parts := Stored(All(s)).value;
    var a := s.active.value;
    var m := AppendText(s.sequence + 1, a.order, rest[..end]);
    assert All(t) == All(s) + [m];
    StoredOne(All(s), m);
    assert Texts(parts) + rest == Texts(parts) + rest[..end] + rest[end..];
    TextsAppend(parts, a.order, rest[..end]);
    SolidsAppend(parts, a.order, rest[..end]);
    AppendKeeps(parts, a.order, rest[..end]);
    CutKeeps(Texts(parts), rest, end);
    AppendKeepsPairs(parts, a.order, rest[..end], s.arrived, s.starts);
  }

  lemma TurnStarts(s: State, key: nat, rest: Text, end: nat)
    requires Inv(s) && s.control == Texting(key, rest) && rest != [] && Usable(s.active, key).None?
    requires end == PieceEnd(rest, SEGMENT) && end > 0 && s.partCount < MAX_PARTS
    ensures Inv(TextTurn(s, key, rest))
  {
    hide Stored, Sequences, Texts, Solids, Utf8Length, PieceEnd;
    var t := TextTurn(s, key, rest);
    var parts := Stored(All(s)).value;
    var c := TextContent(rest[..end]);
    var m := NewPart(s.sequence + 1, s.partCount, c);
    assert All(t) == All(s) + [m];
    StoredOne(All(s), m);
    assert Texts(parts) + rest == Texts(parts) + rest[..end] + rest[end..];
    TextsOne(parts, c);
    SolidsOne(parts, c);
    assert Solids(parts) + [] == Solids(parts);
    assert (parts + [c])[|parts| + 1..] == [];
    CutKeeps(Texts(parts), rest, end);
    NewKeepsPairs(parts, c, s.arrived, s.starts);
  }

  /** A cut of the unread text that separates no pair separates none of the whole text. */
  lemma CutKeeps(read: Text, rest: Text, end: nat)
    requires end <= |rest| && !SplitsPair(rest, end) && end > 0
    ensures !SplitsPair(read + rest, |read| + end)
  {
  }

  lemma NewKeepsPairs(parts: seq<Content>, c: Content, arrived: Text, starts: set<nat>)
    requires KeepsPairs(parts, arrived, starts)
    requires c.TextContent? ==> !SplitsPair(arrived, |Texts(parts + [c])|)
    ensures KeepsPairs(parts + [c], arrived, starts)
  {
    hide SplitsPair, Texts;
    var more := parts + [c];
    forall k | 0 <= k < |more| && more[k].TextContent?
      ensures EndsWell(more, k, arrived, starts)
    {
      if k < |parts| {
        assert more[..k + 1] == parts[..k + 1] && EndsWell(parts, k, arrived, starts);
      } else {
        assert more[..k + 1] == more;
      }
    }
  }

  lemma {:induction false} TransportHasNoText(parts: seq<Content>, n: nat)
    requires n <= |parts| && OnlyTransport(parts[n..])
    ensures Texts(parts) == Texts(parts[..n])
    decreases |parts| - n
  {
    if n == |parts| {
      assert parts[..n] == parts;
    } else {
      assert parts[n] == parts[n..][0];
      assert parts[n + 1..] == parts[n..][1..];
      TransportHasNoText(parts, n + 1);
      assert parts[..n + 1][..n] == parts[..n];
    }
  }

  lemma AppendKeepsPairs(parts: seq<Content>, order: nat, piece: Text, arrived: Text, starts: set<nat>)
    requires order < |parts| && parts[order].TextContent? && OnlyTransport(parts[order + 1..])
    requires KeepsPairs(parts, arrived, starts)
    requires !SplitsPair(arrived, |Texts(parts[order := TextContent(parts[order].text + piece)])|)
    ensures KeepsPairs(parts[order := TextContent(parts[order].text + piece)], arrived, starts)
  {
    hide SplitsPair, Texts;
    var grown := parts[order := TextContent(parts[order].text + piece)];
    assert grown[order + 1..] == parts[order + 1..];
    TransportHasNoText(grown, order + 1);
    forall k | order < k < |grown|
      ensures !grown[k].TextContent?
    {
      assert grown[k] == parts[order + 1..][k - order - 1];
    }
    forall k | 0 <= k < |grown| && grown[k].TextContent?
      ensures EndsWell(grown, k, arrived, starts)
    {
      if k < order {
        assert grown[..k + 1] == parts[..k + 1] && EndsWell(parts, k, arrived, starts);
      }
    }
  }

  lemma AppendKeeps(parts: seq<Content>, order: nat, piece: Text)
    requires order < |parts| && parts[order].TextContent? && OnlyTransport(parts[order + 1..])
    requires Bounded(parts) && |parts[order].text| + |piece| <= SEGMENT
    ensures var grown := parts[order := TextContent(parts[order].text + piece)];
      Bounded(grown) && OnlyTransport(grown[order + 1..])
  {
    var grown := parts[order := TextContent(parts[order].text + piece)];
    assert grown[order + 1..] == parts[order + 1..];
  }

  /** Moving the pending mutations to storage changes neither their order nor anything
      else that the invariant speaks of. */
  lemma FlushKeeps(s: State)
    requires Inv(s) && s.control != Closed && Staged(s.control) == []
    ensures Inv(Flushed(s))
  {
    hide Stored, Sequences, Texts, Solids, ActiveFits, Bounded, KeepsPairs;
    assert All(Flushed(s)) == All(s) == s.log + s.pending;
  }

  lemma WaitKeeps(s: State)
    requires Inv(s) && s.control.Texting?
    ensures Inv(Flushed(s).(control := FlushWait(s.control.key, s.control.rest)))
  {
    hide Stored, Sequences, Texts, Solids, KeepsPairs, Bounded, ActiveFits;
    FlushKeeps(s);
    assert All(Flushed(s).(control := FlushWait(s.control.key, s.control.rest))) == All(Flushed(s));
  }

  lemma TimedKeeps(s: State)
    requires Inv(s) && s.control.Texting?
    ensures Inv(s.(timer := true)) && Inv(s.(control := Closed, timer := false)) && (s.control.rest == [] ==> Inv(s.(control := Idle)))
  {
    hide Stored, Sequences, Texts, Solids, KeepsPairs, Bounded, ActiveFits;
    assert All(s.(timer := true)) == All(s) == All(s.(control := Idle));
  }

  /** A run that has failed in a turn has dispatched no more. */
  lemma EndKeeps(s: State, t: State)
    requires Inv(s) && t.control == Closed && !t.timer && t.log == s.log
    ensures Inv(t)
  {
    hide Consistent;
  }

  lemma TextStepKeeps(s: State, t: State)
    requires Inv(s) && TextStep(s, t)
    ensures Inv(t)
  {
    hide Inv, TextTurn;
    TimedKeeps(s);
    if s.control.rest != [] {
      var turned := TextTurn(s, s.control.key, s.control.rest);
      TurnShape(s, s.control.key, s.control.rest);
      TurnKeeps(s, s.control.key, s.control.rest);
      if turned.control != Closed {
        WaitKeeps(turned);
        TimedKeeps(turned);
      } else {
        EndKeeps(s, turned);
      }
    }
  }

  lemma TurnShape(s: State, key: nat, rest: Text)
    requires s.control == Texting(key, rest) && rest != []
    ensures var t := TextTurn(s, key, rest);
      && t.log == s.log
      && (t.control == Closed ==> !t.timer)
      && (t.control != Closed ==> t.control.Texting? && t.control.key == key)
  {
    hide Utf8Length, PieceEnd;
  }

  lemma ReceiveKeeps(s: State, t: State, e: Event)
    requires Inv(s) && Receive(s, t, e)
    ensures Inv(t)
  {
    hide Stored, Sequences, Texts, Solids, ActiveFits, Bounded, KeepsPairs;
    assert All(t) == All(s);
    var parts := Stored(All(s)).value;
    assert Texts(parts) + [] == Texts(parts) && Solids(parts) + [] == Solids(parts);
    assert t.active == s.active || t.active.None?;
    assert ActiveFits(None, parts) by { NoActive(parts); }
    if e.TextEvent? {
      ArrivalKeepsPairs(parts, s.arrived, e.text, s.starts);
    }
  }

  lemma {:induction false} TextsGrow(parts: seq<Content>, n: nat)
    requires n <= |parts|
    ensures |Texts(parts[..n])| <= |Texts(parts)|
    decreases |parts| - n
  {
    hide Texts;
    if n == |parts| {
      assert parts[..n] == parts;
    } else {
      assert parts[..n + 1] == parts[..n] + [parts[n]];
      TextsOne(parts[..n], parts[n]);
      TextsGrow(parts, n + 1);
    }
  }

  /** Where the next event begins a pair may be separated; nowhere else does anything change. */
  lemma ArrivalKeepsPairs(parts: seq<Content>, arrived: Text, text: Text, starts: set<nat>)
    requires KeepsPairs(parts, arrived, starts) && |Texts(parts)| <= |arrived|
    ensures KeepsPairs(parts, arrived + text, starts + {|arrived|})
  {
    hide EndsWell, Texts;
    forall k | 0 <= k < |parts| && parts[k].TextContent?
      ensures EndsWell(parts, k, arrived + text, starts + {|arrived|})
    {
      EndArrives(parts, k, arrived, text, starts);
    }
  }

  lemma EndArrives(parts: seq<Content>, k: nat, arrived: Text, text: Text, starts: set<nat>)
    requires k < |parts| && EndsWell(parts, k, arrived, starts) && |Texts(parts)| <= |arrived|
    ensures EndsWell(parts, k, arrived + text, starts + {|arrived|})
  {
    hide Texts, SplitsPair;
    TextsGrow(parts, k + 1);
    var end := |Texts(parts[..k + 1])|;
    if end < |arrived| {
      ArrivalSplits(arrived, text, end);
    }
  }

  lemma ArrivalSplits(arrived: Text, text: Text, at: nat)
    requires at < |arrived|
    ensures SplitsPair(arrived + text, at) == SplitsPair(arrived, at)
  {
  }

  lemma NoActive(parts: seq<Content>)
    ensures ActiveFits(None, parts)
  {
  }

  /** A part that is not text follows: the open segment may only stay open behind
      transport evidence. */
  lemma PartKeeps(parts: seq<Content>, c: Content, active: Option<Active>)
    requires !c.TextContent? && Bounded(parts) && ActiveFits(active, parts)
    requires !Transport(c) ==> active.None?
    ensures Bounded(parts + [c]) && ActiveFits(active, parts + [c]) && Texts(parts + [c]) == Texts(parts)
  {
    TextsOne(parts, c);
    assert Texts(parts) + [] == Texts(parts);
    if active.Some? {
      var a := active.value;
      assert (parts + [c])[a.order + 1..] == parts[a.order + 1..] + [c];
    }
  }

  lemma AppendDispatch(s: State, t: State)
    requires Inv(s) && s.control.AppendSettle? && CommitStep(s, t)
    ensures Inv(t)
  {
    hide Stored, Sequences, Texts, Solids, ActiveFits, Bounded, KeepsPairs;
    var m := NewPart(s.sequence + 1, s.partCount, s.control.content);
    var parts := Stored(All(s)).value;
    assert All(s) == s.log + s.pending;
    assert All(t) == All(s) + [m] == t.log;
    StoredOne(All(s), m);
    PartKeeps(parts, s.control.content, s.active);
    NewKeepsPairs(parts, s.control.content, s.arrived, s.starts);
    SolidsOne(parts, s.control.content);
    assert Solids(parts + [s.control.content]) + [] == Solids(parts + [s.control.content]);
  }

  lemma RawDispatch(s: State, t: State)
    requires Inv(s) && s.control.RawDigest? && CommitStep(s, t)
    ensures Inv(t)
  {
    hide Stored, Sequences, Texts, Solids, ActiveFits, Bounded, KeepsPairs;
    var m := NewPart(s.sequence + 1, s.partCount, s.control.raw);
    var parts := Stored(All(s)).value;
    assert All(s) == s.log + s.pending;
    assert All(t) == All(s) + [Unsequenced] + [m];
    StoredOne(All(s), Unsequenced);
    StoredOne(All(s) + [Unsequenced], m);
    PartKeeps(parts, s.control.raw, s.active);
    NewKeepsPairs(parts, s.control.raw, s.arrived, s.starts);
    SolidsOne(parts, s.control.raw);
    assert Solids(parts + [s.control.raw]) + [] == Solids(parts + [s.control.raw]);
  }

  lemma CommitStepKeeps(s: State, t: State)
    requires Inv(s) && CommitStep(s, t)
    ensures Inv(t)
  {
    hide Inv;
    match s.control
    case AppendSettle(_) => AppendDispatch(s, t);
    case RawDigest(_, _) => RawDispatch(s, t);
    case _ => ReplyKeeps(s, t);
  }

  /** Replies, and dispatching a staged batch, move nothing out of order. */
  lemma ReplyKeeps(s: State, t: State)
    requires Inv(s) && CommitStep(s, t) && !s.control.AppendSettle? && !s.control.RawDigest?
    ensures Inv(t)
  {
    hide Stored, Sequences, Texts, Solids, ActiveFits, Bounded, KeepsPairs;
    assert t.log == s.log + (if s.control.RawStage? then s.control.batch else []);
    assert s.control.RawStage? ==> All(s) == t.log;
    assert t.control != Closed ==> All(t) == All(s);
  }

  lemma TimerStepKeeps(s: State, t: State)
    requires Inv(s) && TimerStep(s, t)
    ensures Inv(t)
  {
    hide Stored, Sequences, Texts, Solids, ActiveFits, Bounded, KeepsPairs;
    if s.control == Closed {
      assert t.log == s.log;
    } else {
      if s.timer && !s.committing && s.pending != [] {
        FlushKeeps(s);
        var f := Flushed(s);
        assert All(f.(timer := false, background := s.background + 1)) == All(f);
      }
      assert t.log == s.log ==> All(t) == All(s);
    }
  }

  lemma StepKeeps(s: State, t: State)
    requires Inv(s) && Step(s, t)
    ensures Inv(t)
  {
    hide TextStep, CommitStep, TimerStep, Receive, Consistent;
    if e :| Receive(s, t, e) {
      ReceiveKeeps(s, t, e);
    } else if TextStep(s, t) {
      TextStepKeeps(s, t);
    } else if CommitStep(s, t) {
      CommitStepKeeps(s, t);
    } else if TimerStep(s, t) {
      TimerStepKeeps(s, t);
    }
  }

  // ----- whole runs -----

  ghost predicate Run(states: seq<State>) {
    states != [] && states[0] == START && forall i :: 0 < i < |states| ==> Step(states[i - 1], states[i])
  }

  lemma {:induction false} RunKeeps(states: seq<State>)
    requires Run(states)
    ensures Inv(states[|states| - 1])
    decreases |states|
  {
    hide Step, Inv;
    var n := |states| - 1;
    if n == 0 {
      StartHolds(states[0]);
    } else {
      var front := states[..n];
      forall i | 0 < i < n
        ensures Step(front[i - 1], front[i])
      {
        assert front[i - 1] == states[i - 1] && front[i] == states[i];
      }
      RunKeeps(front);
      StepKeeps(states[n - 1], states[n]);
    }
  }

  lemma StartHolds(s: State)
    requires s.log == [] && s.pending == [] && s.control == Idle && s.sequence == 0 && s.partCount == 0
    requires s.active.None? && s.arrived == [] && s.solids == []
    ensures Inv(s)
  {
    hide Stored, Sequences, Texts, Solids;
    NothingStored();
    assert All(s) == [];
  }

  lemma NothingStored()
    ensures Stored([]) == Some([]) && Sequences([]) == Some(0) && Texts([]) == [] && Solids([]) == []
  {
  }

  /** For every interleaving: what has been dispatched carries sequences 1, 2, 3, … in
      that order, and the stored parts take orders 0, 1, 2, … with no append refused. */
  lemma DispatchedInOrder(states: seq<State>)
    requires Run(states)
    ensures var s := states[|states| - 1]; Sequences(s.log).Some? && Stored(s.log).Some?
  {
    hide Sequences, Stored, Consistent;
    RunKeeps(states);
  }

  /** What storage holds once everything has been dispatched: all the text that arrived, in
      bounded segments none of which ends inside a surrogate pair of an event's text; all
      other parts in the order they arrived; part orders and sequences without a gap. */
  ghost predicate Holds(s: State, sequence: nat, partCount: nat) {
    && Sequences(s.log) == Some(sequence)
    && Stored(s.log).Some? && |Stored(s.log).value| == partCount
    && Texts(Stored(s.log).value) == s.arrived
    && Bounded(Stored(s.log).value)
    && KeepsPairs(Stored(s.log).value, s.arrived, s.starts)
    && Solids(Stored(s.log).value) == s.solids
  }

  /** Between events with nothing pending, storage holds it all and the counters are exact. */
  lemma DeliveredText(states: seq<State>)
    requires Run(states)
    ensures var s := states[|states| - 1];
      s.control == Idle && s.pending == [] ==> Holds(s, s.sequence, s.partCount)
  {
    hide Sequences, Stored, Texts, Solids, KeepsPairs;
    RunKeeps(states);
    var s := states[|states| - 1];
    if s.control == Idle && s.pending == [] {
      assert All(s) == s.log;
      assert Texts(Stored(s.log).value) + [] == Texts(Stored(s.log).value);
    }
  }

  /** A run that is over changes nothing any more. */
  lemma ClosedStays(s: State, t: State)
    requires s.control == Closed && Step(s, t) && Inv(s)
    ensures t.control == Closed && t.log == s.log && t.arrived == s.arrived && t.starts == s.starts && t.solids == s.solids
  {
    hide Consistent;
  }

  /** The manifest's commit is out or has been answered. */
  predicate Sealing(s: State, sealed: State) {
    && (s.control == Closed || (s.control.RawWait? && s.control.final))
    && s.log == sealed.log && s.arrived == sealed.arrived && s.starts == sealed.starts && s.solids == sealed.solids
  }

  lemma SealingStays(s: State, t: State)
    requires Inv(s) && Step(s, t) && s.control.RawWait? && s.control.final
    ensures Sealing(t, s)
  {
    hide Consistent;
  }

  lemma {:induction false} SealedStays(states: seq<State>, i: nat)
    requires Run(states) && i < |states| && states[i].control.RawWait? && states[i].control.final
    ensures Sealing(states[|states| - 1], states[i])
    decreases |states|
  {
    hide Step, Inv;
    var n := |states| - 1;
    if i < n {
      var front := states[..n];
      FrontRuns(states);
      SealedStays(front, i);
      RunKeeps(front);
      if front[n - 1].control == Closed {
        ClosedStays(front[n - 1], states[n]);
      } else {
        SealingStays(front[n - 1], states[n]);
      }
    }
  }

  lemma FrontRuns(states: seq<State>)
    requires Run(states) && |states| > 1
    ensures Run(states[..|states| - 1])
  {
    hide Step;
    var front := states[..|states| - 1];
    forall i | 0 < i < |front|
      ensures Step(front[i - 1], front[i])
    {
      assert front[i - 1] == states[i - 1] && front[i] == states[i];
    }
  }

  lemma {:induction false} PrefixRuns(states: seq<State>, n: nat)
    requires Run(states) && 0 < n <= |states|
    ensures Run(states[..n])
    decreases |states|
  {
    if n == |states| {
      assert states[..n] == states;
    } else {
      FrontRuns(states);
      PrefixRuns(states[..|states| - 1], n);
      assert states[..|states| - 1][..n] == states[..n];
    }
  }

  /** A generation that has dispatched its manifest is complete, whatever happens afterwards:
      storage gets all the text that arrived, the manifest last, and nothing behind it. */
  lemma SealedRun(states: seq<State>, i: nat)
    requires Run(states) && i < |states| && states[i].control.RawWait? && states[i].control.final
    ensures var s := states[|states| - 1];
      && Holds(s, states[i].sequence + 1, states[i].partCount + 1)
      && s.log == states[i].log && Stored(s.log).value[states[i].partCount] == MANIFEST
  {
    hide Sequences, Stored, Texts, Solids, KeepsPairs, Bounded;
    SealedStays(states, i);
    PrefixRuns(states, i + 1);
    RunKeeps(states[..i + 1]);
    var s := states[i];
    assert states[..i + 1][i] == s;
    assert All(s) == s.log;
    assert Texts(Stored(s.log).value) + [] == Texts(Stored(s.log).value);
  }

  // ----- the idle flush -----

  /** The timer goes off for nothing, because a commit is in flight. */
  predicate Missed(s: State, t: State) { s.timer && s.committing && s.pending != [] && t == s.(timer := false) }

  /** Nothing has joined what waits since then. */
  predicate Since(states: seq<State>, j: nat)
    requires j < |states|
  {
    forall k :: j <= k < |states| ==> states[k].pending == states[j].pending
  }

  ghost predicate MissedLast(states: seq<State>) {
    exists j :: 0 <= j < |states| - 1 && Missed(states[j], states[j + 1]) && Since(states, j)
  }

  /** Text that waits has just been given a timer, or waited before without losing one. */
  ghost predicate Times(s: State, t: State) {
    t.control != Closed && t.pending != [] ==>
      && s.control != Closed
      && (t.pending != s.pending ==> t.timer)
      && (t.pending == s.pending ==> (t.timer <==> s.timer && !Missed(s, t)))
  }

  lemma TextTimes(s: State, t: State)
    requires TextStep(s, t)
    ensures Times(s, t)
  {
    hide TextTurn;
    if s.control.rest != [] {
      TurnShape(s, s.control.key, s.control.rest);
      TurnStill(s, s.control.key, s.control.rest);
    }
  }

  lemma CommitTimes(s: State, t: State)
    requires CommitStep(s, t)
    ensures Times(s, t)
  {
  }

  lemma TimerTimes(s: State, t: State)
    requires TimerStep(s, t)
    ensures Times(s, t)
  {
  }

  lemma StepTimes(s: State, t: State)
    requires Step(s, t)
    ensures Times(s, t)
  {
    hide TextStep, CommitStep, TimerStep;
    if TextStep(s, t) {
      TextTimes(s, t);
    } else if CommitStep(s, t) {
      CommitTimes(s, t);
    } else if TimerStep(s, t) {
      TimerTimes(s, t);
    }
  }

  lemma TurnStill(s: State, key: nat, rest: Text)
    requires s.control == Texting(key, rest) && rest != []
    ensures var t := TextTurn(s, key, rest);
      && t.flushFailed == s.flushFailed && s.pending <= t.pending
      && (t.control != Closed ==> t.timer == s.timer && t.committing == s.committing)
  {
    hide Utf8Length, PieceEnd;
  }

  lemma MissedGrows(states: seq<State>)
    requires |states| > 1 && states[|states| - 1].pending == states[|states| - 2].pending
    ensures MissedLast(states) <==> MissedLast(states[..|states| - 1]) || Missed(states[|states| - 2], states[|states| - 1])
  {
    hide Missed;
    var n := |states| - 1;
    var front := states[..n];
    if j :| 0 <= j < n - 1 && Missed(front[j], front[j + 1]) && Since(front, j) {
      assert Missed(states[j], states[j + 1]) && front[n - 1] == states[n - 1] && Since(states, j);
    }
    if Missed(states[n - 1], states[n]) {
      assert Since(states, n - 1);
    }
    if j :| 0 <= j < n && Missed(states[j], states[j + 1]) && Since(states, j) {
      if j < n - 1 {
        assert Missed(front[j], front[j + 1]) && Since(front, j);
      }
    }
  }

  /** Whatever waits has a timer set, except when the last timer went off while a commit was in
      flight and nothing has arrived since: the timer is not set again then. */
  lemma {:induction false} PendingIsTimed(states: seq<State>)
    requires Run(states)
    ensures var s := states[|states| - 1];
      s.control != Closed && s.pending != [] ==> (s.timer <==> !MissedLast(states))
    decreases |states|
  {
    hide Step, Missed, Since, MissedLast;
    var n := |states| - 1;
    if n > 0 {
      var s, t := states[n - 1], states[n];
      var front := states[..n];
      assert front[n - 1] == s;
      FrontRuns(states);
      PendingIsTimed(front);
      if t.control != Closed && t.pending != [] {
        StepTimes(s, t);
        if t.pending == s.pending {
          MissedGrows(states);
        } else {
          NotSince(states);
        }
      }
    }
  }

  lemma NotSince(states: seq<State>)
    requires |states| > 1 && states[|states| - 1].pending != states[|states| - 2].pending
    ensures !MissedLast(states)
  {
  }

  lemma RunMore(states: seq<State>, t: State)
    requires Run(states) && Step(states[|states| - 1], t)
    ensures Run(states + [t])
  {
    hide Step;
    var more := states + [t];
    forall i | 0 < i < |more|
      ensures Step(more[i - 1], more[i])
    {
      if i < |states| {
        assert more[i - 1] == states[i - 1] && more[i] == states[i];
      }
    }
  }

  /** Between events, a timer that is set with nothing in flight brings everything to storage. */
  lemma IdleFlush(states: seq<State>)
    requires Run(states)
    ensures var s := states[|states| - 1];
      s.control == Idle && s.timer && !s.committing ==>
        Run(states + [Fired(s)]) && Fired(s).pending == [] && Holds(Fired(s), s.sequence, s.partCount)
  {
    var s := states[|states| - 1];
    if s.control == Idle && s.timer && !s.committing {
      assert TimerStep(s, Fired(s));
      hide Run, Holds, TimerStep;
      RunMore(states, Fired(s));
      DeliveredText(states + [Fired(s)]);
    }
  }

  /** Without a timer and with nothing in flight, nothing happens before the next event. */
  lemma WaitsForEvent(s: State, t: State)
    requires s.control == Idle && !s.timer && s.background == 0 && Step(s, t)
    ensures (exists e :: Receive(s, t, e)) || t.control == Closed
  {
  }

  const LETTER: Text := [97]

  /** Two letters, each followed by the timer; the second timer finds the first flush in flight. */
  function Missing(): seq<State> {
    var s1 := START.(control := Texting(0, LETTER), arrived := LETTER, starts := {0});
    var s2 := TextTurn(s1, 0, LETTER).(timer := true);
    var s3 := s2.(control := Idle);
    var s4 := Fired(s3);
    var s5 := s4.(control := Texting(0, LETTER), arrived := s4.arrived + LETTER, starts := s4.starts + {|s4.arrived|});
    var s6 := TextTurn(s5, 0, LETTER).(timer := true);
    var s7 := s6.(control := Idle);
    var s8 := Fired(s7);
    var s9 := s8.(background := s8.background - 1, committing := false);
    [START, s1, s2, s3, s4, s5, s6, s7, s8, s9]
  }

  lemma OneLetter(s: State)
    requires s.control == Texting(0, LETTER) && s.pending == [] && s.pendingBytes == 0 && !s.flushFailed && s.partCount == (if s.active.Some? then 1 else 0)
    requires s.active.Some? ==> s.active.value.key == 0 && s.active.value.characters < 2
    ensures var t := TextTurn(s, 0, LETTER);
      && TextStep(s, t.(timer := true)) && |t.pending| == 1 && t.partCount == 1
      && t.control == Texting(0, []) && t.active.Some? && t.active.value.key == 0
      && t.active.value.characters == (if s.active.Some? then s.active.value.characters + 1 else 1)
      && t.timer == s.timer && t.committing == s.committing && t.background == s.background && !t.flushFailed
  {
    assert LETTER[..1] == LETTER && LETTER[1..] == [];
    assert PieceEnd(LETTER, 8191) == 1 && PieceEnd(LETTER, 8192) == 1;
    assert Utf8Length(LETTER) == 1;
  }

  lemma TwiceLetters()
    ensures var r := Missing();
      && TextStep(r[1], r[2]) && TextStep(r[2], r[3]) && TextStep(r[5], r[6]) && TextStep(r[6], r[7])
      && r[3].control == Idle && r[3].timer && !r[3].committing && r[3].pending != [] && r[3].background == 0 && !r[3].flushFailed
      && r[7].control == Idle && r[7].timer && r[7].committing && r[7].pending != [] && r[7].background == 1 && !r[7].flushFailed
  {
    hide TextTurn, TextStep;
    var r := Missing();
    OneLetter(r[1]);
    OneLetter(r[5]);
    EmptyText(r[2]);
    EmptyText(r[6]);
  }

  /** The exception is real: text may wait with no timer set and nothing in flight. */
  lemma FlushMissed()
    ensures Run(Missing()) && MissedLast(Missing())
    ensures var s := Missing()[9];
      s.control == Idle && s.pending != [] && !s.timer && !s.committing && s.background == 0 && !s.flushFailed
  {
    hide TextTurn, TextStep, CommitStep;
    var r := Missing();
    TwiceLetters();
    assert Receive(r[0], r[1], TextEvent(0, LETTER)) && Receive(r[4], r[5], TextEvent(0, LETTER));
    assert TimerStep(r[3], r[4]) && TimerStep(r[7], r[8]) && TimerStep(r[8], r[9]);
    assert Missed(r[7], r[8]) && Since(r, 7);
  }

  lemma EmptyText(s: State)
    requires s.control.Texting? && s.control.rest == []
    ensures TextStep(s, s.(control := Idle))
  {
  }

  // ----- what waits stays small -----

  function TextOf(m: Mutation): Text {
    match m
    case NewPart(_, _, content) => if content.TextContent? then content.text else []
    case AppendText(_, _, text) => text
    case Unsequenced => []
  }

  function BytesOf(ms: seq<Mutation>): nat {
    if ms == [] then 0 else BytesOf(ms[..|ms| - 1]) + Utf8Length(TextOf(ms[|ms| - 1]))
  }

  lemma BytesMore(ms: seq<Mutation>, m: Mutation)
    ensures BytesOf(ms + [m]) == BytesOf(ms) + Utf8Length(TextOf(m)) && BytesOf([]) == 0
  {
    hide Utf8Length;
    assert (ms + [m])[..|ms|] == ms;
  }

  /** Fewer than 16 mutations and 4,096 bytes of text wait. */
  predicate Small(s: State) {
    s.control != Closed ==> s.pendingBytes == BytesOf(s.pending) && |s.pending| < 16 && BytesOf(s.pending) < 4096
  }

  lemma TurnCounts(s: State, key: nat, rest: Text)
    requires s.control == Texting(key, rest) && rest != [] && s.pendingBytes == BytesOf(s.pending)
    ensures var t := TextTurn(s, key, rest); t.pendingBytes == BytesOf(t.pending)
  {
    hide BytesOf, Utf8Length;
    var t := TextTurn(s, key, rest);
    if t.pending != s.pending {
      BytesMore(s.pending, t.pending[|s.pending|]);
      assert t.pending == s.pending + [t.pending[|s.pending|]];
    }
  }

  lemma TextSmall(s: State, t: State)
    requires Small(s) && TextStep(s, t)
    ensures Small(t)
  {
    hide BytesOf, TextTurn;
    BytesMore([], Unsequenced);
    if s.control.rest != [] {
      TurnCounts(s, s.control.key, s.control.rest);
      TurnShape(s, s.control.key, s.control.rest);
    }
  }

  lemma QuietSmall(s: State, t: State)
    requires Small(s) && (CommitStep(s, t) || TimerStep(s, t))
    ensures Small(t)
  {
    hide BytesOf;
    BytesMore([], Unsequenced);
  }

  lemma StepSmall(s: State, t: State)
    requires Small(s) && Step(s, t)
    ensures Small(t)
  {
    hide BytesOf, TextStep, CommitStep, TimerStep;
    if TextStep(s, t) {
      TextSmall(s, t);
    } else if CommitStep(s, t) || TimerStep(s, t) {
      QuietSmall(s, t);
    }
  }

  /** Whatever the interleaving, less than one flush waits to be dispatched. */
  lemma {:induction false} LittleWaits(states: seq<State>)
    requires Run(states)
    ensures Small(states[|states| - 1])
    decreases |states|
  {
    hide Step, Small, BytesOf;
    var n := |states| - 1;
    if n == 0 {
      assert Small(START) by { StartSmall(); }
    } else {
      FrontRuns(states);
      LittleWaits(states[..n]);
      StepSmall(states[n - 1], states[n]);
    }
  }

  /** And the loop dispatches text by itself only once that much waits. */
  lemma FlushesFull(states: seq<State>, t: State)
    requires Run(states) && TextStep(states[|states| - 1], t) && t.log != states[|states| - 1].log
    ensures exists batch :: t.log == states[|states| - 1].log + batch && (|batch| >= 16 || BytesOf(batch) >= 4096)
  {
    var s := states[|states| - 1];
    hide Step, BytesOf, TextTurn;
    LittleWaits(states);
    var key, rest := s.control.key, s.control.rest;
    if rest != [] {
      TurnCounts(s, key, rest);
      TurnShape(s, key, rest);
      var turned := TextTurn(s, key, rest);
      assert t.log == s.log + turned.pending;
    }
  }

  lemma StartSmall()
    ensures Small(START)
  {
  }

  // ----- after a failed flush -----

  /** A step that dispatches nothing that was not waiting or staged before it. */
  ghost predicate NothingNew(s: State, t: State) {
    && t.flushFailed && t.log <= All(s) && (if t.control == Closed then !t.timer else All(t) == All(s))
  }

  lemma FailedStep(s: State, t: State)
    requires Inv(s) && Step(s, t) && s.flushFailed && s.control != Closed
    ensures NothingNew(s, t)
  {
    hide Quiet, Consistent, Stored, Sequences;
    if e :| Receive(s, t, e) {
      assert All(t) == All(s) == s.log + s.pending;
    } else {
      FailedQuiet(s, t);
    }
  }

  lemma FailedQuiet(s: State, t: State)
    requires Inv(s) && Quiet(s, t) && s.flushFailed && s.control != Closed
    ensures NothingNew(s, t)
  {
    hide TextStep, CommitStep, TimerStep, NothingNew, Inv;
    if TextStep(s, t) {
      FailedText(s, t);
    } else if CommitStep(s, t) {
      FailedCommit(s, t);
    } else if TimerStep(s, t) {
      FailedTimer(s, t);
    } else {
      FailedEnd(s, t);
    }
  }

  lemma FailedEnd(s: State, t: State)
    requires t == s.(control := Closed, timer := false) && s.flushFailed
    ensures NothingNew(s, t)
  {
    LogFirst(s);
  }

  lemma FailedText(s: State, t: State)
    requires TextStep(s, t) && s.flushFailed
    ensures NothingNew(s, t)
  {
    hide TextTurn;
    assert All(s) == s.log + s.pending;
    if s.control.rest != [] {
      TurnShape(s, s.control.key, s.control.rest);
      TurnStill(s, s.control.key, s.control.rest);
    }
    assert t.control != Closed ==> All(t) == t.log + t.pending;
  }

  lemma FailedCommit(s: State, t: State)
    requires Inv(s) && CommitStep(s, t) && s.flushFailed
    ensures NothingNew(s, t)
  {
    hide Consistent, Stored, Sequences;
    assert All(s) == s.log + (if s.control.RawStage? then s.control.batch else s.pending);
    assert t.control != Closed ==> All(t) == t.log + t.pending;
  }

  lemma FailedTimer(s: State, t: State)
    requires Inv(s) && TimerStep(s, t) && s.flushFailed && s.control != Closed
    ensures NothingNew(s, t)
  {
    hide Consistent, Stored, Sequences;
    LogFirst(s);
    if !s.control.RawStage? {
      assert All(s) == s.log + s.pending;
      assert All(t) == t.log + t.pending;
    }
  }

  /** Once a flush has failed nothing is dispatched but what was waiting or staged by then. */
  lemma {:induction false} FailureStops(states: seq<State>, i: nat)
    requires Run(states) && i < |states| && states[i].flushFailed && states[i].control != Closed
    ensures states[|states| - 1].log <= All(states[i])
    ensures var s := states[|states| - 1];
      s.flushFailed && (if s.control == Closed then !s.timer else All(s) == All(states[i]))
    decreases |states|
  {
    hide Step, All, Inv;
    var n := |states| - 1;
    if i == n {
      LogFirst(states[n]);
    } else {
      var front := states[..n];
      FrontRuns(states);
      assert front[i] == states[i];
      FailureStops(front, i);
      if states[n - 1].control == Closed {
        ClosedDispatches(states[n - 1], states[n]);
      } else {
        RunKeeps(front);
        FailedStep(states[n - 1], states[n]);
      }
    }
  }

  lemma LogFirst(s: State)
    ensures s.log <= All(s)
  {
  }

  lemma ClosedDispatches(s: State, t: State)
    requires Step(s, t) && s.control == Closed && !s.timer
    ensures t.control == Closed && t.log == s.log && !t.timer && (s.flushFailed ==> t.flushFailed)
  {
  }

  // ----- pieces and segments are as long as can be -----

  /** A piece ends at the last place, within the room, that separates no surrogate pair. */
  lemma PieceIsLongest(rest: Text, room: nat, longer: nat)
    requires 0 < room && PieceEnd(rest, room) < longer <= Min(|rest|, room)
    ensures SplitsPair(rest, longer)
  {
  }

  /** One text only, however many events it comes in and whatever transport comes between. */
  predicate OneText(e: Event, key: nat) {
    match e
    case TextEvent(k, _) => k == key
    case PartEvent(_) => false
    case RawEvent(raw, _) => Transport(raw)
  }

  ghost predicate Turned(s: State, t: State, key: nat) {
    (exists e :: OneText(e, key) && Receive(s, t, e)) || Quiet(s, t)
  }

  ghost predicate OneTextRun(states: seq<State>, key: nat) {
    states != [] && states[0] == START && forall i :: 0 < i < |states| ==> Turned(states[i - 1], states[i], key)
  }

  /** Every text part but the last is full, or one unit short of it. */
  ghost predicate Filled(parts: seq<Content>, but: nat) {
    forall k :: 0 <= k < |parts| && k != but && parts[k].TextContent? ==> |parts[k].text| >= 8191
  }

  /** The open segment is the last text part, or that one is full too. */
  ghost predicate Packed(s: State, key: nat) {
    s.control != Closed ==>
      && Stored(All(s)).Some?
      && Filled(Stored(All(s)).value, if s.active.Some? then s.active.value.order else |Stored(All(s)).value|)
      && (s.active.Some? ==> s.active.value.key == key)
      && ((s.control.Texting? || s.control.FlushWait?) ==> s.control.key == key)
      && !s.control.AppendSettle? && !s.control.AppendWait?
      && (s.control.RawSettle? || s.control.RawDigest? ==> Transport(s.control.raw))
  }

  lemma FilledMore(parts: seq<Content>, c: Content, but: nat)
    requires Filled(parts, but) && but <= |parts| && (c.TextContent? ==> but == |parts|)
    ensures Filled(parts + [c], if c.TextContent? || but < |parts| then but else |parts| + 1)
  {
  }

  lemma FilledAll(parts: seq<Content>, but: nat)
    requires Filled(parts, but) && but < |parts| && parts[but].TextContent? && |parts[but].text| >= 8191
    ensures Filled(parts, |parts|)
  {
  }

  /** A turn leaves the open segment only when it has no room for the next character. */
  lemma TurnPacks(s: State, key: nat, rest: Text)
    requires Inv(s) && Packed(s, key) && s.control == Texting(key, rest) && rest != []
    ensures Packed(TextTurn(s, key, rest), key)
  {
    hide Stored, Sequences, Texts, Solids, Utf8Length, KeepsPairs, Bounded;
    var t := TextTurn(s, key, rest);
    var active := Usable(s.active, key);
    var end := PieceEnd(rest, Room(active));
    var parts := Stored(All(s)).value;
    if s.active.Some? && (active.None? || end == 0) {
      assert s.active.value.characters >= 8191;
      FilledAll(parts, s.active.value.order);
    }
    if end == 0 {
      assert All(t) == All(s);
    } else if t.control != Closed {
      var m := t.pending[|s.pending|];
      assert All(t) == All(s) + [m];
      StoredOne(All(s), m);
      if active.None? {
        FilledMore(parts, TextContent(rest[..end]), |parts|);
      }
    }
  }

  lemma TextStepPacks(s: State, t: State, key: nat)
    requires Inv(s) && Packed(s, key) && TextStep(s, t)
    ensures Packed(t, key)
  {
    hide Stored, Inv, TextTurn, Filled, Utf8Length;
    if s.control.rest == [] {
      assert All(t) == All(s);
    } else {
      var turned := TextTurn(s, key, s.control.rest);
      TurnShape(s, key, s.control.rest);
      TurnPacks(s, key, s.control.rest);
      assert turned.control != Closed && t.control != Closed ==> All(t) == All(turned);
      assert turned.control != Closed && t.control != Closed ==> t.active == turned.active;
    }
  }

  lemma QuietPacks(s: State, t: State, key: nat)
    requires Inv(s) && Packed(s, key) && Quiet(s, t)
    ensures Packed(t, key)
  {
    hide TextStep, CommitStep, TimerStep, Packed, Inv;
    if TextStep(s, t) {
      TextStepPacks(s, t, key);
    } else if s.control.RawDigest? && CommitStep(s, t) {
      RawPacks(s, t, key);
    } else if CommitStep(s, t) {
      ReplyPacks(s, t, key);
    } else if TimerStep(s, t) {
      TimerPacks(s, t, key);
    } else {
      EndPacks(s, t, key);
    }
  }

  lemma EndPacks(s: State, t: State, key: nat)
    requires t.control == Closed
    ensures Packed(t, key)
  {
  }

  lemma TimerPacks(s: State, t: State, key: nat)
    requires Inv(s) && Packed(s, key) && TimerStep(s, t)
    ensures Packed(t, key)
  {
    hide Stored, Sequences, Consistent, Filled;
    assert t.control != Closed ==> All(t) == All(s);
  }

  lemma ReplyPacks(s: State, t: State, key: nat)
    requires Inv(s) && Packed(s, key) && CommitStep(s, t) && !s.control.RawDigest?
    ensures Packed(t, key)
  {
    hide Stored, Sequences, Consistent, Filled;
    assert t.control != Closed ==> All(t) == All(s);
  }

  lemma RawPacks(s: State, t: State, key: nat)
    requires Inv(s) && Packed(s, key) && s.control.RawDigest? && CommitStep(s, t)
    ensures Packed(t, key)
  {
    hide Stored, Sequences, Texts, Solids, KeepsPairs, Bounded;
    var m := NewPart(s.sequence + 1, s.partCount, s.control.raw);
    var parts := Stored(All(s)).value;
    assert All(s) == s.log + s.pending;
    assert All(t) == All(s) + [Unsequenced] + [m];
    StoredOne(All(s), Unsequenced);
    StoredOne(All(s) + [Unsequenced], m);
    FilledMore(parts, s.control.raw, if s.active.Some? then s.active.value.order else |parts|);
  }

  lemma TurnedPacks(s: State, t: State, key: nat)
    requires Inv(s) && Packed(s, key) && Turned(s, t, key)
    ensures Packed(t, key)
  {
    hide Stored, Quiet, Inv, Filled;
    if e :| OneText(e, key) && Receive(s, t, e) {
      assert All(t) == All(s);
    } else {
      QuietPacks(s, t, key);
    }
  }

  lemma OneTextRuns(states: seq<State>, key: nat)
    requires OneTextRun(states, key)
    ensures Run(states)
  {
    hide Receive, Quiet;
    forall i | 0 < i < |states|
      ensures Step(states[i - 1], states[i])
    {
      assert Turned(states[i - 1], states[i], key);
    }
  }

  lemma {:induction false} OneTextPacks(states: seq<State>, key: nat)
    requires OneTextRun(states, key)
    ensures Packed(states[|states| - 1], key)
    decreases |states|
  {
    hide Turned, Packed, Inv;
    var n := |states| - 1;
    if n == 0 {
      StartPacked(key);
    } else {
      var front := states[..n];
      forall i | 0 < i < n
        ensures Turned(front[i - 1], front[i], key)
      {
        assert front[i - 1] == states[i - 1] && front[i] == states[i];
      }
      OneTextPacks(front, key);
      OneTextRuns(front, key);
      RunKeeps(front);
      TurnedPacks(states[n - 1], states[n], key);
    }
  }

  lemma StartPacked(key: nat)
    ensures Packed(START, key)
  {
    NothingStored();
    assert All(START) == [];
  }

  /** Transport evidence never fragments a text: while one text arrives, whatever transport
      comes between its events, every stored text part but one, the last, has at least 8,191
      units. */
  lemma TextStaysWhole(states: seq<State>, key: nat)
    requires OneTextRun(states, key)
    ensures var s := states[|states| - 1];
      s.control == Idle && s.pending == [] ==>
        && Holds(s, s.sequence, s.partCount)
        && forall i, j :: 0 <= i < j < s.partCount && Stored(s.log).value[i].TextContent? && Stored(s.log).value[j].TextContent?
                          ==> |Stored(s.log).value[i].text| >= 8191
  {
    hide Stored, Sequences, Texts, Solids, KeepsPairs;
    OneTextRuns(states, key);
    DeliveredText(states);
    OneTextPacks(states, key);
    RunKeeps(states);
    var s := states[|states| - 1];
    if s.control == Idle && s.pending == [] {
      assert All(s) == s.log;
      var parts := Stored(s.log).value;
      if s.active.Some? {
        var o := s.active.value.order;
        forall k | o < k < |parts|
          ensures !parts[k].TextContent?
        {
          assert parts[k] == parts[o + 1..][k - o - 1];
        }
      }
    }
  }

  // ----- the text loop ends -----

  /** What the text loop has left to do. */
  function Work(s: State): nat {
    match s.control
    case Texting(key, rest) => 4 * |rest| + (if Usable(s.active, key).Some? then 2 else 0)
    case FlushWait(key, rest) => 4 * |rest| + (if Usable(s.active, key).Some? then 2 else 0) + 1
    case _ => 0
  }

  predicate InLoop(s: State) { s.control.Texting? || s.control.FlushWait? }

  /** A turn of the loop, or the flush it waits for. */
  ghost predicate LoopStep(s: State, t: State) { TextStep(s, t) || CommitStep(s, t) }

  /** A turn consumes text or closes the segment, and a segment is closed at most once before
      text is consumed. */
  lemma TurnProgress(s: State, key: nat, rest: Text)
    requires s.control == Texting(key, rest) && rest != []
    ensures var t := TextTurn(s, key, rest);
      t.control == Closed || (t.control.Texting? && t.control.key == key && Work(t) + 2 <= Work(s))
  {
    hide Utf8Length;
  }

  lemma LoopProgress(s: State, t: State)
    requires InLoop(s) && InLoop(t) && Step(s, t)
    ensures Work(t) <= Work(s)
    ensures LoopStep(s, t) ==> Work(t) < Work(s)
  {
    hide TextTurn, Utf8Length;
    if s.control.Texting? && s.control.rest != [] {
      TurnProgress(s, s.control.key, s.control.rest);
    }
  }

  ghost function LoopSteps(states: seq<State>): nat {
    if |states| < 2 then 0
    else
      var n := |states| - 1;
      LoopSteps(states[..n]) + (if LoopStep(states[n - 1], states[n]) then 1 else 0)
  }

  /** However the timer and its commits interleave, the text loop leaves after a bounded
      number of its own steps: four for every unit of text it began with, and two. */
  lemma {:induction false} TextLoopEnds(states: seq<State>)
    requires states != [] && (forall i :: 0 <= i < |states| ==> InLoop(states[i]))
    requires forall i :: 0 < i < |states| ==> Step(states[i - 1], states[i])
    ensures LoopSteps(states) + Work(states[|states| - 1]) <= Work(states[0])
    decreases |states|
  {
    hide Step, LoopStep, Work, InLoop;
    var n := |states| - 1;
    if n > 0 {
      var front := states[..n];
      assert front[0] == states[0] && front[n - 1] == states[n - 1];
      forall i | 0 < i < n
        ensures Step(front[i - 1], front[i])
      {
        assert front[i - 1] == states[i - 1] && front[i] == states[i];
      }
      TextLoopEnds(front);
      LoopProgress(states[n - 1], states[n]);
    }
  }
}
