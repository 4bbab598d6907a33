/** From laid-out pages to durable text batches: `text()` of packages/documents/src/layout.ts
    and the page staging of packages/documents/src/persist.ts. */
module Staging {
  import opened Common
  import opened Utf16
  import opened Layout
  import opened Emission

  const BATCH := 4096
  const STAGE_UNITS := 4096
  const STAGE_SPANS := 128

  /** Part of a source item; absent for generated white space. */
  datatype Origin = Origin(item: Item, start: nat, end: nat)

  datatype Span = Span(start: nat, end: nat, source: Option<Origin>)

  datatype TextEvent = TextEvent(text: Text, spans: seq<Span>)

  /** One stagePageText write. */
  datatype Batch = Batch(sequence: nat, offset: nat, text: Text, spans: seq<Span>)

  // ----- a page's text, in bounded events -----

  function CutEnd(text: Text, start: nat): (end: nat)
    requires start < |text|
    ensures start < end <= |text| && end - start <= BATCH && !SplitsPair(text, end)
  {
    var end := Min(|text|, start + BATCH);
    if end < |text| && High(text[end - 1]) then end - 1 else end
  }

  function EventAt(p: Piece, start: nat): TextEvent
    requires start < |p.text|
  {
    var end := CutEnd(p.text, start);
    TextEvent(p.text[start..end], [Span(0, end - start, if p.source.Some? then Some(Origin(p.source.value, start, end)) else None)])
  }

  function EventsFrom(p: Piece, start: nat): seq<TextEvent>
    requires start <= |p.text|
    decreases |p.text| - start
  {
    if start == |p.text| then [] else [EventAt(p, start)] + EventsFrom(p, CutEnd(p.text, start))
  }

  function EventsOf(pieces: seq<Piece>): seq<TextEvent> {
    if pieces == [] then [] else EventsOf(pieces[..|pieces| - 1]) + EventsFrom(pieces[|pieces| - 1], 0)
  }

  function Joined(events: seq<TextEvent>): Text {
    if events == [] then [] else Joined(events[..|events| - 1]) + events[|events| - 1].text
  }

  /** A span's source is the very text it stands for. */
  predicate Tells(source: Option<Origin>, text: Text) {
    source.Some? ==>
      var o := source.value;
      o.start <= o.end <= |o.item.str| && o.item.str[o.start..o.end] == text
  }

  /** Spans that follow one another without gap over a text at an offset, each telling the
      stretch it covers. */
  ghost predicate Mapped(spans: seq<Span>, offset: nat, text: Text)
    decreases |spans|
  {
    if spans == [] then text == []
    else
      var s := spans[|spans| - 1];
      && offset <= s.start <= s.end == offset + |text|
      && Tells(s.source, text[s.start - offset..]) && Mapped(spans[..|spans| - 1], offset, text[..s.start - offset])
  }

  /** An event is bounded, its one span tells its text, and neither end of the source stretch
      separates a surrogate pair. */
  ghost predicate Sourced(e: TextEvent) {
    && e.text != [] && |e.text| <= 4096 && |e.spans| == 1 && Mapped(e.spans, 0, e.text)
    && (e.spans[0].source.Some? ==>
          var o := e.spans[0].source.value;
          !SplitsPair(o.item.str, o.start) && !SplitsPair(o.item.str, o.end))
  }

  lemma {:induction false} JoinedAppend(a: seq<TextEvent>, b: seq<TextEvent>)
    ensures Joined(a + b) == Joined(a) + Joined(b)
    decreases |b|
  {
    if b == [] {
      assert a + b == a;
    } else {
      JoinedAppend(a, b[..|b| - 1]);
      assert (a + b)[..|a + b| - 1] == a + b[..|b| - 1];
    }
  }

  lemma JoinedOne(e: TextEvent)
    ensures Joined([e]) == e.text
  {
    assert Joined([e][..0]) == [];
  }

  lemma EventIsSourced(p: Piece, start: nat)
    requires Whole(p) && start < |p.text| && !SplitsPair(p.text, start)
    ensures Sourced(EventAt(p, start))
  {
    var e := EventAt(p, start);
    assert e.spans[..0] == [] && e.text[0..] == e.text;
  }

  lemma {:induction false} PieceEvents(p: Piece, start: nat)
    requires Whole(p) && start <= |p.text| && !SplitsPair(p.text, start)
    ensures Joined(EventsFrom(p, start)) == p.text[start..]
    ensures forall e :: e in EventsFrom(p, start) ==> Sourced(e)
    decreases |p.text| - start
  {
    hide Sourced, Joined, Whole;
    if start < |p.text| {
      var end := CutEnd(p.text, start);
      PieceEvents(p, end);
      EventIsSourced(p, start);
      JoinedOne(EventAt(p, start));
      JoinedAppend([EventAt(p, start)], EventsFrom(p, end));
    } else {
      assert Joined([]) == [] by { NothingJoined(); }
    }
  }

  lemma NothingJoined()
    ensures Joined([]) == [] && TextOf([]) == [] && EventsOf([]) == []
  {
  }

  /** The events of a page carry its whole text, each event sourced exactly. */
  lemma {:induction false} PageEvents(pieces: seq<Piece>)
    requires forall p :: p in pieces ==> Whole(p)
    ensures Joined(EventsOf(pieces)) == TextOf(pieces) && |TextOf(pieces)| == Length(pieces)
    ensures forall e :: e in EventsOf(pieces) ==> Sourced(e)
    decreases |pieces|
  {
    hide Sourced, Joined, Whole;
    NothingJoined();
    if pieces != [] {
      var front, last := pieces[..|pieces| - 1], pieces[|pieces| - 1];
      PageEvents(front);
      PieceEvents(last, 0);
      JoinedAppend(EventsOf(front), EventsFrom(last, 0));
    }
  }

  /** The generator: every piece cut into bounded events. */
  method Events(pieces: seq<Piece>) returns (events: seq<TextEvent>)
    ensures events == EventsOf(pieces)
  {
    hide EventAt, EventsOf;
    events := [];
    assert pieces[..0] == [] && EventsOf([]) == [] by { NothingJoined(); }
    for i := 0 to |pieces|
      invariant events == EventsOf(pieces[..i])
    {
      var p, start := pieces[i], 0;
      ghost var before := events;
      assert before + EventsFrom(p, 0) == before + EventsFrom(p, start);
      while start < |p.text|
        invariant 0 <= start <= |p.text| && before + EventsFrom(p, 0) == events + EventsFrom(p, start)
        decreases |p.text| - start
      {
        var end := CutEnd(p.text, start);
        var e := EventAt(p, start);
        assert events + ([e] + EventsFrom(p, end)) == events + [e] + EventsFrom(p, end);
        events := events + [e];
        start := end;
      }
      assert events + EventsFrom(p, start) == events;
      EventsMore(pieces, i);
    }
    assert pieces[..|pieces|] == pieces;
  }

  lemma EventsMore(pieces: seq<Piece>, i: nat)
    requires i < |pieces|
    ensures EventsOf(pieces[..i + 1]) == EventsOf(pieces[..i]) + EventsFrom(pieces[i], 0)
  {
    assert pieces[..i + 1][..i] == pieces[..i];
  }

  // ----- staging -----

  /** Spans moved to start at an offset. */
  function Rebased(spans: seq<Span>, offset: nat): (r: seq<Span>)
    ensures |r| == |spans|
  {
    if spans == [] then []
    else
      var s := spans[|spans| - 1];
      Rebased(spans[..|spans| - 1], offset) + [Span(offset + s.start, offset + s.end, s.source)]
  }

  lemma RebasedMore(front: seq<Span>, s: Span, offset: nat)
    ensures Rebased(front + [s], offset) == Rebased(front, offset) + [Span(offset + s.start, offset + s.end, s.source)]
  {
    assert (front + [s])[..|front|] == front;
  }

  lemma MappedMore(front: seq<Span>, s: Span, offset: nat, text: Text)
    ensures Mapped(front + [s], offset, text) <==>
            (&& offset <= s.start <= s.end == offset + |text|
             && Tells(s.source, text[s.start - offset..]) && Mapped(front, offset, text[..s.start - offset]))
  {
    assert (front + [s])[..|front|] == front;
  }

  lemma NoSpans(offset: nat, text: Text)
    ensures Mapped([], offset, text) <==> text == []
    ensures Rebased([], offset) == []
  {
  }

  lemma {:induction false} RebasedMapped(spans: seq<Span>, text: Text, offset: nat)
    requires Mapped(spans, 0, text)
    ensures Mapped(Rebased(spans, offset), offset, text)
    decreases |spans|
  {
    hide *;
    if spans == [] {
      NoSpans(0, text);
      NoSpans(offset, text);
    } else {
      var front, s := spans[..|spans| - 1], spans[|spans| - 1];
      assert spans == front + [s];
      MappedMore(front, s, 0, text);
      RebasedMapped(front, text[..s.start], offset);
      RebasedMore(front, s, offset);
      MappedMore(Rebased(front, offset), Span(offset + s.start, offset + s.end, s.source), offset, text);
    }
  }

  lemma {:induction false} MappedAppend(a: seq<Span>, b: seq<Span>, offset: nat, first: Text, second: Text)
    requires Mapped(a, offset, first) && Mapped(b, offset + |first|, second)
    ensures Mapped(a + b, offset, first + second)
    decreases |b|
  {
    hide *;
    if b == [] {
      NoSpans(offset + |first|, second);
      assert a + b == a && first + second == first;
    } else {
      var front, s := b[..|b| - 1], b[|b| - 1];
      assert b == front + [s] && a + b == a + front + [s];
      MappedMore(front, s, offset + |first|, second);
      var at := s.start - offset - |first|;
      MappedAppend(a, front, offset, first, second[..at]);
      assert (first + second)[..s.start - offset] == first + second[..at];
      assert (first + second)[s.start - offset..] == second[at..];
      MappedMore(a + front, s, offset, first + second);
    }
  }

  function StagedText(log: seq<Batch>): Text {
    if log == [] then [] else StagedText(log[..|log| - 1]) + log[|log| - 1].text
  }

  function StagedSpans(log: seq<Batch>): seq<Span> {
    if log == [] then [] else StagedSpans(log[..|log| - 1]) + log[|log| - 1].spans
  }

  lemma StagedMore(log: seq<Batch>, b: Batch)
    ensures StagedText(log + [b]) == StagedText(log) + b.text && StagedSpans(log + [b]) == StagedSpans(log) + b.spans
  {
    assert (log + [b])[..|log|] == log;
  }

  /** One write can carry a batch. */
  predicate Carries(roomy: Batch -> bool, b: Batch) { |b.text| <= 4096 && |b.spans| <= 128 && roomy(b) }

  /** Batches numbered from 0, each at the offset where the last one ended, each with spans
      that tell its text and within its bounds. */
  ghost predicate InSequence(log: seq<Batch>, roomy: Batch -> bool)
    decreases |log|
  {
    log == [] ||
    (var front, b := log[..|log| - 1], log[|log| - 1];
     && InSequence(front, roomy) && b.sequence == |front| && b.offset == |StagedText(front)| && b.text != []
     && Mapped(b.spans, b.offset, b.text) && Carries(roomy, b))
  }

  /** An event that a write of its own could carry. */
  predicate FitsAlone(roomy: Batch -> bool, e: TextEvent, sequence: nat, offset: nat) {
    Carries(roomy, Batch(sequence, offset, e.text, Rebased(e.spans, offset)))
  }

  /** A batch with one more event. */
  function With(b: Batch, e: TextEvent): Batch {
    b.(text := b.text + e.text, spans := b.spans + Rebased(e.spans, b.offset + |b.text|))
  }

  /** What follows a batch begins with an event that would not have fitted it. */
  ghost predicate FullBefore(roomy: Batch -> bool, b: Batch, next: Text) {
    exists e: TextEvent :: e.text != [] && e.text <= next && !Carries(roomy, With(b, e))
  }

  ghost predicate Packed(log: seq<Batch>, roomy: Batch -> bool) {
    forall k :: 0 < k < |log| ==> FullBefore(roomy, log[k - 1], log[k].text)
  }

  lemma NotCarried(roomy: Batch -> bool, b: Batch, e: TextEvent)
    requires e.text != [] && !Carries(roomy, With(b, e))
    ensures FullBefore(roomy, b, e.text)
  {
    hide Carries, With;
  }

  lemma FullStays(roomy: Batch -> bool, b: Batch, text: Text, more: Text)
    requires FullBefore(roomy, b, if text == [] then more else text)
    ensures FullBefore(roomy, b, text + more)
  {
    hide Carries, With;
    var e: TextEvent :| e.text != [] && e.text <= (if text == [] then more else text) && !Carries(roomy, With(b, e));
    assert text == [] ==> text + more == more;
    assert e.text <= text + more;
  }

  lemma SequenceMore(log: seq<Batch>, roomy: Batch -> bool, b: Batch)
    requires InSequence(log, roomy) && b.sequence == |log| && b.offset == |StagedText(log)| && b.text != []
    requires Mapped(b.spans, b.offset, b.text) && Carries(roomy, b)
    ensures InSequence(log + [b], roomy)
  {
    hide Mapped, StagedText, Carries;
    assert (log + [b])[..|log|] == log;
  }

  lemma PackedMore(log: seq<Batch>, roomy: Batch -> bool, b: Batch)
    requires Packed(log, roomy) && (log != [] ==> FullBefore(roomy, log[|log| - 1], b.text))
    ensures Packed(log + [b], roomy)
  {
    hide FullBefore;
  }

  /** One page's staging buffer. `roomy` says which writes stay within the byte bound. */
  class PageStaging {
    const roomy: Batch -> bool
    var sequence: nat
    var committed: nat
    var text: Text
    var spans: seq<Span>
    ghost var log: seq<Batch>

    ghost predicate Valid()
      reads this
    {
      && sequence == |log| && committed == |StagedText(log)|
      && InSequence(log, roomy)
      && Mapped(StagedSpans(log), 0, StagedText(log))
      && Mapped(spans, committed, text)
      && (text == [] ==> spans == [])
      && (text != [] ==> Fits(text, spans))
      && Packed(log, roomy) && (log != [] && text != [] ==> FullBefore(roomy, log[|log| - 1], text))
    }

    /** All the text taken so far, staged or buffered. */
    ghost function Taken(): Text
      reads this
    {
      StagedText(log) + text
    }

    predicate Fits(text: Text, spans: seq<Span>)
      reads this
    {
      |text| <= STAGE_UNITS && |spans| <= STAGE_SPANS && roomy(Batch(sequence, committed, text, spans))
    }

    constructor (roomy: Batch -> bool)
      ensures Valid() && Taken() == [] && this.roomy == roomy && log == [] && text == []
    {
      this.roomy := roomy;
      sequence, committed, text, spans, log := 0, 0, [], [], [];
    }

    lemma FitsIsCarried(b: Batch)
      requires b.sequence == sequence && b.offset == committed
      ensures Fits(b.text, b.spans) <==> Carries(roomy, b)
    {
    }

    method Flush()
      requires Valid()
      modifies this
      ensures Valid() && text == [] && Taken() == old(Taken()) && old(log) <= log
      ensures StagedText(log) == Taken() && committed == |Taken()| && spans == []
      ensures log == if old(text) == [] then old(log) else old(log) + [Batch(old(sequence), old(committed), old(text), old(spans))]
    {
      hide Mapped, StagedText, StagedSpans, Packed, FullBefore, InSequence, Carries;
      if text == [] {
        assert StagedText(log) + [] == StagedText(log);
        return;
      }
      ghost var batch := Batch(sequence, committed, text, spans);
      StagedMore(log, batch);
      assert Carries(roomy, batch) by { FitsIsCarried(batch); }
      SequenceMore(log, roomy, batch);
      PackedMore(log, roomy, batch);
      MappedAppend(StagedSpans(log), spans, 0, StagedText(log), text);
      assert (log + [batch])[..|log|] == log;
      assert StagedText(log) + text + [] == StagedText(log) + text;
      NoSpans(committed + |text|, []);
      log := log + [batch];
      committed, sequence := committed + |text|, sequence + 1;
      text, spans := [], [];
    }

    method Append(e: TextEvent) returns (ok: bool)
      requires Valid() && e.text != [] && Mapped(e.spans, 0, e.text) && (text == [] ==> log == [])
      modifies this
      ensures ok ==> Valid() && text != [] && Taken() == old(Taken()) + e.text
      ensures old(log) <= log
      ensures !ok ==> exists s, o :: !FitsAlone(roomy, e, s, o)
    {
      hide Mapped, StagedText, StagedSpans, InSequence, Rebased, Packed, FullBefore;
      var here := Rebased(e.spans, committed + |text|);
      RebasedMapped(e.spans, e.text, committed + |text|);
      ghost var buffer := Batch(sequence, committed, text, spans);
      assert Fits(text + e.text, spans + here) <==> Carries(roomy, With(buffer, e));
      if !Fits(text + e.text, spans + here) {
        Flush();
        assert log != [] ==> FullBefore(roomy, log[|log| - 1], e.text) by { NotCarried(roomy, buffer, e); }
        here := Rebased(e.spans, committed);
        RebasedMapped(e.spans, e.text, committed);
        assert text + e.text == e.text && spans + here == here;
        if !Fits(e.text, here) {
          assert !FitsAlone(roomy, e, sequence, committed);
          return false;
        }
      }
      Buffer(e.text, here);
      return true;
    }

    method Buffer(more: Text, here: seq<Span>)
      requires Valid() && more != [] && Fits(text + more, spans + here)
      requires Mapped(here, committed + |text|, more)
      requires text == [] && log != [] ==> FullBefore(roomy, log[|log| - 1], more)
      modifies this`text, this`spans
      ensures Valid() && text != [] && Taken() == old(Taken()) + more
    {
      hide Mapped, StagedText, StagedSpans, InSequence, Packed, FullBefore;
      if log != [] {
        FullStays(roomy, log[|log| - 1], text, more);
      }
      MappedAppend(spans, here, committed, text, more);
      assert StagedText(log) + text + more == StagedText(log) + (text + more);
      text, spans := text + more, spans + here;
    }
  }

  /** A laid-out page, staged: the batches' text is the page's text, no batch ends where the event
      that begins the next would have fitted it, and whatever the flush points their spans run without gap from 0 to the page's length and tell the staged text they
      cover, and the length the parser announced is the length committed. It fails only if a
      single event of the page is too large. */
  method StagePage(page: Page, roomy: Batch -> bool) returns (ok: bool, ghost log: seq<Batch>)
    requires page.Page? && Length(page.pieces) == page.utf16 && forall p :: p in page.pieces ==> Whole(p)
    ensures ok ==> InSequence(log, roomy) && Packed(log, roomy) && StagedText(log) == TextOf(page.pieces)
    ensures ok ==> Mapped(StagedSpans(log), 0, TextOf(page.pieces)) && |TextOf(page.pieces)| == page.utf16
    ensures (forall e, s, o :: e in EventsOf(page.pieces) ==> FitsAlone(roomy, e, s, o)) ==> ok
  {
    hide InSequence, StagedText, StagedSpans, Mapped, Rebased, Joined, TextOf, EventsOf, Length;
    var staging := new PageStaging(roomy);
    var events := Events(page.pieces);
    PageEvents(page.pieces);
    assert events[..0] == [] && Joined([]) == [] by { NothingJoined(); }
    for i := 0 to |events|
      invariant fresh(staging) && staging.Valid() && staging.roomy == roomy && staging.Taken() == Joined(events[..i])
      invariant staging.text == [] ==> staging.log == []
    {
      assert events[i] in events && Sourced(events[i]);
      JoinedMore(events, i);
      ok := staging.Append(events[i]);
      if !ok {
        log := staging.log;
        return;
      }
    }
    assert events[..|events|] == events;
    staging.Flush();
    log := staging.log;
    ok := true;
  }

  lemma JoinedMore(events: seq<TextEvent>, i: nat)
    requires i < |events|
    ensures Joined(events[..i + 1]) == Joined(events[..i]) + events[i].text
  {
    assert events[..i + 1][..i] == events[..i];
  }
}
