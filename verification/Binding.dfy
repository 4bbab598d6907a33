/** `bindReasoningEvidence` of packages/providers/src/reasoning.ts: the markers of a stored
    message meet the receipts of its generation. */
module Binding {
  import opened Common
  import opened Utf16
  import opened Normalizer
  import opened Receipts
  import opened Sorting

  datatype ContentPart = ContentPart(id: nat, order: nat, content: Content)

  datatype Message = Message(id: nat, generation: Option<nat>, model: Option<Text>)

  datatype Entry = Entry(message: nat, model: Text, index: nat, block: Block)

  datatype Code = SourceUnknown | SourceMismatch | EvidenceMissing | ReceiptForeign | ReceiptCount | EvidenceMismatch

  predicate IsMarker(c: Content) { c.MarkerPart? }

  predicate IsOpener(c: Content) { c.ArtifactPart? && Typed(c.kind) && c.record.Some? }

  function MarkersOf(ps: seq<ContentPart>): seq<ContentPart> {
    if ps == [] then []
    else
      var last := ps[|ps| - 1];
      MarkersOf(ps[..|ps| - 1]) + (if IsMarker(last.content) then [last] else [])
  }

  function OpenersOf(ps: seq<ContentPart>): (r: seq<ContentPart>)
    ensures forall p :: p in r ==> IsOpener(p.content)
  {
    if ps == [] then []
    else
      var last := ps[|ps| - 1];
      OpenersOf(ps[..|ps| - 1]) + (if IsOpener(last.content) then [last] else [])
  }

  function Order(p: ContentPart): int { p.order }

  function Index(r: Receipt): int { r.index }

  predicate Foreign(message: Message, r: Receipt) {
    Some(r.generation) != message.generation || r.message != message.id || Some(r.model) != message.model
  }

  /** The k-th marker, opener and receipt tell the same story. */
  predicate Agrees(markers: seq<ContentPart>, openers: seq<ContentPart>, receipts: seq<Receipt>, k: nat)
    requires k < |markers| == |openers| == |receipts|
    requires IsMarker(markers[k].content) && IsOpener(openers[k].content)
  {
    var r := receipts[k];
    && markers[k].content.redacted == r.block.Redacted?
    && openers[k].content.kind == KindName(r.block)
    && markers[k].order < openers[k].order
    && (k > 0 ==> openers[k - 1].order < markers[k].order)
    && openers[k].content.record == Some(r.start)
    && (k > 0 ==> receipts[k - 1].index < r.index && receipts[k - 1].end <= r.start)
    && r.responseId == receipts[0].responseId
  }

  lemma {:induction false} MarkersAreMarkers(ps: seq<ContentPart>)
    ensures forall p :: p in MarkersOf(ps) ==> IsMarker(p.content)
  {
    if ps != [] {
      MarkersAreMarkers(ps[..|ps| - 1]);
    }
  }

  ghost predicate AllAgree(markers: seq<ContentPart>, openers: seq<ContentPart>, receipts: seq<Receipt>)
    requires |markers| == |openers| == |receipts|
    requires (forall p :: p in markers ==> IsMarker(p.content)) && (forall p :: p in openers ==> IsOpener(p.content))
  {
    forall k: nat :: k < |markers| ==> Agrees(markers, openers, receipts, k)
  }

  /** Why nothing is bound, or None when every marker is. */
  ghost function Verdict(message: Message, parts: seq<ContentPart>, receipts: seq<Receipt>): Option<Code> {
    var ordered := SortBy(parts, Order);
    var markers, openers, sorted := MarkersOf(ordered), OpenersOf(ordered), SortBy(receipts, Index);
    MarkersAreMarkers(ordered);
    if markers == [] then None
    else if message.generation.None? || message.model.None? then Some(SourceUnknown)
    else if |openers| != |markers| then Some(SourceMismatch)
    else if receipts == [] then Some(EvidenceMissing)
    else if exists r :: r in sorted && Foreign(message, r) then Some(ReceiptForeign)
    else if |sorted| != |markers| then Some(ReceiptCount)
    else if !AllAgree(markers, openers, sorted) then Some(EvidenceMismatch)
    else None
  }

  lemma MarkersMore(ps: seq<ContentPart>, p: ContentPart)
    ensures MarkersOf(ps + [p]) == MarkersOf(ps) + (if IsMarker(p.content) then [p] else [])
    ensures OpenersOf(ps + [p]) == OpenersOf(ps) + (if IsOpener(p.content) then [p] else [])
  {
    assert (ps + [p])[..|ps|] == ps;
  }

  /** Markers and openers of an ordered message. */
  method Select(ordered: seq<ContentPart>) returns (markers: seq<ContentPart>, openers: seq<ContentPart>)
    ensures markers == MarkersOf(ordered) && openers == OpenersOf(ordered)
  {
    hide MarkersOf, OpenersOf;
    markers, openers := [], [];
    assert ordered[..0] == [] && MarkersOf([]) == [] && OpenersOf([]) == [] by { NoneSelected(); }
    for i := 0 to |ordered|
      invariant markers == MarkersOf(ordered[..i]) && openers == OpenersOf(ordered[..i])
    {
      MarkersMore(ordered[..i], ordered[i]);
      assert ordered[..i + 1] == ordered[..i] + [ordered[i]];
      if IsMarker(ordered[i].content) {
        markers := markers + [ordered[i]];
      }
      if IsOpener(ordered[i].content) {
        openers := openers + [ordered[i]];
      }
    }
    assert ordered[..|ordered|] == ordered;
  }

  lemma NoneSelected()
    ensures MarkersOf([]) == [] && OpenersOf([]) == []
  {
  }

  function EntryOf(message: Message, r: Receipt): Entry
    requires message.model.Some?
  {
    Entry(message.id, message.model.value, r.index, r.block)
  }

  /** No later marker has the same id. */
  ghost predicate Last(markers: seq<ContentPart>, k: nat)
    requires k < |markers|
  {
    forall j :: k < j < |markers| ==> markers[j].id != markers[k].id
  }

  ghost predicate SameIds(markers: seq<ContentPart>, entries: map<nat, Entry>) {
    && (forall p :: p in markers ==> p.id in entries)
    && (forall id :: id in entries ==> exists p :: p in markers && p.id == id)
  }

  /** Entries for markers and receipts position by position. */
  ghost predicate Paired(message: Message, markers: seq<ContentPart>, receipts: seq<Receipt>, entries: map<nat, Entry>)
    requires |markers| <= |receipts| && message.model.Some?
  {
    && SameIds(markers, entries)
    && forall k: nat :: k < |markers| && Last(markers, k) ==> entries[markers[k].id] == EntryOf(message, receipts[k])
  }

  lemma IdsMore(markers: seq<ContentPart>, entries: map<nat, Entry>, p: ContentPart, e: Entry)
    requires SameIds(markers, entries)
    ensures SameIds(markers + [p], entries[p.id := e])
  {
    var after := markers + [p];
    assert after[|markers|] == p;
    var more := entries[p.id := e];
    forall id | id in more ensures exists q :: q in after && q.id == id {
      if id == p.id {
        assert p in after;
      } else {
        var q :| q in markers && q.id == id;
        assert q in after;
      }
    }
  }

  lemma LastBefore(markers: seq<ContentPart>, p: ContentPart, j: nat)
    requires j < |markers| && Last(markers + [p], j)
    ensures Last(markers, j) && markers[j].id != p.id
  {
    var after := markers + [p];
    assert after[|markers|] == p && after[j] == markers[j];
    forall i | j < i < |markers| ensures markers[i].id != markers[j].id {
      assert after[i] == markers[i];
    }
  }

  lemma PairMore(message: Message, markers: seq<ContentPart>, receipts: seq<Receipt>, entries: map<nat, Entry>, k: nat)
    requires k < |markers| <= |receipts| && message.model.Some?
    requires Paired(message, markers[..k], receipts, entries)
    ensures Paired(message, markers[..k + 1], receipts, entries[markers[k].id := EntryOf(message, receipts[k])])
  {
    hide Last, SameIds, EntryOf;
    var before, p := markers[..k], markers[k];
    var after := before + [p];
    assert markers[..k + 1] == after;
    var e := entries[p.id := EntryOf(message, receipts[k])];
    IdsMore(before, entries, p, EntryOf(message, receipts[k]));
    forall j: nat | j < |after| && Last(after, j) ensures after[j].id in e && e[after[j].id] == EntryOf(message, receipts[j]) {
      if j < k {
        LastBefore(before, p, j);
        IdIn(before, entries, j);
      }
    }
  }

  lemma IdIn(markers: seq<ContentPart>, entries: map<nat, Entry>, j: nat)
    requires SameIds(markers, entries) && j < |markers|
    ensures markers[j].id in entries
  {
    assert markers[j] in markers;
  }

  method Pair(message: Message, markers: seq<ContentPart>, openers: seq<ContentPart>, sorted: seq<Receipt>)
    returns (bound: bool, entries: map<nat, Entry>)
    requires |markers| == |openers| == |sorted| && message.model.Some?
    requires (forall p :: p in markers ==> IsMarker(p.content)) && (forall p :: p in openers ==> IsOpener(p.content))
    ensures bound == AllAgree(markers, openers, sorted)
    ensures bound ==> Paired(message, markers, sorted, entries)
    ensures !bound ==> entries == map[]
  {
    hide Agrees, Paired, IsMarker, IsOpener;
    entries := map[];
    assert Paired(message, markers[..0], sorted, map[]) by { NothingPaired(message, markers[..0], sorted); }
    for k := 0 to |markers|
      invariant forall j: nat :: j < k ==> Agrees(markers, openers, sorted, j)
      invariant Paired(message, markers[..k], sorted, entries)
    {
      assert markers[k] in markers && openers[k] in openers;
      if !Agrees(markers, openers, sorted, k) {
        return false, map[];
      }
      PairMore(message, markers, sorted, entries, k);
      entries := entries[markers[k].id := EntryOf(message, sorted[k])];
    }
    assert markers[..|markers|] == markers;
    return true, entries;
  }

  lemma NothingPaired(message: Message, markers: seq<ContentPart>, receipts: seq<Receipt>)
    requires markers == [] && message.model.Some?
    ensures Paired(message, markers, receipts, map[])
  {
  }

  method AnyForeign(message: Message, sorted: seq<Receipt>) returns (any: bool)
    ensures any == exists r :: r in sorted && Foreign(message, r)
  {
    hide Foreign;
    for i := 0 to |sorted|
      invariant forall r :: r in sorted[..i] ==> !Foreign(message, r)
    {
      if Foreign(message, sorted[i]) {
        return true;
      }
      assert sorted[..i + 1] == sorted[..i] + [sorted[i]];
    }
    assert sorted[..|sorted|] == sorted;
    return false;
  }

  /** The binder: entries for every marker, or one reason for all of them. */
  method Bind(message: Message, parts: seq<ContentPart>, receipts: seq<Receipt>) returns (unbound: Option<Code>, entries: map<nat, Entry>)
    ensures unbound == Verdict(message, parts, receipts)
    ensures unbound.Some? ==> entries == map[]
    ensures unbound.None? ==>
      |MarkersOf(SortBy(parts, Order))| <= |SortBy(receipts, Index)| || MarkersOf(SortBy(parts, Order)) == []
    ensures unbound.None? && MarkersOf(SortBy(parts, Order)) != [] ==>
      message.model.Some? && Paired(message, MarkersOf(SortBy(parts, Order)), SortBy(receipts, Index), entries)
    ensures unbound.None? && MarkersOf(SortBy(parts, Order)) == [] ==> entries == map[]
  {
    hide MarkersOf, OpenersOf, SortBy, AllAgree, Foreign, Paired;
    var ordered := SortBy(parts, Order);
    var markers, openers := Select(ordered);
    MarkersAreMarkers(ordered);
    if markers == [] {
      return None, map[];
    }
    if message.generation.None? || message.model.None? {
      return Some(SourceUnknown), map[];
    }
    if |openers| != |markers| {
      return Some(SourceMismatch), map[];
    }
    if receipts == [] {
      return Some(EvidenceMissing), map[];
    }
    var sorted := SortBy(receipts, Index);
    var foreign := AnyForeign(message, sorted);
    if foreign {
      return Some(ReceiptForeign), map[];
    }
    if |sorted| != |markers| {
      return Some(ReceiptCount), map[];
    }
    var bound: bool;
    bound, entries := Pair(message, markers, openers, sorted);
    return if bound then None else Some(EvidenceMismatch), entries;
  }

  // ----- what is bound -----

  /** The marker and the opener that a receipt's block left behind. */
  predicate PairFor(marker: ContentPart, opener: ContentPart, r: Receipt) {
    if r.block.Redacted? then marker.content == MarkerPart(true) && opener.content == ArtifactPart("redacted_thinking", Some(r.start))
    else marker.content == MarkerPart(false) && opener.content == ArtifactPart("thinking", Some(r.start))
  }

  predicate Own(message: Message, r: Receipt) {
    message.generation == Some(r.generation) && message.id == r.message && message.model == Some(r.model)
  }

  /** One marker and one opener for every receipt, each marker before its opener and each
      opener before the next marker; the receipts are the message's own, of one response,
      and rise by index without overlapping. */
  predicate Woven(message: Message, ms: seq<ContentPart>, os: seq<ContentPart>, rs: seq<Receipt>) {
    && |ms| == |os| == |rs| && rs != []
    && (forall k :: 0 <= k < |rs| ==> PairFor(ms[k], os[k], rs[k]) && Own(message, rs[k]) && rs[k].responseId == rs[0].responseId)
    && (forall k :: 0 <= k < |rs| ==> ms[k].order < os[k].order && (k > 0 ==> os[k - 1].order < ms[k].order))
    && (forall k :: 0 < k < |rs| ==> rs[k - 1].index < rs[k].index && rs[k - 1].end <= rs[k].start)
  }

  /** The markers among the parts, and the openers, in some order. */
  ghost predicate Drawn(parts: seq<ContentPart>, ms: seq<ContentPart>, os: seq<ContentPart>) {
    forall p: ContentPart :: DrawnAs(parts, ms, os, p)
  }

  predicate DrawnAs(parts: seq<ContentPart>, ms: seq<ContentPart>, os: seq<ContentPart>, p: ContentPart) {
    && multiset(ms)[p] == (if p.content.MarkerPart? then multiset(parts)[p] else 0)
    && multiset(os)[p] == (if p.content.ArtifactPart? && p.content.kind in {"thinking", "redacted_thinking"} && p.content.record.Some?
                           then multiset(parts)[p] else 0)
  }

  lemma Counts<T>(s: seq<T>, x: T, p: T)
    ensures multiset(s + [x])[p] == multiset(s)[p] + (if p == x then 1 else 0)
    ensures multiset(s + [])[p] == multiset(s)[p]
  {
    assert s + [] == s;
  }

  lemma {:induction false} SelectionCounts(ps: seq<ContentPart>, p: ContentPart)
    ensures multiset(MarkersOf(ps))[p] == (if IsMarker(p.content) then multiset(ps)[p] else 0)
    ensures multiset(OpenersOf(ps))[p] == (if IsOpener(p.content) then multiset(ps)[p] else 0)
  {
    hide MarkersOf, OpenersOf, IsMarker, IsOpener;
    if ps == [] {
      NoneSelected();
    } else {
      var front, last := ps[..|ps| - 1], ps[|ps| - 1];
      SelectionCounts(front, p);
      assert ps == front + [last];
      MarkersMore(front, last);
      Counts(front, last, p);
      Counts(MarkersOf(front), last, p);
      Counts(OpenersOf(front), last, p);
    }
  }

  lemma SelectionDrawnAs(ps: seq<ContentPart>, p: ContentPart)
    ensures DrawnAs(ps, MarkersOf(ps), OpenersOf(ps), p)
  {
    hide MarkersOf, OpenersOf;
    SelectionCounts(ps, p);
  }

  lemma SelectionIsDrawn(ps: seq<ContentPart>)
    ensures Drawn(ps, MarkersOf(ps), OpenersOf(ps))
  {
    hide MarkersOf, OpenersOf, DrawnAs;
    forall p: ContentPart ensures DrawnAs(ps, MarkersOf(ps), OpenersOf(ps), p) {
      SelectionDrawnAs(ps, p);
    }
  }

  lemma SameDrawn(parts: seq<ContentPart>, ms: seq<ContentPart>, os: seq<ContentPart>,
                  others: seq<ContentPart>, ns: seq<ContentPart>, qs: seq<ContentPart>)
    requires multiset(parts) == multiset(others) && Drawn(parts, ms, os) && Drawn(others, ns, qs)
    ensures multiset(ms) == multiset(ns) && multiset(os) == multiset(qs)
  {
    forall p: ContentPart ensures multiset(ms)[p] == multiset(ns)[p] && multiset(os)[p] == multiset(qs)[p] {
      assert DrawnAs(parts, ms, os, p) && DrawnAs(others, ns, qs, p);
    }
  }

  lemma DrawnElsewhere(parts: seq<ContentPart>, others: seq<ContentPart>, ms: seq<ContentPart>, os: seq<ContentPart>)
    requires multiset(parts) == multiset(others) && Drawn(others, ms, os)
    ensures Drawn(parts, ms, os)
  {
    forall p: ContentPart ensures DrawnAs(parts, ms, os, p) {
      assert DrawnAs(others, ms, os, p);
    }
  }

  ghost predicate Climbs(ps: seq<ContentPart>) { forall i, j :: 0 <= i < j < |ps| ==> ps[i].order <= ps[j].order }

  lemma {:induction false} OrderedClimbs(ps: seq<ContentPart>)
    ensures Ordered(ps, Order) <==> Climbs(ps)
  {
    if ps != [] {
      OrderedClimbs(ps[1..]);
      assert ps == [ps[0]] + ps[1..];
      if Ordered(ps, Order) {
        forall i, j | 0 <= i < j < |ps| ensures ps[i].order <= ps[j].order {
          assert ps[j] == ps[1..][j - 1];
          if i > 0 {
            assert ps[i] == ps[1..][i - 1];
          }
        }
      }
      if Climbs(ps) {
        forall x | x in ps[1..] ensures Order(ps[0]) <= Order(x) {
          var j :| 0 <= j < |ps[1..]| && ps[1..][j] == x;
          assert ps[j + 1] == x;
        }
        assert Climbs(ps[1..]);
      }
    }
  }

  lemma {:induction false} SelectionClimbs(ps: seq<ContentPart>)
    requires Climbs(ps)
    ensures Climbs(MarkersOf(ps)) && Climbs(OpenersOf(ps))
    ensures forall p :: p in MarkersOf(ps) || p in OpenersOf(ps) ==> p in ps
  {
    if ps != [] {
      var front, last := ps[..|ps| - 1], ps[|ps| - 1];
      SelectionClimbs(front);
      assert ps == front + [last];
      assert forall p :: p in front ==> p.order <= last.order;
    }
  }

  lemma {:induction false} WovenRises(message: Message, ms: seq<ContentPart>, os: seq<ContentPart>, rs: seq<Receipt>, i: nat, j: nat)
    requires Woven(message, ms, os, rs) && i < j < |rs|
    ensures ms[i].order < ms[j].order && os[i].order < os[j].order && rs[i].index < rs[j].index
    decreases j
  {
    if i < j - 1 {
      WovenRises(message, ms, os, rs, i, j - 1);
    }
  }

  /** Nothing drawn from the parts can be arranged in two ways. */
  lemma SameSelection(parts: seq<ContentPart>, message: Message, ms: seq<ContentPart>, os: seq<ContentPart>, rs: seq<Receipt>)
    requires Drawn(parts, ms, os) && Woven(message, ms, os, rs)
    ensures MarkersOf(SortBy(parts, Order)) == ms && OpenersOf(SortBy(parts, Order)) == os
  {
    hide MarkersOf, OpenersOf, SortBy, Ordered, Woven, Drawn;
    var ordered := SortBy(parts, Order);
    Sorted(parts, Order);
    SelectionIsDrawn(ordered);
    SameDrawn(ordered, MarkersOf(ordered), OpenersOf(ordered), parts, ms, os);
    OrderedClimbs(ordered);
    SelectionClimbs(ordered);
    OrderedClimbs(MarkersOf(ordered));
    OrderedClimbs(OpenersOf(ordered));
    SameSizes(message, ms, os, rs);
    forall i, j | 0 <= i < j < |ms| ensures ms[i].order < ms[j].order && os[i].order < os[j].order {
      WovenRises(message, ms, os, rs, i, j);
    }
    SameOrder(MarkersOf(ordered), ms, Order);
    SameOrder(OpenersOf(ordered), os, Order);
  }

  lemma SameSizes(message: Message, ms: seq<ContentPart>, os: seq<ContentPart>, rs: seq<Receipt>)
    requires Woven(message, ms, os, rs)
    ensures |ms| == |os| == |rs| && rs != []
  {
  }

  /** For any parts and receipts: markers bind exactly when the message's markers, openers and
      receipts can be laid out as one marker, one opener and one receipt for every block. */
  lemma BindsIffWoven(message: Message, parts: seq<ContentPart>, receipts: seq<Receipt>)
    ensures Verdict(message, parts, receipts).None? <==>
      || (forall p :: p in parts ==> !p.content.MarkerPart?)
      || exists ms, os, rs :: Drawn(parts, ms, os) && multiset(rs) == multiset(receipts) && Woven(message, ms, os, rs)
  {
    hide MarkersOf, OpenersOf, SortBy, Woven, Drawn, Verdict;
    var ordered, sorted := SortBy(parts, Order), SortBy(receipts, Index);
    NoMarkers(parts);
    Sorted(receipts, Index);
    if Verdict(message, parts, receipts).None? && MarkersOf(ordered) != [] {
      AgreeIsWoven(message, parts, receipts);
      assert Drawn(parts, MarkersOf(ordered), OpenersOf(ordered)) && Woven(message, MarkersOf(ordered), OpenersOf(ordered), sorted);
    }
    forall ms, os, rs | Drawn(parts, ms, os) && multiset(rs) == multiset(receipts) && Woven(message, ms, os, rs)
      ensures Verdict(message, parts, receipts).None?
    {
      WovenBinds(message, parts, receipts, ms, os, rs);
    }
  }

  lemma NoMarkers(parts: seq<ContentPart>)
    ensures MarkersOf(SortBy(parts, Order)) == [] <==> forall p :: p in parts ==> !p.content.MarkerPart?
    ensures MarkersOf(SortBy(parts, Order)) == [] ==> forall m, rs :: Verdict(m, parts, rs).None?
  {
    hide MarkersOf, OpenersOf, SortBy, Ordered;
    var ordered := SortBy(parts, Order);
    Sorted(parts, Order);
    SelectionIsDrawn(ordered);
    var markers := MarkersOf(ordered);
    forall p | p in parts && p.content.MarkerPart? ensures markers != [] {
      assert p in multiset(parts);
      assert DrawnAs(ordered, markers, OpenersOf(ordered), p);
      assert p in multiset(markers);
    }
    if markers != [] {
      assert DrawnAs(ordered, markers, OpenersOf(ordered), markers[0]);
      assert markers[0] in multiset(markers);
      assert markers[0] in multiset(parts);
    }
  }

  lemma AgreeIsWoven(message: Message, parts: seq<ContentPart>, receipts: seq<Receipt>)
    requires Verdict(message, parts, receipts).None? && MarkersOf(SortBy(parts, Order)) != []
    ensures Drawn(parts, MarkersOf(SortBy(parts, Order)), OpenersOf(SortBy(parts, Order)))
    ensures Woven(message, MarkersOf(SortBy(parts, Order)), OpenersOf(SortBy(parts, Order)), SortBy(receipts, Index))
  {
    hide MarkersOf, OpenersOf, SortBy, Ordered, Drawn, Agrees, Foreign;
    var ordered, sorted := SortBy(parts, Order), SortBy(receipts, Index);
    Sorted(parts, Order);
    SelectionIsDrawn(ordered);
    DrawnElsewhere(parts, ordered, MarkersOf(ordered), OpenersOf(ordered));
    MarkersAreMarkers(ordered);
    var ms, os := MarkersOf(ordered), OpenersOf(ordered);
    assert AllAgree(ms, os, sorted);
    forall k: nat | k < |sorted|
      ensures PairFor(ms[k], os[k], sorted[k]) && Own(message, sorted[k]) && sorted[k].responseId == sorted[0].responseId
      ensures ms[k].order < os[k].order && (k > 0 ==> os[k - 1].order < ms[k].order)
      ensures k > 0 ==> sorted[k - 1].index < sorted[k].index && sorted[k - 1].end <= sorted[k].start
    {
      assert sorted[k] in sorted;
      assert IsMarker(ms[k].content) && IsOpener(os[k].content) by { assert ms[k] in ms && os[k] in os; }
      AgreeingPair(message, ms, os, sorted, k);
    }
  }

  lemma AgreeingPair(message: Message, ms: seq<ContentPart>, os: seq<ContentPart>, rs: seq<Receipt>, k: nat)
    requires k < |ms| == |os| == |rs| && IsMarker(ms[k].content) && IsOpener(os[k].content)
    requires Agrees(ms, os, rs, k) && !Foreign(message, rs[k])
    ensures PairFor(ms[k], os[k], rs[k]) && Own(message, rs[k]) && rs[k].responseId == rs[0].responseId
    ensures ms[k].order < os[k].order && (k > 0 ==> os[k - 1].order < ms[k].order)
    ensures k > 0 ==> rs[k - 1].index < rs[k].index && rs[k - 1].end <= rs[k].start
  {
  }

  lemma WovenBinds(message: Message, parts: seq<ContentPart>, receipts: seq<Receipt>,
                   ms: seq<ContentPart>, os: seq<ContentPart>, rs: seq<Receipt>)
    requires Drawn(parts, ms, os) && multiset(rs) == multiset(receipts) && Woven(message, ms, os, rs)
    ensures Verdict(message, parts, receipts).None?
  {
    hide MarkersOf, OpenersOf, SortBy, Drawn, Woven, Agrees, Foreign;
    SameSelection(parts, message, ms, os, rs);
    SameSizes(message, ms, os, rs);
    forall i, j | 0 <= i < j < |rs| ensures Index(rs[i]) < Index(rs[j]) {
      WovenRises(message, ms, os, rs, i, j);
    }
    SortRecovers(receipts, rs, Index);
    MarkersAreMarkers(SortBy(parts, Order));
    SizeOf(rs, receipts);
    WovenIsNative(message, ms, os, rs);
    forall k: nat | k < |ms| ensures Agrees(ms, os, rs, k) {
      WovenAgrees(message, ms, os, rs, k);
    }
  }

  lemma WovenIsNative(message: Message, ms: seq<ContentPart>, os: seq<ContentPart>, rs: seq<Receipt>)
    requires Woven(message, ms, os, rs)
    ensures message.generation.Some? && message.model.Some? && forall r :: r in rs ==> !Foreign(message, r)
    ensures (forall p :: p in ms ==> IsMarker(p.content)) && (forall p :: p in os ==> IsOpener(p.content))
  {
    forall r | r in rs ensures !Foreign(message, r) {
      var k :| 0 <= k < |rs| && rs[k] == r;
      assert Own(message, rs[k]);
    }
    assert Own(message, rs[0]);
    forall p | p in os ensures IsOpener(p.content) {
      var k :| 0 <= k < |os| && os[k] == p;
      assert PairFor(ms[k], os[k], rs[k]);
    }
    forall p | p in ms ensures IsMarker(p.content) {
      var k :| 0 <= k < |ms| && ms[k] == p;
      assert PairFor(ms[k], os[k], rs[k]);
    }
  }

  lemma WovenAgrees(message: Message, ms: seq<ContentPart>, os: seq<ContentPart>, rs: seq<Receipt>, k: nat)
    requires Woven(message, ms, os, rs) && k < |rs|
    ensures |ms| == |os| == |rs| && IsMarker(ms[k].content) && IsOpener(os[k].content) && Agrees(ms, os, rs, k)
  {
    assert PairFor(ms[k], os[k], rs[k]);
  }

  /** Why nothing binds, checked in this order, whatever the order of parts and receipts. */
  lemma RefusalsInOrder(message: Message, parts: seq<ContentPart>, receipts: seq<Receipt>)
    ensures var v, markers, openers := Verdict(message, parts, receipts), |MarkersOf(parts)|, |OpenersOf(parts)|;
      if markers == 0 then v == None
      else if message.generation.None? || message.model.None? then v == Some(SourceUnknown)
      else if openers != markers then v == Some(SourceMismatch)
      else if receipts == [] then v == Some(EvidenceMissing)
      else if exists r :: r in receipts && !Own(message, r) then v == Some(ReceiptForeign)
      else if |receipts| != markers then v == Some(ReceiptCount)
      else v in {None, Some(EvidenceMismatch)}
  {
    hide MarkersOf, OpenersOf, SortBy, Ordered, Drawn, AllAgree;
    var ordered, sorted := SortBy(parts, Order), SortBy(receipts, Index);
    Sorted(parts, Order);
    Sorted(receipts, Index);
    SizeOf(sorted, receipts);
    SelectionIsDrawn(parts);
    SelectionIsDrawn(ordered);
    SameDrawn(parts, MarkersOf(parts), OpenersOf(parts), ordered, MarkersOf(ordered), OpenersOf(ordered));
    SizeOf(MarkersOf(parts), MarkersOf(ordered));
    SizeOf(OpenersOf(parts), OpenersOf(ordered));
    forall r ensures r in sorted <==> r in receipts {
      assert r in multiset(sorted) <==> r in multiset(receipts);
    }
  }
}
