/** The order in which a generation's parts are stored (packages/providers/src/generation.ts):
    text and other parts as they arrived, and the text of two blocks never in one part. */
module StoredOrder {
  import opened Common
  import opened Utf16
  import opened ByteCounts
  import R = Receipts
  import N = Normalizer
  import G = Generation
  import S = StoredEvidence

  /** One unit of a block's text, or one part. */
  datatype Word = Letter(key: nat, unit: Unit) | Solid(part: R.Content)

  function Letters(key: nat, text: G.Text): (r: seq<Word>)
    ensures |r| == |text| && forall k :: 0 <= k < |r| ==> r[k] == Letter(key, text[k])
  {
    seq(|text|, k requires 0 <= k < |text| => Letter(key, text[k]))
  }

  /** The transport's own evidence, which does not end a text part. */
  predicate Carried(part: R.Content) {
    part.ArtifactPart? && part.kind in {"quixi.provider.raw-stream-chunk", "quixi.provider.response-manifest"}
  }

  function PartWords(c: G.Content): seq<Word> { if c.Solid? && !Carried(c.part) then [Solid(c.part)] else [] }

  function CallWords(call: G.Event): seq<Word> {
    match call
    case TextEvent(key, text) => Letters(key, text)
    case PartEvent(content) => PartWords(content)
    case RawEvent(raw, _) => PartWords(raw)
  }

  /** What the event loop hands over, word by word. */
  function Heard(calls: seq<G.Event>): seq<Word> {
    if calls == [] then [] else Heard(calls[..|calls| - 1]) + CallWords(calls[|calls| - 1])
  }

  /** What the stored parts say, when the text of part k is of block keys[k]. */
  function Spelled(parts: seq<G.Content>, keys: seq<nat>): seq<Word>
    requires |keys| == |parts|
  {
    if parts == [] then []
    else
      var n := |parts| - 1;
      Spelled(parts[..n], keys[..n]) + (if parts[n].TextContent? then Letters(keys[n], parts[n].text) else PartWords(parts[n]))
  }

  lemma SpelledMore(parts: seq<G.Content>, keys: seq<nat>, c: G.Content, key: nat)
    requires |keys| == |parts|
    ensures Spelled(parts + [c], keys + [key]) == Spelled(parts, keys) + (if c.TextContent? then Letters(key, c.text) else PartWords(c))
  {
    assert (parts + [c])[..|parts|] == parts && (keys + [key])[..|parts|] == keys;
  }

  /** Text appended to a part that only transport evidence follows is spelled at the end. */
  lemma {:induction false} SpelledAppend(parts: seq<G.Content>, keys: seq<nat>, order: nat, piece: G.Text)
    requires |keys| == |parts| && order < |parts| && parts[order].TextContent? && G.OnlyTransport(parts[order + 1..])
    ensures Spelled(parts[order := G.TextContent(parts[order].text + piece)], keys) == Spelled(parts, keys) + Letters(keys[order], piece)
    decreases |parts|
  {
    var n := |parts| - 1;
    var grown := parts[order := G.TextContent(parts[order].text + piece)];
    if order == n {
      assert grown[..n] == parts[..n];
      assert Letters(keys[n], parts[n].text + piece) == Letters(keys[n], parts[n].text) + Letters(keys[n], piece);
    } else {
      assert parts[n] == parts[order + 1..][n - order - 1];
      assert parts[..n][order + 1..] == parts[order + 1..][..n - order - 1];
      SpelledAppend(parts[..n], keys[..n], order, piece);
      assert grown[..n] == parts[..n][order := G.TextContent(parts[order].text + piece)];
      assert G.Transport(parts[n]) && PartWords(parts[n]) == [];
    }
  }

  /** What the loop has taken and not yet placed. */
  function Coming(c: G.Control): seq<Word> {
    match c
    case Texting(key, rest) => Letters(key, rest)
    case FlushWait(key, rest) => Letters(key, rest)
    case AppendSettle(content) => PartWords(content)
    case RawSettle(raw, _) => PartWords(raw)
    case RawDigest(raw, _) => PartWords(raw)
    case _ => []
  }

  ghost predicate Arranged(s: G.State, heard: seq<Word>, keys: seq<nat>) {
    var parts := G.Stored(G.All(s));
    && parts.Some? && |keys| == |parts.value|
    && Spelled(parts.value, keys) + Coming(s.control) == heard
    && (s.active.Some? ==> s.active.value.order < |keys| && keys[s.active.value.order] == s.active.value.key)
  }

  ghost predicate Arrangeable(s: G.State, heard: seq<Word>) { exists keys :: Arranged(s, heard, keys) }

  /** Nothing placed, nothing taken. */
  lemma SameAll(s: G.State, t: G.State, heard: seq<Word>)
    requires Arrangeable(s, heard) && G.All(t) == G.All(s) && Coming(t.control) == Coming(s.control)
    requires t.active == s.active || t.active.None?
    ensures Arrangeable(t, heard)
  {
    hide G.Stored, Spelled;
    var keys :| Arranged(s, heard, keys);
    assert Arranged(t, heard, keys);
  }

  lemma LettersSplit(key: nat, text: G.Text, end: nat)
    requires end <= |text|
    ensures Letters(key, text) == Letters(key, text[..end]) + Letters(key, text[end..])
  {
  }

  lemma TurnArranges(s: G.State, key: nat, rest: G.Text, heard: seq<Word>)
    requires G.Inv(s) && s.control == G.Texting(key, rest) && rest != [] && Arrangeable(s, heard)
    ensures var t := G.TextTurn(s, key, rest); t.control != G.Closed ==> Arrangeable(t, heard)
  {
    hide G.Stored, Utf8Length, G.PieceEnd, Arrangeable, G.Inv;
    var t := G.TextTurn(s, key, rest);
    var active := G.Usable(s.active, key);
    if G.PieceEnd(rest, G.Room(active)) == 0 {
      assert G.All(t) == G.All(s);
      SameAll(s, t, heard);
    } else if active.Some? {
      TurnLengthens(s, key, rest, heard);
    } else if t.control != G.Closed {
      TurnBegins(s, key, rest, heard);
    }
  }

  lemma TurnLengthens(s: G.State, key: nat, rest: G.Text, heard: seq<Word>)
    requires G.Inv(s) && s.control == G.Texting(key, rest) && rest != [] && Arrangeable(s, heard)
    requires G.Usable(s.active, key).Some? && G.PieceEnd(rest, G.Room(s.active)) > 0
    ensures Arrangeable(G.TextTurn(s, key, rest), heard)
  {
    hide G.Stored, G.Sequences, G.Texts, G.Solids, Utf8Length, G.PieceEnd, Spelled, G.KeepsPairs, G.Bounded, G.OnlyTransport, Letters;
    var t := G.TextTurn(s, key, rest);
    var end, order := G.PieceEnd(rest, G.Room(s.active)), s.active.value.order;
    var keys :| Arranged(s, heard, keys);
    var parts := G.Stored(G.All(s)).value;
    var m := G.AppendText(s.sequence + 1, order, rest[..end]);
    assert G.All(t) == G.All(s) + [m];
    G.StoredOne(G.All(s), m);
    SpelledAppend(parts, keys, order, rest[..end]);
    LettersSplit(key, rest, end);
    assert Arranged(t, heard, keys);
  }

  lemma TurnBegins(s: G.State, key: nat, rest: G.Text, heard: seq<Word>)
    requires G.Inv(s) && s.control == G.Texting(key, rest) && rest != [] && Arrangeable(s, heard)
    requires G.Usable(s.active, key).None? && G.PieceEnd(rest, G.SEGMENT) > 0 && s.partCount < G.MAX_PARTS
    ensures Arrangeable(G.TextTurn(s, key, rest), heard)
  {
    hide G.Stored, G.Sequences, G.Texts, G.Solids, Utf8Length, G.PieceEnd, Spelled, G.KeepsPairs, G.Bounded, G.ActiveFits, Letters;
    var t := G.TextTurn(s, key, rest);
    var end := G.PieceEnd(rest, G.SEGMENT);
    var keys :| Arranged(s, heard, keys);
    var parts := G.Stored(G.All(s)).value;
    var c := G.TextContent(rest[..end]);
    var m := G.NewPart(s.sequence + 1, s.partCount, c);
    assert G.All(t) == G.All(s) + [m];
    G.StoredOne(G.All(s), m);
    SpelledMore(parts, keys, c, key);
    LettersSplit(key, rest, end);
    assert Arranged(t, heard, keys + [key]);
  }

  lemma TextArranges(s: G.State, t: G.State, heard: seq<Word>)
    requires G.Inv(s) && G.TextStep(s, t) && t.control != G.Closed && Arrangeable(s, heard)
    ensures Arrangeable(t, heard)
  {
    hide G.Inv, G.TextTurn, Arrangeable, G.Stored;
    if s.control.rest == [] {
      assert G.All(t) == G.All(s);
      SameAll(s, t, heard);
    } else {
      var turned := G.TextTurn(s, s.control.key, s.control.rest);
      G.TurnShape(s, s.control.key, s.control.rest);
      if turned.control != G.Closed {
        TurnArranges(s, s.control.key, s.control.rest, heard);
        assert G.All(t) == G.All(turned);
        SameAll(turned, t, heard);
      }
    }
  }

  /** A part takes its place behind all that came before it. */
  lemma PartArranges(s: G.State, t: G.State, heard: seq<Word>, c: G.Content, ms: seq<G.Mutation>)
    requires G.Inv(s) && Arrangeable(s, heard) && s.control != G.Closed && !c.TextContent? && Coming(s.control) == PartWords(c)
    requires Coming(t.control) == [] && t.active == s.active
    requires G.All(t) == G.All(s) + ms && G.Ahead(s.control) == 0
    requires ms == [G.NewPart(s.sequence + 1, s.partCount, c)] || ms == [G.Unsequenced, G.NewPart(s.sequence + 1, s.partCount, c)]
    ensures Arrangeable(t, heard)
  {
    hide G.Stored, G.Sequences, G.Texts, G.Solids, Spelled, G.KeepsPairs, G.Bounded, PartWords, Coming;
    var keys :| Arranged(s, heard, keys);
    var parts := G.Stored(G.All(s)).value;
    var m := G.NewPart(s.sequence + 1, s.partCount, c);
    if |ms| == 1 {
      G.StoredOne(G.All(s), m);
    } else {
      assert G.All(t) == (G.All(s) + [G.Unsequenced]) + [m];
      G.StoredOne(G.All(s), G.Unsequenced);
      G.StoredOne(G.All(s) + [G.Unsequenced], m);
    }
    SpelledMore(parts, keys, c, 0);
    assert Arranged(t, heard, keys + [0]);
  }

  lemma CommitArranges(s: G.State, t: G.State, heard: seq<Word>)
    requires G.Inv(s) && G.CommitStep(s, t) && t.control != G.Closed && Arrangeable(s, heard)
    ensures Arrangeable(t, heard)
  {
    hide Arrangeable, G.Stored, G.Consistent;
    if s.control.AppendSettle? {
      var m := G.NewPart(s.sequence + 1, s.partCount, s.control.content);
      assert G.All(t) == G.All(s) + [m];
      PartArranges(s, t, heard, s.control.content, [m]);
    } else if s.control.RawDigest? {
      var ms := [G.Unsequenced, G.NewPart(s.sequence + 1, s.partCount, s.control.raw)];
      assert G.All(t) == G.All(s) + ms;
      PartArranges(s, t, heard, s.control.raw, ms);
    } else {
      assert G.All(t) == G.All(s);
      SameAll(s, t, heard);
    }
  }

  lemma TimerArranges(s: G.State, t: G.State, heard: seq<Word>)
    requires G.Inv(s) && G.TimerStep(s, t) && s.control != G.Closed && Arrangeable(s, heard)
    ensures Arrangeable(t, heard)
  {
    hide Arrangeable, G.Stored, G.Consistent;
    assert G.All(t) == G.All(s);
    SameAll(s, t, heard);
  }

  lemma ReceiveArranges(s: G.State, t: G.State, heard: seq<Word>, call: G.Event)
    requires G.Receive(s, t, call) && Arrangeable(s, heard)
    ensures Arrangeable(t, heard + CallWords(call))
  {
    hide G.Stored, Spelled, PartWords;
    var keys :| Arranged(s, heard, keys);
    assert G.All(t) == G.All(s);
    assert heard == Spelled(G.Stored(G.All(s)).value, keys);
    assert Coming(t.control) == CallWords(call);
    assert Arranged(t, heard + CallWords(call), keys);
  }

  lemma QuietArranges(s: G.State, t: G.State, heard: seq<Word>)
    requires G.Inv(s) && G.Quiet(s, t) && s.control != G.Closed && t.control != G.Closed && Arrangeable(s, heard)
    ensures Arrangeable(t, heard)
  {
    hide Arrangeable, G.Inv, G.TextStep, G.CommitStep, G.TimerStep;
    if G.TextStep(s, t) {
      TextArranges(s, t, heard);
    } else if G.CommitStep(s, t) {
      CommitArranges(s, t, heard);
    } else {
      TimerArranges(s, t, heard);
    }
  }

  lemma HeardMore(calls: seq<G.Event>, call: G.Event)
    ensures Heard(calls + [call]) == Heard(calls) + CallWords(call)
  {
    assert (calls + [call])[..|calls|] == calls;
  }

  /** After n calls, whatever the interleaving, what is placed and what is to come is what was heard. */
  lemma {:induction false} FeedsArrange(states: seq<G.State>, taken: seq<nat>, calls: seq<G.Event>, i: nat)
    requires S.Feeds(states, taken, calls) && i < |states| && states[i].control != G.Closed
    ensures taken[i] <= |calls| && G.Inv(states[i]) && Arrangeable(states[i], Heard(calls[..taken[i]]))
    decreases i
  {
    hide S.Turn, G.Quiet, G.Receive, G.Inv, Arrangeable, Heard;
    if i == 0 {
      assert calls[..0] == [];
      AtTheStart();
    } else {
      var s, t := states[i - 1], states[i];
      assert S.Turn(s, t, taken[i - 1], taken[i], calls);
      StaysClosed(s, t, taken[i - 1], taken[i], calls);
      FeedsArrange(states, taken, calls, i - 1);
      G.StepKeeps(s, t);
      if taken[i] == taken[i - 1] {
        TakesNone(s, t, taken[i - 1], calls);
        QuietArranges(s, t, Heard(calls[..taken[i]]));
      } else {
        TakesNext(s, t, taken[i - 1], taken[i], calls);
        ReceiveArranges(s, t, Heard(calls[..taken[i - 1]]), calls[taken[i - 1]]);
        HeardMore(calls[..taken[i - 1]], calls[taken[i - 1]]);
        assert calls[..taken[i]] == calls[..taken[i - 1]] + [calls[taken[i - 1]]];
      }
    }
  }

  lemma AtTheStart()
    ensures G.Inv(G.START) && Arrangeable(G.START, Heard([]))
  {
    hide G.Inv;
    G.StartHolds(G.START);
    G.NothingStored();
    assert G.All(G.START) == [];
    assert Spelled([], []) == [];
    assert Arranged(G.START, [], []);
  }

  lemma StaysClosed(s: G.State, t: G.State, m: nat, n: nat, calls: seq<G.Event>)
    requires S.Turn(s, t, m, n, calls) && t.control != G.Closed
    ensures s.control != G.Closed && G.Step(s, t)
  {
    hide Utf8Length, G.TextStep;
    if n == m {
      assert G.Quiet(s, t);
      assert G.TextStep(s, t) ==> s.control.Texting? by { TextingOnly(s, t); }
    } else {
      assert G.Receive(s, t, calls[m]);
    }
  }

  lemma TextingOnly(s: G.State, t: G.State)
    ensures G.TextStep(s, t) ==> s.control.Texting?
  {
    hide Utf8Length, G.TextTurn;
  }

  lemma TakesNone(s: G.State, t: G.State, m: nat, calls: seq<G.Event>)
    requires S.Turn(s, t, m, m, calls)
    ensures G.Quiet(s, t)
  {
    hide G.Quiet, G.Receive;
  }

  lemma TakesNext(s: G.State, t: G.State, m: nat, n: nat, calls: seq<G.Event>)
    requires S.Turn(s, t, m, n, calls) && n != m
    ensures n == m + 1 <= |calls| && G.Receive(s, t, calls[m])
  {
    hide G.Quiet, G.Receive;
  }

  /** For every interleaving of a generation that was sealed over a live stream: its stored parts
      say, unit by unit and part by part, what the event loop handed over, in that order; only
      transport evidence may stand elsewhere. Each text part is of one block. */
  lemma SealedRunKeepsOrder(names: R.Names, items: seq<R.Item>, parses: N.Text -> bool, states: seq<G.State>, taken: seq<nat>, i: nat)
    requires R.Play(names, N.START, R.Begin(names), items, parses).Live? && S.Sealed(states, taken, i, items, parses)
    ensures var stored := G.Stored(states[|states| - 1].log);
      stored.Some? && exists keys :: |keys| == |stored.value| && Spelled(stored.value, keys) == Heard(S.Script(N.START, items, parses))
  {
    hide G.Inv, G.Stored, G.Run, S.Turn, R.Play, S.Script, S.Said, Heard, Spelled, CallWords;
    var script := S.Script(N.START, items, parses);
    var calls := script + [S.LAST_CALL];
    var s := states[i];
    FeedsArrange(states, taken, calls, i);
    AllTaken(names, items, parses, states, taken, i);
    assert calls[..taken[i]] == calls;
    HeardMore(script, S.LAST_CALL);
    LastIsCarried();
    assert Heard(calls) == Heard(script);
    S.FeedsRuns(states, taken, calls);
    G.SealedStays(states, i);
    assert G.All(s) == s.log by { NothingPending(s); }
    var keys :| Arranged(s, Heard(calls), keys);
    assert |keys| == |G.Stored(s.log).value| && Spelled(G.Stored(s.log).value, keys) == Heard(script);
  }

  lemma LastIsCarried()
    ensures CallWords(S.LAST_CALL) == []
  {
  }

  lemma NothingPending(s: G.State)
    requires G.Inv(s) && s.control.RawWait?
    ensures G.All(s) == s.log
  {
    hide G.Consistent;
  }

  lemma AllTaken(names: R.Names, items: seq<R.Item>, parses: N.Text -> bool, states: seq<G.State>, taken: seq<nat>, i: nat)
    requires R.Play(names, N.START, R.Begin(names), items, parses).Live? && S.Sealed(states, taken, i, items, parses)
    ensures taken[i] == |S.Script(N.START, items, parses)| + 1
  {
    hide G.Run, S.Turn, R.Play, S.Script, S.Said, S.GivenParts, S.GivenText;
    var script := S.Script(N.START, items, parses);
    var calls := script + [S.LAST_CALL];
    S.FeedsTake(states, taken, calls, i);
    S.ScriptGives(names, N.START, R.Begin(names), items, parses);
    var n := taken[i];
    assert S.Final(calls[n - 1]);
    assert forall k :: 0 <= k < |script| ==> calls[k] == script[k] && !S.Final(script[k]);
  }
}
