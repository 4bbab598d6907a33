/** The three entry points of packages/quixi-embed/native/tokenizer.c against the one
    token list `FullTokens`: truncated ids, a saturating count, and full offsets. */
module EntryPoints {
  import opened Common
  import opened Utf8
  import opened Vocabulary
  import opened UnicodeTables
  import opened WordPiece
  import opened TokenMachine
  import opened Tokenizer

  /** Up to `limit`, the tokens are those of the target. */
  ghost predicate Agrees(tokens: seq<Token>, target: seq<Token>, limit: nat) {
    if |tokens| < limit then tokens == target
    else limit <= |target| && tokens[..limit] == target[..limit]
  }

  /** The first decoding pass: is the text well-formed? */
  method Validate(text: seq<Byte>) returns (ok: bool)
    ensures ok == DecodeAll(text, 0).Some?
  {
    hide Decode, DecodeAll;
    var cursor := 0;
    while cursor < |text|
      invariant cursor <= |text| && DecodeAll(text, 0).Some? == DecodeAll(text, cursor).Some?
      decreases |text| - cursor
    {
      var d := DecodeNext(text, cursor);
      DecodeAllOne(text, cursor);
      if d.Malformed? {
        return false;
      }
      cursor := d.next;
    }
    DecodeAllOne(text, cursor);
    return true;
  }

  /** Prefix and text through one state: complete, or full and agreeing so far. */
  method Scan(state: State, role: Role, text: seq<Byte>) returns (status: Status)
    requires state.Valid() && state.Machine() == Acc([], [Token(CLS, NO_SPAN, Framing)])
    modifies state, state.ids, state.offsets, state.word, state.alignment
    ensures state.Valid()
    ensures FullTokens(Lang(state.model), role, text).Some? ==> status == Ok
    ensures status != Ok ==> status in {BadUtf8, Format}
    ensures status == Ok && state.full ==> FullTokens(Lang(state.model), role, text).Some?
    ensures var r := FullTokens(Lang(state.model), role, text);
      status == Ok && r.Some? ==>
        var target := r.value[..|r.value| - 1];
        if state.full then state.tokens == target else Agrees(state.tokens, target, state.limit)
  {
    hide State.Valid, Items, AcceptAll, Pieces;
    state.TablesUsable();
    ghost var lang := Lang(state.model);
    ghost var start := state.Machine();
    if role == Query {
      status := state.Process(PrefixBytes(), QueryPrefix);
      if status != Ok {
        return;
      }
    }
    ghost var middle := state.Machine();
    ghost var begun := Opened(lang, role);
    assert begun.Some? && (state.full || |middle.tokens| < state.limit) ==> middle == begun.value;
    assert begun.Some? ==> middle.tokens <= begun.value.tokens;
    status := state.Process(text, Source);
    if status != Ok {
      return;
    }
    ghost var scanned := state.Machine();
    ghost var items := Items(lang, text, 0, 0);
    state.Flush(Source);
    if begun.Some? && items.Some? {
      ghost var target := Flushed(lang, AcceptAll(lang, begun.value, items.value, Source), Source).tokens;
      assert FullTokens(lang, role, text).value[..|FullTokens(lang, role, text).value| - 1] == target;
      AcceptExtends(lang, begun.value, items.value, Source);
      if !state.full {
        if |scanned.tokens| < state.limit {
          assert state.tokens == target;
        } else if |middle.tokens| < state.limit {
          assert scanned.tokens <= target && scanned.tokens <= state.tokens;
        } else {
          assert middle.tokens <= target && middle.tokens <= scanned.tokens <= state.tokens;
        }
      }
    }
  }

  /** Ids up to a limit, then the closing token. */
  method TokenizeBounded(model: Model, ghost distance: seq<nat>, text: seq<Byte>, role: Role, ids: array<nat>, limit: nat)
    returns (status: Status, count: nat)
    requires ValidModel(model, distance) && 1 <= limit < ids.Length
    modifies ids
    ensures |text| > 1048576 <==> status == LimitExceeded
    ensures |text| <= 1048576 && DecodeAll(text, 0).None? ==> status == BadUtf8
    ensures var r := FullTokens(Lang(model), role, text);
      |text| <= 1048576 && DecodeAll(text, 0).Some? && r.Some? ==>
        && status == Ok
        && count == Min(limit, |r.value| - 1) + 1
        && (forall i :: 0 <= i < count - 1 ==> ids[i] == r.value[i].id)
        && ids[count - 1] == SEP
  {
    hide FullTokens, DecodeAll;
    count := 0;
    if |text| > MAX_TEXT_BYTES {
      return LimitExceeded, 0;
    }
    var wellFormed := Validate(text);
    if !wellFormed {
      return BadUtf8, 0;
    }
    var unused := new Token[0];
    var state := new State(model, distance, false, limit, ids, unused);
    state.Emit(CLS, NO_SPAN, Framing, NO_SPAN);
    status := Scan(state, role, text);
    if status != Ok {
      return;
    }
    state.CountBounds();
    ids[state.count] := SEP;
    count := state.count + 1;
  }

  /** `qx_tokenize`: the first 511 tokens at most, then the closing token. */
  method Tokenize(model: Model, ghost distance: seq<nat>, text: seq<Byte>, role: Role, ids: array<nat>) returns (status: Status, count: nat)
    requires ValidModel(model, distance) && ids.Length >= 512
    modifies ids
    ensures var r := FullTokens(Lang(model), role, text);
      |text| <= 1048576 && DecodeAll(text, 0).Some? && r.Some? ==>
        && status == Ok && count == Min(511, |r.value| - 1) + 1 <= 512
        && (forall i :: 0 <= i < count - 1 ==> ids[i] == r.value[i].id) && ids[count - 1] == SEP
  {
    hide FullTokens, DecodeAll, ValidModel;
    status, count := TokenizeBounded(model, distance, text, role, ids, 511);
  }

  /** `qx_inspect_tokens`: the exact count, saturating at 513. */
  method InspectTokens(model: Model, ghost distance: seq<nat>, text: seq<Byte>, role: Role) returns (status: Status, count: nat)
    requires ValidModel(model, distance)
    ensures var r := FullTokens(Lang(model), role, text);
      |text| <= 1048576 && DecodeAll(text, 0).Some? && r.Some? ==> status == Ok && count == Min(|r.value|, 513)
  {
    hide FullTokens, DecodeAll, ValidModel;
    var ids := new nat[513];
    status, count := TokenizeBounded(model, distance, text, role, ids, 512);
  }

  /** `qx_tokenize_offsets`: every token with its offsets, or the exact count needed. */
  method TokenizeOffsets(model: Model, ghost distance: seq<nat>, text: seq<Byte>, role: Role, records: array<Token>, capacity: nat)
    returns (status: Status, count: nat)
    requires ValidModel(model, distance) && capacity <= records.Length
    modifies records
    ensures capacity < 2 || capacity > 65536 ==> status == Argument && count == 0
    ensures 2 <= capacity <= 65536 && |text| > 1048576 ==> status == LimitExceeded && count == 0
    ensures 2 <= capacity <= 65536 && |text| <= 1048576 ==>
      var r := FullTokens(Lang(model), role, text);
      if r.None? then status in {BadUtf8, Format} && count == 0
      else
        && count == |r.value|
        && status == (if |r.value| > capacity then LimitExceeded else Ok)
        && (status == Ok ==> records[..count] == r.value)
  {
    hide FullTokens;
    if capacity < 2 || capacity > MAX_OFFSET_TOKENS {
      return Argument, 0;
    }
    if |text| > MAX_TEXT_BYTES {
      return LimitExceeded, 0;
    }
    var unused := new nat[1];
    var state := new State(model, distance, true, capacity, unused, records);
    state.Emit(CLS, NO_SPAN, Framing, NO_SPAN);
    status := Scan(state, role, text);
    if status != Ok {
      return status, 0;
    }
    FullEnds(Lang(model), role, text);
    state.Emit(SEP, NO_SPAN, Framing, NO_SPAN);
    count := state.count;
    status := if count > capacity then LimitExceeded else Ok;
    ghost var ts := FullTokens(Lang(model), role, text).value;
    assert state.tokens == ts;
  }

  lemma FullEnds(lang: Language, role: Role, text: seq<Byte>)
    ensures var r := FullTokens(lang, role, text);
      r.Some? ==> r.value == r.value[..|r.value| - 1] + [Token(SEP, NO_SPAN, Framing)]
  {
    hide Items, AcceptAll, Pieces;
  }
}
