/** The standalone tokenizer package: `write_tokenizer` of
    packages/quixi-embed/compiler/compile_model.py and `qx_tokenizer_load` of
    packages/quixi-embed/native/model.c, with the vocabulary and Unicode tables inside. */
module TokenizerFile {
  import opened Common
  import opened Utf8
  import opened Bytes
  import opened ModelFile
  import Vocabulary
  import UnicodeFile

  const MAX_TOKENIZER := 2097152
  const NAME: Data := [81, 88, 84, 79, 75, 69, 78, 49]

  // ----- the loader -----

  function VocabularySize(data: Data): nat
    requires HEADER <= |data|
  {
    U64(data, 32)
  }

  function UnicodeStart(data: Data): nat
    requires HEADER <= |data|
  {
    U64(data, 40)
  }

  predicate Placed(data: Data)
    requires HEADER <= |data|
  {
    && data[..8] == NAME && U32(data, 8) == 1 && U32(data, 12) == HEADER && U64(data, 16) == |data|
    && (forall k :: 120 <= k < 128 ==> data[k] == 0)
    && U64(data, 24) == HEADER && HEADER + VocabularySize(data) <= UnicodeStart(data) <= |data|
    && UnicodeStart(data) % 64 == 0 && U64(data, 48) == |data| - UnicodeStart(data)
  }

  function VocabularyOf(data: Data): Data
    requires HEADER <= |data| && Placed(data)
  {
    data[HEADER..HEADER + VocabularySize(data)]
  }

  function UnicodeOf(data: Data): Data
    requires HEADER <= |data| && Placed(data)
  {
    data[UnicodeStart(data)..]
  }

  predicate Trusted(c: Contract, data: Data)
    requires HEADER <= |data| && Placed(data)
  {
    && data[56..88] == c.source && c.sha(data[HEADER..]) == data[88..120]
    && c.sha(VocabularyOf(data)) == c.vocabulary && c.sha(UnicodeOf(data)) == c.unicode
  }

  /** Lines the vocabulary section splits into, when it does. */
  ghost predicate Splits(data: Data, lines: seq<Data>) {
    Vocabulary.Joined(lines) == data && Vocabulary.Acceptable(lines) && |lines| == Vocabulary.WORDS
  }

  ghost predicate Accepts(c: Contract, data: Data) {
    && HEADER <= |data| <= MAX_TOKENIZER && Placed(data) && Trusted(c, data)
    && (exists lines :: Splits(VocabularyOf(data), lines))
    && UnicodeFile.Accepts(UnicodeOf(data))
  }

  method CheckPlaced(data: Data) returns (ok: bool)
    requires HEADER <= |data|
    ensures ok <==> Placed(data)
  {
    hide U32, U64;
    if data[..8] != NAME || U32(data, 8) != 1 || U32(data, 12) != HEADER || U64(data, 16) != |data| {
      return false;
    }
    for k := 120 to 128
      invariant forall j :: 120 <= j < k ==> data[j] == 0
    {
      if data[k] != 0 {
        return false;
      }
    }
    var vocabulary, size, unicode, rest := U64(data, 24), U64(data, 32), U64(data, 40), U64(data, 48);
    if vocabulary != HEADER || size > |data| - vocabulary || unicode % 64 != 0 || unicode < vocabulary + size || unicode > |data| {
      return false;
    }
    return rest == |data| - unicode;
  }

  /** qx_tokenizer_load: accepts exactly the packages whose layout, digests, vocabulary and
      Unicode table all check, and holds the vocabulary's lines in its hash table. */
  method Load(c: Contract, data: Data) returns (ok: bool, lines: seq<Data>, slots: seq<nat>, ghost distance: seq<nat>)
    ensures ok <==> Accepts(c, data)
    ensures ok ==> Splits(VocabularyOf(data), lines) && Vocabulary.Table(lines, slots, distance)
  {
    hide Placed, Trusted, Vocabulary.Joined, Vocabulary.Acceptable, Vocabulary.Table, UnicodeFile.Accepts;
    lines, slots, distance := [], [], [];
    ok := false;
    if |data| > MAX_TOKENIZER || |data| < HEADER {
      return;
    }
    var placed := CheckPlaced(data);
    if !placed {
      return;
    }
    VocabularyInside(data);
    if !Trusted(c, data) {
      return;
    }
    var vocabulary: bool;
    vocabulary, lines, slots, distance := Vocabulary.Load(VocabularyOf(data));
    if !vocabulary {
      forall ls ensures !Splits(VocabularyOf(data), ls) {
        Vocabulary.AcceptableIs(ls);
      }
      return;
    }
    assert Splits(VocabularyOf(data), lines);
    ok := UnicodeFile.Init(UnicodeOf(data));
  }

  lemma VocabularyInside(data: Data)
    requires HEADER <= |data| && Placed(data)
    ensures HEADER + VocabularySize(data) <= UnicodeStart(data) <= |data|
  {
  }

  // ----- the writer -----

  function Payload(vocabulary: Data, unicode: Data): Data {
    var start := Align(HEADER + |vocabulary|);
    vocabulary + Zeros(start - HEADER - |vocabulary|) + unicode
  }

  function Header(c: Contract, vocabulary: Data, unicode: Data): (b: Data)
    requires |c.source| == 32 && |c.sha(Payload(vocabulary, unicode))| == 32
    requires |vocabulary| < 0x1000000 && |unicode| < 0x1000000
    ensures |b| == HEADER
  {
    NAME + Pack32(1) + Pack32(HEADER) + Pack64(HEADER + |Payload(vocabulary, unicode)|) + Pack64(HEADER) + Pack64(|vocabulary|)
    + Pack64(Align(HEADER + |vocabulary|)) + Pack64(|unicode|) + c.source + c.sha(Payload(vocabulary, unicode)) + Zeros(8)
  }

  function Write(c: Contract, vocabulary: Data, unicode: Data): Data
    requires |c.source| == 32 && |c.sha(Payload(vocabulary, unicode))| == 32
    requires |vocabulary| < 0x1000000 && |unicode| < 0x1000000
  {
    Header(c, vocabulary, unicode) + Payload(vocabulary, unicode)
  }

  lemma NameHeld(data: Data)
    requires Holds(data, 0, NAME)
    ensures 8 <= |data| && data[..8] == NAME
  {
  }

  /** A written header reads back field by field. */
  lemma HeaderRead(c: Contract, vocabulary: Data, unicode: Data, data: Data)
    requires |c.source| == 32 && |c.sha(Payload(vocabulary, unicode))| == 32
    requires |vocabulary| < 0x1000000 && |unicode| < 0x1000000
    requires Holds(data, 0, Header(c, vocabulary, unicode)) && |data| == HEADER + |Payload(vocabulary, unicode)|
    ensures data[..8] == NAME && U32(data, 8) == 1 && U32(data, 12) == HEADER && U64(data, 16) == |data|
    ensures forall k :: 120 <= k < 128 ==> data[k] == 0
    ensures U64(data, 24) == HEADER && VocabularySize(data) == |vocabulary| && UnicodeStart(data) == Align(HEADER + |vocabulary|)
    ensures U64(data, 48) == |unicode| && data[56..88] == c.source && data[88..120] == c.sha(Payload(vocabulary, unicode))
  {
    hide Pack32, Pack64, U32, U64, Holds, Zeros, Align;
    var payload := Payload(vocabulary, unicode);
    var n, a, h, t, v, s, u, w, x, y, z := NAME, Pack32(1), Pack32(HEADER), Pack64(HEADER + |payload|), Pack64(HEADER), Pack64(|vocabulary|),
      Pack64(Align(HEADER + |vocabulary|)), Pack64(|unicode|), c.source, c.sha(payload), Zeros(8);
    HoldsPart(data, 0, n + a + h + t + v + s + u + w + x + y, z);
    HoldsPart(data, 0, n + a + h + t + v + s + u + w + x, y);
    HoldsPart(data, 0, n + a + h + t + v + s + u + w, x);
    HoldsPart(data, 0, n + a + h + t + v + s + u, w);
    HoldsPart(data, 0, n + a + h + t + v + s, u);
    HoldsPart(data, 0, n + a + h + t + v, s);
    HoldsPart(data, 0, n + a + h + t, v);
    HoldsPart(data, 0, n + a + h, t);
    HoldsPart(data, 0, n + a, h);
    HoldsPart(data, 0, n, a);
    NameHeld(data);
    Holds32(data, 8, 1);
    Holds32(data, 12, HEADER);
    Holds64(data, 16, HEADER + |payload|);
    Holds64(data, 24, HEADER);
    Holds64(data, 32, |vocabulary|);
    Holds64(data, 40, Align(HEADER + |vocabulary|));
    Holds64(data, 48, |unicode|);
    Held(data, 56, x);
    Held(data, 88, y);
    ZerosHeld(data, 120, 8);
  }

  /** Written sections are found again. */
  lemma SectionsFound(c: Contract, vocabulary: Data, unicode: Data)
    requires |c.source| == 32 && |c.sha(Payload(vocabulary, unicode))| == 32
    requires |vocabulary| < 0x1000000 && |unicode| < 0x1000000
    ensures var data := Write(c, vocabulary, unicode);
      && HEADER <= |data| && Placed(data) && VocabularyOf(data) == vocabulary && UnicodeOf(data) == unicode
      && data[56..88] == c.source && c.sha(data[HEADER..]) == data[88..120]
  {
    hide Header, U32, U64, Zeros, Holds;
    var header, payload := Header(c, vocabulary, unicode), Payload(vocabulary, unicode);
    var data := Write(c, vocabulary, unicode);
    assert data[0..|header|] == header && data[HEADER..] == payload;
    StartHolds(data, header);
    HeaderRead(c, vocabulary, unicode, data);
    var start := Align(HEADER + |vocabulary|);
    var gap := start - HEADER - |vocabulary|;
    assert payload[..|vocabulary|] == vocabulary && payload[|vocabulary| + gap..] == unicode;
    assert data[HEADER..HEADER + |vocabulary|] == payload[..|vocabulary|];
    assert data[start..] == payload[|vocabulary| + gap..];
  }

  lemma StartHolds(data: Data, header: Data)
    requires |header| <= |data| && data[0..|header|] == header
    ensures Holds(data, 0, header)
  {
  }

  /** For every acceptable vocabulary and usable Unicode table that match the contract and
      fit the bound, the written package is accepted. */
  lemma WrittenIsAccepted(c: Contract, lines: seq<Data>, tables: UnicodeFile.Tables)
    requires Sound(c) && UnicodeFile.Narrow(tables) && UnicodeFile.Usable(tables)
    requires Vocabulary.Acceptable(lines) && |lines| == Vocabulary.WORDS
    requires c.sha(Vocabulary.Joined(lines)) == c.vocabulary && c.sha(UnicodeFile.Write(tables)) == c.unicode
    requires HEADER + |Payload(Vocabulary.Joined(lines), UnicodeFile.Write(tables))| <= MAX_TOKENIZER
    ensures |Vocabulary.Joined(lines)| < 0x1000000 && |UnicodeFile.Write(tables)| < 0x1000000
    ensures var data := Write(c, Vocabulary.Joined(lines), UnicodeFile.Write(tables));
      Accepts(c, data) && VocabularyOf(data) == Vocabulary.Joined(lines) && UnicodeOf(data) == UnicodeFile.Write(tables)
  {
    hide Vocabulary.Joined, UnicodeFile.Write, UnicodeFile.Accepts, UnicodeFile.Usable, Vocabulary.Acceptable, Placed, Header;
    var vocabulary, unicode := Vocabulary.Joined(lines), UnicodeFile.Write(tables);
    PayloadSize(vocabulary, unicode);
    SectionsFound(c, vocabulary, unicode);
    UnicodeFile.WrittenIsRead(tables);
    assert Splits(vocabulary, lines);
  }

  lemma PayloadSize(vocabulary: Data, unicode: Data)
    ensures |vocabulary| + |unicode| <= |Payload(vocabulary, unicode)|
  {
  }

  /** Write, then load: the very lines and the very tables. */
  method RoundTrip(c: Contract, lines: seq<Data>, tables: UnicodeFile.Tables) returns (ok: bool, read: seq<Data>, unicode: Data)
    requires Sound(c) && UnicodeFile.Narrow(tables) && UnicodeFile.Usable(tables)
    requires Vocabulary.Acceptable(lines) && |lines| == Vocabulary.WORDS
    requires c.sha(Vocabulary.Joined(lines)) == c.vocabulary && c.sha(UnicodeFile.Write(tables)) == c.unicode
    requires HEADER + |Payload(Vocabulary.Joined(lines), UnicodeFile.Write(tables))| <= MAX_TOKENIZER
    ensures ok && read == lines
    ensures UnicodeFile.HEADER <= |unicode| && UnicodeFile.Size(UnicodeFile.ShapeAt(unicode)) == |unicode| && UnicodeFile.TablesAt(unicode) == tables
  {
    hide Vocabulary.Joined, UnicodeFile.Write, UnicodeFile.Accepts, UnicodeFile.Usable, Vocabulary.Acceptable, Accepts, Vocabulary.Table, Header, Splits, Placed, Payload, UnicodeFile.Narrow;
    WrittenIsAccepted(c, lines, tables);
    var data := Write(c, Vocabulary.Joined(lines), UnicodeFile.Write(tables));
    var slots: seq<nat>;
    ghost var distance: seq<nat>;
    ok, read, slots, distance := Load(c, data);
    AcceptedIsPlaced(c, data);
    SameRead(lines, read);
    unicode := UnicodeOf(data);
    UnicodeFile.WrittenIsRead(tables);
  }

  /** Acceptable lines are determined by their text. */
  lemma SameRead(lines: seq<Data>, read: seq<Data>)
    requires Vocabulary.Acceptable(lines) && |lines| == Vocabulary.WORDS && Splits(Vocabulary.Joined(lines), read)
    ensures read == lines
  {
    hide Vocabulary.Joined, Vocabulary.Acceptable;
    Vocabulary.SameLines(lines, read, Vocabulary.WORDS);
    assert read[..Vocabulary.WORDS] == read && lines[..Vocabulary.WORDS] == lines;
  }

  lemma AcceptedIsPlaced(c: Contract, data: Data)
    requires Accepts(c, data)
    ensures HEADER <= |data| && Placed(data)
  {
  }

  // ----- the same tables inside the model package -----

  /** A section of an accepted model package. */
  ghost function SectionOf(c: Contract, data: Data, i: nat): Data
    requires i < 4 && ModelFile.Accepts(c, data)
  {
    FourSections(c, data);
    data[SectionAt(data, i).offset..End(SectionAt(data, i))]
  }

  /** The whole of qx_model_load: layout and digests, then vocabulary, then Unicode table. */
  method OpenModel(c: Contract, data: Data) returns (status: Status, lines: seq<Data>, slots: seq<nat>, ghost distance: seq<nat>)
    ensures status.Loaded? <==>
      ModelFile.Accepts(c, data) && (exists ls :: Splits(SectionOf(c, data, 2), ls)) && UnicodeFile.Accepts(SectionOf(c, data, 3))
    ensures status.Loaded? ==> Splits(SectionOf(c, data, 2), lines) && Vocabulary.Table(lines, slots, distance)
  {
    hide ModelFile.Accepts, Vocabulary.Joined, Vocabulary.Acceptable, Vocabulary.Table, UnicodeFile.Accepts, SectionAt, OffsetAt;
    lines, slots, distance := [], [], [];
    status := ModelFile.Load(c, data);
    if !status.Loaded? {
      return;
    }
    SectionsInside(c, data);
    var words, table := status.sections[2], status.sections[3];
    assert SectionOf(c, data, 2) == data[words.offset..End(words)];
    assert SectionOf(c, data, 3) == data[table.offset..End(table)];
    var vocabulary: bool;
    vocabulary, lines, slots, distance := Vocabulary.Load(data[words.offset..End(words)]);
    if !vocabulary {
      forall ls ensures !Splits(data[words.offset..End(words)], ls) {
        Vocabulary.AcceptableIs(ls);
      }
      status := Format;
      return;
    }
    assert Splits(data[words.offset..End(words)], lines);
    var unicode := UnicodeFile.Init(data[table.offset..End(table)]);
    if !unicode {
      status := Format;
    }
  }

  lemma SectionsInside(c: Contract, data: Data)
    requires ModelFile.Accepts(c, data)
    ensures TABLES_END <= |data| && forall i :: 0 <= i < 4 ==> End(SectionAt(data, i)) <= |data|
  {
    FourSections(c, data);
  }

  // ----- nothing else is accepted -----

  ghost predicate IsVocabulary(data: Data) { exists lines :: Splits(data, lines) }

  ghost predicate IsTables(data: Data) { exists tables :: Packs(data, tables) }

  ghost predicate Packs(data: Data, tables: UnicodeFile.Tables) {
    UnicodeFile.Narrow(tables) && UnicodeFile.Usable(tables) && data == UnicodeFile.Write(tables)
  }

  /** A header that its sections' places and content determine, a vocabulary of `size` bytes
      behind it, and Unicode tables, as they are written, from `start` to the end. */
  ghost predicate Tells(c: Contract, data: Data, size: nat, start: nat) {
    && 128 + size <= start <= |data| < TWO32 && start % 64 == 0
    && data[..56] == NAME + Pack32(1) + Pack32(128) + Pack64(|data|) + Pack64(128) + Pack64(size) + Pack64(start) + Pack64(|data| - start)
    && data[56..128] == c.source + c.sha(data[128..]) + Zeros(8)
    && c.sha(data[128..128 + size]) == c.vocabulary && c.sha(data[start..]) == c.unicode
    && IsVocabulary(data[128..128 + size]) && IsTables(data[start..])
  }

  /** What is accepted is such a package. */
  lemma AcceptedTells(c: Contract, data: Data)
    requires Accepts(c, data) && |c.source| == 32 && |c.sha(data[128..])| == 32
    ensures Tells(c, data, VocabularySize(data), UnicodeStart(data))
  {
    hide U32, U64, Pack32, Pack64, UnicodeFile.Accepts, Vocabulary.Joined, Vocabulary.Acceptable, Packs;
    HeaderTells(c, data);
    TablesTell(UnicodeOf(data));
    var lines :| Splits(VocabularyOf(data), lines);
    assert Splits(data[128..128 + VocabularySize(data)], lines);
  }

  lemma TablesTell(data: Data)
    requires UnicodeFile.Accepts(data)
    ensures IsTables(data)
  {
    hide UnicodeFile.Narrow, UnicodeFile.Usable, UnicodeFile.Write, UnicodeFile.TablesAt;
    UnicodeFile.AcceptedIsWritten(data);
    assert Packs(data, UnicodeFile.TablesAt(data));
  }

  lemma HeaderTells(c: Contract, data: Data)
    requires HEADER <= |data| < TWO32 && Placed(data) && Trusted(c, data) && |c.source| == 32 && |c.sha(data[128..])| == 32
    ensures data[..56] == NAME + Pack32(1) + Pack32(128) + Pack64(|data|) + Pack64(128) + Pack64(VocabularySize(data))
                          + Pack64(UnicodeStart(data)) + Pack64(|data| - UnicodeStart(data))
    ensures data[56..128] == c.source + c.sha(data[128..]) + Zeros(8)
  {
    hide U32, U64, Pack32;
    Repack32(data, 8);
    Repack32(data, 12);
    Repack64(data, 16);
    Repack64(data, 24);
    Repack64(data, 32);
    Repack64(data, 40);
    Repack64(data, 48);
    assert data[120..128] == Zeros(8);
    Joins(data, 0, 8, 12);
    Joins(data, 0, 12, 16);
    Joins(data, 0, 16, 24);
    Joins(data, 0, 24, 32);
    Joins(data, 0, 32, 40);
    Joins(data, 0, 40, 48);
    Joins(data, 0, 48, 56);
    Joins(data, 56, 88, 120);
    Joins(data, 56, 120, 128);
    assert data[..8] == data[0..8] && data[..56] == data[0..56];
  }
}
