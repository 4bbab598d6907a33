/** The model package: written by `compile_model` of
    packages/quixi-embed/compiler/compile_model.py, checked and opened by `qx_model_load` of
    packages/quixi-embed/native/model.c. */
module ModelFile {
  import opened Common
  import opened Utf8
  import opened Bytes

  type Data = seq<Byte>

  const MAX_BYTES := 134217728
  const HEADER := 128
  const SECTION := 32
  const RECORD := 96
  const TABLES_END := 256
  const MAGIC: Data := [81, 88, 65, 82, 67, 84, 73, 67]

  /** One tensor as the contract fixes it. */
  datatype Tensor = Tensor(name: Data, dim0: nat, dim1: nat, rank: nat, bytes: nat, hash: Data)

  /** What writer and loader agree on; `sha` digests to 32 bytes. */
  datatype Contract = Contract(tensors: seq<Tensor>, words: nat, source: Data, vocabulary: Data, unicode: Data, sha: Data -> Data)

  ghost predicate Sound(c: Contract) {
    && (forall d :: |c.sha(d)| == 32) && |c.source| == 32
    && |c.tensors| < 0x10000 && c.words < TWO32
    && forall t :: t in c.tensors ==> |t.name| < 64 && t.dim0 < TWO32 && t.dim1 < TWO32 && t.rank < TWO32
  }

  datatype Section = Section(offset: nat, size: nat)

  function End(s: Section): nat { s.offset + s.size }

  // ----- the loader's checks -----

  function SectionAt(data: Data, i: nat): Section
    requires i < 4 && TABLES_END <= |data|
  {
    Section(U64(data, HEADER + SECTION * i + 8), U64(data, HEADER + SECTION * i + 16))
  }

  predicate HeaderOk(c: Contract, data: Data)
    requires TABLES_END <= |data|
  {
    && data[..8] == MAGIC
    && U32(data, 8) == 1 && U32(data, 12) == HEADER && U64(data, 16) == |data| && U32(data, 24) == 4 && U32(data, 28) == 1
    && U64(data, 96) == HEADER && U64(data, 104) == 4 * SECTION
    && (forall k :: 112 <= k < 128 ==> data[k] == 0)
    && data[32..64] == c.source && c.sha(data[HEADER..]) == data[64..96]
  }

  function CountOf(c: Contract, i: nat): nat { if i < 2 then |c.tensors| else if i == 2 then c.words else 1 }

  function Before(data: Data, i: nat): nat
    requires i < 4 && TABLES_END <= |data|
  {
    if i == 0 then TABLES_END else End(SectionAt(data, i - 1))
  }

  predicate SectionOk(c: Contract, data: Data, i: nat)
    requires i < 4 && TABLES_END <= |data|
  {
    var s := SectionAt(data, i);
    && U32(data, HEADER + SECTION * i) == i + 1 && U32(data, HEADER + SECTION * i + 4) == 0
    && s.offset % 64 == 0 && Before(data, i) <= s.offset && End(s) <= |data|
    && U64(data, HEADER + SECTION * i + 24) == CountOf(c, i)
  }

  predicate SectionsOk(c: Contract, data: Data)
    requires TABLES_END <= |data|
  {
    && (forall i :: 0 <= i < 4 ==> SectionOk(c, data, i))
    && End(SectionAt(data, 3)) == |data|
    && SectionAt(data, 0).size == |c.tensors| * RECORD
  }

  function OffsetAt(data: Data, table: nat, i: nat): nat
    requires table + RECORD * i + RECORD <= |data|
  {
    U64(data, table + RECORD * i + 64)
  }

  /** Where the tensor before the i-th ends, or the section begins. */
  function TensorEnd(c: Contract, data: Data, table: nat, i: nat, first: nat): nat
    requires i <= |c.tensors| && table + RECORD * |c.tensors| <= |data|
  {
    if i == 0 then first else OffsetAt(data, table, i - 1) + c.tensors[i - 1].bytes
  }

  predicate RecordOk(t: Tensor, data: Data, at: nat)
    requires at + RECORD <= |data|
  {
    && |t.name| <= 64 && data[at..at + |t.name|] == t.name && (forall k :: at + |t.name| <= k < at + 64 ==> data[k] == 0)
    && U64(data, at + 72) == t.bytes
    && U32(data, at + 80) == t.dim0 && U32(data, at + 84) == t.dim1 && U32(data, at + 88) == t.rank && U32(data, at + 92) == 1
  }

  predicate TensorPlaced(c: Contract, data: Data, table: nat, weights: Section, i: nat)
    requires i < |c.tensors| && table + RECORD * |c.tensors| <= |data|
  {
    var t, offset := c.tensors[i], OffsetAt(data, table, i);
    && RecordOk(t, data, table + RECORD * i)
    && offset % 64 == 0 && TensorEnd(c, data, table, i, weights.offset) <= offset && weights.offset <= offset
    && offset + t.bytes <= End(weights)
  }

  predicate TensorOk(c: Contract, data: Data, table: nat, weights: Section, i: nat)
    requires i < |c.tensors| && table + RECORD * |c.tensors| <= |data| && End(weights) <= |data|
  {
    var t, offset := c.tensors[i], OffsetAt(data, table, i);
    TensorPlaced(c, data, table, weights, i) && c.sha(data[offset..offset + t.bytes]) == t.hash
  }

  predicate Accepts(c: Contract, data: Data) {
    TABLES_END <= |data| <= MAX_BYTES && HeaderOk(c, data) && SectionsOk(c, data) &&
    (var table, weights, vocabulary, unicode := SectionAt(data, 0).offset, SectionAt(data, 1), SectionAt(data, 2), SectionAt(data, 3);
     FourSections(c, data);
     && (forall i :: 0 <= i < |c.tensors| ==> TensorOk(c, data, table, weights, i))
     && TensorEnd(c, data, table, |c.tensors|, weights.offset) == End(weights)
     && c.sha(data[vocabulary.offset..End(vocabulary)]) == c.vocabulary
     && c.sha(data[unicode.offset..End(unicode)]) == c.unicode)
  }

  lemma FourSections(c: Contract, data: Data)
    requires TABLES_END <= |data| && SectionsOk(c, data)
    ensures forall i :: 0 <= i < 4 ==> End(SectionAt(data, i)) <= |data|
    ensures SectionAt(data, 0).offset + RECORD * |c.tensors| <= |data|
    ensures TABLES_END <= SectionAt(data, 0).offset
    ensures forall i :: 0 <= i < 3 ==> End(SectionAt(data, i)) <= SectionAt(data, i + 1).offset
  {
    hide U64, U32;
    assert SectionOk(c, data, 0) && SectionOk(c, data, 1) && SectionOk(c, data, 2) && SectionOk(c, data, 3);
  }

  datatype Status = Loaded(sections: seq<Section>, offsets: seq<nat>) | Limit | Format | Version | Integrity

  method Load(c: Contract, data: Data) returns (status: Status)
    ensures status.Loaded? <==> Accepts(c, data)
    ensures status.Loaded? ==> |status.sections| == 4 && forall i :: 0 <= i < 4 ==> status.sections[i] == SectionAt(data, i)
    ensures status.Loaded? ==> SectionAt(data, 0).offset + RECORD * |c.tensors| <= |data| && |status.offsets| == |c.tensors|
    ensures status.Loaded? ==> forall i :: 0 <= i < |c.tensors| ==> status.offsets[i] == OffsetAt(data, SectionAt(data, 0).offset, i)
  {
    hide U32, U64, SectionOk, TensorOk, HeaderOk, RecordOk;
    if |data| > MAX_BYTES {
      return Limit;
    }
    if |data| < TABLES_END {
      return Format;
    }
    var header := CheckHeader(c, data);
    if header.Some? {
      return header.value;
    }
    var sections := [];
    for i := 0 to 4
      invariant |sections| == i && forall j :: 0 <= j < i ==> SectionOk(c, data, j) && sections[j] == SectionAt(data, j)
    {
      if !SectionOk(c, data, i) {
        return Format;
      }
      sections := sections + [SectionAt(data, i)];
    }
    if End(sections[3]) != |data| || sections[0].size != |c.tensors| * RECORD {
      return Format;
    }
    FourSections(c, data);
    var offsets, n := [], |c.tensors|;
    for i := 0 to n
      invariant |offsets| == i
      invariant forall j :: 0 <= j < i ==> TensorOk(c, data, sections[0].offset, sections[1], j) && offsets[j] == OffsetAt(data, sections[0].offset, j)
    {
      if !TensorOk(c, data, sections[0].offset, sections[1], i) {
        return if TensorPlaced(c, data, sections[0].offset, sections[1], i) then Integrity else Format;
      }
      offsets := offsets + [OffsetAt(data, sections[0].offset, i)];
    }
    if TensorEnd(c, data, sections[0].offset, n, sections[1].offset) != End(sections[1]) {
      return Format;
    }
    if c.sha(data[sections[2].offset..End(sections[2])]) != c.vocabulary || c.sha(data[sections[3].offset..End(sections[3])]) != c.unicode {
      return Integrity;
    }
    return Loaded(sections, offsets);
  }

  method CheckHeader(c: Contract, data: Data) returns (refusal: Option<Status>)
    requires TABLES_END <= |data|
    ensures refusal.None? <==> HeaderOk(c, data)
    ensures refusal.Some? ==> !refusal.value.Loaded?
    ensures data[..8] == MAGIC && U32(data, 8) != 1 ==> refusal == Some(Version)
  {
    hide U32, U64;
    if data[..8] != MAGIC {
      return Some(Format);
    }
    if U32(data, 8) != 1 {
      return Some(Version);
    }
    if U32(data, 12) != HEADER || U64(data, 16) != |data| || U32(data, 24) != 4 || U32(data, 28) != 1
       || U64(data, 96) != HEADER || U64(data, 104) != 4 * SECTION {
      return Some(Format);
    }
    for k := 112 to 128
      invariant forall j :: 112 <= j < k ==> data[j] == 0
    {
      if data[k] != 0 {
        return Some(Format);
      }
    }
    if data[32..64] != c.source || c.sha(data[HEADER..]) != data[64..96] {
      return Some(Integrity);
    }
    return None;
  }

  // ----- what acceptance guarantees -----

  /** Two contents of one digest. */
  predicate Collision(f: Data -> Data, a: Data, b: Data) { a != b && f(a) == f(b) }

  lemma {:induction false} TensorsRise(c: Contract, data: Data, table: nat, weights: Section, i: nat, j: nat)
    requires i < j < |c.tensors| && table + RECORD * |c.tensors| <= |data| && End(weights) <= |data|
    requires forall k :: 0 <= k < |c.tensors| ==> TensorOk(c, data, table, weights, k)
    ensures OffsetAt(data, table, i) + c.tensors[i].bytes <= OffsetAt(data, table, j)
    decreases j
  {
    hide U32, U64, RecordOk;
    assert TensorOk(c, data, table, weights, j);
    if i < j - 1 {
      TensorsRise(c, data, table, weights, i, j - 1);
    }
  }

  /** In every accepted package the tensors lie inside the weights section, 64-aligned and
      pairwise disjoint, in contract order; and each holds the contract's very bytes, or else
      bytes that collide with them. */
  lemma AcceptedTensors(c: Contract, data: Data, i: nat)
    requires Accepts(c, data) && i < |c.tensors|
    ensures SectionAt(data, 0).offset + RECORD * |c.tensors| <= |data|
    ensures var table, weights := SectionAt(data, 0).offset, SectionAt(data, 1);
      var offset := OffsetAt(data, table, i);
      && weights.offset <= offset && offset + c.tensors[i].bytes <= End(weights) <= |data| && offset % 64 == 0
      && (forall j :: i < j < |c.tensors| ==> offset + c.tensors[i].bytes <= OffsetAt(data, table, j))
      && (forall t: Data :: c.sha(t) == c.tensors[i].hash ==>
            var held := data[offset..offset + c.tensors[i].bytes];
            held == t || Collision(c.sha, held, t))
  {
    hide U32, U64, HeaderOk, RecordOk, SectionOk;
    FourSections(c, data);
    var table, weights := SectionAt(data, 0).offset, SectionAt(data, 1);
    assert TensorOk(c, data, table, weights, i);
    forall j | i < j < |c.tensors| ensures OffsetAt(data, table, i) + c.tensors[i].bytes <= OffsetAt(data, table, j) {
      TensorsRise(c, data, table, weights, i, j);
    }
  }

  // ----- the writer -----

  function Align(value: nat): (r: nat)
    ensures r % 64 == 0 && value <= r < value + 64
    ensures value % 64 == 0 ==> r == value
  {
    (value + 63) / 64 * 64
  }

  /** Where the running cursor stands before the i-th tensor is aligned. */
  function Cursor(c: Contract, start: nat, i: nat): (r: nat)
    requires i <= |c.tensors|
    ensures start <= r
    decreases i
  {
    if i == 0 then start else Align(Cursor(c, start, i - 1)) + c.tensors[i - 1].bytes
  }

  function Place(c: Contract, i: nat): nat
    requires i < |c.tensors|
  {
    Align(Cursor(c, WeightsOffset(c), i))
  }

  function TableOffset(): nat { Align(HEADER + 4 * SECTION) }

  function WeightsOffset(c: Contract): nat { Align(TableOffset() + RECORD * |c.tensors|) }

  function WeightsEnd(c: Contract): nat { Cursor(c, WeightsOffset(c), |c.tensors|) }

  /** Source material: tensors, vocabulary and Unicode table matching the contract. */
  datatype Material = Material(tensors: seq<Data>, vocabulary: Data, unicode: Data)

  ghost predicate Matches(c: Contract, m: Material) {
    && |m.tensors| == |c.tensors|
    && (forall i :: 0 <= i < |m.tensors| ==> |m.tensors[i]| == c.tensors[i].bytes && c.sha(m.tensors[i]) == c.tensors[i].hash)
    && c.sha(m.vocabulary) == c.vocabulary && c.sha(m.unicode) == c.unicode
  }

  function VocabularyOffset(c: Contract): nat { Align(WeightsEnd(c)) }

  function UnicodeOffset(c: Contract, m: Material): nat { Align(VocabularyOffset(c) + |m.vocabulary|) }

  function Total(c: Contract, m: Material): nat { UnicodeOffset(c, m) + |m.unicode| }

  function Zeros(n: nat): (z: Data)
    ensures |z| == n && forall k :: 0 <= k < n ==> z[k] == 0
  {
    seq(n, k => 0)
  }

  function SectionBytes(id: nat, offset: nat, size: nat, count: nat): (b: Data)
    requires id < TWO32 && offset < TWO32 && size < TWO32 && count < TWO32
    ensures |b| == SECTION
  {
    Pack32(id) + Pack32(0) + Pack64(offset) + Pack64(size) + Pack64(count)
  }

  function RecordBytes(t: Tensor, offset: nat): (b: Data)
    requires |t.name| < 64 && offset < TWO32 && t.bytes < TWO32 && t.dim0 < TWO32 && t.dim1 < TWO32 && t.rank < TWO32
    ensures |b| == RECORD
  {
    (t.name + Zeros(64 - |t.name|)) + Pack64(offset) + Pack64(t.bytes) + Pack32(t.dim0) + Pack32(t.dim1) + Pack32(t.rank) + Pack32(1)
  }

  function HeaderBytes(c: Contract, total: nat, digest: Data): (b: Data)
    requires total < TWO32 && |c.source| == 32 && |digest| == 32
    ensures |b| == HEADER
  {
    MAGIC + Pack32(1) + Pack32(HEADER) + Pack64(total) + Pack32(4) + Pack32(1) + c.source + digest
    + Pack64(HEADER) + Pack64(4 * SECTION) + Zeros(16)
  }

  // ----- bytes written at offsets -----

  ghost predicate Holds(data: Data, at: nat, part: Data) { at + |part| <= |data| && data[at..at + |part|] == part }

  /** What `seek` and `write` leave behind. */
  function Patch(data: Data, at: nat, part: Data): (r: Data)
    requires at + |part| <= |data|
    ensures |r| == |data|
  {
    data[..at] + part + data[at + |part|..]
  }

  lemma Patched(data: Data, at: nat, part: Data)
    requires at + |part| <= |data|
    ensures Holds(Patch(data, at, part), at, part)
  {
    var r := Patch(data, at, part);
    assert forall k :: 0 <= k < |part| ==> r[at + k] == part[k];
  }

  lemma PatchSides(data: Data, at: nat, part: Data)
    requires at + |part| <= |data|
    ensures Patch(data, at, part)[0..at] == data[0..at]
    ensures Patch(data, at, part)[at + |part|..|data|] == data[at + |part|..|data|]
  {
    var r, rest := Patch(data, at, part), at + |part|;
    forall k | 0 <= k < at ensures r[k] == data[k] {
    }
    forall k | rest <= k < |data| ensures r[k] == data[k] {
      assert data[rest..][k - rest] == data[k];
    }
  }

  lemma PatchKeeps(data: Data, at: nat, part: Data, x: nat, other: Data)
    requires at + |part| <= |data| && Holds(data, x, other) && (x + |other| <= at || at + |part| <= x)
    ensures Holds(Patch(data, at, part), x, other)
  {
    var r, rest := Patch(data, at, part), at + |part|;
    PatchSides(data, at, part);
    hide Patch;
    if x + |other| <= at {
      Slice(r, 0, at, x, x + |other|);
      Slice(data, 0, at, x, x + |other|);
    } else {
      Slice(r, rest, |data|, x - rest, x - rest + |other|);
      Slice(data, rest, |data|, x - rest, x - rest + |other|);
    }
  }

  lemma HoldsPart(data: Data, at: nat, a: Data, b: Data)
    requires Holds(data, at, a + b)
    ensures Holds(data, at, a) && Holds(data, at + |a|, b)
  {
    assert (a + b)[0..|a|] == a && (a + b)[|a|..|a| + |b|] == b;
    Slice(data, at, at + |a + b|, 0, |a|);
    Slice(data, at, at + |a + b|, |a|, |a| + |b|);
  }

  lemma Holds32(data: Data, at: nat, v: nat)
    requires v < TWO32 && Holds(data, at, Pack32(v))
    ensures at + 4 <= |data| && U32(data, at) == v
  {
    hide Pack32, U32;
    Read32(data, at, v);
  }

  lemma Holds64(data: Data, at: nat, v: nat)
    requires v < TWO32 && Holds(data, at, Pack64(v))
    ensures at + 8 <= |data| && U64(data, at) == v
  {
    hide Pack64, U64;
    Read64(data, at, v);
  }

  /** A written section entry reads back. */
  lemma SectionReads(data: Data, at: nat, id: nat, offset: nat, size: nat, count: nat)
    requires id < TWO32 && offset < TWO32 && size < TWO32 && count < TWO32
    requires Holds(data, at, SectionBytes(id, offset, size, count))
    ensures at + SECTION <= |data| && U32(data, at) == id && U32(data, at + 4) == 0
    ensures U64(data, at + 8) == offset && U64(data, at + 16) == size && U64(data, at + 24) == count
  {
    hide Pack32, Pack64, U32, U64, Holds;
    var a, b, d, e, f := Pack32(id), Pack32(0), Pack64(offset), Pack64(size), Pack64(count);
    HoldsPart(data, at, a + b + d + e, f);
    HoldsPart(data, at, a + b + d, e);
    HoldsPart(data, at, a + b, d);
    HoldsPart(data, at, a, b);
    Holds32(data, at, id);
    Holds32(data, at + 4, 0);
    Holds64(data, at + 8, offset);
    Holds64(data, at + 16, size);
    Holds64(data, at + 24, count);
    SectionFits(data, at, id, offset, size, count);
  }

  lemma SectionFits(data: Data, at: nat, id: nat, offset: nat, size: nat, count: nat)
    requires id < TWO32 && offset < TWO32 && size < TWO32 && count < TWO32
    requires Holds(data, at, SectionBytes(id, offset, size, count))
    ensures at + SECTION <= |data|
  {
  }

  lemma ZerosHeld(data: Data, at: nat, n: nat)
    requires Holds(data, at, Zeros(n))
    ensures at + n <= |data| && forall k :: at <= k < at + n ==> data[k] == 0
  {
    var tail := data[at..at + n];
    forall k | at <= k < at + n ensures data[k] == 0 {
      assert tail[k - at] == data[k];
    }
  }

  lemma NamePart(data: Data, at: nat, name: Data)
    requires |name| < 64 && Holds(data, at, name + Zeros(64 - |name|))
    ensures at + 64 <= |data| && data[at..at + |name|] == name && forall k :: at + |name| <= k < at + 64 ==> data[k] == 0
  {
    var zeros := Zeros(64 - |name|);
    HoldsPart(data, at, name, zeros);
    ZerosHeld(data, at + |name|, 64 - |name|);
  }

  /** A written tensor record passes the record checks and gives its offset back. */
  lemma RecordReads(data: Data, at: nat, t: Tensor, offset: nat)
    requires |t.name| < 64 && offset < TWO32 && t.bytes < TWO32 && t.dim0 < TWO32 && t.dim1 < TWO32 && t.rank < TWO32
    requires Holds(data, at, RecordBytes(t, offset))
    ensures at + RECORD <= |data| && RecordOk(t, data, at) && U64(data, at + 64) == offset
  {
    hide Pack32, Pack64, U32, U64, Holds, Zeros;
    var n, a, b, d, e, f, g := t.name + Zeros(64 - |t.name|), Pack64(offset), Pack64(t.bytes), Pack32(t.dim0), Pack32(t.dim1), Pack32(t.rank), Pack32(1);
    HoldsPart(data, at, n + a + b + d + e + f, g);
    HoldsPart(data, at, n + a + b + d + e, f);
    HoldsPart(data, at, n + a + b + d, e);
    HoldsPart(data, at, n + a + b, d);
    HoldsPart(data, at, n + a, b);
    HoldsPart(data, at, n, a);
    NamePart(data, at, t.name);
    Holds64(data, at + 64, offset);
    Holds64(data, at + 72, t.bytes);
    Holds32(data, at + 80, t.dim0);
    Holds32(data, at + 84, t.dim1);
    Holds32(data, at + 88, t.rank);
    Holds32(data, at + 92, 1);
  }

  lemma MagicHeld(data: Data)
    requires Holds(data, 0, MAGIC)
    ensures 8 <= |data| && data[..8] == MAGIC
  {
  }

  /** A written header passes the header checks. */
  lemma HeaderReads(c: Contract, data: Data)
    requires Sound(c) && TABLES_END <= |data| < TWO32
    requires Holds(data, 0, HeaderBytes(c, |data|, c.sha(data[HEADER..])))
    ensures HeaderOk(c, data)
  {
    hide Pack32, Pack64, U32, U64, Holds, Zeros;
    var digest := c.sha(data[HEADER..]);
    var m, a, b, d, e, f, g, h, z := MAGIC, Pack32(1), Pack32(HEADER), Pack64(|data|), Pack32(4), c.source, digest, Pack64(HEADER), Zeros(16);
    var h2 := Pack64(4 * SECTION);
    HoldsPart(data, 0, m + a + b + d + e + a + f + g + h + h2, z);
    HoldsPart(data, 0, m + a + b + d + e + a + f + g + h, h2);
    HoldsPart(data, 0, m + a + b + d + e + a + f + g, h);
    HoldsPart(data, 0, m + a + b + d + e + a + f, g);
    HoldsPart(data, 0, m + a + b + d + e + a, f);
    HoldsPart(data, 0, m + a + b + d + e, a);
    HoldsPart(data, 0, m + a + b + d, e);
    HoldsPart(data, 0, m + a + b, d);
    HoldsPart(data, 0, m + a, b);
    HoldsPart(data, 0, m, a);
    MagicHeld(data);
    Holds32(data, 8, 1);
    Holds32(data, 12, HEADER);
    Holds64(data, 16, |data|);
    Holds32(data, 24, 4);
    Holds32(data, 28, 1);
    Held(data, 32, f);
    Held(data, 64, g);
    Holds64(data, 96, HEADER);
    Holds64(data, 104, 4 * SECTION);
    ZerosHeld(data, 112, 16);
  }

  lemma Held(data: Data, at: nat, part: Data)
    requires Holds(data, at, part)
    ensures at + |part| <= |data| && data[at..at + |part|] == part
  {
  }

  // ----- the whole package -----

  function Records(c: Contract, n: nat): (b: Data)
    requires n <= |c.tensors| && Writable(c)
    ensures |b| == RECORD * n
    decreases n
  {
    if n == 0 then []
    else
      FitsBelow(c, n - 1);
      Records(c, n - 1) + RecordBytes(c.tensors[n - 1], Place(c, n - 1))
  }

  /** Names, shapes and sizes fit the format's fields. */
  predicate Writable(c: Contract) {
    && WeightsEnd(c) <= MAX_BYTES
    && forall t :: t in c.tensors ==> |t.name| < 64 && t.dim0 < TWO32 && t.dim1 < TWO32 && t.rank < TWO32
  }

  lemma {:induction false} CursorRises(c: Contract, start: nat, i: nat, j: nat)
    requires i <= j <= |c.tensors|
    ensures Cursor(c, start, i) <= Cursor(c, start, j)
    ensures i < j ==> Align(Cursor(c, start, i)) + c.tensors[i].bytes <= Cursor(c, start, j)
    decreases j
  {
    if i < j {
      CursorRises(c, start, i, j - 1);
    }
  }

  lemma FitsBelow(c: Contract, i: nat)
    requires i < |c.tensors| && Writable(c)
    ensures Place(c, i) < TWO32 && c.tensors[i].bytes < TWO32 && c.tensors[i] in c.tensors
    ensures WeightsOffset(c) <= Place(c, i) && Place(c, i) + c.tensors[i].bytes <= WeightsEnd(c)
    ensures Place(c, i) + c.tensors[i].bytes == Cursor(c, WeightsOffset(c), i + 1) && Place(c, i) % 64 == 0
  {
    CursorRises(c, WeightsOffset(c), i, |c.tensors|);
  }

  function SectionTable(c: Contract, m: Material): (b: Data)
    requires Writable(c) && Total(c, m) <= MAX_BYTES && |c.tensors| < 0x10000 && c.words < TWO32
    ensures |b| == 4 * SECTION
  {
    SectionBytes(1, TableOffset(), |c.tensors| * RECORD, |c.tensors|)
    + SectionBytes(2, WeightsOffset(c), WeightsEnd(c) - WeightsOffset(c), |c.tensors|)
    + SectionBytes(3, VocabularyOffset(c), |m.vocabulary|, c.words)
    + SectionBytes(4, UnicodeOffset(c, m), |m.unicode|, 1)
  }

  ghost predicate Emittable(c: Contract, m: Material) {
    && Sound(c) && Writable(c) && Matches(c, m) && Total(c, m) <= MAX_BYTES
  }

  /** The file after the first `n` tensors are written. */
  ghost function WithTensors(c: Contract, m: Material, data: Data, n: nat): (r: Data)
    requires Emittable(c, m) && n <= |c.tensors| && |data| == Total(c, m)
    ensures |r| == |data|
    decreases n
  {
    if n == 0 then data
    else
      FitsBelow(c, n - 1);
      Patch(WithTensors(c, m, data, n - 1), Place(c, n - 1), m.tensors[n - 1])
  }

  /** The file before its header. */
  ghost function Body(c: Contract, m: Material): (r: Data)
    requires Emittable(c, m)
    ensures |r| == Total(c, m)
  {
    var tables := Patch(Patch(Zeros(Total(c, m)), HEADER, SectionTable(c, m)), TableOffset(), Records(c, |c.tensors|));
    var weights := WithTensors(c, m, tables, |c.tensors|);
    Patch(Patch(weights, VocabularyOffset(c), m.vocabulary), UnicodeOffset(c, m), m.unicode)
  }

  ghost function Package(c: Contract, m: Material): (r: Data)
    requires Emittable(c, m)
    ensures |r| == Total(c, m)
  {
    Patch(Body(c, m), 0, HeaderBytes(c, Total(c, m), c.sha(Body(c, m)[HEADER..])))
  }

  // ----- everything is where it should be -----

  /** Tensors are written behind the tables and over nothing else's bytes. */
  lemma {:induction false} TensorsHeld(c: Contract, m: Material, data: Data, n: nat, x: nat, other: Data)
    requires Emittable(c, m) && n <= |c.tensors| && |data| == Total(c, m)
    ensures x + |other| <= WeightsOffset(c) && Holds(data, x, other) ==> Holds(WithTensors(c, m, data, n), x, other)
    ensures forall i :: 0 <= i < n ==> Holds(WithTensors(c, m, data, n), Place(c, i), m.tensors[i])
    decreases n
  {
    hide Holds, Patch, Align, Cursor, Sound;
    if n > 0 {
      FitsBelow(c, n - 1);
      TensorsHeld(c, m, data, n - 1, x, other);
      var before := WithTensors(c, m, data, n - 1);
      Patched(before, Place(c, n - 1), m.tensors[n - 1]);
      if x + |other| <= WeightsOffset(c) && Holds(data, x, other) {
        PatchKeeps(before, Place(c, n - 1), m.tensors[n - 1], x, other);
      }
      forall i | 0 <= i < n - 1 ensures Holds(WithTensors(c, m, data, n), Place(c, i), m.tensors[i]) {
        PlacesRise(c, i, n - 1);
        PatchKeeps(before, Place(c, n - 1), m.tensors[n - 1], Place(c, i), m.tensors[i]);
      }
    }
  }

  lemma PlacesRise(c: Contract, i: nat, j: nat)
    requires i < j < |c.tensors|
    ensures Place(c, i) + c.tensors[i].bytes <= Place(c, j)
  {
    CursorRises(c, WeightsOffset(c), i, j);
  }

  /** The writes of the package, each intact at the end. */
  lemma PackageHolds(c: Contract, m: Material)
    requires Emittable(c, m)
    ensures var p := Package(c, m);
      && Holds(p, 0, HeaderBytes(c, Total(c, m), c.sha(p[HEADER..])))
      && Holds(p, HEADER, SectionTable(c, m)) && Holds(p, TABLES_END, Records(c, |c.tensors|))
      && Holds(p, VocabularyOffset(c), m.vocabulary) && Holds(p, UnicodeOffset(c, m), m.unicode)
    ensures forall i :: 0 <= i < |c.tensors| ==> Holds(Package(c, m), Place(c, i), m.tensors[i])
  {
    hide Holds, Patch, Cursor, SectionTable, Records, HeaderBytes, WithTensors, Zeros, Writable;
    var n, total := |c.tensors|, Total(c, m);
    var table, records := SectionTable(c, m), Records(c, n);
    var first := Patch(Zeros(total), HEADER, table);
    var tables := Patch(first, TABLES_END, records);
    Patched(Zeros(total), HEADER, table);
    PatchKeeps(first, TABLES_END, records, HEADER, table);
    Patched(first, TABLES_END, records);
    TensorsHeld(c, m, tables, n, HEADER, table);
    TensorsHeld(c, m, tables, n, TABLES_END, records);
    var weights := WithTensors(c, m, tables, n);
    var words := Patch(weights, VocabularyOffset(c), m.vocabulary);
    var body := Patch(words, UnicodeOffset(c, m), m.unicode);
    assert body == Body(c, m);
    var header := HeaderBytes(c, total, c.sha(body[HEADER..]));
    Through(c, m, weights, HEADER, table, header);
    Through(c, m, weights, TABLES_END, records, header);
    Patched(weights, VocabularyOffset(c), m.vocabulary);
    PatchKeeps(words, UnicodeOffset(c, m), m.unicode, VocabularyOffset(c), m.vocabulary);
    PatchKeeps(body, 0, header, VocabularyOffset(c), m.vocabulary);
    Patched(words, UnicodeOffset(c, m), m.unicode);
    PatchKeeps(body, 0, header, UnicodeOffset(c, m), m.unicode);
    Patched(body, 0, header);
    BehindHeader(body, header);
    forall i | 0 <= i < n ensures Holds(Package(c, m), Place(c, i), m.tensors[i]) {
      FitsBelow(c, i);
      Through(c, m, weights, Place(c, i), m.tensors[i], header);
    }
  }

  lemma BehindHeader(body: Data, header: Data)
    requires |header| == HEADER <= |body|
    ensures Patch(body, 0, header)[HEADER..] == body[HEADER..]
  {
  }

  /** What is in place before the vocabulary stays in place. */
  lemma Through(c: Contract, m: Material, weights: Data, x: nat, part: Data, header: Data)
    requires Emittable(c, m) && |weights| == Total(c, m) && |header| == HEADER
    requires Holds(weights, x, part) && HEADER <= x && x + |part| <= WeightsEnd(c)
    ensures Holds(Patch(Patch(Patch(weights, VocabularyOffset(c), m.vocabulary), UnicodeOffset(c, m), m.unicode), 0, header), x, part)
  {
    hide Holds, Patch, Cursor, Sound, Writable, Matches;
    PatchKeeps(weights, VocabularyOffset(c), m.vocabulary, x, part);
    var words := Patch(weights, VocabularyOffset(c), m.vocabulary);
    PatchKeeps(words, UnicodeOffset(c, m), m.unicode, x, part);
    PatchKeeps(Patch(words, UnicodeOffset(c, m), m.unicode), 0, header, x, part);
  }

  // ----- the loader accepts what the writer emits -----

  lemma {:induction false} RecordHeld(c: Contract, data: Data, n: nat, i: nat)
    requires i < n <= |c.tensors| && Writable(c) && Holds(data, TABLES_END, Records(c, n))
    ensures Place(c, i) < TWO32 && c.tensors[i].bytes < TWO32 && c.tensors[i] in c.tensors
    ensures Holds(data, TABLES_END + RECORD * i, RecordBytes(c.tensors[i], Place(c, i)))
    decreases n
  {
    hide Holds, RecordBytes, Place, WeightsEnd;
    FitsBelow(c, n - 1);
    HoldsPart(data, TABLES_END, Records(c, n - 1), RecordBytes(c.tensors[n - 1], Place(c, n - 1)));
    if i < n - 1 {
      RecordHeld(c, data, n - 1, i);
    }
  }

  /** The four sections read back as they were laid out. */
  lemma SectionsRead(c: Contract, m: Material, data: Data)
    requires Emittable(c, m) && |data| == Total(c, m) && Holds(data, HEADER, SectionTable(c, m))
    ensures TABLES_END <= |data| && SectionsOk(c, data)
    ensures SectionAt(data, 0) == Section(TABLES_END, |c.tensors| * RECORD)
    ensures SectionAt(data, 1) == Section(WeightsOffset(c), WeightsEnd(c) - WeightsOffset(c))
    ensures SectionAt(data, 2) == Section(VocabularyOffset(c), |m.vocabulary|)
    ensures SectionAt(data, 3) == Section(UnicodeOffset(c, m), |m.unicode|)
  {
    hide Holds, U32, U64, SectionBytes, Cursor;
    var n := |c.tensors|;
    var a := SectionBytes(1, TableOffset(), n * RECORD, n);
    var b := SectionBytes(2, WeightsOffset(c), WeightsEnd(c) - WeightsOffset(c), n);
    var d := SectionBytes(3, VocabularyOffset(c), |m.vocabulary|, c.words);
    var e := SectionBytes(4, UnicodeOffset(c, m), |m.unicode|, 1);
    HoldsPart(data, HEADER, a + b + d, e);
    HoldsPart(data, HEADER, a + b, d);
    HoldsPart(data, HEADER, a, b);
    SectionReads(data, HEADER, 1, TableOffset(), n * RECORD, n);
    SectionReads(data, HEADER + SECTION, 2, WeightsOffset(c), WeightsEnd(c) - WeightsOffset(c), n);
    SectionReads(data, HEADER + SECTION * 2, 3, VocabularyOffset(c), |m.vocabulary|, c.words);
    SectionReads(data, HEADER + SECTION * 3, 4, UnicodeOffset(c, m), |m.unicode|, 1);
    assert SectionOk(c, data, 0) && SectionOk(c, data, 1) && SectionOk(c, data, 2) && SectionOk(c, data, 3);
  }

  /** Tensor by tensor, the loader finds what the writer placed. */
  lemma TensorReads(c: Contract, m: Material, data: Data, i: nat)
    requires Emittable(c, m) && i < |c.tensors| && |data| == Total(c, m) && TABLES_END + RECORD * |c.tensors| <= |data|
    requires Holds(data, TABLES_END, Records(c, |c.tensors|)) && Holds(data, Place(c, i), m.tensors[i])
    ensures OffsetAt(data, TABLES_END, i) == Place(c, i)
    ensures RecordOk(c.tensors[i], data, TABLES_END + RECORD * i)
    ensures data[Place(c, i)..Place(c, i) + c.tensors[i].bytes] == m.tensors[i]
  {
    hide Holds, U32, U64, RecordBytes, Cursor, Records, RecordOk, Place, WeightsEnd;
    RecordHeld(c, data, |c.tensors|, i);
    RecordReads(data, TABLES_END + RECORD * i, c.tensors[i], Place(c, i));
    Held(data, Place(c, i), m.tensors[i]);
  }

  lemma TensorAccepted(c: Contract, m: Material, data: Data, i: nat)
    requires Emittable(c, m) && i < |c.tensors| && |data| == Total(c, m) && TABLES_END + RECORD * |c.tensors| <= |data|
    requires Holds(data, TABLES_END, Records(c, |c.tensors|)) && forall j :: 0 <= j < |c.tensors| ==> Holds(data, Place(c, j), m.tensors[j])
    ensures End(Section(WeightsOffset(c), WeightsEnd(c) - WeightsOffset(c))) <= |data|
    ensures TensorOk(c, data, TABLES_END, Section(WeightsOffset(c), WeightsEnd(c) - WeightsOffset(c)), i)
    ensures OffsetAt(data, TABLES_END, i) == Place(c, i)
  {
    hide Holds, U32, U64, Cursor, Records, RecordOk;
    TensorReads(c, m, data, i);
    FitsBelow(c, i);
    CursorFirst(c);
    if i > 0 {
      TensorReads(c, m, data, i - 1);
      FitsBelow(c, i - 1);
    }
  }

  lemma CursorFirst(c: Contract)
    ensures Cursor(c, WeightsOffset(c), 0) == WeightsOffset(c)
  {
  }

  /** For any tensor sizes, vocabulary and Unicode table matching the contract, the emitted
      package passes every check of the loader, and every tensor is found at its exact bytes. */
  lemma EmittedIsAccepted(c: Contract, m: Material)
    requires Emittable(c, m)
    ensures var p := Package(c, m);
      Accepts(c, p) && SectionAt(p, 0).offset + RECORD * |c.tensors| <= |p|
      && forall i :: 0 <= i < |c.tensors| ==>
           var offset := OffsetAt(p, SectionAt(p, 0).offset, i);
           offset + |m.tensors[i]| <= |p| && p[offset..offset + |m.tensors[i]|] == m.tensors[i]
  {
    hide Holds, U32, U64, Cursor, Records, RecordOk, Package, SectionTable, HeaderBytes, HeaderOk, SectionOk, TensorOk, OffsetAt, Place;
    var p, n := Package(c, m), |c.tensors|;
    PackageHolds(c, m);
    SectionsRead(c, m, p);
    HeaderReads(c, p);
    Held(p, TABLES_END, Records(c, n));
    Held(p, VocabularyOffset(c), m.vocabulary);
    Held(p, UnicodeOffset(c, m), m.unicode);
    forall i | 0 <= i < n
      ensures TensorOk(c, p, TABLES_END, SectionAt(p, 1), i)
      ensures OffsetAt(p, TABLES_END, i) == Place(c, i)
      ensures Place(c, i) + |m.tensors[i]| <= |p| && p[Place(c, i)..Place(c, i) + |m.tensors[i]|] == m.tensors[i]
    {
      TensorAccepted(c, m, p, i);
      Held(p, Place(c, i), m.tensors[i]);
    }
    LastTensor(c, m, p);
  }

  lemma LastTensor(c: Contract, m: Material, data: Data)
    requires Emittable(c, m) && |data| == Total(c, m) && TABLES_END + RECORD * |c.tensors| <= |data|
    requires Holds(data, TABLES_END, Records(c, |c.tensors|)) && forall j :: 0 <= j < |c.tensors| ==> Holds(data, Place(c, j), m.tensors[j])
    ensures TensorEnd(c, data, TABLES_END, |c.tensors|, WeightsOffset(c)) == WeightsEnd(c)
  {
    hide Holds, U32, U64, Cursor, Records, RecordOk;
    CursorFirst(c);
    if c.tensors != [] {
      TensorReads(c, m, data, |c.tensors| - 1);
      FitsBelow(c, |c.tensors| - 1);
    }
  }

  // ----- the writer as it runs -----

  method WriteAt(file: array<Byte>, at: nat, part: Data)
    requires at + |part| <= file.Length
    modifies file
    ensures file[..] == Patch(old(file[..]), at, part)
  {
    ghost var before := file[..];
    for k := 0 to |part|
      invariant forall j :: 0 <= j < file.Length ==> file[j] == if at <= j < at + k then part[j - at] else before[j]
    {
      file[at + k] := part[k];
    }
  }

  /** Records and offsets along a running cursor. */
  method LayOut(c: Contract) returns (cursor: nat, records: Data, offsets: seq<nat>)
    requires Writable(c)
    ensures cursor == WeightsEnd(c) && records == Records(c, |c.tensors|)
    ensures |offsets| == |c.tensors| && forall j :: 0 <= j < |c.tensors| ==> offsets[j] == Place(c, j)
  {
    hide Cursor, RecordBytes;
    cursor, records, offsets := WeightsOffset(c), [], [];
    CursorFirst(c);
    for i := 0 to |c.tensors|
      invariant cursor == Cursor(c, WeightsOffset(c), i) && records == Records(c, i)
      invariant |offsets| == i && forall j :: 0 <= j < i ==> offsets[j] == Place(c, j)
    {
      FitsBelow(c, i);
      cursor := Align(cursor);
      records := records + RecordBytes(c.tensors[i], cursor);
      offsets := offsets + [cursor];
      cursor := cursor + c.tensors[i].bytes;
    }
  }

  /** Lays out the records, then writes sections, records, tensors,
      vocabulary and Unicode table at their offsets, and the header last. */
  method Emit(c: Contract, m: Material) returns (file: array<Byte>)
    requires Emittable(c, m)
    ensures fresh(file) && file[..] == Package(c, m)
  {
    hide Cursor, Patch, SectionTable, HeaderBytes, RecordBytes, Records, Place;
    var n := |c.tensors|;
    var cursor, records, offsets := LayOut(c);
    var vocabulary := Align(cursor);
    var unicode := Align(vocabulary + |m.vocabulary|);
    var total := unicode + |m.unicode|;
    file := new Byte[total](_ => 0);
    assert file[..] == Zeros(total);
    WriteAt(file, HEADER, SectionTable(c, m));
    WriteAt(file, TableOffset(), records);
    ghost var tables := file[..];
    for i := 0 to n
      invariant fresh(file) && file.Length == total && file[..] == WithTensors(c, m, tables, i)
    {
      FitsBelow(c, i);
      WriteAt(file, offsets[i], m.tensors[i]);
    }
    WriteAt(file, vocabulary, m.vocabulary);
    WriteAt(file, unicode, m.unicode);
    var digest := c.sha(file[HEADER..]);
    assert file[HEADER..] == file[..][HEADER..];
    WriteAt(file, 0, HeaderBytes(c, total, digest));
  }

  /** Write, then load: accepted, with each tensor where it was written. */
  method RoundTrip(c: Contract, m: Material) returns (status: Status, data: Data)
    requires Emittable(c, m)
    ensures status.Loaded? && |status.offsets| == |m.tensors|
    ensures forall i :: 0 <= i < |m.tensors| ==>
      status.offsets[i] + |m.tensors[i]| <= |data| && data[status.offsets[i]..status.offsets[i] + |m.tensors[i]|] == m.tensors[i]
  {
    hide Package, Accepts, OffsetAt;
    var file := Emit(c, m);
    data := file[..];
    EmittedIsAccepted(c, m);
    status := Load(c, data);
  }

  // ----- nothing else is accepted -----

  lemma Joins(data: Data, a: nat, b: nat, c: nat)
    requires a <= b <= c <= |data|
    ensures data[a..b] + data[b..c] == data[a..c]
  {
  }

  /** The header an accepted package has is the one the writer writes for its size and content. */
  lemma AcceptedHeader(c: Contract, data: Data)
    requires Sound(c) && Accepts(c, data)
    ensures data[..128] == HeaderBytes(c, |data|, c.sha(data[128..]))
  {
    hide U32, U64, Pack32, SectionsOk, TensorOk, TensorEnd;
    Repack32(data, 8);
    Repack32(data, 12);
    Repack64(data, 16);
    Repack32(data, 24);
    Repack32(data, 28);
    Repack64(data, 96);
    Repack64(data, 104);
    var digest := c.sha(data[128..]);
    assert data[112..128] == Zeros(16);
    Joins(data, 0, 8, 12);
    Joins(data, 0, 12, 16);
    Joins(data, 0, 16, 24);
    Joins(data, 0, 24, 28);
    Joins(data, 0, 28, 32);
    Joins(data, 0, 32, 64);
    Joins(data, 0, 64, 96);
    Joins(data, 0, 96, 104);
    Joins(data, 0, 104, 112);
    Joins(data, 0, 112, 128);
    assert data[..8] == data[0..8] && data[..128] == data[0..128];
  }

  /** And so are its section table and its tensor records, for the places they name. */
  lemma AcceptedSection(c: Contract, data: Data, i: nat)
    requires Sound(c) && Accepts(c, data) && i < 4
    ensures SectionAt(data, i).offset < TWO32 && SectionAt(data, i).size < TWO32
    ensures data[128 + 32 * i..160 + 32 * i] ==
      SectionBytes(i + 1, SectionAt(data, i).offset, SectionAt(data, i).size, [|c.tensors|, |c.tensors|, c.words, 1][i])
  {
    hide U32, U64, Pack32, HeaderOk, TensorOk, TensorEnd;
    var at, s := 128 + 32 * i, SectionAt(data, i);
    assert SectionOk(c, data, i);
    Repack32(data, at);
    Repack32(data, at + 4);
    Repack64(data, at + 8);
    Repack64(data, at + 16);
    Repack64(data, at + 24);
    Joins(data, at, at + 4, at + 8);
    Joins(data, at, at + 8, at + 16);
    Joins(data, at, at + 16, at + 24);
    Joins(data, at, at + 24, at + 32);
  }

  lemma AcceptedRecord(c: Contract, data: Data, i: nat)
    requires Sound(c) && Accepts(c, data) && i < |c.tensors|
    ensures var at := SectionAt(data, 0).offset + 96 * i;
      at + 96 <= |data| && OffsetAt(data, SectionAt(data, 0).offset, i) < TWO32 && c.tensors[i].bytes < TWO32
      && data[at..at + 96] == RecordBytes(c.tensors[i], OffsetAt(data, SectionAt(data, 0).offset, i))
  {
    hide U32, U64, Pack32, HeaderOk, TensorEnd;
    FourSections(c, data);
    var table, t := SectionAt(data, 0).offset, c.tensors[i];
    var at := table + 96 * i;
    assert TensorOk(c, data, table, SectionAt(data, 1), i);
    RecordIs(t, data, at);
  }

  lemma RecordIs(t: Tensor, data: Data, at: nat)
    requires at + 96 <= |data| && RecordOk(t, data, at) && |t.name| < 64
    requires t.bytes < TWO32 && t.dim0 < TWO32 && t.dim1 < TWO32 && t.rank < TWO32 && U64(data, at + 64) < TWO32
    ensures data[at..at + 96] == RecordBytes(t, U64(data, at + 64))
  {
    hide U32, U64, Pack32;
    var n := |t.name|;
    assert data[at + n..at + 64] == Zeros(64 - n);
    Repack64(data, at + 64);
    Repack64(data, at + 72);
    Repack32(data, at + 80);
    Repack32(data, at + 84);
    Repack32(data, at + 88);
    Repack32(data, at + 92);
    Joins(data, at, at + n, at + 64);
    Joins(data, at, at + 64, at + 72);
    Joins(data, at, at + 72, at + 80);
    Joins(data, at, at + 80, at + 84);
    Joins(data, at, at + 84, at + 88);
    Joins(data, at, at + 88, at + 92);
    Joins(data, at, at + 92, at + 96);
  }
}
