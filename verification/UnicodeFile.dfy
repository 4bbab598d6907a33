/** The packed Unicode table: laid out by `unicode_data` of
    packages/quixi-embed/compiler/compile_model.py, checked by `qx_unicode_init` of
    packages/quixi-embed/native/tokenizer.c. */
module UnicodeFile {
  import opened Common
  import opened Utf8
  import opened Bytes
  import opened UnicodeTables

  type Data = seq<Byte>

  const MAGIC: Data := [81, 88, 85, 78, 73, 67, 48, 49]
  const HEADER := 24
  const MAX_ENTRIES := 0x110000

  datatype Tables = Tables(deletion: seq<Range>, mapping: seq<Entry>, punctuation: seq<Range>, pool: Data)

  /** Where the four tables lie, by their counts. */
  datatype Shape = Shape(deletes: nat, maps: nat, puncts: nat, pool: nat)

  function MappingAt(s: Shape): nat { HEADER + 8 * s.deletes }

  function PunctuationAt(s: Shape): nat { MappingAt(s) + 12 * s.maps }

  function PoolAt(s: Shape): nat { PunctuationAt(s) + 8 * s.puncts }

  function Size(s: Shape): nat { PoolAt(s) + s.pool }

  function ShapeAt(data: Data): Shape
    requires HEADER <= |data|
  {
    Shape(U32(data, 8), U32(data, 12), U32(data, 16), U32(data, 20))
  }

  function TablesAt(data: Data): Tables
    requires HEADER <= |data| && Size(ShapeAt(data)) == |data|
  {
    var s := ShapeAt(data);
    Tables(ReadRanges(data, HEADER, s.deletes), ReadEntries(data, MappingAt(s), s.maps),
           ReadRanges(data, PunctuationAt(s), s.puncts), data[PoolAt(s)..])
  }

  /** Ordered ranges, mappings by increasing code point into the pool. */
  ghost predicate Usable(t: Tables) {
    && Ordered(t.deletion) && Ordered(t.punctuation) && Keyed(t.mapping)
    && forall e :: e in t.mapping ==> e.cp <= LAST_SCALAR && e.offset + e.size <= |t.pool|
  }

  ghost predicate Accepts(data: Data) {
    && HEADER <= |data| && data[..8] == MAGIC && Size(ShapeAt(data)) == |data|
    && ShapeAt(data).deletes <= MAX_ENTRIES && ShapeAt(data).maps <= MAX_ENTRIES && ShapeAt(data).puncts <= MAX_ENTRIES
    && Usable(TablesAt(data))
  }

  /** The mapping table's checks. */
  method ValidMapping(data: Data, at: nat, count: nat, pool: nat) returns (ok: bool)
    requires at + 12 * count <= |data|
    ensures ok <==> Keyed(ReadEntries(data, at, count)) && forall e :: e in ReadEntries(data, at, count) ==> e.cp <= LAST_SCALAR && e.offset + e.size <= pool
  {
    hide U32;
    var previous := 0;
    ghost var es := ReadEntries(data, at, count);
    for i := 0 to count
      invariant i > 0 ==> previous == es[i - 1].cp
      invariant forall j :: 0 <= j < i ==> es[j].cp <= LAST_SCALAR && es[j].offset + es[j].size <= pool
      invariant forall j, k :: 0 <= j < k < i ==> es[j].cp < es[k].cp
    {
      var p := at + i * 12;
      var cp, offset, size := U32(data, p), U32(data, p + 4), U32(data, p + 8);
      assert es[i] == Entry(cp, offset, size) && es[i] in es;
      if cp > LAST_SCALAR || (i > 0 && cp <= previous) || offset > pool || size > pool - offset {
        return false;
      }
      previous := cp;
    }
    return true;
  }

  /** qx_unicode_init: accepts exactly the usable tables. */
  method Init(data: Data) returns (ok: bool)
    ensures ok <==> Accepts(data)
  {
    hide U32, Ordered, Keyed;
    if |data| < HEADER || data[..8] != MAGIC {
      return false;
    }
    var s := ShapeAt(data);
    if Size(s) != |data| || s.deletes > MAX_ENTRIES || s.maps > MAX_ENTRIES || s.puncts > MAX_ENTRIES {
      return false;
    }
    var deletion := ValidRanges(data, HEADER, s.deletes);
    if !deletion {
      return false;
    }
    var punctuation := ValidRanges(data, PunctuationAt(s), s.puncts);
    if !punctuation {
      return false;
    }
    ok := ValidMapping(data, MappingAt(s), s.maps, s.pool);
  }

  // ----- the writer -----

  predicate Narrow(t: Tables) {
    && (forall r :: r in t.deletion ==> r.lo < TWO32 && r.hi < TWO32)
    && (forall e :: e in t.mapping ==> e.cp < TWO32 && e.offset < TWO32 && e.size < TWO32)
    && (forall r :: r in t.punctuation ==> r.lo < TWO32 && r.hi < TWO32)
    && |t.deletion| <= MAX_ENTRIES && |t.mapping| <= MAX_ENTRIES && |t.punctuation| <= MAX_ENTRIES && |t.pool| < TWO32
  }

  function Header(t: Tables): (b: Data)
    requires Narrow(t)
    ensures |b| == HEADER
  {
    MAGIC + Pack32(|t.deletion|) + Pack32(|t.mapping|) + Pack32(|t.punctuation|) + Pack32(|t.pool|)
  }

  function Write(t: Tables): Data
    requires Narrow(t)
  {
    Header(t) + WriteRanges(t.deletion) + WriteEntries(t.mapping) + WriteRanges(t.punctuation) + t.pool
  }

  lemma HeaderRead(t: Tables, rest: Data)
    requires Narrow(t)
    ensures var data := Header(t) + rest;
      data[..8] == MAGIC && ShapeAt(data) == Shape(|t.deletion|, |t.mapping|, |t.punctuation|, |t.pool|)
  {
    hide Pack32, U32;
    var data := Header(t) + rest;
    assert data[8..12] == Pack32(|t.deletion|) && data[12..16] == Pack32(|t.mapping|);
    assert data[16..20] == Pack32(|t.punctuation|) && data[20..24] == Pack32(|t.pool|);
    Read32(data, 8, |t.deletion|);
    Read32(data, 12, |t.mapping|);
    Read32(data, 16, |t.punctuation|);
    Read32(data, 20, |t.pool|);
  }

  /** Written tables read back exactly, and are accepted exactly when usable. */
  lemma WrittenIsRead(t: Tables)
    requires Narrow(t)
    ensures var data := Write(t);
      HEADER <= |data| && Size(ShapeAt(data)) == |data| && TablesAt(data) == t && (Accepts(data) <==> Usable(t))
  {
    hide Pack32, U32, Header, WriteRanges, WriteEntries, Usable, RangeAt, EntryAt;
    var a, b, d, e := WriteRanges(t.deletion), WriteEntries(t.mapping), WriteRanges(t.punctuation), t.pool;
    var data := Write(t);
    assert data == Header(t) + (a + b + d + e);
    HeaderRead(t, a + b + d + e);
    var s := ShapeAt(data);
    assert data[HEADER..HEADER + |a|] == a;
    assert data[MappingAt(s)..MappingAt(s) + |b|] == b;
    assert data[PunctuationAt(s)..PunctuationAt(s) + |d|] == d;
    assert data[PoolAt(s)..] == e;
    WrittenRanges(data, HEADER, t.deletion);
    WrittenEntries(data, MappingAt(s), t.mapping);
    WrittenRanges(data, PunctuationAt(s), t.punctuation);
    assert ReadRanges(data, HEADER, s.deletes) == t.deletion;
    assert ReadEntries(data, MappingAt(s), s.maps) == t.mapping;
    assert ReadRanges(data, PunctuationAt(s), s.puncts) == t.punctuation;
  }

  /** Only written tables are accepted: the bytes are those the writer writes for what they say. */
  lemma AcceptedIsWritten(data: Data)
    requires Accepts(data)
    ensures Narrow(TablesAt(data)) && Usable(TablesAt(data)) && data == Write(TablesAt(data))
  {
    hide Pack32, U32, WriteRanges, WriteEntries, Usable;
    var s, t := ShapeAt(data), TablesAt(data);
    AcceptedIsNarrow(data);
    RepackRanges(data, HEADER, s.deletes);
    RepackEntries(data, MappingAt(s), s.maps);
    RepackRanges(data, PunctuationAt(s), s.puncts);
    Repack32(data, 8);
    Repack32(data, 12);
    Repack32(data, 16);
    Repack32(data, 20);
    assert Header(t) == data[..24] by {
      assert data[..8] + data[8..12] + data[12..16] + data[16..20] + data[20..24] == data[..24];
    }
    assert data == data[..24] + data[24..MappingAt(s)] + data[MappingAt(s)..PunctuationAt(s)] + data[PunctuationAt(s)..PoolAt(s)] + data[PoolAt(s)..];
  }

  lemma AcceptedIsNarrow(data: Data)
    requires Accepts(data)
    ensures Narrow(TablesAt(data))
  {
    hide U32, Usable;
    var s, t := ShapeAt(data), TablesAt(data);
    assert forall r :: r in t.deletion ==> r.lo < TWO32 && r.hi < TWO32;
    assert forall e :: e in t.mapping ==> e.cp < TWO32 && e.offset < TWO32 && e.size < TWO32;
    assert forall r :: r in t.punctuation ==> r.lo < TWO32 && r.hi < TWO32;
  }
}
