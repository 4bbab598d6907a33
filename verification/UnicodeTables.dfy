/** The packed Unicode tables: written by packages/quixi-embed/compiler/compile_model.py,
    checked and searched by packages/quixi-embed/native/tokenizer.c. */
module UnicodeTables {
  import opened Common
  import opened Utf8
  import opened Bytes

  const LAST_SCALAR := 0x10FFFF

  datatype Range = Range(lo: nat, hi: nat)

  datatype Entry = Entry(cp: nat, offset: nat, size: nat)

  predicate Covers(rs: seq<Range>, cp: int) { exists i :: 0 <= i < |rs| && rs[i].lo <= cp <= rs[i].hi }

  /** Nonempty, in scalar bounds, and each beyond the one before. */
  predicate Ordered(rs: seq<Range>) {
    && (forall i :: 0 <= i < |rs| ==> rs[i].lo <= rs[i].hi <= LAST_SCALAR)
    && (forall i, j :: 0 <= i < j < |rs| ==> rs[i].hi < rs[j].lo)
  }

  predicate Increasing(values: seq<nat>) {
    && (forall i :: 0 <= i < |values| ==> values[i] <= LAST_SCALAR)
    && (forall i, j :: 0 <= i < j < |values| ==> values[i] < values[j])
  }

  // ----- the writer -----

  /** In bounds, and separated: no two ranges touch. */
  predicate Canonical(rs: seq<Range>) {
    && (forall i :: 0 <= i < |rs| ==> rs[i].lo <= rs[i].hi <= LAST_SCALAR)
    && (forall i :: 0 < i < |rs| ==> rs[i - 1].hi + 1 < rs[i].lo)
  }

  lemma {:induction false} CanonicalOrdered(rs: seq<Range>)
    requires Canonical(rs)
    ensures Ordered(rs)
    decreases |rs|
  {
    if rs != [] {
      var n := |rs| - 1;
      var front := rs[..n];
      CanonicalOrdered(front);
      forall i | 0 <= i < n
        ensures rs[i].hi < rs[n].lo
      {
        assert front[i].hi <= front[n - 1].hi;
      }
    }
  }

  /** One value added to the ranges: the last range grows or a new one starts. */
  function Extend(rs: seq<Range>, value: nat): seq<Range> {
    if rs != [] && value == rs[|rs| - 1].hi + 1 then rs[|rs| - 1 := Range(rs[|rs| - 1].lo, value)]
    else rs + [Range(value, value)]
  }

  lemma Extended(rs: seq<Range>, value: nat)
    requires Canonical(rs) && value <= LAST_SCALAR && (rs != [] ==> rs[|rs| - 1].hi < value)
    ensures var r := Extend(rs, value); Canonical(r) && r != [] && r[|r| - 1].hi == value
  {
  }

  lemma ExtendedCovers(rs: seq<Range>, value: nat, cp: nat)
    requires Canonical(rs) && value <= LAST_SCALAR && (rs != [] ==> rs[|rs| - 1].hi < value)
    ensures Covers(Extend(rs, value), cp) <==> Covers(rs, cp) || cp == value
  {
    hide Canonical;
    var r := Extend(rs, value);
    assert rs != [] ==> rs[|rs| - 1].lo <= rs[|rs| - 1].hi by { LastOrdered(rs); }
    if Covers(rs, cp) {
      var i :| 0 <= i < |rs| && rs[i].lo <= cp <= rs[i].hi;
      assert r[i].lo <= cp <= r[i].hi;
    }
    assert r[|r| - 1].lo <= value <= r[|r| - 1].hi;
    if Covers(r, cp) && cp != value {
      var i :| 0 <= i < |r| && r[i].lo <= cp <= r[i].hi;
      assert i < |rs| && rs[i].lo <= cp <= rs[i].hi;
    }
  }

  lemma LastOrdered(rs: seq<Range>)
    requires Canonical(rs)
    ensures rs != [] ==> rs[|rs| - 1].lo <= rs[|rs| - 1].hi
  {
  }

  /** Runs of consecutive values, extended in place while they last. */
  method Ranges(values: seq<nat>) returns (rs: seq<Range>)
    requires Increasing(values)
    ensures Canonical(rs) && Ordered(rs)
    ensures forall cp: nat :: cp in values <==> Covers(rs, cp)
  {
    hide Canonical, Covers;
    rs := [];
    assert Canonical([]) && (forall cp: nat :: !Covers([], cp)) by { EmptyRanges(); }
    for k := 0 to |values|
      invariant Canonical(rs)
      invariant rs != [] ==> k > 0 && rs[|rs| - 1].hi == values[k - 1]
      invariant forall cp: nat :: cp in values[..k] <==> Covers(rs, cp)
    {
      var value := values[k];
      Extended(rs, value);
      forall cp: nat ensures Covers(Extend(rs, value), cp) <==> Covers(rs, cp) || cp == value {
        ExtendedCovers(rs, value, cp);
      }
      assert values[..k + 1] == values[..k] + [value];
      rs := if rs != [] && value == rs[|rs| - 1].hi + 1 then rs[|rs| - 1 := Range(rs[|rs| - 1].lo, value)]
            else rs + [Range(value, value)];
    }
    assert values[..|values|] == values;
    CanonicalOrdered(rs);
  }

  lemma EmptyRanges()
    ensures Canonical([]) && forall cp: nat :: !Covers([], cp)
  {
  }

  function WriteRanges(rs: seq<Range>): (b: seq<Byte>)
    requires forall r :: r in rs ==> r.lo < TWO32 && r.hi < TWO32
    ensures |b| == 8 * |rs|
  {
    if rs == [] then []
    else WriteRanges(rs[..|rs| - 1]) + Pack32(rs[|rs| - 1].lo) + Pack32(rs[|rs| - 1].hi)
  }

  function WriteEntries(es: seq<Entry>): (b: seq<Byte>)
    requires forall e :: e in es ==> e.cp < TWO32 && e.offset < TWO32 && e.size < TWO32
    ensures |b| == 12 * |es|
  {
    if es == [] then []
    else
      var e := es[|es| - 1];
      WriteEntries(es[..|es| - 1]) + Pack32(e.cp) + Pack32(e.offset) + Pack32(e.size)
  }

  /** The table of ranges that a stretch of bytes holds. */
  ghost predicate HoldsRanges(data: seq<Byte>, at: nat, rs: seq<Range>) {
    at + 8 * |rs| <= |data| &&
    forall i :: 0 <= i < |rs| ==> RangeAt(data, at, i) == rs[i]
  }

  function RangeAt(data: seq<Byte>, at: nat, i: nat): Range
    requires at + 8 * i + 8 <= |data|
  {
    Range(U32(data, at + 8 * i), U32(data, at + 8 * i + 4))
  }

  function EntryAt(data: seq<Byte>, at: nat, i: nat): Entry
    requires at + 12 * i + 12 <= |data|
  {
    Entry(U32(data, at + 12 * i), U32(data, at + 12 * i + 4), U32(data, at + 12 * i + 8))
  }

  ghost predicate HoldsEntries(data: seq<Byte>, at: nat, es: seq<Entry>) {
    at + 12 * |es| <= |data| &&
    forall i :: 0 <= i < |es| ==> EntryAt(data, at, i) == es[i]
  }

  lemma {:induction false} WrittenRanges(data: seq<Byte>, at: nat, rs: seq<Range>)
    requires forall r :: r in rs ==> r.lo < TWO32 && r.hi < TWO32
    requires at + 8 * |rs| <= |data| && data[at..at + 8 * |rs|] == WriteRanges(rs)
    ensures HoldsRanges(data, at, rs)
    decreases |rs|
  {
    hide Pack32, U32;
    if rs != [] {
      var n := |rs| - 1;
      var front, r := rs[..n], rs[n];
      var w := WriteRanges(front);
      var all := data[at..at + 8 * |rs|];
      Slice(data, at, at + 8 * |rs|, 0, 8 * n);
      Slice(data, at, at + 8 * |rs|, 8 * n, 8 * n + 4);
      Slice(data, at, at + 8 * |rs|, 8 * n + 4, 8 * n + 8);
      assert all[0..8 * n] == w;
      WrittenRanges(data, at, front);
      assert all[8 * n..8 * n + 4] == Pack32(r.lo);
      assert all[8 * n + 4..8 * n + 8] == Pack32(r.hi);
      Read32(data, at + 8 * n, r.lo);
      Read32(data, at + 8 * n + 4, r.hi);
      forall i | 0 <= i < |rs|
        ensures RangeAt(data, at, i) == rs[i]
      {
        if i < n {
          assert RangeAt(data, at, i) == front[i];
        }
      }
    }
  }

  lemma EntryWritten(data: seq<Byte>, p: nat, e: Entry)
    requires e.cp < TWO32 && e.offset < TWO32 && e.size < TWO32
    requires p + 12 <= |data| && data[p..p + 12] == Pack32(e.cp) + Pack32(e.offset) + Pack32(e.size)
    ensures EntryAt(data, p, 0) == e
  {
    hide Pack32, U32;
    Slice(data, p, p + 12, 0, 4);
    Slice(data, p, p + 12, 4, 8);
    Slice(data, p, p + 12, 8, 12);
    Read32(data, p, e.cp);
    Read32(data, p + 4, e.offset);
    Read32(data, p + 8, e.size);
  }

  lemma {:induction false} WrittenEntries(data: seq<Byte>, at: nat, es: seq<Entry>)
    requires forall e :: e in es ==> e.cp < TWO32 && e.offset < TWO32 && e.size < TWO32
    requires at + 12 * |es| <= |data| && data[at..at + 12 * |es|] == WriteEntries(es)
    ensures HoldsEntries(data, at, es)
    decreases |es|
  {
    hide Pack32, U32;
    if es != [] {
      var n := |es| - 1;
      var front, e := es[..n], es[n];
      var w := WriteEntries(front);
      var all := data[at..at + 12 * |es|];
      Slice(data, at, at + 12 * |es|, 0, 12 * n);
      Slice(data, at, at + 12 * |es|, 12 * n, 12 * n + 12);
      assert all[0..12 * n] == w;
      WrittenEntries(data, at, front);
      assert all[12 * n..] == Pack32(e.cp) + Pack32(e.offset) + Pack32(e.size);
      EntryWritten(data, at + 12 * n, e);
      forall i | 0 <= i < |es|
        ensures EntryAt(data, at, i) == es[i]
      {
        if i < n {
          assert EntryAt(data, at, i) == front[i];
        }
      }
    }
  }

  // ----- the reader -----

  function ReadRanges(data: seq<Byte>, at: nat, count: nat): (rs: seq<Range>)
    requires at + 8 * count <= |data|
    ensures |rs| == count && forall i :: 0 <= i < count ==> rs[i] == RangeAt(data, at, i)
  {
    seq(count, i requires 0 <= i < count => RangeAt(data, at, i))
  }

  function ReadEntries(data: seq<Byte>, at: nat, count: nat): (es: seq<Entry>)
    requires at + 12 * count <= |data|
    ensures |es| == count && forall i :: 0 <= i < count ==> es[i] == EntryAt(data, at, i)
  {
    seq(count, i requires 0 <= i < count => EntryAt(data, at, i))
  }

  method ValidRanges(data: seq<Byte>, at: nat, count: nat) returns (ok: bool)
    requires at + 8 * count <= |data|
    ensures ok <==> Ordered(ReadRanges(data, at, count))
  {
    hide U32;
    var previous := 0;
    ghost var rs := ReadRanges(data, at, count);
    for i := 0 to count
      invariant Ordered(rs[..i])
      invariant i > 0 ==> previous == rs[i - 1].hi
    {
      var a, b := U32(data, at + i * 8), U32(data, at + i * 8 + 4);
      assert rs[i] == Range(a, b);
      if a > b || b > LAST_SCALAR || (i > 0 && a <= previous) {
        return false;
      }
      forall j | 0 <= j < i
        ensures rs[j].hi < a
      {
        assert rs[..i][j].hi <= rs[..i][i - 1].hi;
      }
      previous := b;
    }
    assert rs[..count] == rs;
    return true;
  }

  /** Binary search over ordered ranges finds exactly what some range covers. */
  method InRanges(data: seq<Byte>, at: nat, count: nat, cp: nat) returns (found: bool)
    requires at + 8 * count <= |data| && Ordered(ReadRanges(data, at, count))
    ensures found <==> Covers(ReadRanges(data, at, count), cp)
  {
    hide U32;
    var begin, end := 0, count;
    ghost var rs := ReadRanges(data, at, count);
    while begin < end
      invariant 0 <= begin <= end <= count
      invariant forall i :: 0 <= i < begin ==> rs[i].hi < cp
      invariant forall i :: end <= i < count ==> cp < rs[i].lo
    {
      var mid := begin + (end - begin) / 2;
      assert rs[mid] == RangeAt(data, at, mid);
      if cp < U32(data, at + mid * 8) {
        end := mid;
      } else if cp > U32(data, at + mid * 8 + 4) {
        begin := mid + 1;
      } else {
        return true;
      }
    }
    return false;
  }

  predicate Keyed(es: seq<Entry>) { forall i, j :: 0 <= i < j < |es| ==> es[i].cp < es[j].cp }

  /** The one entry for a code point, if any. */
  function FindEntry(es: seq<Entry>, cp: nat): (e: Option<Entry>)
    ensures e.Some? ==> e.value in es && e.value.cp == cp
    ensures e.None? ==> forall x :: x in es ==> x.cp != cp
  {
    if es == [] then None
    else if es[0].cp == cp then Some(es[0])
    else FindEntry(es[1..], cp)
  }

  /** Binary search over keyed entries. */
  method FindMapping(data: seq<Byte>, at: nat, count: nat, cp: nat) returns (found: Option<Entry>)
    requires at + 12 * count <= |data| && Keyed(ReadEntries(data, at, count))
    ensures found == FindEntry(ReadEntries(data, at, count), cp)
  {
    hide U32;
    var begin, end := 0, count;
    ghost var es := ReadEntries(data, at, count);
    while begin < end
      invariant 0 <= begin <= end <= count
      invariant forall i :: 0 <= i < begin ==> es[i].cp < cp
      invariant forall i :: end <= i < count ==> cp < es[i].cp
    {
      var mid := begin + (end - begin) / 2;
      assert es[mid] == EntryAt(data, at, mid);
      var key := U32(data, at + mid * 12);
      if cp < key {
        end := mid;
      } else if cp > key {
        begin := mid + 1;
      } else {
        assert es[mid].cp == cp && es[mid] in es;
        assert FindEntry(es, cp) == Some(es[mid]);
        return Some(EntryAt(data, at, mid));
      }
    }
    return None;
  }

  /** Writer and reader together: the table written for a set of code points passes
      the loader's check, and the search says yes for exactly those code points. */
  method WrittenTableIsExact(values: seq<nat>, cp: nat) returns (accepted: bool, found: bool)
    requires Increasing(values)
    ensures accepted && (found <==> cp in values)
  {
    var rs := Ranges(values);
    var data := WriteRanges(rs);
    assert data[0..0 + 8 * |rs|] == data;
    WrittenRanges(data, 0, rs);
    CanonicalOrdered(rs);
    assert ReadRanges(data, 0, |rs|) == rs;
    accepted := ValidRanges(data, 0, |rs|);
    found := InRanges(data, 0, |rs|, cp);
  }

  // ----- packing what was read -----

  /** Tables that were read pack to the bytes they were read from. */
  lemma {:induction false} RepackRanges(data: seq<Byte>, at: nat, count: nat)
    requires at + 8 * count <= |data|
    ensures WriteRanges(ReadRanges(data, at, count)) == data[at..at + 8 * count]
    decreases count
  {
    hide U32, Pack32;
    var rs := ReadRanges(data, at, count);
    if count > 0 {
      var n := count - 1;
      var p := at + 8 * n;
      RepackRanges(data, at, n);
      assert rs[..n] == ReadRanges(data, at, n) && rs[n] == RangeAt(data, at, n);
      Repack32(data, p);
      Repack32(data, p + 4);
      assert data[at..p] + data[p..p + 4] == data[at..p + 4];
      assert data[at..p + 4] + data[p + 4..p + 8] == data[at..p + 8];
    }
  }

  lemma {:induction false} RepackEntries(data: seq<Byte>, at: nat, count: nat)
    requires at + 12 * count <= |data|
    ensures WriteEntries(ReadEntries(data, at, count)) == data[at..at + 12 * count]
    decreases count
  {
    hide U32, Pack32;
    var es := ReadEntries(data, at, count);
    if count > 0 {
      var n := count - 1;
      var p := at + 12 * n;
      RepackEntries(data, at, n);
      assert es[..n] == ReadEntries(data, at, n) && es[n] == EntryAt(data, at, n);
      Repack32(data, p);
      Repack32(data, p + 4);
      Repack32(data, p + 8);
      assert data[at..p] + data[p..p + 4] == data[at..p + 4];
      assert data[at..p + 4] + data[p + 4..p + 8] == data[at..p + 8];
      assert data[at..p + 8] + data[p + 8..p + 12] == data[at..p + 12];
    }
  }
}
