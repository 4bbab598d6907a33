/** Text as JavaScript holds it: a sequence of UTF-16 code units, possibly with
    unpaired surrogates. */
module Utf16 {

  type Unit = u: nat | u < 0x10000

  const LF: Unit := 10
  const CR: Unit := 13

  predicate High(u: Unit) { 0xD800 <= u <= 0xDBFF }

  predicate Low(u: Unit) { 0xDC00 <= u <= 0xDFFF }

  /** What `\s` matches and `trim` removes. */
  predicate Space(u: Unit) {
    9 <= u <= 13 || u in {0x20, 0xA0, 0x1680, 0x2028, 0x2029, 0x202F, 0x205F, 0x3000, 0xFEFF} || 0x2000 <= u <= 0x200A
  }

  /** White space and line terminators of ECMA-262, sections 12.2 and 12.3, one by one. */
  lemma SpaceTable(u: Unit)
    ensures Space(u) <==> u in {
      0x9, 0xA, 0xB, 0xC, 0xD, 0x20, 0xA0, 0x1680, 0x2000, 0x2001, 0x2002, 0x2003, 0x2004, 0x2005, 0x2006, 0x2007,
      0x2008, 0x2009, 0x200A, 0x2028, 0x2029, 0x202F, 0x205F, 0x3000, 0xFEFF}
  {
  }

  /** A cut at `i` separates the two halves of a surrogate pair. */
  predicate SplitsPair(text: seq<Unit>, i: int) {
    0 < i < |text| && High(text[i - 1]) && Low(text[i])
  }

  /** A cut at `i` separates a surrogate pair or a CRLF. */
  predicate Splits(text: seq<Unit>, i: int) {
    SplitsPair(text, i) || (0 < i < |text| && text[i - 1] == CR && text[i] == LF)
  }

  /** The nearest cut at or just before `end` that separates nothing. */
  function SafeEnd(text: seq<Unit>, end: nat): (r: nat)
    ensures !Splits(text, r)
    ensures r == end || (r == end - 1 && Splits(text, end))
  {
    if 0 < end < |text| && High(text[end - 1]) && Low(text[end]) then end - 1
    else if 0 < end < |text| && text[end - 1] == CR && text[end] == LF then end - 1
    else end
  }

  /** Units taken by the code point at `i`, as string iteration counts them. */
  function CharLength(text: seq<Unit>, i: nat): (n: nat)
    requires i < |text|
    ensures 1 <= n <= 2 && i + n <= |text|
  {
    if High(text[i]) && i + 1 < |text| && Low(text[i + 1]) then 2 else 1
  }
}
