/** The texts behind the counts of packages/core/src/contracts/serialization.ts: a string as
    UTF-8 and inside JSON text, as a text encoder and `JSON.stringify` write it. */
module JsonText {
  import opened Common
  import opened Utf16
  import opened Utf8
  import opened ByteCounts

  type Text = seq<Unit>

  /** The scalar of a surrogate pair. */
  function Pair(high: Unit, low: Unit): CodePoint
    requires High(high) && Utf16.Low(low)
  {
    0x10000 + (high - 0xD800) * 0x400 + (low - 0xDC00)
  }

  /** Scalars of a string, an unpaired surrogate becoming U+FFFD. */
  function Scalars(text: seq<Unit>): (cps: seq<CodePoint>)
    ensures |cps| <= |text|
    decreases |text|
  {
    if text == [] then []
    else if CharLength(text, 0) == 2 then
      [Pair(text[0], text[1])] + Scalars(text[2..])
    else
      [if High(text[0]) || Utf16.Low(text[0]) then REPLACEMENT else text[0]] + Scalars(text[1..])
  }

  lemma EncodeFirst(cps: seq<CodePoint>)
    requires cps != []
    ensures |EncodeAll(cps)| == |Encode(cps[0])| + |EncodeAll(cps[1..])|
  {
  }

  lemma ScalarsFirst(t: Text)
    requires t != []
    ensures Scalars(t) != [] && Scalars(t)[1..] == Scalars(t[CharLength(t, 0)..])
    ensures Scalars(t)[0] == if CharLength(t, 0) == 2 then Pair(t[0], t[1])
                             else if High(t[0]) || Utf16.Low(t[0]) then REPLACEMENT else t[0]
  {
  }

  /** The count is the length of the encoding. */
  lemma {:induction false} Utf8LengthIs(t: Text)
    ensures Utf8Length(t) == |EncodeAll(Scalars(t))|
    decreases |t|
  {
    hide Scalars, EncodeAll;
    if t == [] {
      NothingEncoded();
    } else {
      ScalarsFirst(t);
      EncodeFirst(Scalars(t));
      Utf8LengthIs(t[CharLength(t, 0)..]);
    }
  }

  lemma NothingEncoded()
    ensures Scalars([]) == [] && EncodeAll([]) == [] && Escaped([]) == []
  {
  }

  // ----- JSON strings, RFC 8259 section 7 -----

  function Hex(digit: nat): CodePoint
    requires digit < 16
  {
    if digit < 10 then 48 + digit else 87 + digit
  }

  /** One unit that is not half of a pair. */
  function Escape(u: Unit): (r: seq<CodePoint>)
    ensures |r| == 6 || |r| == 2 || |r| == 1
  {
    if u == 34 || u == 92 then [92, u]
    else if u == 8 then [92, 98]
    else if u == 9 then [92, 116]
    else if u == 10 then [92, 110]
    else if u == 12 then [92, 102]
    else if u == 13 then [92, 114]
    else if u < 32 || High(u) || Utf16.Low(u) then [92, 117, Hex(u / 4096), Hex(u / 256 % 16), Hex(u / 16 % 16), Hex(u % 16)]
    else [u]
  }

  /** A string inside its quotes. */
  function Escaped(t: Text): seq<CodePoint>
    decreases |t|
  {
    if t == [] then []
    else if CharLength(t, 0) == 2 then [Pair(t[0], t[1])] + Escaped(t[2..])
    else Escape(t[0]) + Escaped(t[1..])
  }

  lemma EscapeCosts(u: Unit)
    ensures |EncodeAll(Escape(u))| == EscapedLength(u)
  {
    hide EncodeAll;
    NothingEncoded();
    var e := Escape(u);
    EncodeFirst(e);
    if |e| > 1 {
      EncodeFirst(e[1..]);
      if |e| > 2 {
        EncodeFirst(e[2..]);
        EncodeFirst(e[3..]);
        EncodeFirst(e[4..]);
        EncodeFirst(e[5..]);
      }
    }
  }

  /** The count is the length of the encoded JSON text. */
  lemma {:induction false} JsonBodyIs(t: Text)
    ensures JsonBody(t) == |EncodeAll(Escaped(t))|
    decreases |t|
  {
    hide EncodeAll, Escape, EscapedLength;
    if t == [] {
      NothingEncoded();
    } else if CharLength(t, 0) == 2 {
      JsonBodyIs(t[2..]);
      EncodeFirst(Escaped(t));
      assert Escaped(t)[1..] == Escaped(t[2..]);
    } else {
      JsonBodyIs(t[1..]);
      EscapeCosts(t[0]);
      EncodeAppend(Escape(t[0]), Escaped(t[1..]));
    }
  }

  function Digit(cp: CodePoint): Option<nat> {
    if 48 <= cp <= 57 then Some(cp - 48) else if 97 <= cp <= 102 then Some(cp - 87) else if 65 <= cp <= 70 then Some(cp - 55) else None
  }

  function FourDigits(s: seq<CodePoint>): Option<Unit>
    requires |s| >= 4
  {
    var a, b, c, d := Digit(s[0]), Digit(s[1]), Digit(s[2]), Digit(s[3]);
    if a.Some? && b.Some? && c.Some? && d.Some? && a.value < 16 && b.value < 16 && c.value < 16 && d.value < 16
    then Some(((a.value * 16 + b.value) * 16 + c.value) * 16 + d.value) else None
  }

  /** The unit an escape stands for. */
  function Named(cp: CodePoint): Option<Unit> {
    if cp in {34, 47, 92} then Some(cp)
    else if cp == 98 then Some(8)
    else if cp == 102 then Some(12)
    else if cp == 110 then Some(10)
    else if cp == 114 then Some(13)
    else if cp == 116 then Some(9)
    else None
  }

  function Cons(u: Option<Unit>, rest: Option<Text>): Option<Text> {
    if u.Some? && rest.Some? then Some([u.value] + rest.value) else None
  }

  /** What a JSON parser reads between the quotes. */
  function Unescaped(s: seq<CodePoint>): Option<Text>
    decreases |s|
  {
    if s == [] then Some([])
    else if s[0] == 92 then
      if |s| == 1 then None
      else if s[1] != 117 then Cons(Named(s[1]), Unescaped(s[2..]))
      else if |s| < 6 then None
      else Cons(FourDigits(s[2..]), Unescaped(s[6..]))
    else if s[0] < 32 || s[0] == 34 then None
    else if s[0] < 0x10000 then Cons(Some(s[0]), Unescaped(s[1..]))
    else
      var n: int := s[0] as int - 0x10000;
      var high: Unit, low: Unit := 0xD800 + n / 0x400, 0xDC00 + n % 0x400;
      Cons(Some(high), Cons(Some(low), Unescaped(s[1..])))
  }

  lemma HexIsDigit(d: nat)
    requires d < 16
    ensures Digit(Hex(d)) == Some(d)
  {
  }

  lemma HexRead(u: Unit, rest: seq<CodePoint>)
    ensures FourDigits([Hex(u / 4096), Hex(u / 256 % 16), Hex(u / 16 % 16), Hex(u % 16)] + rest) == Some(u)
  {
    hide Hex, Digit;
    HexIsDigit(u / 4096);
    HexIsDigit(u / 256 % 16);
    HexIsDigit(u / 16 % 16);
    HexIsDigit(u % 16);
    HexSum(u);
  }

  lemma HexSum(u: Unit)
    ensures u / 4096 < 16 && ((u / 4096 * 16 + u / 256 % 16) * 16 + u / 16 % 16) * 16 + u % 16 == u
  {
    var a: nat, b: nat := u / 16, u / 256;
    assert u == a * 16 + u % 16;
    assert b == a / 16 && a == b * 16 + a % 16;
    assert u / 4096 == b / 16 && b == b / 16 * 16 + b % 16;
  }

  lemma EscapeRead(u: Unit, rest: seq<CodePoint>)
    ensures Unescaped(Escape(u) + rest) == Cons(Some(u), Unescaped(rest))
  {
    hide Hex, FourDigits;
    var s := Escape(u) + rest;
    if |Escape(u)| == 6 {
      assert s[2..] == [Hex(u / 4096), Hex(u / 256 % 16), Hex(u / 16 % 16), Hex(u % 16)] + rest;
      HexRead(u, rest);
      assert s[6..] == rest;
    } else if |Escape(u)| == 2 {
      assert s[2..] == rest;
    } else {
      assert s[1..] == rest;
    }
  }

  lemma PairRead(high: Unit, low: Unit, rest: seq<CodePoint>)
    requires High(high) && Utf16.Low(low)
    ensures Unescaped([Pair(high, low)] + rest) == Cons(Some(high), Cons(Some(low), Unescaped(rest)))
  {
    assert ([Pair(high, low)] + rest)[1..] == rest;
  }

  /** Every string, unpaired surrogates included, is read back from its JSON text. */
  lemma {:induction false} EscapedReadsBack(t: Text)
    ensures Unescaped(Escaped(t)) == Some(t)
    decreases |t|
  {
    hide Escape, Unescaped, Pair;
    if t == [] {
      NothingRead();
    } else if CharLength(t, 0) == 2 {
      EscapedReadsBack(t[2..]);
      PairRead(t[0], t[1], Escaped(t[2..]));
      assert t == [t[0]] + ([t[1]] + t[2..]);
    } else {
      EscapedReadsBack(t[1..]);
      EscapeRead(t[0], Escaped(t[1..]));
      assert t == [t[0]] + t[1..];
    }
  }

  lemma NothingRead()
    ensures Unescaped([]) == Some([])
  {
  }
}
