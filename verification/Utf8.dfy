/** The UTF-8 codec of packages/quixi-embed/native/tokenizer.c (section 4 of RFC 3629).
    Masks and shifts are written as the subtractions and
    products they are once the byte's leading bits are known. */
module Utf8 {
  import opened Common

  type Byte = b: nat | b < 256

  const REPLACEMENT := 0xFFFD

  predicate Scalar(cp: int) { 0 <= cp < 0xD800 || 0xE000 <= cp < 0x110000 }

  /** A Unicode scalar value. */
  type CodePoint = cp: nat | cp < 0xD800 || 0xE000 <= cp < 0x110000

  function Encode(cp: CodePoint): (b: seq<Byte>)
    ensures 1 <= |b| <= 4
  {
    if cp < 0x80 then [cp]
    else if cp < 0x800 then [0xC0 + cp / 64, 0x80 + cp % 64]
    else
      var upper := cp / 64;
      if cp < 0x10000 then [0xE0 + upper / 64, 0x80 + upper % 64, 0x80 + cp % 64]
      else
        var top := upper / 64;
        [0xF0 + top / 64, 0x80 + top % 64, 0x80 + upper % 64, 0x80 + cp % 64]
  }

  datatype Decoded = Decoded(cp: nat, next: nat) | Malformed

  predicate Continuation(b: Byte) { 0x80 <= b < 0xC0 }

  /** The six low bits of a continuation byte. */
  function Low(b: Byte): (v: int)
    ensures Continuation(b) ==> 0 <= v < 64
  {
    b - 0x80
  }

  /** The value bits of a lead byte that announces `n` bytes. */
  function LeadBits(b: Byte, n: nat): int {
    if n == 1 then b else if n == 2 then b - 0xC0 else if n == 3 then b - 0xE0 else b - 0xF0
  }

  /** `n` continuation bytes from `i`, folded into `value`. */
  function Continue(bytes: seq<Byte>, i: nat, n: nat, value: nat): Decoded
    decreases n
  {
    if n == 0 then Decoded(value, i)
    else if i < |bytes| && Continuation(bytes[i]) then Continue(bytes, i + 1, n - 1, value * 64 + Low(bytes[i]))
    else Malformed
  }

  function Decode(bytes: seq<Byte>, i: nat): (d: Decoded)
    requires i < |bytes|
    ensures d.Decoded? ==> Scalar(d.cp)
  {
    var b := bytes[i];
    if b < 0x80 then Decoded(b, i + 1)
    else if 0xC2 <= b <= 0xDF then Checked(Continue(bytes, i + 1, 1, LeadBits(b, 2)), 0x80)
    else if 0xE0 <= b <= 0xEF then Checked(Continue(bytes, i + 1, 2, LeadBits(b, 3)), 0x800)
    else if 0xF0 <= b <= 0xF4 then Checked(Continue(bytes, i + 1, 3, LeadBits(b, 4)), 0x10000)
    else Malformed
  }

  function Checked(d: Decoded, minimum: nat): Decoded {
    if d.Malformed? || d.cp < minimum || !Scalar(d.cp) then Malformed else d
  }

  /** The loop of `decode`, which stops at the first byte that does not continue. */
  method DecodeNext(bytes: seq<Byte>, cursor: nat) returns (d: Decoded)
    requires cursor < |bytes|
    ensures d == Decode(bytes, cursor)
  {
    var b := bytes[cursor];
    var at := cursor + 1;
    if b < 0x80 {
      return Decoded(b, at);
    }
    var continuation: nat, value: nat, minimum: nat;
    if 0xC2 <= b <= 0xDF {
      continuation, value, minimum := 1, LeadBits(b, 2), 0x80;
    } else if 0xE0 <= b <= 0xEF {
      continuation, value, minimum := 2, LeadBits(b, 3), 0x800;
    } else if 0xF0 <= b <= 0xF4 {
      continuation, value, minimum := 3, LeadBits(b, 4), 0x10000;
    } else {
      return Malformed;
    }
    if continuation > |bytes| - at {
      ContinueShort(bytes, at, continuation, value);
      return Malformed;
    }
    ghost var whole := Continue(bytes, at, continuation, value);
    var i := 0;
    while i < continuation
      invariant 0 <= i <= continuation && at + (continuation - i) <= |bytes|
      invariant Continue(bytes, at, continuation - i, value) == whole
    {
      var next := bytes[at];
      if !Continuation(next) {
        return Malformed;
      }
      at, value, i := at + 1, value * 64 + Low(next), i + 1;
    }
    return Checked(Decoded(value, at), minimum);
  }

  lemma {:induction false} ContinueShort(bytes: seq<Byte>, i: nat, n: nat, value: nat)
    requires n > |bytes| - i && i <= |bytes|
    ensures Continue(bytes, i, n, value) == Malformed
    decreases n
  {
    if i < |bytes| && Continuation(bytes[i]) {
      ContinueShort(bytes, i + 1, n - 1, value * 64 + Low(bytes[i]));
    }
  }

  /** The value one to four bytes stand for. */
  function Value(b: seq<Byte>): int
    requires 1 <= |b| <= 4
  {
    var v1 := LeadBits(b[0], |b|);
    if |b| == 1 then v1
    else
      var v2 := v1 * 64 + Low(b[1]);
      if |b| == 2 then v2
      else
        var v3 := v2 * 64 + Low(b[2]);
        if |b| == 3 then v3 else v3 * 64 + Low(b[3])
  }

  predicate Tails(bytes: seq<Byte>, from: nat, to: nat)
    requires to <= |bytes|
  {
    forall k :: from <= k < to ==> Continuation(bytes[k])
  }

  /** Length announced by a lead byte; 0 when it cannot lead. */
  function LeadLength(b: Byte): nat {
    if b < 0x80 then 1 else if 0xC2 <= b <= 0xDF then 2 else if 0xE0 <= b <= 0xEF then 3 else if 0xF0 <= b <= 0xF4 then 4 else 0
  }

  function Least(n: nat): nat {
    if n == 1 then 0 else if n == 2 then 0x80 else if n == 3 then 0x800 else 0x10000
  }

  /** Decoding in closed form. */
  lemma DecodeClosed(bytes: seq<Byte>, i: nat)
    requires i < |bytes|
    ensures var n := LeadLength(bytes[i]);
      Decode(bytes, i) ==
      if n == 0 || i + n > |bytes| || !Tails(bytes, i + 1, i + n) then Malformed
      else
        var v := Value(bytes[i..i + n]);
        if v < Least(n) || !Scalar(v) then Malformed else Decoded(v, i + n)
  {
    var n := LeadLength(bytes[i]);
    if n > 1 {
      var v := LeadBits(bytes[i], n);
      if i + n > |bytes| {
        ContinueShort(bytes, i + 1, n - 1, v);
      } else {
        ContinueClosed(bytes, i + 1, n - 1, v);
      }
    }
  }

  lemma ContinueClosed(bytes: seq<Byte>, i: nat, n: nat, v: nat)
    requires 1 <= n <= 3 && i + n <= |bytes|
    ensures Continue(bytes, i, n, v) ==
      if !Tails(bytes, i, i + n) then Malformed
      else
        var v1 := v * 64 + Low(bytes[i]);
        if n == 1 then Decoded(v1, i + 1)
        else
          var v2 := v1 * 64 + Low(bytes[i + 1]);
          if n == 2 then Decoded(v2, i + 2) else Decoded(v2 * 64 + Low(bytes[i + 2]), i + 3)
    decreases n
  {
    if Continuation(bytes[i]) && n > 1 {
      ContinueClosed(bytes, i + 1, n - 1, v * 64 + Low(bytes[i]));
    }
  }

  lemma EncodeValue(cp: CodePoint)
    ensures var e := Encode(cp);
      Value(e) == cp && LeadLength(e[0]) == |e| && Least(|e|) <= cp && Tails(e, 1, |e|)
  {
  }

  /** A byte sequence of the announced shape and value is the encoding of that value. */
  lemma ValueEncode(b: seq<Byte>)
    requires 1 <= |b| <= 4 && LeadLength(b[0]) == |b| && Tails(b, 1, |b|)
    requires Least(|b|) <= Value(b) && Scalar(Value(b))
    ensures Encode(Value(b)) == b
  {
    var v1 := LeadBits(b[0], |b|);
    if |b| > 1 {
      Shifted(v1, b[1]);
      var v2 := v1 * 64 + Low(b[1]);
      if |b| > 2 {
        Shifted(v2, b[2]);
        if |b| > 3 {
          Shifted(v2 * 64 + Low(b[2]), b[3]);
        }
      }
    }
  }

  lemma Shifted(v: int, b: Byte)
    requires 0 <= v && Continuation(b)
    ensures (v * 64 + Low(b)) / 64 == v && 0x80 + (v * 64 + Low(b)) % 64 == b
  {
  }

  /** Decoding what `Encode` wrote gives the scalar back, whatever follows. */
  lemma DecodeEncoded(bytes: seq<Byte>, i: nat, cp: CodePoint)
    requires i + |Encode(cp)| <= |bytes| && bytes[i..i + |Encode(cp)|] == Encode(cp)
    ensures Decode(bytes, i) == Decoded(cp, i + |Encode(cp)|)
  {
    hide Decode, Encode, Value;
    var e := Encode(cp);
    EncodeValue(cp);
    forall k | i + 1 <= k < i + |e|
      ensures Continuation(bytes[k])
    {
      assert bytes[k] == e[k - i];
    }
    assert bytes[i] == e[0];
    DecodeClosed(bytes, i);
  }

  /** Decoding accepts nothing else: overlong forms, surrogates and stray bytes fail. */
  lemma DecodeOnlyEncoded(bytes: seq<Byte>, i: nat)
    requires i < |bytes| && Decode(bytes, i).Decoded?
    ensures var d := Decode(bytes, i);
      Scalar(d.cp) && i < d.next <= |bytes| && bytes[i..d.next] == Encode(d.cp)
  {
    hide Decode, Encode, Value;
    DecodeClosed(bytes, i);
    var b := bytes[i..i + LeadLength(bytes[i])];
    assert b[0] == bytes[i] && forall k :: 0 <= k < |b| ==> b[k] == bytes[i + k];
    ValueEncode(b);
  }

  // ----- whole texts -----

  function EncodeAll(cps: seq<CodePoint>): (b: seq<Byte>)
    ensures |cps| <= |b| <= 4 * |cps|
  {
    if cps == [] then [] else Encode(cps[0]) + EncodeAll(cps[1..])
  }

  /** The scalars from `i` on, or nothing when the bytes are not well-formed. */
  function DecodeAll(bytes: seq<Byte>, i: nat): (r: Option<seq<CodePoint>>)
    requires i <= |bytes|
    decreases |bytes| - i
  {
    if i == |bytes| then Some([])
    else
      var d := Decode(bytes, i);
      if d.Malformed? || d.next > |bytes| || d.next <= i then None
      else
        var rest := DecodeAll(bytes, d.next);
        if rest.None? then None else Some([d.cp] + rest.value)
  }

  /** What decodes is the encoding of what it decodes to. */
  lemma {:induction false} DecodedIsEncoding(bytes: seq<Byte>, i: nat)
    requires i <= |bytes|
    ensures DecodeAll(bytes, i).Some? ==> EncodeAll(DecodeAll(bytes, i).value) == bytes[i..]
    decreases |bytes| - i
  {
    hide Decode, Encode, Scalar;
    if i < |bytes| && Decode(bytes, i).Decoded? {
      DecodeOnlyEncoded(bytes, i);
      var d := Decode(bytes, i);
      DecodedIsEncoding(bytes, d.next);
      var rest := DecodeAll(bytes, d.next);
      if rest.Some? {
        var all := [d.cp] + rest.value;
        assert all[1..] == rest.value;
        assert bytes[i..] == bytes[i..d.next] + bytes[d.next..];
      }
    }
  }

  lemma {:induction false} DecodeAllEncoded(bytes: seq<Byte>, i: nat, cps: seq<CodePoint>)
    requires i <= |bytes| && bytes[i..] == EncodeAll(cps)
    ensures DecodeAll(bytes, i) == Some(cps)
    decreases |cps|
  {
    hide Decode, Encode;
    if cps == [] {
      assert i == |bytes|;
    } else {
      var e := Encode(cps[0]);
      assert bytes[i..i + |e|] == bytes[i..][..|e|] == e;
      DecodeEncoded(bytes, i, cps[0]);
      assert bytes[i + |e|..] == bytes[i..][|e|..] == EncodeAll(cps[1..]);
      DecodeAllEncoded(bytes, i + |e|, cps[1..]);
      assert cps == [cps[0]] + cps[1..];
    }
  }

  /** The well-formed byte sequences are exactly the encodings of scalar sequences, each of
      one. */
  lemma WellFormedIffEncoding(bytes: seq<Byte>)
    ensures DecodeAll(bytes, 0).Some? <==> exists cps: seq<CodePoint> :: EncodeAll(cps) == bytes
    ensures forall a: seq<CodePoint>, b: seq<CodePoint> :: EncodeAll(a) == bytes == EncodeAll(b) ==> a == b
  {
    hide DecodeAll, EncodeAll;
    assert bytes[0..] == bytes;
    DecodedIsEncoding(bytes, 0);
    forall cps: seq<CodePoint> | EncodeAll(cps) == bytes
      ensures DecodeAll(bytes, 0) == Some(cps)
    {
      DecodeAllEncoded(bytes, 0, cps);
    }
  }

  lemma {:induction false} EncodeAppend(a: seq<CodePoint>, b: seq<CodePoint>)
    ensures EncodeAll(a + b) == EncodeAll(a) + EncodeAll(b)
    decreases |a|
  {
    hide Encode;
    if a == [] {
      assert a + b == b;
    } else {
      assert (a + b)[1..] == a[1..] + b;
      EncodeAppend(a[1..], b);
    }
  }

  /** Only the first byte of an encoding is not a continuation byte. */
  lemma EncodeShape(cp: CodePoint)
    ensures var e := Encode(cp);
      !Continuation(e[0]) && forall k :: 1 <= k < |e| ==> Continuation(e[k])
  {
    EncodeValue(cp);
  }

  lemma ThreeBytes(a: nat, b: nat, c: nat)
    requires b < 64 && c < 64 && Scalar(4096 * a + 64 * b + c) && 0x800 <= 4096 * a + 64 * b + c < 0x10000
    ensures Encode(4096 * a + 64 * b + c) == [0xE0 + a, 0x80 + b, 0x80 + c]
  {
    var cp := 4096 * a + 64 * b + c;
    assert cp % 64 == c && cp / 64 == 64 * a + b;
  }

  lemma FourBytes(a: nat, b: nat, c: nat, d: nat)
    requires b < 64 && c < 64 && d < 64 && 0x10000 <= 262144 * a + 4096 * b + 64 * c + d < 0x110000
    ensures Encode(262144 * a + 4096 * b + 64 * c + d) == [0xF0 + a, 0x80 + b, 0x80 + c, 0x80 + d]
  {
    var cp := 262144 * a + 4096 * b + 64 * c + d;
    assert cp % 64 == d && cp / 64 == 4096 * a + 64 * b + c;
    assert cp / 64 % 64 == c && cp / 64 / 64 == 64 * a + b;
  }

  /** The standard's table, digit by digit: six bits to every byte behind the first. */
  lemma EncodingTable(a: nat, b: nat, c: nat, d: nat)
    requires b < 64 && c < 64 && d < 64
    ensures a < 128 ==> Encode(a) == [a]
    ensures 2 <= a < 32 ==> Encode(64 * a + b) == [0xC0 + a, 0x80 + b]
    ensures Scalar(4096 * a + 64 * b + c) && 0x800 <= 4096 * a + 64 * b + c < 0x10000 ==>
      Encode(4096 * a + 64 * b + c) == [0xE0 + a, 0x80 + b, 0x80 + c]
    ensures 0x10000 <= 262144 * a + 4096 * b + 64 * c + d < 0x110000 ==>
      Encode(262144 * a + 4096 * b + 64 * c + d) == [0xF0 + a, 0x80 + b, 0x80 + c, 0x80 + d]
  {
    hide Encode;
    if Scalar(4096 * a + 64 * b + c) && 0x800 <= 4096 * a + 64 * b + c < 0x10000 {
      ThreeBytes(a, b, c);
    }
    if 0x10000 <= 262144 * a + 4096 * b + 64 * c + d < 0x110000 {
      FourBytes(a, b, c, d);
    }
    if 2 <= a < 32 {
      TwoBytes(a, b);
    }
    if a < 128 {
      OneByte(a);
    }
  }

  lemma OneByte(a: nat)
    requires a < 128
    ensures Encode(a) == [a]
  {
  }

  lemma TwoBytes(a: nat, b: nat)
    requires 2 <= a < 32 && b < 64
    ensures Encode(64 * a + b) == [0xC0 + a, 0x80 + b]
  {
  }
}
