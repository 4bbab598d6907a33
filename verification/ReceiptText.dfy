/** The JSON text of a thinking block and of its receipt, as packages/providers/src/generation.ts
    stores it, and its size. */
module ReceiptText {
  import opened Common
  import opened Utf16
  import opened Utf8
  import opened ByteCounts
  import opened JsonText
  import opened Normalizer
  import opened Receipts

  /** The scalars of a literal, all below 128. */
  function Ascii(s: string): (r: seq<CodePoint>)
    ensures |r| == |s| && forall k :: 0 <= k < |s| ==> r[k] < 128 && (s[k] < 128 as char ==> r[k] == s[k] as int)
  {
    seq(|s|, k requires 0 <= k < |s| => if s[k] < 128 as char then s[k] as int else 0)
  }

  function Decimal(n: nat): seq<CodePoint> { if n < 10 then [48 + n] else Decimal(n / 10) + [48 + n % 10] }

  function Quoted(t: Text): seq<CodePoint> { [34] + Escaped(t) + [34] }

  function BlockText(b: Block): seq<CodePoint> {
    match b
    case Thinking(thinking, signature) =>
      Ascii("{\"type\":\"thinking\",\"thinking\":") + Quoted(thinking) + Ascii(",\"signature\":") + Quoted(signature) + Ascii("}")
    case Redacted(data) => Ascii("{\"type\":\"redacted_thinking\",\"data\":") + Quoted(data) + Ascii("}")
  }

  /** The generation and the message under their ids. */
  function Identities(generation: Text, message: Text, r: Receipt): seq<CodePoint> {
    Ascii("{\"version\":1,\"protocol\":\"anthropic\",\"generationId\":") + Quoted(generation)
    + Ascii(",\"outputMessageId\":") + Quoted(message) + Ascii(",\"responseId\":") + Quoted(r.responseId)
    + Ascii(",\"model\":") + Quoted(r.model)
    + Ascii(",\"returnedModel\":") + (if r.returnedModel.Some? then Quoted(r.returnedModel.value) else Ascii("null"))
  }

  function Places(r: Receipt): seq<CodePoint> {
    Ascii(",\"index\":") + Decimal(r.index) + Ascii(",\"source\":{\"startRecord\":") + Decimal(r.start)
    + Ascii(",\"endRecord\":") + Decimal(r.end) + Ascii(",\"rawSegmentsThroughCheckpoint\":") + Decimal(r.segments)
    + Ascii(",\"rawBytesThroughCheckpoint\":") + Decimal(r.bytes) + Ascii("}")
  }

  function Written(generation: Text, message: Text, r: Receipt): seq<CodePoint> {
    Identities(generation, message, r) + Places(r) + Ascii(",\"block\":") + BlockText(r.block) + Ascii("}")
  }

  function Size(cps: seq<CodePoint>): nat { |EncodeAll(cps)| }

  lemma SizeAdds(a: seq<CodePoint>, b: seq<CodePoint>)
    ensures Size(a + b) == Size(a) + Size(b)
  {
    EncodeAppend(a, b);
  }

  /** Every scalar below 128 is one byte. */
  lemma {:induction false} NarrowSize(cps: seq<CodePoint>)
    requires forall k :: 0 <= k < |cps| ==> cps[k] < 128
    ensures Size(cps) == |cps|
  {
    hide EncodeAll;
    if cps == [] {
      NothingEncoded();
    } else {
      NarrowSize(cps[1..]);
      EncodeFirst(cps);
    }
  }

  lemma AsciiSize(s: string)
    ensures Size(Ascii(s)) == |s|
  {
    NarrowSize(Ascii(s));
  }

  lemma {:induction false} DecimalSize(n: nat)
    ensures Size(Decimal(n)) == Digits(n)
  {
    hide Size;
    NarrowSize([48 + n % 10]);
    if n >= 10 {
      DecimalSize(n / 10);
      SizeAdds(Decimal(n / 10), [48 + n % 10]);
    }
  }

  lemma QuotedSize(t: Text)
    ensures Size(Quoted(t)) == 2 + JsonBody(t)
  {
    JsonBodyIs(t);
    NarrowSize([34]);
    SizeAdds([34], Escaped(t));
    SizeAdds([34] + Escaped(t), [34]);
  }

  /** The bytes counted for a block are those of its JSON text. */
  lemma BlockBytesAre(b: Block)
    ensures Size(BlockText(b)) == BlockBytes(b)
  {
    hide Size, JsonBody, Quoted, Ascii;
    match b
    case Thinking(thinking, signature) =>
      var a, c := Ascii("{\"type\":\"thinking\",\"thinking\":"), Ascii(",\"signature\":");
      QuotedSize(thinking);
      QuotedSize(signature);
      AsciiSize("{\"type\":\"thinking\",\"thinking\":");
      AsciiSize(",\"signature\":");
      AsciiSize("}");
      SizeAdds(a, Quoted(thinking));
      SizeAdds(a + Quoted(thinking), c);
      SizeAdds(a + Quoted(thinking) + c, Quoted(signature));
      SizeAdds(a + Quoted(thinking) + c + Quoted(signature), Ascii("}"));
    case Redacted(data) =>
      var a := Ascii("{\"type\":\"redacted_thinking\",\"data\":");
      QuotedSize(data);
      AsciiSize("{\"type\":\"redacted_thinking\",\"data\":");
      AsciiSize("}");
      SizeAdds(a, Quoted(data));
      SizeAdds(a + Quoted(data), Ascii("}"));
  }

  lemma IdentitiesSize(generation: Text, message: Text, r: Receipt)
    ensures Size(Identities(generation, message, r)) ==
      118 + JsonBody(generation) + JsonBody(message) + JsonBody(r.responseId) + JsonBody(r.model)
      + (if r.returnedModel.Some? then 2 + JsonBody(r.returnedModel.value) else 4)
  {
    hide Size, JsonBody, Quoted, Ascii;
    var a, b, c, d := Ascii("{\"version\":1,\"protocol\":\"anthropic\",\"generationId\":"), Quoted(generation), Ascii(",\"outputMessageId\":"), Quoted(message);
    var e, f, g, h := Ascii(",\"responseId\":"), Quoted(r.responseId), Ascii(",\"model\":"), Quoted(r.model);
    var i, j := Ascii(",\"returnedModel\":"), if r.returnedModel.Some? then Quoted(r.returnedModel.value) else Ascii("null");
    AsciiSize("{\"version\":1,\"protocol\":\"anthropic\",\"generationId\":");
    AsciiSize(",\"outputMessageId\":");
    AsciiSize(",\"responseId\":");
    AsciiSize(",\"model\":");
    AsciiSize(",\"returnedModel\":");
    AsciiSize("null");
    QuotedSize(generation);
    QuotedSize(message);
    QuotedSize(r.responseId);
    QuotedSize(r.model);
    if r.returnedModel.Some? {
      QuotedSize(r.returnedModel.value);
    }
    SizeAdds(a, b);
    SizeAdds(a + b, c);
    SizeAdds(a + b + c, d);
    SizeAdds(a + b + c + d, e);
    SizeAdds(a + b + c + d + e, f);
    SizeAdds(a + b + c + d + e + f, g);
    SizeAdds(a + b + c + d + e + f + g, h);
    SizeAdds(a + b + c + d + e + f + g + h, i);
    SizeAdds(a + b + c + d + e + f + g + h + i, j);
  }

  lemma PlacesSize(r: Receipt)
    ensures Size(Places(r)) == 109 + Digits(r.index) + Digits(r.start) + Digits(r.end) + Digits(r.segments) + Digits(r.bytes)
  {
    hide Size, Digits, Decimal, Ascii;
    var a, b, c, d := Ascii(",\"index\":"), Decimal(r.index), Ascii(",\"source\":{\"startRecord\":"), Decimal(r.start);
    var e, f, g, h := Ascii(",\"endRecord\":"), Decimal(r.end), Ascii(",\"rawSegmentsThroughCheckpoint\":"), Decimal(r.segments);
    var i, j := Ascii(",\"rawBytesThroughCheckpoint\":"), Decimal(r.bytes);
    AsciiSize(",\"index\":");
    AsciiSize(",\"source\":{\"startRecord\":");
    AsciiSize(",\"endRecord\":");
    AsciiSize(",\"rawSegmentsThroughCheckpoint\":");
    AsciiSize(",\"rawBytesThroughCheckpoint\":");
    AsciiSize("}");
    DecimalSize(r.index);
    DecimalSize(r.start);
    DecimalSize(r.end);
    DecimalSize(r.segments);
    DecimalSize(r.bytes);
    SizeAdds(a, b);
    SizeAdds(a + b, c);
    SizeAdds(a + b + c, d);
    SizeAdds(a + b + c + d, e);
    SizeAdds(a + b + c + d + e, f);
    SizeAdds(a + b + c + d + e + f, g);
    SizeAdds(a + b + c + d + e + f + g, h);
    SizeAdds(a + b + c + d + e + f + g + h, i);
    SizeAdds(a + b + c + d + e + f + g + h + i, j);
    SizeAdds(a + b + c + d + e + f + g + h + i + j, Ascii("}"));
  }

  /** An id: hexadecimal digits and dashes. */
  predicate Uuid(t: Text) { |t| == 36 && forall u :: u in t ==> 48 <= u <= 57 || 97 <= u <= 102 || u == 45 }

  lemma {:induction false} UuidBytes(t: Text)
    requires forall u :: u in t ==> 48 <= u <= 57 || 97 <= u <= 102 || u == 45
    ensures JsonBody(t) == |t|
  {
    if t != [] {
      assert t[0] in t && forall u :: u in t[1..] ==> u in t;
      UuidBytes(t[1..]);
    }
  }

  /** The bytes counted for a receipt are those of its JSON text. */
  lemma ReceiptBytesAre(generation: Text, message: Text, r: Receipt)
    requires Uuid(generation) && Uuid(message)
    ensures Size(Written(generation, message, r)) == ReceiptBytes(r)
  {
    hide Size, JsonBody, Identities, Places, BlockText, Ascii, Digits, BlockBytes;
    UuidBytes(generation);
    UuidBytes(message);
    IdentitiesSize(generation, message, r);
    PlacesSize(r);
    BlockBytesAre(r.block);
    AsciiSize(",\"block\":");
    AsciiSize("}");
    var a, b, c, d := Identities(generation, message, r), Places(r), Ascii(",\"block\":"), BlockText(r.block);
    SizeAdds(a, b);
    SizeAdds(a + b, c);
    SizeAdds(a + b + c, d);
    SizeAdds(a + b + c + d, Ascii("}"));
  }
}
