/** Little-endian integers in byte sequences, as packages/quixi-embed/native/internal.h
    reads them and `struct.pack` writes them. */
module Bytes {
  import opened Common
  import opened Utf8

  const TWO32 := 0x1_0000_0000
  const TWO64 := 0x1_0000_0000_0000_0000

  function U32(data: seq<Byte>, at: nat): (v: nat)
    requires at + 4 <= |data|
    ensures v < TWO32
  {
    data[at] as int + 0x100 * (data[at + 1] as int) + 0x10000 * (data[at + 2] as int) + 0x1000000 * (data[at + 3] as int)
  }

  function Pack32(v: nat): (b: seq<Byte>)
    requires v < TWO32
    ensures |b| == 4
  {
    [v % 0x100, v / 0x100 % 0x100, v / 0x10000 % 0x100, v / 0x1000000]
  }

  lemma Unpack32(v: nat)
    requires v < TWO32
    ensures U32(Pack32(v), 0) == v
  {
    var b := v / 0x100;
    var c := b / 0x100;
    assert v == v % 0x100 + 0x100 * b;
    assert b == b % 0x100 + 0x100 * c;
    assert c == v / 0x10000 && c / 0x100 == v / 0x1000000;
    assert c == c % 0x100 + 0x100 * (c / 0x100);
  }

  function U64(data: seq<Byte>, at: nat): nat
    requires at + 8 <= |data|
  {
    U32(data, at) + TWO32 * U32(data, at + 4)
  }

  function Pack64(v: nat): (b: seq<Byte>)
    requires v < TWO64
    ensures |b| == 8
  {
    Pack32(v % TWO32) + Pack32(v / TWO32)
  }

  /** A stretch of the data that holds a packed value reads as that value. */
  lemma Read32(data: seq<Byte>, at: nat, v: nat)
    requires v < TWO32 && at + 4 <= |data| && data[at..at + 4] == Pack32(v)
    ensures U32(data, at) == v
  {
    hide Pack32;
    Unpack32(v);
    var b := data[at..at + 4];
    assert forall k :: 0 <= k < 4 ==> b[k] == data[at + k];
  }

  lemma Read64(data: seq<Byte>, at: nat, v: nat)
    requires v < TWO64 && at + 8 <= |data| && data[at..at + 8] == Pack64(v)
    ensures U64(data, at) == v
  {
    hide Pack32, U32;
    var b := data[at..at + 8];
    assert data[at..at + 4] == b[..4] == Pack32(v % TWO32);
    assert data[at + 4..at + 8] == b[4..] == Pack32(v / TWO32);
    Read32(data, at, v % TWO32);
    Read32(data, at + 4, v / TWO32);
  }

  /** Four bytes are the packing of what they read as. */
  lemma Repack32(data: seq<Byte>, at: nat)
    requires at + 4 <= |data|
    ensures Pack32(U32(data, at)) == data[at..at + 4]
  {
    var a, b, c, d := data[at] as int, data[at + 1] as int, data[at + 2] as int, data[at + 3] as int;
    var v := U32(data, at);
    assert v == a + 0x100 * (b + 0x100 * (c + 0x100 * d));
    assert v / 0x100 == b + 0x100 * (c + 0x100 * d) && v % 0x100 == a;
    assert v / 0x10000 == c + 0x100 * d && v / 0x100 % 0x100 == b;
    assert v / 0x1000000 == d && v / 0x10000 % 0x100 == c;
  }

  lemma Repack64(data: seq<Byte>, at: nat)
    requires at + 8 <= |data|
    ensures U64(data, at) < TWO64 && Pack64(U64(data, at)) == data[at..at + 8]
  {
    hide U32, Pack32;
    var low, high := U32(data, at), U32(data, at + 4);
    Repack32(data, at);
    Repack32(data, at + 4);
    Halves(low, high);
    assert data[at..at + 8] == data[at..at + 4] + data[at + 4..at + 8];
  }

  lemma Halves(low: nat, high: nat)
    requires low < TWO32 && high < TWO32
    ensures var v := low + TWO32 * high; v < TWO64 && v % TWO32 == low && v / TWO32 == high
  {
  }
}
