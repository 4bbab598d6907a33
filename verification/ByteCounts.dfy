/** Encoded sizes of strings: UTF-8 as a text encoder writes it, and JSON text as
    `jsonByteLength` of packages/core/src/contracts/serialization.ts counts it. */
module ByteCounts {
  import opened Common
  import opened Utf16

  /** UTF-8 length, an unpaired surrogate counting as its replacement. */
  function Utf8Length(t: seq<Unit>): nat
    decreases |t|
  {
    if t == [] then 0
    else if CharLength(t, 0) == 2 then 4 + Utf8Length(t[2..])
    else (if t[0] < 0x80 then 1 else if t[0] < 0x800 then 2 else 3) + Utf8Length(t[1..])
  }

  /** One unit that is not half of a pair, inside a JSON string. */
  function EscapedLength(u: Unit): nat {
    if u == 34 || u == 92 || u in {8, 9, 10, 12, 13} then 2
    else if u < 32 then 6
    else if High(u) || Low(u) then 6
    else if u < 0x80 then 1
    else if u < 0x800 then 2
    else 3
  }

  /** A JSON string without its quotes. */
  function JsonBody(t: seq<Unit>): nat
    decreases |t|
  {
    if t == [] then 0
    else if CharLength(t, 0) == 2 then 4 + JsonBody(t[2..])
    else EscapedLength(t[0]) + JsonBody(t[1..])
  }

  /** Joining strings never takes more bytes than its parts: only a pair split between
      them changes the count, and it shrinks. */
  lemma {:induction false} Utf8Subadditive(a: seq<Unit>, b: seq<Unit>)
    ensures Utf8Length(a + b) <= Utf8Length(a) + Utf8Length(b)
    decreases |a|
  {
    if a == [] {
      assert a + b == b;
    } else {
      var n := CharLength(a + b, 0);
      if n <= |a| {
        assert CharLength(a, 0) == n;
        assert (a + b)[n..] == a[n..] + b;
        Utf8Subadditive(a[n..], b);
      } else {
        assert (a + b)[2..] == b[1..];
        assert a[1..] == [];
        assert CharLength(b, 0) == 1;
      }
    }
  }

  lemma {:induction false} JsonSubadditive(a: seq<Unit>, b: seq<Unit>)
    ensures JsonBody(a + b) <= JsonBody(a) + JsonBody(b)
    decreases |a|
  {
    hide EscapedLength;
    if a == [] {
      assert a + b == b;
    } else {
      var n := CharLength(a + b, 0);
      if n <= |a| {
        assert CharLength(a, 0) == n;
        assert (a + b)[n..] == a[n..] + b;
        JsonSubadditive(a[n..], b);
      } else {
        assert (a + b)[2..] == b[1..];
        assert a[1..] == [];
        assert CharLength(b, 0) == 1;
        SurrogateEscapes(a[0]);
        SurrogateEscapes(b[0]);
      }
    }
  }

  lemma SurrogateEscapes(u: Unit)
    requires High(u) || Low(u)
    ensures EscapedLength(u) == 6
  {
  }

  // ----- sums over maps -----

  ghost function Total(m: map<nat, nat>): nat {
    if m == map[] then 0
    else
      var k :| k in m;
      assert |m - {k}| < |m| by { assert m.Keys == (m - {k}).Keys + {k}; }
      m[k] + Total(m - {k})
  }

  /** A total can be taken apart at any key. */
  lemma {:induction false} TotalAt(m: map<nat, nat>, k: nat)
    requires k in m
    ensures Total(m) == m[k] + Total(m - {k})
    decreases |m|
  {
    var first :| first in m && Total(m) == m[first] + Total(m - {first});
    if first != k {
      assert |m - {first}| < |m| by { assert m.Keys == (m - {first}).Keys + {first}; }
      TotalAt(m - {first}, k);
      assert |m - {k}| < |m| by { assert m.Keys == (m - {k}).Keys + {k}; }
      TotalAt(m - {k}, first);
      assert m - {first} - {k} == m - {k} - {first};
    }
  }

  lemma TotalAdded(m: map<nat, nat>, k: nat, v: nat)
    ensures Total(m[k := v]) == v + Total(m - {k})
    ensures k !in m ==> Total(m[k := v]) == v + Total(m)
  {
    TotalAt(m[k := v], k);
    assert m[k := v] - {k} == m - {k};
    if k !in m {
      assert m - {k} == m;
    }
  }
}
