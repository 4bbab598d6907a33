/** Where letters lie in the byte buffer of a pending word. */
module WordBuffer {
  import opened Common
  import opened Utf8
  import opened WordPiece

  /** Byte position of letter `k`. */
  function At(w: seq<CodePoint>, k: nat): nat
    requires k <= |w|
  {
    |EncodeAll(w[..k])|
  }

  lemma EncodeOne(cp: CodePoint)
    ensures EncodeAll([cp]) == Encode(cp)
  {
    hide Encode;
    assert EncodeAll([]) == [];
    assert [cp][1..] == [];
    assert Encode(cp) + [] == Encode(cp);
  }

  lemma BytesBetween(w: seq<CodePoint>, k: nat, e: nat)
    requires k <= e <= |w|
    ensures At(w, 0) == 0 && At(w, |w|) == |EncodeAll(w)|
    ensures At(w, k) <= At(w, e) <= |EncodeAll(w)|
    ensures EncodeAll(w)[At(w, k)..At(w, e)] == EncodeAll(w[k..e])
  {
    hide Encode, EncodeAll;
    assert w[..0] == [] && w[..|w|] == w;
    assert EncodeAll([]) == [] by { EncodeNone(); }
    EncodeAppend(w[..k], w[k..e]);
    assert w[..e] == w[..k] + w[k..e];
    EncodeAppend(w[..e], w[e..]);
    assert w == w[..e] + w[e..];
    assert EncodeAll(w) == EncodeAll(w[..k]) + EncodeAll(w[k..e]) + EncodeAll(w[e..]);
  }

  lemma EncodeNone()
    ensures EncodeAll([]) == []
  {
  }

  /** Letter `k` starts with the one byte that does not continue another. */
  lemma LetterShape(w: seq<CodePoint>, k: nat)
    requires k < |w|
    ensures At(w, k) < At(w, k + 1) <= |EncodeAll(w)| && At(w, k + 1) <= At(w, k) + 4
    ensures !Continuation(EncodeAll(w)[At(w, k)])
    ensures forall i :: At(w, k) < i < At(w, k + 1) ==> Continuation(EncodeAll(w)[i])
  {
    hide Encode, EncodeAll, Continuation;
    BytesBetween(w, k, k + 1);
    assert w[k..k + 1] == [w[k]];
    EncodeOne(w[k]);
    EncodeShape(w[k]);
    var e := Encode(w[k]);
    var lo, hi := At(w, k), At(w, k + 1);
    assert EncodeAll(w)[lo..hi] == e;
    forall i | lo < i < hi
      ensures Continuation(EncodeAll(w)[i])
    {
      assert EncodeAll(w)[lo..hi][i - lo] == e[i - lo];
    }
    assert EncodeAll(w)[lo..hi][0] == e[0];
  }

  /** Only a letter boundary is both at most `At(e)` and not a continuation byte. */
  lemma BoundaryFirst(w: seq<CodePoint>, k: nat)
    requires k <= |w|
    ensures At(w, k) == 0 <==> k == 0
    ensures k <= At(w, k) <= 4 * k
  {
    hide Encode;
  }

  lemma AtWhole(w: seq<CodePoint>, k: nat)
    requires k <= |w|
    ensures At(w, k) == |EncodeAll(w)| <==> k == |w|
  {
    BytesBetween(w, k, |w|);
    if k < |w| {
      LetterShape(w, k);
    }
  }

  // ----- spans, one per byte -----

  function Repeat(span: Span, n: nat): (r: seq<Span>)
    ensures |r| == n && forall i :: 0 <= i < n ==> r[i] == span
  {
    seq(n, _ => span)
  }

  function Spread(cs: seq<Char>): (r: seq<Span>)
    ensures |r| == |EncodeAll(Cps(cs))|
  {
    if cs == [] then EncodeNone(); []
    else
      var last := |cs| - 1;
      var front := Cps(cs[..last]);
      assert Cps(cs) == front + [cs[last].cp];
      EncodeAppend(front, [cs[last].cp]);
      EncodeOne(cs[last].cp);
      Spread(cs[..last]) + Repeat(cs[last].span, |Encode(cs[last].cp)|)
  }

  lemma AppendWord(cs: seq<Char>, c: Char)
    ensures Cps(cs + [c]) == Cps(cs) + [c.cp]
    ensures EncodeAll(Cps(cs + [c])) == EncodeAll(Cps(cs)) + Encode(c.cp)
    ensures Spread(cs + [c]) == Spread(cs) + Repeat(c.span, |Encode(c.cp)|)
  {
    hide Encode;
    assert Cps(cs + [c]) == Cps(cs) + [c.cp];
    EncodeAppend(Cps(cs), [c.cp]);
    EncodeOne(c.cp);
    assert (cs + [c])[..|cs|] == cs;
  }

  /** The span stored at the first and last byte of a letter is the letter's. */
  lemma {:induction false} SpreadAt(cs: seq<Char>, k: nat)
    requires k < |cs|
    ensures var w := Cps(cs);
      && At(w, k) < At(w, k + 1) <= |Spread(cs)|
      && Spread(cs)[At(w, k)] == cs[k].span && Spread(cs)[At(w, k + 1) - 1] == cs[k].span
    decreases |cs|
  {
    hide Encode, EncodeAll;
    var w := Cps(cs);
    var last := |cs| - 1;
    var front := cs[..last];
    assert Cps(front) == w[..last];
    assert cs == front + [cs[last]];
    AppendWord(front, cs[last]);
    LetterShape(w, k);
    BytesBetween(w, 0, |w|);
    if k < last {
      SpreadAt(front, k);
      assert Cps(front)[..k] == w[..k] && Cps(front)[..k + 1] == w[..k + 1];
    } else {
      assert w[..last] == Cps(front) && w[..last + 1] == w;
    }
  }
}
