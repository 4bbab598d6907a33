/** What every part of the model shares. */
module Common {

  datatype Option<+T> = None | Some(value: T)

  function Min(a: int, b: int): int { if a < b then a else b }

  function Max(a: int, b: int): int { if a < b then b else a }

  lemma Slice<T>(s: seq<T>, lo: nat, hi: nat, a: nat, b: nat)
    requires lo <= hi <= |s| && a <= b <= hi - lo
    ensures s[lo..hi][a..b] == s[lo + a..lo + b]
  {
    var l, r := s[lo..hi][a..b], s[lo + a..lo + b];
    assert |l| == |r| && forall k :: 0 <= k < |l| ==> l[k] == r[k];
  }
}
