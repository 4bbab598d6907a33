/** What `normalizePdfPage` of packages/documents/src/layout.ts checks and measures before it
    lays a page out. */
module Intake {
  import opened Common
  import opened Layout

  const PAGE_ITEMS := 10000
  const PAGE_UNITS := 262144

  /** An item as it is handed over: an index that is no integer, and a number that is not
      finite, are None. */
  datatype Given = Given(index: Option<int>, str: Text, transform: seq<Option<real>>, width: Option<real>, height: Option<real>,
                         ltr: bool, endOfLine: bool, monospace: bool)

  predicate Sound(v: Given) {
    && v.index.Some? && 0 <= v.index.value < PAGE_ITEMS && |v.transform| == 6
    && (forall k :: 0 <= k < 6 ==> v.transform[k].Some?) && v.width.Some? && v.height.Some?
  }

  predicate IsSound(v: Given, i: int, t: seq<real>, width: real, height: real) {
    && 0 <= i < 10000 && v.index == Some(i) && v.width == Some(width) && v.height == Some(height)
    && |t| == 6 && v.transform == [Some(t[0]), Some(t[1]), Some(t[2]), Some(t[3]), Some(t[4]), Some(t[5])]
  }

  /** A sound item has an index below 10,000 and eight finite numbers: six of its transform, its
      width and its height. */
  lemma SoundIs(v: Given)
    ensures Sound(v) <==> exists i, t, width, height :: IsSound(v, i, t, width, height)
  {
    if Sound(v) {
      var t := [v.transform[0].value, v.transform[1].value, v.transform[2].value, v.transform[3].value, v.transform[4].value, v.transform[5].value];
      assert IsSound(v, v.index.value, t, v.width.value, v.height.value);
    }
    if i, t, width, height :| IsSound(v, i, t, width, height) {
      assert |v.transform| == 6;
    }
  }

  /** The item's extent; `hypot` is the length of a vector. */
  function Scale(v: Given, hypot: (real, real) -> real): Extent
    requires Sound(v)
  {
    MaxR(0.001, MaxR(hypot(v.transform[2].value, v.transform[3].value), Abs(v.height.value)))
  }

  function Measured(v: Given, hypot: (real, real) -> real): Item
    requires Sound(v)
  {
    var size := Scale(v, hypot);
    var tilt := MaxR(Abs(v.transform[1].value), Abs(v.transform[2].value));
    var upright := v.transform[0].value > 0.0 && v.transform[3].value > 0.0 && tilt <= size * 0.01;
    Item(v.index.value, v.str, v.transform[4].value, v.transform[5].value, v.width.value, size, v.ltr, upright, v.endOfLine, v.monospace)
  }

  /** The extent is the largest of a thousandth, the given height, and the length of the glyphs'
      vertical; upright is what is neither mirrored nor turned by a hundredth of it. */
  lemma MeasuredIs(v: Given, hypot: (real, real) -> real)
    requires Sound(v)
    ensures var i, tall, a, b, c, d := Measured(v, hypot), v.height.value, v.transform[0].value, v.transform[1].value, v.transform[2].value, v.transform[3].value;
      var size: real, length := i.size, hypot(c, d);
      && size >= 0.001 && size >= tall && size >= 0.0 - tall && size >= length && size in {0.001, tall, 0.0 - tall, length}
      && (i.upright <==> a > 0.0 && d > 0.0 && 100.0 * b <= size && 0.0 - 100.0 * b <= size && 100.0 * c <= size && 0.0 - 100.0 * c <= size)
      && Some(i.x) == v.transform[4] && Some(i.y) == v.transform[5] && Some(i.width) == v.width
      && Some(i.index as int) == v.index && i.str == v.str && i.ltr == v.ltr && i.endOfLine == v.endOfLine && i.monospace == v.monospace
  {
  }

  function MeasuredAll(input: seq<Given>, hypot: (real, real) -> real): (items: seq<Item>)
    requires forall v :: v in input ==> Sound(v)
    ensures |items| == |input| && forall k :: 0 <= k < |items| ==> items[k] == Measured(input[k], hypot)
  {
    seq(|input|, k requires 0 <= k < |input| => Measured(input[k], hypot))
  }

  function GivenUnits(input: seq<Given>): nat {
    if input == [] then 0 else GivenUnits(input[..|input| - 1]) + |input[|input| - 1].str|
  }

  predicate TooMuch(input: seq<Given>) { |input| > PAGE_ITEMS || GivenUnits(input) > PAGE_UNITS }

  /** Some item is unsound, and the text up to and with it is within the budget. */
  predicate Spoiled(input: seq<Given>) {
    |input| <= PAGE_ITEMS && exists i :: 0 <= i < |input| && !Sound(input[i]) && GivenUnits(input[..i + 1]) <= PAGE_UNITS
  }

  lemma UnitsMore(input: seq<Given>, i: nat)
    requires i < |input|
    ensures GivenUnits(input[..i + 1]) == GivenUnits(input[..i]) + |input[i].str|
  {
    assert input[..i + 1][..i] == input[..i];
  }

  lemma {:induction false} UnitsGrow(input: seq<Given>, i: nat, j: nat)
    requires i <= j <= |input|
    ensures GivenUnits(input[..i]) <= GivenUnits(input[..j])
    decreases j
  {
    if i < j {
      UnitsMore(input, j - 1);
      UnitsGrow(input, i, j - 1);
    }
  }

  datatype Reading = Read(items: seq<Item>) | TooLong | Unsound

  /** The loop over the source items: the first that overruns the budget or is unsound decides. */
  method ReadItems(input: seq<Given>, hypot: (real, real) -> real) returns (reading: Reading)
    ensures reading.Unsound? <==> Spoiled(input)
    ensures reading.TooLong? <==> !Spoiled(input) && TooMuch(input)
    ensures reading.Read? ==> (forall v :: v in input ==> Sound(v)) && reading.items == MeasuredAll(input, hypot)
  {
    hide GivenUnits, Sound, Measured;
    if |input| > PAGE_ITEMS {
      return TooLong;
    }
    var units, items := 0, [];
    assert GivenUnits(input[..0]) == 0 by { NoUnits(); }
    for i := 0 to |input|
      invariant units == GivenUnits(input[..i]) <= PAGE_UNITS
      invariant forall k :: 0 <= k < i ==> Sound(input[k])
      invariant |items| == i && forall k :: 0 <= k < i ==> items[k] == Measured(input[k], hypot)
    {
      units := units + |input[i].str|;
      UnitsMore(input, i);
      if units > PAGE_UNITS {
        forall j | i < j <= |input|
          ensures GivenUnits(input[..j]) > PAGE_UNITS
        {
          UnitsGrow(input, i + 1, j);
        }
        assert input[..|input|] == input;
        return TooLong;
      }
      if !Sound(input[i]) {
        return Unsound;
      }
      items := items + [Measured(input[i], hypot)];
    }
    assert input[..|input|] == input;
    return Read(items);
  }

  lemma NoUnits()
    ensures GivenUnits([]) == 0
  {
  }
}
