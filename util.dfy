/** Small numeric and optional-value helpers shared by the factory model. */
module Util {

  datatype Option<+T> = None | Some(value: T)

  function Abs(x: real): (r: real)
    ensures r >= 0.0 && (r == x || r == -x)
  {
    if x < 0.0 then -x else x
  }

  function MaxReal(a: real, b: real): (r: real)
    ensures r >= a && r >= b && (r == a || r == b)
  {
    if a >= b then a else b
  }

  function MinInt(a: int, b: int): (r: int)
    ensures r <= a && r <= b && (r == a || r == b)
  {
    if a <= b then a else b
  }

  function MaxInt(a: int, b: int): (r: int)
    ensures r >= a && r >= b && (r == a || r == b)
  {
    if a >= b then a else b
  }

  /** Python's int() on a float: truncation toward zero. */
  function Trunc(x: real): (r: int)
    ensures x >= 0.0 ==> r as real <= x < r as real + 1.0
    ensures x < 0.0 ==> r as real - 1.0 < x <= r as real
  {
    if x >= 0.0 then x.Floor else -((-x).Floor)
  }

  /** Position of the first element of `xs` that satisfies `matches`, if any. */
  function FirstIndex<T>(xs: seq<T>, matches: T -> bool): (r: Option<nat>)
    ensures r.None? <==> forall k :: 0 <= k < |xs| ==> !matches(xs[k])
    ensures r.Some? ==> r.value < |xs| && matches(xs[r.value])
    ensures r.Some? ==> forall k :: 0 <= k < r.value ==> !matches(xs[k])
    decreases |xs|
  {
    if |xs| == 0 then None
    else if matches(xs[0]) then Some(0)
    else match FirstIndex(xs[1..], matches)
      case None => None
      case Some(k) => Some(k + 1)
  }

  /** The first element that satisfies `matches`, found by a left-to-right
      scan that stops at the first hit. */
  method FindFirst<T>(xs: seq<T>, matches: T -> bool) returns (found: Option<nat>)
    ensures found == FirstIndex(xs, matches)
  {
    var i := 0;
    while i < |xs|
      invariant 0 <= i <= |xs|
      invariant forall k :: 0 <= k < i ==> !matches(xs[k])
    {
      if matches(xs[i]) {
        return Some(i);
      }
      i := i + 1;
    }
    return None;
  }
}
