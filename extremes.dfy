/**
 * `xs.index(max(xs))` and `xs.index(min(xs))`: the first position holding
 * the largest (smallest) value.  `max` keeps the first of equal maxima and
 * `index` finds the first occurrence, so both name the same position.
 */
module Extremes {

  function ArgMaxFirst(xs: seq<real>): (k: nat)
    requires |xs| > 0
    ensures k < |xs|
    ensures forall j :: 0 <= j < |xs| ==> xs[j] <= xs[k]
    ensures forall j :: 0 <= j < k ==> xs[j] < xs[k]
    decreases |xs|
  {
    if |xs| == 1 then 0
    else
      var k := ArgMaxFirst(xs[..|xs| - 1]);
      if xs[|xs| - 1] > xs[k] then |xs| - 1 else k
  }

  function ArgMinFirst(xs: seq<real>): (k: nat)
    requires |xs| > 0
    ensures k < |xs|
    ensures forall j :: 0 <= j < |xs| ==> xs[k] <= xs[j]
    ensures forall j :: 0 <= j < k ==> xs[k] < xs[j]
    decreases |xs|
  {
    if |xs| == 1 then 0
    else
      var k := ArgMinFirst(xs[..|xs| - 1]);
      if xs[|xs| - 1] < xs[k] then |xs| - 1 else k
  }

  /** `max(xs)`. */
  function MaxOf(xs: seq<real>): (m: real)
    requires |xs| > 0
    ensures m in xs && forall x :: x in xs ==> x <= m
  {
    xs[ArgMaxFirst(xs)]
  }

  /** `min(xs)`. */
  function MinOf(xs: seq<real>): (m: real)
    requires |xs| > 0
    ensures m in xs && forall x :: x in xs ==> m <= x
  {
    xs[ArgMinFirst(xs)]
  }

  /** `xs.index(v)`: the first position holding `v`. */
  function IndexOf(xs: seq<real>, v: real): (k: nat)
    requires v in xs
    ensures k < |xs| && xs[k] == v
    ensures forall j :: 0 <= j < k ==> xs[j] != v
    decreases |xs|
  {
    if xs[0] == v then 0 else 1 + IndexOf(xs[1..], v)
  }

  /** `xs.index(max(xs))` is the first position of the maximum. */
  lemma IndexOfMax(xs: seq<real>)
    requires |xs| > 0
    ensures IndexOf(xs, MaxOf(xs)) == ArgMaxFirst(xs)
  {
  }

  /** `xs.index(min(xs))` is the first position of the minimum. */
  lemma IndexOfMin(xs: seq<real>)
    requires |xs| > 0
    ensures IndexOf(xs, MinOf(xs)) == ArgMinFirst(xs)
  {
  }
}
