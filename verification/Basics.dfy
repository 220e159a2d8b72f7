/** Small facts about sets and reals that several modules use, and the list functions they share. */
module Basics {
  lemma SubsetSize<T>(a: set<T>, b: set<T>)
    requires a <= b
    ensures |a| <= |b|
    ensures |a| == |b| ==> a == b
  {
    assert b == a + (b - a);
  }

  /** Multiplying by a positive number keeps a sign. */
  lemma SignTimes(x: real, w: real)
    requires w > 0.0
    ensures x * w >= 0.0 <==> x >= 0.0
    ensures x * w == 0.0 <==> x == 0.0
  {
  }

  function Max(x: int, y: int): int { if x < y then y else x }

  /** How many of the flags are set. */
  function Trues(flags: seq<bool>): nat {
    if flags == [] then 0 else Trues(flags[..|flags| - 1]) + if flags[|flags| - 1] then 1 else 0
  }

  /** Where a text first occurs; the length when it does not. */
  function IndexOf(xs: seq<string>, x: string): nat
    ensures IndexOf(xs, x) <= |xs|
    ensures x in xs ==> IndexOf(xs, x) < |xs| && xs[IndexOf(xs, x)] == x
  {
    if xs == [] || xs[0] == x then 0 else 1 + IndexOf(xs[1..], x)
  }
}
