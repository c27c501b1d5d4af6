/** Small shared datatypes. */
module Basics {
  datatype Option<+T> = None | Some(value: T)

  newtype byte = x: int | 0 <= x < 256

  /** `s` without the element at index `k`. */
  function RemoveAt<T>(s: seq<T>, k: nat): (r: seq<T>)
    requires k < |s|
    ensures |r| == |s| - 1
    ensures forall i :: 0 <= i < k ==> r[i] == s[i]
    ensures forall i :: k <= i < |r| ==> r[i] == s[i + 1]
  {
    s[..k] + s[k + 1..]
  }

  /** Pairwise different elements drawn from a finite set are no more than the set. */
  lemma {:induction false} DistinctFits<T>(xs: seq<T>, universe: set<T>)
    requires forall i, j :: 0 <= i < j < |xs| ==> xs[i] != xs[j]
    requires forall i :: 0 <= i < |xs| ==> xs[i] in universe
    ensures |xs| <= |universe|
  {
    if xs != [] {
      var n := |xs| - 1;
      DistinctFits(xs[..n], universe - {xs[n]});
    }
  }

  /** Larger multiples are at least one unit apart. */
  lemma Spread(a: nat, b: nat, d: nat)
    requires a > b
    ensures a * d >= b * d + d
  {
    assert a * d == (a - b) * d + b * d;
    assert (a - b) * d >= d by {
      assert (a - b) * d == (a - b - 1) * d + d;
    }
  }
}
