/**
 Nearest snap-point selection on one axis. The distances from the value to
 every candidate are computed, their minimum is taken, and a left fold over
 the candidates overwrites its accumulator with every candidate whose distance
 equals that minimum. On an exact tie the LAST minimising candidate therefore
 wins.
 */
module Snapping {

  import opened Wrappers

  /** Distance between two coordinates on one axis, `|a - b|`. */
  function Dist(a: real, b: real): real {
    if a < b then b - a else a - b
  }

  /** Only a point itself is at distance 0 from it. */
  lemma DistZero(a: real, b: real)
    requires Dist(a, b) <= Dist(a, a)
    ensures a == b
  {
  }

  /** The least distance from `v` to a point of `ps`. */
  function MinDist(v: real, ps: seq<real>): (m: real)
    requires |ps| > 0
    ensures forall i :: 0 <= i < |ps| ==> m <= Dist(v, ps[i])
    ensures exists i :: 0 <= i < |ps| && m == Dist(v, ps[i])
    decreases |ps|
  {
    if |ps| == 1 then Dist(v, ps[0])
    else
      var rest := MinDist(v, ps[1..]);
      assert forall i :: 1 <= i < |ps| ==> ps[i] == ps[1..][i - 1];
      if Dist(v, ps[0]) <= rest then Dist(v, ps[0]) else rest
  }

  /**
   The minimum under a two-argument reading of the minimum node: only the
   first two distances are compared.
   */
  function PairMinDist(v: real, ps: seq<real>): (m: real)
    requires |ps| >= 2
    ensures m == Dist(v, ps[0]) || m == Dist(v, ps[1])
    ensures m <= Dist(v, ps[0]) && m <= Dist(v, ps[1])
  {
    if Dist(v, ps[0]) < Dist(v, ps[1]) then Dist(v, ps[0]) else Dist(v, ps[1])
  }

  /** On a general list the two readings differ: 0 among [10, 20, 1] gives 10 pairwise, 1 overall. */
  lemma PairMinDiffersInGeneral()
    ensures PairMinDist(0.0, [10.0, 20.0, 1.0]) == 10.0
    ensures MinDist(0.0, [10.0, 20.0, 1.0]) == 1.0
  {
    var ps := [10.0, 20.0, 1.0];
    assert Dist(0.0, ps[2]) == 1.0;
    assert MinDist(0.0, ps) <= 1.0;
  }

  /** `i` is a hit: the distance from `v` to `ps[i]` equals `m`. */
  predicate Hit(v: real, ps: seq<real>, m: real, i: int)
    requires 0 <= i < |ps|
  {
    Dist(v, ps[i]) == m
  }

  /** `i` is the last hit of `ps`. */
  predicate LastHit(v: real, ps: seq<real>, m: real, i: int) {
    && 0 <= i < |ps|
    && Hit(v, ps, m, i)
    && forall j :: i < j < |ps| ==> !Hit(v, ps, m, j)
  }

  /**
   The fold: walking `ps` left to right, every hit overwrites the accumulator.
   The result is the last hit, or the initial accumulator when nothing hits.
   */
  function SnapFold(v: real, ps: seq<real>, m: real, acc: Option<real>): (r: Option<real>)
    ensures (forall i :: 0 <= i < |ps| ==> !Hit(v, ps, m, i)) ==> r == acc
    ensures forall i :: LastHit(v, ps, m, i) ==> r == Some(ps[i])
    decreases |ps|
  {
    if |ps| == 0 then acc
    else
      var tail := ps[1..];
      assert forall k :: 0 <= k < |tail| ==> Hit(v, tail, m, k) == Hit(v, ps, m, k + 1);
      assert forall k :: 0 <= k < |tail| && LastHit(v, ps, m, k + 1) ==> LastHit(v, tail, m, k) by {
        forall k | 0 <= k < |tail| && LastHit(v, ps, m, k + 1)
          ensures LastHit(v, tail, m, k)
        {
          forall j | k < j < |tail|
            ensures !Hit(v, tail, m, j)
          {
            assert !Hit(v, ps, m, j + 1);
          }
        }
      }
      SnapFold(v, ps[1..], m, if Hit(v, ps, m, 0) then Some(ps[0]) else acc)
  }

  /** When some index hits, a last hit exists. */
  lemma {:induction false} LastHitExists(v: real, ps: seq<real>, m: real, i: int)
    requires 0 <= i < |ps| && Hit(v, ps, m, i)
    ensures exists k :: i <= k < |ps| && LastHit(v, ps, m, k)
    decreases |ps| - i
  {
    if forall j :: i < j < |ps| ==> !Hit(v, ps, m, j) {
      assert LastHit(v, ps, m, i);
    } else {
      var j :| i < j < |ps| && Hit(v, ps, m, j);
      LastHitExists(v, ps, m, j);
    }
  }

  /**
   `ps[i]` is the point the selection rule picks for `v`: no point is nearer,
   and every later point is strictly farther.
   */
  predicate IsLastNearest(v: real, ps: seq<real>, i: int) {
    && 0 <= i < |ps|
    && (forall j :: 0 <= j < |ps| ==> Dist(v, ps[i]) <= Dist(v, ps[j]))
    && (forall j :: i < j < |ps| ==> Dist(v, ps[i]) < Dist(v, ps[j]))
  }

  /** The last hit of the minimum distance is the last nearest point. */
  lemma LastHitOfMinIsLastNearest(v: real, ps: seq<real>, k: int)
    requires |ps| > 0 && LastHit(v, ps, MinDist(v, ps), k)
    ensures IsLastNearest(v, ps, k)
  {
    var m := MinDist(v, ps);
    forall j | k < j < |ps|
      ensures Dist(v, ps[k]) < Dist(v, ps[j])
    {
      assert !Hit(v, ps, m, j);
    }
  }

  /**
   The snap point of `v` among `ps`: the nearest point, the last one on a
   tie; `None` (the fold's unset initial value) when `ps` is empty.
   */
  function SnapPoint(v: real, ps: seq<real>): (r: Option<real>)
    ensures r.None? <==> |ps| == 0
    ensures r.Some? ==> r.value in ps
    ensures r.Some? ==> forall p :: p in ps ==> Dist(v, r.value) <= Dist(v, p)
    ensures r.Some? ==> exists i :: IsLastNearest(v, ps, i) && r.value == ps[i]
  {
    if |ps| == 0 then None
    else
      var m := MinDist(v, ps);
      var i :| 0 <= i < |ps| && m == Dist(v, ps[i]);
      LastHitExists(v, ps, m, i);
      var k :| i <= k < |ps| && LastHit(v, ps, m, k);
      LastHitOfMinIsLastNearest(v, ps, k);
      SnapFold(v, ps, m, None)
  }

  /** At most one index satisfies the selection rule. */
  lemma LastNearestUnique(v: real, ps: seq<real>, i: int, j: int)
    requires IsLastNearest(v, ps, i) && IsLastNearest(v, ps, j)
    ensures i == j
  {
    assert Dist(v, ps[j]) <= Dist(v, ps[i]);
    assert Dist(v, ps[i]) <= Dist(v, ps[j]);
  }

  /** Conversely, whichever index satisfies the selection rule is the one snapped to. */
  lemma SnapPointPicksLastNearest(v: real, ps: seq<real>, i: int)
    requires IsLastNearest(v, ps, i)
    ensures SnapPoint(v, ps) == Some(ps[i])
  {
    var r := SnapPoint(v, ps);
    var k :| IsLastNearest(v, ps, k) && r.value == ps[k];
    LastNearestUnique(v, ps, i, k);
  }

  /** The tie rule on the smallest tie: 50 is 10 from both 40 and 60, and 60 (the later) wins. */
  lemma TieGoesToLast()
    ensures SnapPoint(50.0, [40.0, 60.0]) == Some(60.0)
  {
    var ps := [40.0, 60.0];
    assert IsLastNearest(50.0, ps, 1);
    SnapPointPicksLastNearest(50.0, ps, 1);
  }

  /** A value that already is a candidate snaps to itself. */
  lemma SnapPointOfMember(v: real, ps: seq<real>)
    requires v in ps
    ensures SnapPoint(v, ps) == Some(v)
  {
    var r := SnapPoint(v, ps).value;
    assert Dist(v, r) <= Dist(v, v);
    DistZero(v, r);
  }

  /** Snapping is idempotent: a snap point snaps to itself. */
  lemma SnapPointIdempotent(v: real, ps: seq<real>)
    requires |ps| > 0
    ensures SnapPoint(SnapPoint(v, ps).value, ps) == SnapPoint(v, ps)
  {
    SnapPointOfMember(SnapPoint(v, ps).value, ps);
  }

  /**
   The debugging twin: the same fold, started from 0 instead of an unset
   value. Only the selected point is modelled, not the logging around it.
   */
  function LogSnapPoint(v: real, ps: seq<real>): (r: real)
    ensures |ps| == 0 ==> r == 0.0
    ensures |ps| > 0 ==> SnapPoint(v, ps) == Some(r)
  {
    if |ps| == 0 then 0.0
    else
      var m := MinDist(v, ps);
      var i :| 0 <= i < |ps| && m == Dist(v, ps[i]);
      LastHitExists(v, ps, m, i);
      SnapFold(v, ps, m, Some(0.0)).value
  }
}
