/**
 The screen: four drop zones laid out on thirds of the window width, the
 ball's starting offsets, and the two axis controllers driven by one gesture.
 The window width is a parameter.
 */
module App {

  import opened Wrappers
  import opened Geometry
  import opened Snapping
  import opened Controller

  /** The four drop zones, in the order the snap points are listed. */
  function Drops(width: real): (zs: seq<DropZone>)
    ensures |zs| == 4
    ensures zs[0].cx == width / 3.0 * 2.0 - CircleSize / 2.0
    ensures zs[1].cx == width / 3.0 - CircleSize / 2.0
    ensures zs[0].y == 125.0 && zs[1].y == 400.0
    ensures forall i :: 0 <= i < |zs| ==> BallCentred(zs[i])
    ensures [zs[0].id, zs[1].id, zs[2].id, zs[3].id] == [3, 5, 1, 4]
    ensures zs[0].cx == zs[3].cx && zs[1].cx == zs[2].cx
    ensures zs[0].cy == zs[2].cy && zs[1].cy == zs[3].cy
  {
    var third := width / 3.0;
    [ CreateDropZone(3, third * 2.0, 125.0),
      CreateDropZone(5, third, 400.0),
      CreateDropZone(1, third, 125.0),
      CreateDropZone(4, third * 2.0, 400.0) ]
  }

  /** The horizontal snap points: each zone's ball corner `cx`. */
  function XPoints(zs: seq<DropZone>): (ps: seq<real>)
    ensures |ps| == |zs| && forall i :: 0 <= i < |zs| ==> ps[i] == zs[i].cx
  {
    seq(|zs|, i requires 0 <= i < |zs| => zs[i].cx)
  }

  /** The vertical snap points: each zone's ball corner `cy`. */
  function YPoints(zs: seq<DropZone>): (ps: seq<real>)
    ensures |ps| == |zs| && forall i :: 0 <= i < |zs| ==> ps[i] == zs[i].cy
  {
    seq(|zs|, i requires 0 <= i < |zs| => zs[i].cy)
  }

  /** Both axes of the ball. */
  datatype Ball = Ball(x: Axis, y: Axis)

  /** The ball before any frame: each axis offset at the first zone's ball corner. */
  function InitBall(width: real): (b: Ball)
    ensures b.x.offset == width / 3.0 * 2.0 - CircleSize / 2.0
    ensures b.y.offset == 125.0 + DropzoneSize / 2.0 - CircleSize / 2.0
    ensures b.x.offset in XPoints(Drops(width)) && b.y.offset in YPoints(Drops(width))
  {
    var d := Drops(width)[0];
    Ball(Init(d.cx), Init(d.cy))
  }

  /** One frame of the gesture: both axes see the same phase and clock time. */
  function BallStep(
    b: Ball, phase: Phase, tx: real, ty: real, vx: real, vy: real, now: real,
    width: real, spring: Spring): (r: Ball)
    ensures phase != End ==>
      Rendered(r.x) == r.x.offset + tx && Rendered(r.y) == r.y.offset + ty
    ensures phase == Began ==>
      r.x.offset == Rendered(b.x) && r.y.offset == Rendered(b.y)
    ensures phase == End && StartsRun(b.x) ==>
      r.x.toValue.Some? && r.x.toValue.value in XPoints(Drops(width))
    ensures phase == End && StartsRun(b.y) ==>
      r.y.toValue.Some? && r.y.toValue.value in YPoints(Drops(width))
  {
    var zs := Drops(width);
    Ball(
      Step(b.x, Input(phase, tx, vx, now), XPoints(zs), spring),
      Step(b.y, Input(phase, ty, vy, now), YPoints(zs), spring))
  }

  /** The starting offsets are snap points of their own axes: the ball starts at rest in a zone. */
  lemma InitialOffsetsAreSnapPoints(width: real)
    ensures SnapPoint(InitBall(width).x.offset, XPoints(Drops(width))) == Some(InitBall(width).x.offset)
    ensures SnapPoint(InitBall(width).y.offset, YPoints(Drops(width))) == Some(InitBall(width).y.offset)
  {
    var zs := Drops(width);
    assert XPoints(zs)[0] == InitBall(width).x.offset;
    assert YPoints(zs)[0] == InitBall(width).y.offset;
    SnapPointOfMember(InitBall(width).x.offset, XPoints(zs));
    SnapPointOfMember(InitBall(width).y.offset, YPoints(zs));
  }

  /**
   A first frame that is neither BEGAN nor END, before the finger moves, draws
   the ball in the first zone: at (2/3 of the width - 50, 128.5).
   */
  lemma FirstFrameDrawsFirstZone(width: real, phase: Phase, vx: real, vy: real, now: real, spring: Spring)
    requires phase != End && phase != Began
    ensures var r := BallStep(InitBall(width), phase, 0.0, 0.0, vx, vy, now, width, spring);
      && Rendered(r.x) == width / 3.0 * 2.0 - CircleSize / 2.0
      && Rendered(r.y) == 125.0 + DropzoneSize / 2.0 - CircleSize / 2.0
      && Rendered(r.y) == 128.5
  {
  }

  /**
   The spring position starts at 0, not at the offset: a BEGAN on the very
   first frame would carry 0 into both offsets and draw the ball at the origin
   plus the translation.
   */
  lemma FirstFrameGrabDropsOffset(width: real, tx: real, ty: real, vx: real, vy: real, now: real, spring: Spring)
    ensures var r := BallStep(InitBall(width), Began, tx, ty, vx, vy, now, width, spring);
      && r.x.offset == 0.0 && r.y.offset == 0.0
      && Rendered(r.x) == tx && Rendered(r.y) == ty
  {
  }

  /**
   On the app's own snap lists the two-argument reading of the minimum agrees
   with the minimum over all four distances: the third and fourth x points
   repeat the second and first, and the third and fourth y points repeat the
   first and second.
   */
  lemma PairMinAgreesOnAppLists(width: real, v: real)
    ensures PairMinDist(v, XPoints(Drops(width))) == MinDist(v, XPoints(Drops(width)))
    ensures PairMinDist(v, YPoints(Drops(width))) == MinDist(v, YPoints(Drops(width)))
  {
    var zs := Drops(width);
    var xs := XPoints(zs);
    var ys := YPoints(zs);
    assert xs[2] == xs[1] && xs[3] == xs[0];
    assert ys[2] == ys[0] && ys[3] == ys[1];
    var mx := MinDist(v, xs);
    var i :| 0 <= i < |xs| && mx == Dist(v, xs[i]);
    assert mx == Dist(v, xs[0]) || mx == Dist(v, xs[1]);
    var my := MinDist(v, ys);
    var j :| 0 <= j < |ys| && my == Dist(v, ys[j]);
    assert my == Dist(v, ys[0]) || my == Dist(v, ys[1]);
  }
}
