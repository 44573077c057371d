/**
 Drop-zone geometry. A drop zone is a square of side `DropzoneSize`; the ball is
 a square of side `CircleSize` that rests centred inside a zone. A zone is
 described by the horizontal centre `dx` and the top edge `dy` it was created from.
 */
module Geometry {

  /** Side of the draggable ball. */
  const CircleSize: real := 100.0

  /** Side of a drop zone: the ball plus a margin of 7. */
  const DropzoneSize: real := CircleSize + 7.0

  /**
   A drop zone: `x`, `y` is the zone's top-left corner and `cx`, `cy` the
   top-left corner at which the ball sits when it rests in the zone.
   */
  datatype DropZone = DropZone(id: int, x: real, y: real, cx: real, cy: real)

  /** The ball's box, placed at (`cx`, `cy`), shares its centre with the zone's box. */
  predicate BallCentred(z: DropZone) {
    && z.cx + CircleSize / 2.0 == z.x + DropzoneSize / 2.0
    && z.cy + CircleSize / 2.0 == z.y + DropzoneSize / 2.0
  }

  /** The ball's box, placed at (`cx`, `cy`), lies inside the zone's box. */
  predicate BallInside(z: DropZone) {
    && z.x <= z.cx && z.cx + CircleSize <= z.x + DropzoneSize
    && z.y <= z.cy && z.cy + CircleSize <= z.y + DropzoneSize
  }

  /** Builds the zone whose horizontal centre is `dx` and whose top edge is `dy`. */
  function CreateDropZone(id: int, dx: real, dy: real): (z: DropZone)
    ensures z.id == id
    ensures z.y == dy
    ensures z.x + DropzoneSize / 2.0 == dx
    ensures z.cx + CircleSize / 2.0 == dx
    ensures BallCentred(z)
  {
    DropZone(
      id,
      dx - DropzoneSize / 2.0,
      dy,
      dx - CircleSize / 2.0,
      dy + DropzoneSize / 2.0 - CircleSize / 2.0)
  }

  /** A zone is fully determined by its id and the centre and top it was created from. */
  lemma CreateDropZoneInjective(id1: int, dx1: real, dy1: real, id2: int, dx2: real, dy2: real)
    requires CreateDropZone(id1, dx1, dy1) == CreateDropZone(id2, dx2, dy2)
    ensures id1 == id2 && dx1 == dx2 && dy1 == dy2
  {
    var z1 := CreateDropZone(id1, dx1, dy1);
    var z2 := CreateDropZone(id2, dx2, dy2);
    assert dx1 == z1.x + DropzoneSize / 2.0 == z2.x + DropzoneSize / 2.0 == dx2;
  }

  /** A centred ball of side 100 fits inside a zone of side 107, with a margin of 3.5 on every side. */
  lemma CentredBallInside(z: DropZone)
    requires BallCentred(z)
    ensures BallInside(z)
    ensures z.cx - z.x == (DropzoneSize - CircleSize) / 2.0
    ensures z.cy - z.y == (DropzoneSize - CircleSize) / 2.0
  {
  }
}
