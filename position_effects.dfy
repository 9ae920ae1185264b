/**
 * The dead-zone handling of the position pad of the effects panel: the square from the origin to
 * (1, 1) is the "off" zone, and a point outside it has each axis at or below 1 nudged up to 1, so
 * that an effect that is on never sits on a zero axis.
 */
module PositionEffects {
  /** A point of the position pad. */
  datatype Position = Position(x: real, y: real)

  /** `isInOffZone`: both axes are at most 1. */
  predicate IsInOffZone(x: real, y: real)
  {
    x <= 1.0 && y <= 1.0
  }

  /** `Math.max(1, value)` for a value at or below 1, the value itself above 1. */
  function NudgeAxis(value: real): (r: real)
    ensures r >= 1.0
    ensures value > 1.0 ==> r == value
    ensures value <= 1.0 ==> r == 1.0
  {
    if value <= 1.0 then (if 1.0 >= value then 1.0 else value) else value
  }

  /**
   * `transformPositionValues`: a point in the off zone is kept as it is; any other point has each
   * axis nudged to at least 1, and an axis above 1 is kept.
   */
  function TransformPositionValues(x: real, y: real): (r: Position)
    ensures IsInOffZone(x, y) ==> r == Position(x, y)
    ensures !IsInOffZone(x, y) ==> r.x >= 1.0 && r.y >= 1.0
    ensures x > 1.0 ==> r.x == x
    ensures y > 1.0 ==> r.y == y
  {
    if IsInOffZone(x, y) then Position(x, y)
    else Position(NudgeAxis(x), NudgeAxis(y))
  }

  /**
   * The transformed point is in the off zone exactly when the original point is, so transforming
   * it again changes nothing.
   */
  lemma TransformIdempotent(x: real, y: real)
    ensures var p := TransformPositionValues(x, y);
      (IsInOffZone(p.x, p.y) <==> IsInOffZone(x, y)) && TransformPositionValues(p.x, p.y) == p
  {
  }

  /** The cases the panel's dead-zone self-test lists, with the outcomes its descriptions give. */
  lemma DeadZoneExamples()
    ensures TransformPositionValues(0.0, 0.0) == Position(0.0, 0.0)
    ensures TransformPositionValues(0.5, 0.5) == Position(0.5, 0.5)
    ensures TransformPositionValues(1.0, 1.0) == Position(1.0, 1.0)
    ensures TransformPositionValues(0.0, 50.0) == Position(1.0, 50.0)
    ensures TransformPositionValues(50.0, 0.0) == Position(50.0, 1.0)
    ensures TransformPositionValues(0.5, 75.0) == Position(1.0, 75.0)
    ensures TransformPositionValues(25.0, 0.8) == Position(25.0, 1.0)
    ensures TransformPositionValues(50.0, 75.0) == Position(50.0, 75.0)
  {
  }
}
