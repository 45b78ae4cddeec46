/**
 * Points in real-valued pixel space, the angle function, and the named
 * mapping of derived angles that is handed from the aggregator to the
 * detector and to the feedback rules.
 */
module Angles {

  import opened Pose

  datatype Point = Point(x: real, y: real)

  function ToPoint(p: Pixel): Point {
    Point(p.x as real, p.y as real)
  }

  /**
   * The angle in degrees at the middle point formed by the other two
   * (angle_utils.py). It works in single-precision floating point with an
   * arc-cosine, so the model takes it as a parameter instead of defining it.
   */
  type AngleFn = (Point, Point, Point) -> real

  /** The zero-length sentinel: a neighbour that coincides with the vertex gives 0 degrees. */
  ghost predicate DegenerateIsZero(angle: AngleFn) {
    forall a, b, c :: (a == b || c == b) ==> angle(a, b, c) == 0.0
  }

  datatype AngleKey = Elbow | Knee | Hip | Shoulder | Back | BodyLine | FrontKnee | PhaseDownScore

  const AllAngleKeys: set<AngleKey> := {Elbow, Knee, Hip, Shoulder, Back, BodyLine, FrontKnee, PhaseDownScore}

  type AngleMap = map<AngleKey, real>

  /** Dictionary lookup with a default for a missing key. */
  function Get(m: AngleMap, k: AngleKey, default: real): real {
    if k in m then m[k] else default
  }

}
