/**
 * The landmark vocabulary produced by the pose estimator (pose_estimation.py),
 * with each landmark's pixel position. Pixel coordinates are integers because
 * the estimator truncates the normalised coordinates times the frame size.
 */
module Pose {

  datatype Landmark =
    | Nose
    | LeftShoulder | RightShoulder
    | LeftElbow | RightElbow
    | LeftWrist | RightWrist
    | LeftHip | RightHip
    | LeftKnee | RightKnee
    | LeftAnkle | RightAnkle
    | LeftFootIndex | RightFootIndex

  const AllLandmarks: set<Landmark> := {
    Nose,
    LeftShoulder, RightShoulder, LeftElbow, RightElbow, LeftWrist, RightWrist,
    LeftHip, RightHip, LeftKnee, RightKnee, LeftAnkle, RightAnkle,
    LeftFootIndex, RightFootIndex
  }

  /** A pixel position: x grows to the right, y grows downwards. */
  datatype Pixel = Pixel(x: int, y: int)

  /** One frame's landmark positions, keyed by name. */
  type Landmarks = map<Landmark, Pixel>

  /** The estimator fills in every name of the vocabulary for each detected pose. */
  predicate Complete(lm: Landmarks) {
    AllLandmarks <= lm.Keys
  }

  datatype Side = Left | Right

  function Opposite(s: Side): Side {
    if s == Left then Right else Left
  }

  function ShoulderOf(s: Side): Landmark { if s == Left then LeftShoulder else RightShoulder }
  function ElbowOf(s: Side): Landmark { if s == Left then LeftElbow else RightElbow }
  function WristOf(s: Side): Landmark { if s == Left then LeftWrist else RightWrist }
  function HipOf(s: Side): Landmark { if s == Left then LeftHip else RightHip }
  function KneeOf(s: Side): Landmark { if s == Left then LeftKnee else RightKnee }
  function AnkleOf(s: Side): Landmark { if s == Left then LeftAnkle else RightAnkle }
  function FootIndexOf(s: Side): Landmark { if s == Left then LeftFootIndex else RightFootIndex }

  /** The same body part on the other side of the body; the nose is its own mirror image. */
  function MirrorName(n: Landmark): Landmark {
    match n
    case Nose => Nose
    case LeftShoulder => RightShoulder
    case RightShoulder => LeftShoulder
    case LeftElbow => RightElbow
    case RightElbow => LeftElbow
    case LeftWrist => RightWrist
    case RightWrist => LeftWrist
    case LeftHip => RightHip
    case RightHip => LeftHip
    case LeftKnee => RightKnee
    case RightKnee => LeftKnee
    case LeftAnkle => RightAnkle
    case RightAnkle => LeftAnkle
    case LeftFootIndex => RightFootIndex
    case RightFootIndex => LeftFootIndex
  }

  lemma MirrorNameInvolution(n: Landmark)
    ensures MirrorName(MirrorName(n)) == n
  {
  }

  /** The same pose with every left landmark exchanged for its right counterpart. */
  function Mirror(lm: Landmarks): (m: Landmarks)
    ensures forall n :: n in m <==> MirrorName(n) in lm
    ensures forall n :: n in m ==> m[n] == lm[MirrorName(n)]
  {
    map n | n in AllLandmarks && MirrorName(n) in lm :: lm[MirrorName(n)]
  }

  /** Mirroring twice gives back the original pose. */
  lemma MirrorTwice(lm: Landmarks)
    ensures Mirror(Mirror(lm)) == lm
  {
    forall n
      ensures n in Mirror(Mirror(lm)) <==> n in lm
      ensures n in lm ==> Mirror(Mirror(lm))[n] == lm[n]
    {
      MirrorNameInvolution(n);
    }
  }

}
