/**
 * The per-frame glue of the trainer (main.py): the joint-angle aggregator
 * that turns one frame's landmarks into the angle map, and one iteration of
 * the main loop, which feeds the detector, asks for feedback, and decides
 * whether a new repetition count is logged.
 */
module Trainer {

  import opened Wrappers
  import opened Pose
  import opened Angles
  import opened ExerciseDetection
  import opened Feedback

  /** The midpoint of two pixels, in real coordinates. */
  function Midpoint(p: Pixel, q: Pixel): (m: Point)
    ensures m.x - ToPoint(p).x == ToPoint(q).x - m.x
    ensures m.y - ToPoint(p).y == ToPoint(q).y - m.y
  {
    Point((p.x + q.x) as real / 2.0, (p.y + q.y) as real / 2.0)
  }

  lemma MidpointSymmetric(p: Pixel, q: Pixel)
    ensures Midpoint(p, q) == Midpoint(q, p)
    ensures Midpoint(p, p) == ToPoint(p)
  {
  }

  /** The landmarks the aggregator reads; a frame missing any of them cannot be aggregated. */
  const AngleLandmarks: set<Landmark> := {
    LeftShoulder, RightShoulder, LeftElbow, RightElbow, LeftWrist, RightWrist,
    LeftHip, RightHip, LeftKnee, RightKnee, LeftAnkle, RightAnkle
  }

  /** The four joints whose left and right angles are averaged. */
  datatype Joint = ElbowJoint | KneeJoint | HipJoint | ShoulderJoint

  function KeyOf(j: Joint): AngleKey {
    match j
    case ElbowJoint => Elbow
    case KneeJoint => Knee
    case HipJoint => Hip
    case ShoulderJoint => Shoulder
  }

  /** The angle at joint `j` on side `s`, between the joint's two neighbouring landmarks. */
  function SideAngle(lm: Landmarks, angle: AngleFn, j: Joint, s: Side): real
    requires AngleLandmarks <= lm.Keys
  {
    match j
    case ElbowJoint => angle(ToPoint(lm[ShoulderOf(s)]), ToPoint(lm[ElbowOf(s)]), ToPoint(lm[WristOf(s)]))
    case KneeJoint => angle(ToPoint(lm[HipOf(s)]), ToPoint(lm[KneeOf(s)]), ToPoint(lm[AnkleOf(s)]))
    case HipJoint => angle(ToPoint(lm[ShoulderOf(s)]), ToPoint(lm[HipOf(s)]), ToPoint(lm[KneeOf(s)]))
    case ShoulderJoint => angle(ToPoint(lm[ElbowOf(s)]), ToPoint(lm[ShoulderOf(s)]), ToPoint(lm[HipOf(s)]))
  }

  /**
   * The front leg: the side whose knee is lower in the image (larger y).
   * Equal heights select the right leg.
   */
  function FrontSide(lm: Landmarks): (s: Side)
    requires LeftKnee in lm && RightKnee in lm
    ensures s == Left <==> lm[LeftKnee].y > lm[RightKnee].y
  {
    if lm[LeftKnee].y > lm[RightKnee].y then Left else Right
  }

  /** The angle map of one frame. */
  function ComputeAngles(lm: Landmarks, angle: AngleFn): (r: AngleMap)
    requires AngleLandmarks <= lm.Keys
    ensures r.Keys == AllAngleKeys
    // each bilateral angle lies exactly halfway between its left and right angles
    ensures forall j :: r[KeyOf(j)] - SideAngle(lm, angle, j, Left) == SideAngle(lm, angle, j, Right) - r[KeyOf(j)]
    // back and body line are measured at the hip midpoint
    ensures r[Back] == angle(Midpoint(lm[LeftShoulder], lm[RightShoulder]),
                             Midpoint(lm[LeftHip], lm[RightHip]),
                             Midpoint(lm[LeftKnee], lm[RightKnee]))
    ensures r[BodyLine] == angle(Midpoint(lm[LeftShoulder], lm[RightShoulder]),
                                 Midpoint(lm[LeftHip], lm[RightHip]),
                                 Midpoint(lm[LeftAnkle], lm[RightAnkle]))
    // the front-knee angle uses hip, knee and ankle of one side: the front side,
    // except that two knees on the very same pixel select the left side
    ensures lm[LeftKnee] != lm[RightKnee] ==> r[FrontKnee] == SideAngle(lm, angle, KneeJoint, FrontSide(lm))
    ensures lm[LeftKnee] == lm[RightKnee] ==> r[FrontKnee] == SideAngle(lm, angle, KneeJoint, Left)
    ensures r[PhaseDownScore] == 0.0 || r[PhaseDownScore] == 1.0
    ensures r[PhaseDownScore] == 1.0 <==> r[Knee] < 120.0
  {
    var leftShoulder := lm[LeftShoulder];
    var rightShoulder := lm[RightShoulder];
    var leftElbow := lm[LeftElbow];
    var rightElbow := lm[RightElbow];
    var leftWrist := lm[LeftWrist];
    var rightWrist := lm[RightWrist];
    var leftHip := lm[LeftHip];
    var rightHip := lm[RightHip];
    var leftKnee := lm[LeftKnee];
    var rightKnee := lm[RightKnee];
    var leftAnkle := lm[LeftAnkle];
    var rightAnkle := lm[RightAnkle];

    var elbowLeft := angle(ToPoint(leftShoulder), ToPoint(leftElbow), ToPoint(leftWrist));
    var elbowRight := angle(ToPoint(rightShoulder), ToPoint(rightElbow), ToPoint(rightWrist));
    var elbow := (elbowLeft + elbowRight) / 2.0;

    var kneeLeft := angle(ToPoint(leftHip), ToPoint(leftKnee), ToPoint(leftAnkle));
    var kneeRight := angle(ToPoint(rightHip), ToPoint(rightKnee), ToPoint(rightAnkle));
    var knee := (kneeLeft + kneeRight) / 2.0;

    var hipLeft := angle(ToPoint(leftShoulder), ToPoint(leftHip), ToPoint(leftKnee));
    var hipRight := angle(ToPoint(rightShoulder), ToPoint(rightHip), ToPoint(rightKnee));
    var hip := (hipLeft + hipRight) / 2.0;

    var shoulderLeft := angle(ToPoint(leftElbow), ToPoint(leftShoulder), ToPoint(leftHip));
    var shoulderRight := angle(ToPoint(rightElbow), ToPoint(rightShoulder), ToPoint(rightHip));
    var shoulder := (shoulderLeft + shoulderRight) / 2.0;

    var shoulderMid := Midpoint(leftShoulder, rightShoulder);
    var hipMid := Midpoint(leftHip, rightHip);
    var kneeMid := Midpoint(leftKnee, rightKnee);
    var ankleMid := Midpoint(leftAnkle, rightAnkle);

    var back := angle(shoulderMid, hipMid, kneeMid);
    var bodyLine := angle(shoulderMid, hipMid, ankleMid);

    var frontKnee := if leftKnee.y > rightKnee.y then leftKnee else rightKnee;
    var frontAnkle := if frontKnee == leftKnee then leftAnkle else rightAnkle;
    var frontHip := if frontKnee == leftKnee then leftHip else rightHip;
    var frontKneeAngle := angle(ToPoint(frontHip), ToPoint(frontKnee), ToPoint(frontAnkle));

    map[
      Elbow := elbow,
      Knee := knee,
      Hip := hip,
      Shoulder := shoulder,
      Back := back,
      BodyLine := bodyLine,
      FrontKnee := frontKneeAngle,
      PhaseDownScore := if knee < 120.0 then 1.0 else 0.0
    ]
  }

  lemma MirrorSideAngle(lm: Landmarks, angle: AngleFn, j: Joint, s: Side)
    requires AngleLandmarks <= lm.Keys
    ensures AngleLandmarks <= Mirror(lm).Keys
    ensures SideAngle(Mirror(lm), angle, j, s) == SideAngle(lm, angle, j, Opposite(s))
  {
  }

  /** A mirrored bilateral angle is the mean of the same two side angles, taken in the other order. */
  lemma MirrorBilateral(lm: Landmarks, angle: AngleFn, j: Joint)
    requires AngleLandmarks <= lm.Keys
    ensures AngleLandmarks <= Mirror(lm).Keys
    ensures ComputeAngles(Mirror(lm), angle)[KeyOf(j)] == ComputeAngles(lm, angle)[KeyOf(j)]
  {
    var m := Mirror(lm);
    MirrorSideAngle(lm, angle, j, Left);
    MirrorSideAngle(lm, angle, j, Right);
    var x, y := ComputeAngles(m, angle)[KeyOf(j)], ComputeAngles(lm, angle)[KeyOf(j)];
    assert x - SideAngle(lm, angle, j, Right) == SideAngle(lm, angle, j, Left) - x;
    assert y - SideAngle(lm, angle, j, Left) == SideAngle(lm, angle, j, Right) - y;
  }

  /** Back and body line are measured between midpoints, which do not depend on the order of the sides. */
  lemma MirrorTorso(lm: Landmarks, angle: AngleFn)
    requires AngleLandmarks <= lm.Keys
    ensures AngleLandmarks <= Mirror(lm).Keys
    ensures ComputeAngles(Mirror(lm), angle)[Back] == ComputeAngles(lm, angle)[Back]
    ensures ComputeAngles(Mirror(lm), angle)[BodyLine] == ComputeAngles(lm, angle)[BodyLine]
  {
    var m := Mirror(lm);
    MidpointSymmetric(lm[LeftShoulder], lm[RightShoulder]);
    MidpointSymmetric(lm[LeftHip], lm[RightHip]);
    MidpointSymmetric(lm[LeftKnee], lm[RightKnee]);
    MidpointSymmetric(lm[LeftAnkle], lm[RightAnkle]);
    assert m[LeftShoulder] == lm[RightShoulder] && m[RightShoulder] == lm[LeftShoulder];
    assert m[LeftHip] == lm[RightHip] && m[RightHip] == lm[LeftHip];
    assert m[LeftKnee] == lm[RightKnee] && m[RightKnee] == lm[LeftKnee];
    assert m[LeftAnkle] == lm[RightAnkle] && m[RightAnkle] == lm[LeftAnkle];
  }

  /**
   * The front knee is mirror-symmetric when the knees are at different
   * heights; at equal heights (and distinct pixels) the right leg is chosen,
   * so the mirrored pose measures the other leg.
   */
  lemma MirrorFrontKnee(lm: Landmarks, angle: AngleFn)
    requires AngleLandmarks <= lm.Keys
    ensures AngleLandmarks <= Mirror(lm).Keys
    ensures lm[LeftKnee].y != lm[RightKnee].y ==>
              ComputeAngles(Mirror(lm), angle)[FrontKnee] == ComputeAngles(lm, angle)[FrontKnee]
    ensures lm[LeftKnee].y == lm[RightKnee].y && lm[LeftKnee] != lm[RightKnee] ==>
              && ComputeAngles(Mirror(lm), angle)[FrontKnee] == SideAngle(lm, angle, KneeJoint, Left)
              && ComputeAngles(lm, angle)[FrontKnee] == SideAngle(lm, angle, KneeJoint, Right)
  {
    var m := Mirror(lm);
    assert m[LeftKnee] == lm[RightKnee] && m[RightKnee] == lm[LeftKnee];
    MirrorSideAngle(lm, angle, KneeJoint, Left);
    MirrorSideAngle(lm, angle, KneeJoint, Right);
  }

  /**
   * The aggregator treats both sides of the body alike: exchanging left and
   * right landmarks changes no angle except the front knee, and that one only
   * when the two knees are at the same height.
   */
  lemma MirrorSymmetry(lm: Landmarks, angle: AngleFn)
    requires AngleLandmarks <= lm.Keys
    ensures AngleLandmarks <= Mirror(lm).Keys
    ensures forall k :: k in AllAngleKeys && k != FrontKnee ==>
              ComputeAngles(Mirror(lm), angle)[k] == ComputeAngles(lm, angle)[k]
    ensures lm[LeftKnee].y != lm[RightKnee].y ==>
              ComputeAngles(Mirror(lm), angle)[FrontKnee] == ComputeAngles(lm, angle)[FrontKnee]
  {
    MirrorBilateral(lm, angle, ElbowJoint);
    MirrorBilateral(lm, angle, KneeJoint);
    MirrorBilateral(lm, angle, HipJoint);
    MirrorBilateral(lm, angle, ShoulderJoint);
    MirrorTorso(lm, angle);
    MirrorFrontKnee(lm, angle);
  }

  /**
   * With the zero-length sentinel of the angle function, a pose whose
   * landmarks all sit on one pixel reads as fully flexed: every angle is 0,
   * phase_down_score is 1, and every exercise enters "down".
   */
  lemma CollapsedPose(lm: Landmarks, angle: AngleFn, p: Pixel, s: ExerciseState)
    requires AngleLandmarks <= lm.Keys
    requires forall n :: n in AngleLandmarks ==> lm[n] == p
    requires DegenerateIsZero(angle)
    ensures forall k :: k in AllAngleKeys && k != PhaseDownScore ==> ComputeAngles(lm, angle)[k] == 0.0
    ensures ComputeAngles(lm, angle)[PhaseDownScore] == 1.0
    ensures forall e :: Transition(e, s, Reading(e, ComputeAngles(lm, angle))).phase == Down
  {
  }

  /** The knee and toe positions the lunge rule compares: both from the front side. */
  function FeedbackJoints(lm: Landmarks): (r: Joints)
    requires {LeftKnee, RightKnee, LeftFootIndex, RightFootIndex} <= lm.Keys
    ensures r.Keys == {FrontKneeJoint, FrontToeJoint}
    ensures r[FrontKneeJoint] == lm[KneeOf(FrontSide(lm))]
    ensures r[FrontToeJoint] == lm[FootIndexOf(FrontSide(lm))]
  {
    var frontToe := if lm[LeftKnee].y > lm[RightKnee].y then lm[LeftFootIndex] else lm[RightFootIndex];
    var frontKnee := if lm[LeftKnee].y > lm[RightKnee].y then lm[LeftKnee] else lm[RightKnee];
    map[FrontKneeJoint := frontKnee, FrontToeJoint := frontToe]
  }

  /** The angles a frame feeds to the detector: none when no pose was detected. */
  function FrameAngles(pose: Option<Landmarks>, angle: AngleFn): AngleMap
    requires pose.Some? ==> AngleLandmarks <= pose.value.Keys
  {
    if pose.Some? then ComputeAngles(pose.value, angle) else map[]
  }

  const PoseNotDetected: string := "Pose not detected. Step into frame."

  /** What is handed to the workout logger; the timestamp is not modelled. */
  datatype LogRecord = LogRecord(exercise: string, reps: nat)

  /** The state the main loop carries from frame to frame. */
  class TrainerSession {
    const detector: ExerciseDetector
    var lastLoggedReps: map<Exercise, nat>

    /** No exercise has logged more repetitions than its counter holds. */
    ghost predicate Valid()
      reads this, detector
    {
      && detector.Valid()
      && forall e :: e in lastLoggedReps && lastLoggedReps[e] <= detector.State(e).reps
    }

    constructor ()
      ensures Valid() && fresh(detector)
      ensures detector.currentExercise == Squat
      ensures forall e :: detector.State(e) == Initial && lastLoggedReps[e] == 0
    {
      detector := new ExerciseDetector();
      lastLoggedReps := map[Squat := 0, PushUp := 0, Lunge := 0];
      new;
      forall e: Exercise
        ensures e in lastLoggedReps && lastLoggedReps[e] == 0
      {
        assert e.Squat? || e.PushUp? || e.Lunge?;
      }
    }

    /**
     * One iteration of the main loop for a frame whose pose is `pose`, or
     * None when no body was detected.
     */
    method ProcessFrame(pose: Option<Landmarks>, angle: AngleFn)
      returns (status: ExerciseStatus, feedback: string, logged: Option<LogRecord>)
      requires Valid()
      requires pose.Some? ==> Complete(pose.value)
      modifies this, detector
      ensures Valid()
      ensures detector.currentExercise == old(detector.currentExercise)
      ensures var e := detector.currentExercise;
              detector.State(e) == Transition(e, old(detector.State(e)), Reading(e, FrameAngles(pose, angle)))
      ensures forall e :: e != detector.currentExercise ==> detector.State(e) == old(detector.State(e))
      ensures status.exercise == detector.currentExercise
      ensures status.reps == detector.State(status.exercise).reps
      ensures status.phase == detector.State(status.exercise).phase
      ensures pose.None? ==> feedback == PoseNotDetected
      ensures pose.Some? ==>
                feedback == GetFeedback(Name(status.exercise), FrameAngles(pose, angle), FeedbackJoints(pose.value))
      // a count is logged only when it exceeds the last one logged for that exercise
      ensures logged.Some? <==> pose.Some? && status.reps > old(lastLoggedReps[status.exercise])
      ensures logged.Some? ==>
                && logged.value == LogRecord(Name(status.exercise), status.reps)
                && lastLoggedReps == old(lastLoggedReps)[status.exercise := status.reps]
      ensures logged.None? ==> lastLoggedReps == old(lastLoggedReps)
    {
      if pose.Some? {
        var landmarks := pose.value;
        var angles := ComputeAngles(landmarks, angle);
        status := detector.Update(angles);
        feedback := GetFeedback(Name(status.exercise), angles, FeedbackJoints(landmarks));
        if status.reps > lastLoggedReps[status.exercise] {
          logged := Some(LogRecord(Name(status.exercise), status.reps));
          lastLoggedReps := lastLoggedReps[status.exercise := status.reps];
        } else {
          logged := None;
        }
      } else {
        status := detector.Update(map[]);
        feedback := PoseNotDetected;
        logged := None;
      }
    }

    /**
     * The keyboard step of the loop: the key code is masked to its low byte;
     * "1", "2" and "3" select Squat, Push-up and Lunge, and "q" ends the loop.
     */
    method HandleKey(key: int) returns (quit: bool)
      requires Valid()
      modifies detector`currentExercise
      ensures Valid()
      ensures quit <==> key % 256 == 'q' as int
      ensures key % 256 == '1' as int ==> detector.currentExercise == Squat
      ensures key % 256 == '2' as int ==> detector.currentExercise == PushUp
      ensures key % 256 == '3' as int ==> detector.currentExercise == Lunge
      ensures key % 256 !in {'1' as int, '2' as int, '3' as int} ==>
                detector.currentExercise == old(detector.currentExercise)
      ensures forall e :: detector.State(e) == old(detector.State(e))
    {
      var code := key % 256;
      quit := false;
      if code == '1' as int {
        detector.SetExercise("Squat");
      } else if code == '2' as int {
        detector.SetExercise("Push-up");
      } else if code == '3' as int {
        detector.SetExercise("Lunge");
      } else if code == 'q' as int {
        quit := true;
      }
    }
  }

}
