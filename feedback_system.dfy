/**
 * The form-feedback decision table (feedback_system.py): per exercise, the
 * first rule that matches the frame's angles and joint positions decides the
 * coaching message.
 */
module Feedback {

  import opened Wrappers
  import opened Pose
  import opened Angles
  import opened ExerciseDetection

  /** The joint positions the lunge rule looks at. */
  datatype JointKey = FrontKneeJoint | FrontToeJoint

  type Joints = map<JointKey, Pixel>

  const KeepBackStraight: string := "Keep your back straight"
  const GoLower: string := "Go lower"
  const GreatSquat: string := "Great squat form"
  const LowerBody: string := "Lower your body"
  const KeepBodyStraight: string := "Keep body straight"
  const GreatPushUp: string := "Great push-up form"
  const KneeForward: string := "Don't push knee forward"
  const GreatLunge: string := "Great lunge form"
  const SelectExercise: string := "Select an exercise"

  const Messages: set<string> := {
    KeepBackStraight, GoLower, GreatSquat,
    LowerBody, KeepBodyStraight, GreatPushUp,
    KneeForward, GreatLunge,
    SelectExercise
  }

  /** The messages a rule of exercise `e` can produce. */
  function MessagesOf(e: Exercise): set<string> {
    match e
    case Squat => {KeepBackStraight, GoLower, GreatSquat}
    case PushUp => {LowerBody, KeepBodyStraight, GreatPushUp}
    case Lunge => {KneeForward, GreatLunge}
  }

  /**
   * The coaching message for `exercise`. Missing angles read as 180 degrees
   * and a missing phase_down_score as 0; the lunge rule is skipped unless
   * both joint positions are present.
   */
  function GetFeedback(exercise: string, angles: AngleMap, joints: Joints): (r: string)
    ensures r in Messages
    ensures Parse(exercise).Some? ==> r in MessagesOf(Parse(exercise).value)
    ensures Parse(exercise).None? ==> r == SelectExercise
  {
    match Parse(exercise)
    case Some(Squat) =>
      var backAngle := Get(angles, Back, 180.0);
      var kneeAngle := Get(angles, Knee, 180.0);
      if backAngle < 150.0 then KeepBackStraight
      else if kneeAngle > 90.0 && Get(angles, PhaseDownScore, 0.0) > 0.0 then GoLower
      else GreatSquat
    case Some(PushUp) =>
      var elbowAngle := Get(angles, Elbow, 180.0);
      var bodyAngle := Get(angles, BodyLine, 180.0);
      if elbowAngle > 160.0 then LowerBody
      else if bodyAngle < 155.0 then KeepBodyStraight
      else GreatPushUp
    case Some(Lunge) =>
      if FrontKneeJoint in joints && FrontToeJoint in joints
         && joints[FrontKneeJoint].x > joints[FrontToeJoint].x
      then KneeForward
      else GreatLunge
    case None =>
      SelectExercise
  }

  /** The exercises' message sets are disjoint, so a message names the rule table it came from. */
  lemma MessagesDistinguishExercises(e1: Exercise, e2: Exercise)
    requires e1 != e2
    ensures MessagesOf(e1) !! MessagesOf(e2)
    ensures SelectExercise !in MessagesOf(e1)
  {
  }

  /** Squat: the back rule wins over the depth rule; "Go lower" needs all three conditions. */
  lemma SquatRules(angles: AngleMap, joints: Joints)
    ensures var back := Get(angles, Back, 180.0);
            var knee := Get(angles, Knee, 180.0);
            var score := Get(angles, PhaseDownScore, 0.0);
            var r := GetFeedback("Squat", angles, joints);
            && (back < 150.0 ==> r == KeepBackStraight)
            && (r == GoLower <==> back >= 150.0 && knee > 90.0 && score > 0.0)
            && (r == GreatSquat <==> back >= 150.0 && !(knee > 90.0 && score > 0.0))
  {
  }

  /** Push-up: an extended elbow wins over the body-line rule. */
  lemma PushUpRules(angles: AngleMap, joints: Joints)
    ensures var elbow := Get(angles, Elbow, 180.0);
            var bodyLine := Get(angles, BodyLine, 180.0);
            var r := GetFeedback("Push-up", angles, joints);
            && (elbow > 160.0 ==> r == LowerBody)
            && (r == KeepBodyStraight <==> elbow <= 160.0 && bodyLine < 155.0)
            && (r == GreatPushUp <==> elbow <= 160.0 && bodyLine >= 155.0)
  {
  }

  /** Lunge: the knee warning needs both positions and the knee to the right of the toe. */
  lemma LungeRules(angles: AngleMap, joints: Joints)
    ensures var r := GetFeedback("Lunge", angles, joints);
            && (r == KneeForward <==>
                  FrontKneeJoint in joints && FrontToeJoint in joints
                  && joints[FrontKneeJoint].x > joints[FrontToeJoint].x)
            && (r == GreatLunge <==> r != KneeForward)
  {
  }

  /** With no angles at all, the defaults decide: good squat form, but a push-up still too high. */
  lemma EmptyAngleDefaults(joints: Joints)
    ensures GetFeedback("Squat", map[], joints) == GreatSquat
    ensures GetFeedback("Push-up", map[], joints) == LowerBody
  {
  }

  lemma SquatPriorityExample()
    ensures GetFeedback("Squat", map[Back := 140.0, Knee := 100.0, PhaseDownScore := 1.0], map[]) == KeepBackStraight
  {
  }

}
