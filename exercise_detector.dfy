/**
 * The repetition state machine (exercise_detector.py). Each exercise has a
 * counter and an up/down phase; each update reads the selected exercise's
 * characteristic angle, moves its phase and counts a repetition on a
 * down-to-up transition.
 */
module ExerciseDetection {

  import opened Wrappers
  import opened Angles

  datatype Exercise = Squat | PushUp | Lunge

  datatype Phase = Up | Down

  /** The name under which the source keys its dictionaries and reports the exercise. */
  function Name(e: Exercise): string {
    match e
    case Squat => "Squat"
    case PushUp => "Push-up"
    case Lunge => "Lunge"
  }

  /** The exercise a selection string names, if it is one of the three keys. */
  function Parse(name: string): (r: Option<Exercise>)
    ensures r.Some? ==> Name(r.value) == name
    ensures r.None? ==> forall e :: Name(e) != name
  {
    if name == "Squat" then Some(Squat)
    else if name == "Push-up" then Some(PushUp)
    else if name == "Lunge" then Some(Lunge)
    else None
  }

  lemma ParseName(e: Exercise)
    ensures Parse(Name(e)) == Some(e)
  {
  }

  /** The angle a missing key is read as: a fully extended joint. */
  const DefaultAngle: real := 180.0

  /** Above this angle a joint counts as extended again. */
  const UpThreshold: real := 160.0

  function CharacteristicKey(e: Exercise): AngleKey {
    match e
    case Squat => Knee
    case PushUp => Elbow
    case Lunge => FrontKnee
  }

  /** Below this angle the exercise enters its "down" phase. */
  function DownThreshold(e: Exercise): real {
    match e
    case Squat => 70.0
    case PushUp => 70.0
    case Lunge => 80.0
  }

  /** The characteristic angle of `e` in a frame's angle map. */
  function Reading(e: Exercise, angles: AngleMap): real {
    Get(angles, CharacteristicKey(e), DefaultAngle)
  }

  datatype ExerciseState = ExerciseState(reps: nat, phase: Phase)

  const Initial: ExerciseState := ExerciseState(0, Up)

  /** What one update reports: the selected exercise, its count and its phase afterwards. */
  datatype ExerciseStatus = ExerciseStatus(exercise: Exercise, reps: nat, phase: Phase)

  /** One step of the phase machine of exercise `e` on characteristic angle `a`. */
  function Transition(e: Exercise, s: ExerciseState, a: real): (r: ExerciseState)
    ensures r.reps == s.reps || r.reps == s.reps + 1
    ensures r.reps == s.reps + 1 <==> s.phase == Down && a > UpThreshold
    ensures r.reps == s.reps + 1 ==> r.phase == Up
    ensures r.phase == Down <==> a < DownThreshold(e) || (s.phase == Down && a <= UpThreshold)
  {
    if a < DownThreshold(e) then ExerciseState(s.reps, Down)
    else if a > UpThreshold && s.phase == Down then ExerciseState(s.reps + 1, Up)
    else s
  }

  /** Angles between the two thresholds, or extension while already up, change nothing. */
  lemma Debounce(e: Exercise, s: ExerciseState, a: real)
    requires DownThreshold(e) <= a
    requires a <= UpThreshold || s.phase == Up
    ensures Transition(e, s, a) == s
  {
  }

  /** A frame with no angles reads every characteristic angle as 180 degrees. */
  lemma EmptyFrame(e: Exercise, s: ExerciseState)
    ensures Transition(e, s, Reading(e, map[])) ==
              if s.phase == Down then ExerciseState(s.reps + 1, Up) else s
  {
  }

  /** The state reached from `s` after the characteristic angles `readings`, one update each. */
  function Run(e: Exercise, s: ExerciseState, readings: seq<real>): ExerciseState
    decreases |readings|
  {
    if readings == [] then s
    else Run(e, Transition(e, s, readings[0]), readings[1..])
  }

  /** How many of `readings` drop below the exercise's down threshold. */
  function CountBelow(e: Exercise, readings: seq<real>): nat
    decreases |readings|
  {
    if readings == [] then 0
    else (if readings[0] < DownThreshold(e) then 1 else 0) + CountBelow(e, readings[1..])
  }

  function IsDown(s: ExerciseState): nat {
    if s.phase == Down then 1 else 0
  }

  /** Counters never decrease, and grow by at most one per update. */
  lemma {:induction false} RunMonotone(e: Exercise, s: ExerciseState, readings: seq<real>)
    ensures s.reps <= Run(e, s, readings).reps <= s.reps + |readings|
    decreases |readings|
  {
    if readings != [] {
      RunMonotone(e, Transition(e, s, readings[0]), readings[1..]);
    }
  }

  /**
   * Every counted repetition is paid for by an earlier reading below the
   * down threshold (or by starting in "down").
   */
  lemma {:induction false} RepsBoundedByDips(e: Exercise, s: ExerciseState, readings: seq<real>)
    ensures Run(e, s, readings).reps + IsDown(Run(e, s, readings))
              <= s.reps + IsDown(s) + CountBelow(e, readings)
    decreases |readings|
  {
    if readings != [] {
      RepsBoundedByDips(e, Transition(e, s, readings[0]), readings[1..]);
    }
  }

  /**
   * How many of `readings` rise above the up threshold from a reading that
   * was not above it; `prevAbove` says whether the reading before the first
   * one was above it.
   */
  function CountCrossings(readings: seq<real>, prevAbove: bool): nat
    decreases |readings|
  {
    if readings == [] then 0
    else (if readings[0] > UpThreshold && !prevAbove then 1 else 0)
         + CountCrossings(readings[1..], readings[0] > UpThreshold)
  }

  /** A sequence that never comes back above the up threshold counts nothing, however often it dips. */
  lemma {:induction false} NoReturnNoRep(e: Exercise, s: ExerciseState, readings: seq<real>)
    requires forall i :: 0 <= i < |readings| ==> readings[i] <= UpThreshold
    ensures Run(e, s, readings).reps == s.reps
    decreases |readings|
  {
    if readings != [] {
      NoReturnNoRep(e, Transition(e, s, readings[0]), readings[1..]);
    }
  }

  /**
   * At most one repetition per upward crossing of the up threshold: staying
   * above it, or dipping without coming back above it, counts nothing more.
   */
  lemma {:induction false} RepsAtCrossings(e: Exercise, s: ExerciseState, readings: seq<real>, prevAbove: bool)
    requires prevAbove ==> s.phase == Up
    ensures Run(e, s, readings).reps <= s.reps + CountCrossings(readings, prevAbove)
    decreases |readings|
  {
    if readings != [] {
      RepsAtCrossings(e, Transition(e, s, readings[0]), readings[1..], readings[0] > UpThreshold);
    }
  }

  /** Squat knee angles 60, 120, 60, 180 cross 160 upwards once, so at most one repetition is counted. */
  lemma DoubleDipCountsOnce()
    ensures Run(Squat, Initial, [60.0, 120.0, 60.0, 180.0]).reps <= 1
  {
  }

  /** A sequence that never drops below the down threshold leaves an "up" state as it is. */
  lemma {:induction false} NoDipNoRep(e: Exercise, s: ExerciseState, readings: seq<real>)
    requires s.phase == Up
    requires forall i :: 0 <= i < |readings| ==> readings[i] >= DownThreshold(e)
    ensures Run(e, s, readings) == s
    decreases |readings|
  {
    if readings != [] {
      Debounce(e, s, readings[0]);
      NoDipNoRep(e, s, readings[1..]);
    }
  }

  /** Squat knee angles 180, 60, 180 give one repetition; so do 180, 60, 120, 60, 180. */
  lemma SquatExamples()
    ensures Run(Squat, Initial, [180.0, 60.0, 180.0]) == ExerciseState(1, Up)
    ensures Run(Squat, Initial, [180.0, 60.0, 120.0, 60.0, 180.0]) == ExerciseState(1, Up)
  {
  }

  /** Per-exercise counters and phases, and the exercise that updates apply to. */
  class ExerciseDetector {
    var repCounters: map<Exercise, nat>
    var lastPhase: map<Exercise, Phase>
    var currentExercise: Exercise

    ghost predicate Valid()
      reads this
    {
      forall e :: e in repCounters && e in lastPhase
    }

    function State(e: Exercise): ExerciseState
      reads this
      requires Valid()
    {
      ExerciseState(repCounters[e], lastPhase[e])
    }

    constructor ()
      ensures Valid()
      ensures currentExercise == Squat
      ensures forall e :: State(e) == Initial
    {
      repCounters := map[Squat := 0, PushUp := 0, Lunge := 0];
      lastPhase := map[Squat := Up, PushUp := Up, Lunge := Up];
      currentExercise := Squat;
      new;
      forall e: Exercise
        ensures e in repCounters && e in lastPhase
      {
        assert e.Squat? || e.PushUp? || e.Lunge?;
      }
    }

    /** Selects the exercise `name` names; any other name is ignored. */
    method SetExercise(name: string)
      requires Valid()
      modifies this`currentExercise
      ensures Valid()
      ensures Parse(name).Some? ==> currentExercise == Parse(name).value
      ensures Parse(name).None? ==> currentExercise == old(currentExercise)
      ensures forall e :: State(e) == old(State(e))
    {
      if name == "Squat" || name == "Push-up" || name == "Lunge" {
        currentExercise := Parse(name).value;
      }
    }

    /** Advances the selected exercise's machine on this frame's angles. */
    method Update(angles: AngleMap) returns (status: ExerciseStatus)
      requires Valid()
      modifies this`repCounters, this`lastPhase
      ensures Valid()
      ensures currentExercise == old(currentExercise)
      ensures State(currentExercise)
                == Transition(currentExercise, old(State(currentExercise)), Reading(currentExercise, angles))
      ensures forall e :: e != currentExercise ==> State(e) == old(State(e))
      ensures status == ExerciseStatus(currentExercise, State(currentExercise).reps, State(currentExercise).phase)
    {
      var exercise := currentExercise;
      var phase := lastPhase[exercise];

      match exercise {
        case Squat =>
          var knee := Get(angles, Knee, 180.0);
          if knee < 70.0 {
            phase := Down;
          } else if knee > 160.0 && lastPhase[exercise] == Down {
            phase := Up;
            repCounters := repCounters[exercise := repCounters[exercise] + 1];
          }
        case PushUp =>
          var elbow := Get(angles, Elbow, 180.0);
          if elbow < 70.0 {
            phase := Down;
          } else if elbow > 160.0 && lastPhase[exercise] == Down {
            phase := Up;
            repCounters := repCounters[exercise := repCounters[exercise] + 1];
          }
        case Lunge =>
          var frontKnee := Get(angles, FrontKnee, 180.0);
          if frontKnee < 80.0 {
            phase := Down;
          } else if frontKnee > 160.0 && lastPhase[exercise] == Down {
            phase := Up;
            repCounters := repCounters[exercise := repCounters[exercise] + 1];
          }
      }

      lastPhase := lastPhase[exercise := phase];
      status := ExerciseStatus(exercise, repCounters[exercise], phase);
    }
  }

}
