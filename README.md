# Exercise analysis engine of an AI fitness trainer, modelled in Dafny

The trainer watches a person through a webcam, estimates 15 body landmarks per
frame, and turns them into three things: joint angles, repetition counts for
squats, push-ups and lunges, and a one-line form hint. This project models
that analysis core and proves its properties:

- `trainer.dfy` (module `Trainer`, main.py): the joint-angle aggregator
  `compute_angles` and its `midpoint` helper. The file also holds one
  iteration of the main loop as the class `TrainerSession`, which owns the
  detector and the `last_logged_reps` table. Each frame it feeds the
  detector, asks for feedback, and logs a new repetition count.
- `exercise_detector.dfy` (module `ExerciseDetection`, exercise_detector.py):
  the per-exercise up/down state machine. The class `ExerciseDetector`
  keeps the counter map, the phase map and the selected exercise, as the
  source's object does. Its `Update` method is proved against the pure
  transition function `Transition`, and the lemmas are about `Transition`
  and its iteration `Run`.
- `feedback_system.dfy` (module `Feedback`, feedback_system.py): the
  first-match-wins decision table, as the function `GetFeedback`.
- `pose.dfy` (module `Pose`): the landmark vocabulary of the pose estimator
  (pose_estimation.py:36-52) and integer pixel positions. `angles.dfy` (module
  `Angles`): real points, the angle map, and the angle function type.
- `wrappers.dfy`: the `Option` type.

The angle at a vertex (`calculate_angle`, angle_utils.py:13-34) is computed in
single-precision floating point with an arc-cosine. It is therefore a
parameter `angle: AngleFn` of the aggregator and of the frame step. Only one
lemma, `CollapsedPose`, assumes anything about it: its zero-length sentinel
(angle_utils.py:28-29), stated as the predicate `DegenerateIsZero`.

Exercise and phase names are closed datatypes. The source's string keys
survive where the source compares strings. `SetExercise` and `GetFeedback`
take a string and recognise exactly "Squat", "Push-up" and "Lunge".

Behaviour worth knowing, all proved:

- The front leg is the one whose knee has the larger y, so equal heights
  select the right leg (main.py:64). The hip and ankle are then picked by
  comparing the chosen knee with the left knee by value (main.py:65-66). So
  when both knees sit on the same pixel, the front-knee angle is measured on
  the LEFT leg, while the toe handed to the lunge rule (main.py:127) is the
  RIGHT one. The `ComputeAngles` and `FeedbackJoints` contracts state both
  cases.
- A frame without a pose updates the detector with an empty map, which reads
  as 180 degrees. This completes a pending repetition (`EmptyFrame`). That
  count is not logged in that frame. It is logged by the next frame that has
  a pose and a higher count (`TrainerSession.ProcessFrame`).
- The bilateral averages and the torso angles do not change when left and
  right are swapped. The front-knee angle does not change either, except when
  both knees are at the same height (`MirrorSymmetry`, `MirrorFrontKnee`).

## Model

| member | source | states |
|---|---|---|
| `ExerciseDetection.Parse` | exercise_detector.py:26-28 | a name is accepted exactly when it is one of the three exercise names, and the accepted exercise has that name; otherwise no exercise carries the name |
| `ExerciseDetection.ParseName` | exercise_detector.py:22-28 | each exercise's own name selects that exercise |
| `ExerciseDetection.ExerciseDetector.constructor` | exercise_detector.py:21-24 | every counter starts at 0, every phase at "up", and Squat is selected |
| `ExerciseDetection.ExerciseDetector.SetExercise` | exercise_detector.py:26-28 | a valid name selects its exercise and an invalid one changes nothing; no counter or phase ever changes |
| `ExerciseDetection.ExerciseDetector.Update` | exercise_detector.py:30-60 | only the selected exercise moves, by one `Transition` on its characteristic angle (180 if missing); the other two exercises' counters and phases stay as they were; the status reports the selected exercise with its new count and phase |
| `ExerciseDetection.Transition` | exercise_detector.py:35-57 | a count grows by 0 or 1; a repetition is counted exactly when the previous phase was "down" and the angle exceeds 160, and the phase is then "up"; the new phase is "down" exactly when the angle is below the exercise's threshold (70 for squat and push-up, 80 for lunge) or the machine was down and the angle is at most 160 |
| `ExerciseDetection.Debounce` | exercise_detector.py:37-40 | an angle between the thresholds, or above 160 while already up, leaves count and phase unchanged |
| `ExerciseDetection.EmptyFrame` | exercise_detector.py:36-41 | with an empty angle map, a "down" exercise counts one repetition and goes "up"; an "up" exercise is unchanged |
| `ExerciseDetection.RunMonotone` | exercise_detector.py:39-41 | over any sequence of updates the counter never decreases and grows by at most one per update |
| `ExerciseDetection.RepsBoundedByDips` | exercise_detector.py:37-41 | repetitions counted over a sequence (plus 1 if it ends "down") never exceed the readings below the down threshold (plus 1 if it started "down"), so no repetition is counted without a preceding reading below the down threshold |
| `ExerciseDetection.NoReturnNoRep` | exercise_detector.py:39-41 | a sequence that never comes back above 160 counts no repetition, however many times it dips below the down threshold |
| `ExerciseDetection.RepsAtCrossings` | exercise_detector.py:37-41 | the repetitions counted over a sequence are at most the number of times the angle rises above 160 from at or below it, so repeated dips before one return count once |
| `ExerciseDetection.DoubleDipCountsOnce` | exercise_detector.py:37-41 | squat knee angles 60, 120, 60, 180 count at most one repetition |
| `ExerciseDetection.NoDipNoRep` | exercise_detector.py:37-41 | starting "up", a sequence that never drops below the down threshold counts nothing and stays "up" |
| `ExerciseDetection.SquatExamples` | exercise_detector.py:35-41 | squat knee angles 180, 60, 180 give 1 repetition ending "up", and so do 180, 60, 120, 60, 180 |
| `Feedback.GetFeedback` | feedback_system.py:11-39 | the result is one of the nine messages, one of the selected exercise's own messages; any name other than the three exercises gives "Select an exercise", and only such a name does |
| `Feedback.MessagesDistinguishExercises` | feedback_system.py:11-39 | no message is shared by two exercises' rule tables or with the unknown-exercise answer |
| `Feedback.SquatRules` | feedback_system.py:12-20 | back below 150 gives "Keep your back straight" whatever knee and score say; "Go lower" exactly when back is at least 150, knee above 90 and phase_down_score above 0; "Great squat form" exactly otherwise (defaults 180, 180, 0) |
| `Feedback.PushUpRules` | feedback_system.py:22-30 | elbow above 160 gives "Lower your body" whatever the body line; then "Keep body straight" exactly when the body line is below 155, else "Great push-up form" (defaults 180) |
| `Feedback.LungeRules` | feedback_system.py:32-37 | "Don't push knee forward" exactly when both joint positions are present and the knee's x exceeds the toe's; otherwise "Great lunge form" |
| `Feedback.EmptyAngleDefaults` | feedback_system.py:12-30 | with no angles, squat feedback is "Great squat form" and push-up feedback is "Lower your body" |
| `Feedback.SquatPriorityExample` | feedback_system.py:16-19 | back 140, knee 100, phase_down_score 1 gives "Keep your back straight" |
| `Trainer.Midpoint` | main.py:17-19 | the midpoint is equally far from both pixels in each coordinate |
| `Trainer.MidpointSymmetric` | main.py:17-19 | the midpoint does not depend on the order of its arguments, and the midpoint of a pixel with itself is that pixel |
| `Trainer.FrontSide` | main.py:64 | the front leg is the left leg exactly when the left knee's y is strictly larger, so equal heights select the right leg |
| `Trainer.ComputeAngles` | main.py:22-79 | all eight keys are present; elbow, knee, hip and shoulder each lie exactly halfway between the left and right angle of their joint triple; back and body line are measured at the hip midpoint toward the shoulder midpoint and the knee or ankle midpoint; the front-knee angle uses hip, knee and ankle of the front side, or of the left side when both knees share a pixel; phase_down_score is 0 or 1, and 1 exactly when the averaged knee is below 120 |
| `Trainer.MirrorBilateral` | main.py:37-52 | swapping left and right landmarks leaves each averaged joint angle unchanged |
| `Trainer.MirrorTorso` | main.py:54-61 | swapping left and right landmarks leaves back and body line unchanged |
| `Trainer.MirrorFrontKnee` | main.py:63-68 | the front-knee angle is unchanged by swapping sides when the knees are at different heights; at equal heights with distinct knees the original measures the right leg and the mirror image the left leg |
| `Trainer.MirrorSymmetry` | main.py:22-79 | every angle except the front knee is unchanged by swapping left and right, and the front knee too when the knee heights differ |
| `Trainer.CollapsedPose` | main.py:37-78 | if a zero-length limb reads as 0 degrees, a pose with every landmark on one pixel gives 0 for all seven angles and phase_down_score 1, and every exercise's machine enters "down" on it |
| `Trainer.FeedbackJoints` | main.py:127-133 | the knee and toe given to the lunge rule are both present and come from the same side, the front side |
| `Trainer.TrainerSession.constructor` | main.py:99-110 | a fresh detector in its initial state, with every last-logged count 0 |
| `Trainer.TrainerSession.ProcessFrame` | main.py:122-141 | the detector moves as one `Update` on the frame's angles (an empty map when no pose was found); feedback is the decision table's answer for the selected exercise, or the fixed "Pose not detected. Step into frame."; a record is logged exactly when a pose was found and the count exceeds the last logged one for that exercise, and then that entry alone becomes the count; the session invariant that no exercise has logged more than it has counted is kept |
| `Trainer.TrainerSession.HandleKey` | main.py:152-160 | the key code is taken modulo 256; "1", "2", "3" select Squat, Push-up, Lunge; "q" and only "q" ends the loop; any other key leaves the selection alone; counters and phases never change |

## Left out

- The angle computation itself (angle_utils.py:13-34): single-precision vectors, norms, clipping and arc-cosine. It is the parameter `angle`. Its range and symmetry are not modelled, and its zero-length sentinel is used only as an explicit hypothesis of `CollapsedPose`.
- Floating-point rounding: angle averages, midpoints and threshold comparisons are exact over the reals.
- Trainer.ComputeAngles: a missing landmark raises a lookup error in the source. The model requires the twelve landmarks instead. The pose estimator always supplies all 15, and `ProcessFrame` requires that.
- Camera capture, resizing and mirroring (camera.py), and the pose estimator's inference and skeleton drawing (pose_estimation.py) are device I/O and a foreign model. Only the landmark vocabulary is kept.
- The workout logger (data_logger.py), a CSV append with a wall-clock timestamp. A log event is the `LogRecord` that `ProcessFrame` returns; the timestamp is not modelled.
- `draw_ui`, the frames-per-second timing (main.py:145-147), window display and the frame-read failure exit are rendering, timing and I/O. The `waitKey` call is replaced by the key code passed to `HandleKey`.
- The unbounded `while True` loop is modelled as its single iteration, split into `ProcessFrame` and `HandleKey`, on the state of `TrainerSession`.
