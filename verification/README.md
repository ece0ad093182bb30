# CocoaSplit animation timeline, modelled in Dafny

CocoaSplit's animation runner lets a script declare, in order, timed changes
("steps") to one or more inputs, with wait markers and labels between them.
When a block of steps is committed, one forward pass gives every step an
absolute begin time. The pass works on a global timeline and on one
sub-timeline per input. Labels let a later wait refer to the end of an
earlier step.

This project models that pass and the code around it:

- `Animation` (`animation.dfy`) is the step record of `CSAnimation.js`. It covers the
  constructor defaults and keyword handling, the duration arithmetic of
  `repeatcount`, `autoreverse` and `repeatduration`, and `apply`, which stamps
  a step with its begin and end time. It also covers the handler order of `completed`.
- `AnimationBlock` (`block.dfy`) models building a block: the 0.25 default block
  duration, `add_animation` with its 0.001 substitute for a zero duration,
  `add_waitmarker`, `wait` and `waitAnimation`.
- `Scheduler` (`scheduler.dfy`) is the scheduling pass of `commit`. It is a
  left fold (`Run`) of one iteration (`StepOnce`) over the declared steps,
  from a start state at a given origin time. The iteration has five phases:
  create the input's record, update the cursor for a wait, resolve the begin
  time, apply, and update the latest ends and the labels. The source
  registers a step's label first, at the top of the loop body; the model
  registers it last, which is equivalent for the reason given below.
- `ScheduleProps` (`schedule_props.dfy`) proves properties of one iteration
  and of the whole pass. `Scenarios` (`scenarios.dfy`) works through small
  blocks, including the quirks of the code.
- `Layout` (`layout.dfy`) models the layout arithmetic of
  `CSAnimationRunner.py`. It covers `adjust_coordinates`, `moveTo`, `move`,
  `moveX`/`moveY`, `moveCenter`, relative placement, and the anchor shifts of
  `sizeWidth`, `sizeHeight`, `size` and `scaleSize`. Geometry is a record of
  the layer's frame, bounds size and position.
- `Base` (`base.dfy`) defines `Option`, `Result` and `Max`.

Times are `real`. The clock reading that `commit` converts into the root
layer's time is a parameter, `origin`. Python and JavaScript truthiness is
written out:

- an empty label is no label;
- a `repeatcount` or `repeatduration` of 0 is ignored;
- a block duration of `None` or 0 becomes 0.25.

The label table stores the end time of the step registered under each label.
The source stores the step object and reads its `end_time` later. The two
agree because only wait markers read the table, wait markers never register,
and a registered step's `end_time` is final once it has been applied.

Some behaviours of the code are easy to misread; the model follows the code:

- Untargeted animation steps with no wait between them all begin at the same
  cursor. They run together, not one after another (`GlobalActionsRunTogether`).
- A relative wait counts from the cursor, not from the end of the previous
  step. Animation 1 s, `wait(2)`, animation gives begins 0 and 2
  (`RelativeWaitFromCursor`).
- A step with an input raises the global latest end as well as its input's (line 118).
- Wait markers are applied like steps and raise the latest ends with their
  own duration (`WaitMarkerExtendsLatestEnd`).
- Durations are not validated. A negative duration passes through unchanged.

## Model

| member | source | states |
|---|---|---|
| `Animation.Step.RepeatCount` | CocoaSplit/CSAnimationRunner/CSAnimation.js:118-130 | without an animation nothing changes; 'forever' sets ignore_wait and keeps the duration; a count multiplies the duration; the wrapped animation changes only in its repeat count, and nothing else changes |
| `Animation.Step.Autoreverse` | CocoaSplit/CSAnimationRunner/CSAnimation.js:132-139 | the duration doubles whether or not an animation is present; the animation, if any, autoreverses and changes in nothing else |
| `Animation.Step.RepeatDuration` | CocoaSplit/CSAnimationRunner/CSAnimation.js:99-105 | the duration becomes exactly d, and so does the animation's repeat duration, its only changed field |
| `Animation.Step.Apply` | CocoaSplit/CSAnimationRunner/CSAnimation.js:38-54 | begin_time becomes b; end_time is one duration after b unless ignore_wait, in which case it keeps its prior value; the duration is returned; no other field changes |
| `Animation.Step.Completed` | CocoaSplit/CSAnimationRunner/CSAnimation.js:27-36 | exactly the handlers that are set run, each once, the internal one before the user one |
| `Animation.Timed` | CocoaSplit/CSAnimationRunner/CSAnimation.js:141-167 | the duration is the animation's duration times a truthy repeat count, doubled by autoreverse, unless a truthy repeatduration overrides it; ignore_wait holds iff there is an animation and the count is 'forever'; the wrapped animation takes a truthy repeat count, autoreverses when asked, takes an overriding repeat duration, and changes in nothing else |
| `Animation.NewStep` | CocoaSplit/CSAnimationRunner/CSAnimation.js:3-183 | a new step is no wait mark, has no input, begin and end 0, the internal handler set; on_complete and a non-empty label are taken from the options; duration, ignore_wait and the wrapped animation as in `Timed` |
| `Animation.FreshStepDefaults` | CocoaSplit/CSAnimationRunner/CSAnimation.js:8-16 | a step without animation or options is not a wait mark, not wait-only, not ignore_wait, has duration, begin and end 0 and gets no delegate |
| `Animation.InitialDurationFromAnimation` | CocoaSplit/CSAnimationRunner/CSAnimation.js:141-147 | with an animation and no options the step's duration is the animation's duration |
| `Animation.ApplyOverrides` | CocoaSplit/CSAnimationRunner/CSAnimation.js:38-54 | applying again at b2 gives the same step as applying once at b2 |
| `Animation.RepeatAutoreverseCommute` | CocoaSplit/CSAnimationRunner/CSAnimation.js:118-139 | repeatcount and autoreverse give the same duration and ignore_wait in either order |
| `AnimationBlock.NewBlock` | CocoaSplit/CSAnimationRunner/CSAnimationBlock.py:21-36 | a new block is empty; its duration is the requested one when that is truthy, else 0.25; it is never 0 |
| `AnimationBlock.AddAnimation` | CocoaSplit/CSAnimationRunner/CSAnimationBlock.py:52-59 | the step is appended after the unchanged earlier steps; a zero duration becomes 0.001 on the step and its animation, whose other fields are kept, as are the step's; a zero-duration step without an animation raises |
| `AnimationBlock.WaitMarker` | CocoaSplit/CSAnimationRunner/CSAnimationBlock.py:44-50 | a wait marker has no animation, is a wait mark but not wait-only, has the requested duration and input and the truthy label of the options |
| `AnimationBlock.AddWaitmarker` | CocoaSplit/CSAnimationRunner/CSAnimationBlock.py:44-50 | the wait marker is appended after the unchanged earlier steps |
| `AnimationBlock.Wait` | CocoaSplit/CSAnimationRunner/CSAnimationBlock.py:61-63 | the appended marker is a wait mark that is also wait-only, otherwise the marker add_waitmarker builds |
| `AnimationBlock.WaitAnimation` | CocoaSplit/CSAnimationRunner/CSAnimationBlock.py:65-66 | the appended marker is exactly the marker add_waitmarker builds, carrying the options' label: a wait mark that is not wait-only, so it waits for completion |
| `AnimationBlock.BuildingKeepsActionsNonZero` | CocoaSplit/CSAnimationRunner/CSAnimationBlock.py:52-66 | every non-wait step of a block has a nonzero duration, and every building operation keeps it so |
| `Scheduler.Touch` | CocoaSplit/CSAnimationRunner/CSAnimationBlock.py:82-84 | an input's record is created on its first reference with the current global cursor and latest end 0; existing records are never changed or removed |
| `Scheduler.WaitReference` | CocoaSplit/CSAnimationRunner/CSAnimationBlock.py:87-95 | the reference end is the end time registered under the wait's label if the label is known, else the latest end of the wait's timeline |
| `Scheduler.WaitPhase` | CocoaSplit/CSAnimationRunner/CSAnimationBlock.py:86-104 | a relative wait moves its own timeline's cursor by its duration, a completion wait moves it to the reference end plus its duration; other cursors, latest ends and labels are untouched; non-wait steps pass |
| `Scheduler.ResolveBegin` | CocoaSplit/CSAnimationRunner/CSAnimationBlock.py:109-115 | an untargeted step begins at the global cursor; a step with an input begins at the larger of the global and the input's cursor, and the input's cursor is raised to it |
| `Scheduler.Extend` | CocoaSplit/CSAnimationRunner/CSAnimationBlock.py:117-122 | unless ignore_wait, the global latest end, and the input's for a step with an input, become the max of the old value and begin plus duration; ignore_wait steps change nothing |
| `Scheduler.Register` | CocoaSplit/CSAnimationRunner/CSAnimationBlock.py:79-80 | a labelled non-wait step overwrites its label's entry with its end time; other steps leave the labels alone |
| `Scheduler.StepOnce` | CocoaSplit/CSAnimationRunner/CSAnimationBlock.py:78-122 | one iteration keeps the step's declaration apart from its times, adds only the step's input, never lowers a latest end, makes end = begin + duration and covered by the latest ends unless ignore_wait, and registers the label as `Register` says |
| `Scheduler.Run` | CocoaSplit/CSAnimationRunner/CSAnimationBlock.py:78-122 | the pass yields one stamped step per declared step and never lowers the global latest end |
| `Scheduler.RunKeepsDeclarations` | CocoaSplit/CSAnimationRunner/CSAnimationBlock.py:116 | the pass changes only the begin and end times of the steps |
| `Scheduler.RunInputs` | CocoaSplit/CSAnimationRunner/CSAnimationBlock.py:82-84 | after the pass there is a record for exactly the inputs the steps name, plus those already there; in particular every step's input has one |
| `Scheduler.RunInputLatestEnds` | CocoaSplit/CSAnimationRunner/CSAnimationBlock.py:119-122 | no input record disappears and no input's latest end moves back during the pass |
| `Scheduler.RunLabels` | CocoaSplit/CSAnimationRunner/CSAnimationBlock.py:79-80 | the label table's keys after the pass are those before plus the labels the steps register |
| `Scheduler.Commit` | CocoaSplit/CSAnimationRunner/CSAnimationBlock.py:68-123 | committing from an origin stamps every declared step and changes nothing else in it; the inputs and labels known afterwards are exactly those the steps name and register; the global latest end is at least the origin |
| `ScheduleProps.StepBegin` | CocoaSplit/CSAnimationRunner/CSAnimationBlock.py:109-115 | a step begins at the global cursor its wait left, or at the max of that and its input's cursor, which is raised to the begin; no step begins before the global cursor; other inputs are untouched |
| `ScheduleProps.FirstReference` | CocoaSplit/CSAnimationRunner/CSAnimationBlock.py:82-115 | an input seen first is seeded at the global cursor with latest end 0; its step begins no earlier than the global cursor, and exactly there when it is not a wait marker |
| `ScheduleProps.RelativeWait` | CocoaSplit/CSAnimationRunner/CSAnimationBlock.py:86-115 | an untargeted relative wait moves the global cursor by its duration and no input cursor; a targeted one leaves the global cursor and other inputs alone and sets its input's cursor to the max of the global cursor and old cursor plus duration |
| `ScheduleProps.CompletionWait` | CocoaSplit/CSAnimationRunner/CSAnimationBlock.py:86-115 | a completion wait puts its timeline's cursor at the reference end plus its duration: the label's registered end if known, else the timeline's latest end, which is 0 for a new input |
| `ScheduleProps.LatestEndRule` | CocoaSplit/CSAnimationRunner/CSAnimationBlock.py:117-122 | unless ignore_wait, any step, wait markers and targeted steps included, sets the global latest end to max(old, begin + duration), and its input's to max(old or 0, begin + duration); ignore_wait changes no latest end |
| `ScheduleProps.IgnoredLabelKeepsPriorEnd` | CocoaSplit/CSAnimationRunner/CSAnimation.js:48-51 | a labelled ignore_wait step registers the end time it came in with (0 for a fresh step) |
| `ScheduleProps.RunAt` | CocoaSplit/CSAnimationRunner/CSAnimationBlock.py:78 | step k of the pass is one iteration from the state the steps before it left |
| `ScheduleProps.CommitStartsAtOrigin` | CocoaSplit/CSAnimationRunner/CSAnimationBlock.py:75-77 | the global cursor and latest end start at the origin with no inputs or labels; a first non-wait step begins at the origin |
| `ScheduleProps.LatestEndCovers` | CocoaSplit/CSAnimationRunner/CSAnimationBlock.py:117-122 | after the pass, the global latest end is at least every non-ignore_wait step's end, and each input's latest end at least the end of every such step on it |
| `ScheduleProps.LabelsOfMembers` | CocoaSplit/CSAnimationRunner/CSAnimationBlock.py:79-80 | a label is registered by a list of steps iff some labelled non-wait step in it carries that label |
| `ScheduleProps.LabelUntouched` | CocoaSplit/CSAnimationRunner/CSAnimationBlock.py:79-80 | steps that do not register a label leave its entry, or its absence, as it was |
| `ScheduleProps.LabelLastWriteWins` | CocoaSplit/CSAnimationRunner/CSAnimationBlock.py:79-80 | after the pass a label maps to the end time of the last step that registered it |
| `ScheduleProps.GlobalActionsRunTogether` | CocoaSplit/CSAnimationRunner/CSAnimationBlock.py:109-116 | untargeted non-wait steps all begin at the global cursor they found, which they leave unchanged |
| `ScheduleProps.RelativeWaitShifts` | CocoaSplit/CSAnimationRunner/CSAnimationBlock.py:96-104 | an untargeted relative wait of d in front of untargeted animation steps shifts each of their begin times by exactly d |
| `Scenarios.RelativeWaitFromCursor` | CocoaSplit/CSAnimationRunner/CSAnimationBlock.py:96-122 | animation 1 s, wait(2), animation from origin 0: begins 0 and 2; the marker runs 2 to 4 and the latest end is 4 |
| `Scenarios.LabelAcrossInputs` | CocoaSplit/CSAnimationRunner/CSAnimationBlock.py:87-115 | a completion wait of 0.5 on input 2 for label "a" of a 2 s step on input 1 makes input 2's next step begin 2.5 after the labelled step |
| `Scenarios.FreshInputWaitIsLost` | CocoaSplit/CSAnimationRunner/CSAnimationBlock.py:82-115 | from origin 100, a completion wait of 1 on a new input leaves its next step at 100, while the same wait on the global timeline gives 101 |
| `Scenarios.ForeverLabelResolvesToZero` | CocoaSplit/CSAnimationRunner/CSAnimationBlock.py:92-104 | waiting 0.5 on the label of a step repeated forever sends the global cursor to 0.5, since that step's end time stays 0 |
| `Scenarios.WaitMarkerExtendsLatestEnd` | CocoaSplit/CSAnimationRunner/CSAnimationBlock.py:109-122 | after a 1 s animation and wait(2), a completion wait resumes at 4, the wait marker's own end |
| `Layout.AdjustCoordinates` | CocoaSplit/CSAnimationRunner/CSAnimationRunner.py:145-150 | the result is the point's offset from the frame origin: adding the origin back gives the point |
| `Layout.MoveToTarget` | CocoaSplit/CSAnimationRunner/CSAnimationRunner.py:380-388 | the target position moves the frame's origin to exactly (x, y) and keeps the frame size |
| `Layout.MoveXTarget` | CocoaSplit/CSAnimationRunner/CSAnimationRunner.py:326-330 | the target x moves the frame by exactly dx |
| `Layout.MoveYTarget` | CocoaSplit/CSAnimationRunner/CSAnimationRunner.py:332-336 | the target y moves the frame by exactly dy |
| `Layout.MoveTarget` | CocoaSplit/CSAnimationRunner/CSAnimationRunner.py:339-346 | as written, the position moves by the delta plus the position's offset from the frame origin |
| `Layout.MoveByDelta` | CocoaSplit/CSAnimationRunner/CSAnimationRunner.py:339-346 | the documented move: the position moves by the delta, the same as moveX and moveY, so the frame origin moves by the delta |
| `Layout.MoveAgreesOnlyAtOriginAnchor` | CocoaSplit/CSAnimationRunner/CSAnimationRunner.py:339-346 | the code and the documented move agree iff the position is the frame origin |
| `Layout.MoveOvershootsCentredLayer` | CocoaSplit/CSAnimationRunner/CSAnimationRunner.py:339-346 | a centre-anchored 100 x 100 layer at (0,0) moved by (10,0) gets target position (110,100) instead of (60,50) |
| `Layout.CenterOrigin` | CocoaSplit/CSAnimationRunner/CSAnimationRunner.py:352-357 | the origin puts the frame's midpoint on the root layer's midpoint on both axes |
| `Layout.MoveCenterCentres` | CocoaSplit/CSAnimationRunner/CSAnimationRunner.py:348-358 | after moveCenter, the frame's midpoint is the root's midpoint |
| `Layout.RelativeOrigin` | CocoaSplit/CSAnimationRunner/CSAnimationRunner.py:491-515 | on an untransformed layer (frame size equal to bounds size), left=m leaves a gap m between own right edge and the other's left edge; right=m, top=m and bottom=m leave the matching gaps; left wins over right and top over bottom; offsetX/offsetY override; an axis with no option keeps the current origin |
| `Layout.MoveRelativeLeftLeavesGap` | CocoaSplit/CSAnimationRunner/CSAnimationRunner.py:549-576 | moveRelativeTo with left=m and offsetY=0 on an untransformed layer leaves a gap of m to the other input's left edge, bottoms aligned |
| `Layout.AnchorShift` | CocoaSplit/CSAnimationRunner/CSAnimationRunner.py:208-211 | the near anchor shifts by (new - old)/2, the far anchor alone by (old - new)/2, neither by nothing; the near anchor wins |
| `Layout.SizeWidth` | CocoaSplit/CSAnimationRunner/CSAnimationRunner.py:196-217 | the new bounds have the new width; on an untransformed layer with the position at the centre, anchorLeft keeps the left edge, anchorRight alone keeps the right edge, and no anchor keeps the centre |
| `Layout.SizeHeight` | CocoaSplit/CSAnimationRunner/CSAnimationRunner.py:219-236 | the new bounds have the new height; on an untransformed layer with the position at the centre, anchorBottom keeps the bottom edge, anchorTop alone the top edge, and no anchor the centre |
| `Layout.SizeBoth` | CocoaSplit/CSAnimationRunner/CSAnimationRunner.py:239-270 | the new bounds are (width, height); each axis is anchored independently, exactly as in sizeWidth and sizeHeight, so on an untransformed layer with the position at the centre each anchor keeps its edge |
| `Layout.ScaleSize` | CocoaSplit/CSAnimationRunner/CSAnimationRunner.py:188-194 | the new bounds are the current ones times s, keeping the aspect ratio; s = 1 keeps the size; the anchors move the position exactly as in size, so on an untransformed layer with the position at the centre each anchor keeps its edge |
| `Layout.ScaleSizeComposes` | CocoaSplit/CSAnimationRunner/CSAnimationRunner.py:188-194 | scaling by s and then by u from the new size gives the size of one scaling by s times u |

## Left out

- Floating-point rounding is not modelled. Times and layout values are exact reals, so the 0.001 substitute, the cursor sums, the gap and edge equalities and `Layout.ScaleSizeComposes` hold exactly in the model. In Python and JavaScript doubles they hold only up to rounding.
- Core Animation and transaction plumbing is left out: `CATransaction.begin`/`commit`, `addAnimationForKey`, `setValue_forKeyPath_`, `set_model_value`, `apply_immediate`, `extra_model`, and the layer and key path a step targets. These are foreign calls. `apply` keeps only its timing effect.
- The clock (`CACurrentMediaTime`, `convertTime_fromLayer_`) is left out. Its reading is the `origin` parameter of `Commit`.
- The completion delegate and its asynchronous callback are left out. Whether a delegate is attached is kept as the predicate `AttachesDelegate`.
- The ambient current block (`current_frame` and the module-level wrappers) is left out. The block is passed explicitly. `CSAnimation.waitAnimation`, which reaches the current block this way, is left out too.
- `set_completion_block` and the unused fields `max_animation_time` and `beginTime` are left out, since the pass does not read them.
- Plugin discovery and loading are left out, because they are file-system and dynamic-import glue.
- Rotation helpers are left out, because they use floating-point radians. `timingFunction` and the `timing` option are left out, because they call library easing curves.
- The translate helpers are left out, and so are opacity, border, corner radius, hide/show and z-position. They are thin wrappers that declare one animation.
- `simple_animation` and `basic_animation` are left out. The layout functions return the target values and do not declare the resulting steps. The second resize animation on a resizable source layer is left out as well.
- `SyphonCapture.h` is left out. It is an interface declaration with no logic.
- `AnimationBlock.AddAnimation`: the zero-duration substitution is modelled, but a `None` animation with a nonzero duration is appended as the source does. No type error is modelled beyond the zero-duration dereference.
- Steps are values, so appending one step object to a block twice, which in the source makes both entries share one `begin_time`/`end_time`, is not modelled; every appended step is its own record.
- `Layout.RelativeOrigin`: the gap reading holds only on an untransformed layer. The code measures the layer's own extent with its bounds, while the other input is measured by its frame, and after a scale transform the two differ. The contract states the arithmetic the code performs.
- `Layout.SizeHeight`: the edge-keeping reading assumes the layer's position is its centre, as for `Layout.SizeWidth` below; the contract states the shift arithmetic the code performs.
- `Layout.SizeBoth`: the same centre-position assumption applies on both axes.
- `Layout.ScaleSize`: the same centre-position assumption applies to its anchors, which it passes on to `size`.
- `Layout.SizeWidth`: the edge-keeping reading assumes the layer's position is its centre, which is Core Animation's default anchor point, and that the layer is untransformed (frame size equal to bounds size). The same untransformed-layer assumption applies to `Layout.SizeHeight`, `Layout.SizeBoth` and `Layout.ScaleSize`. The contract states the shift arithmetic that the code performs. It does not state the layer's resulting geometry.

## Findings

| source | as written | input that shows it | evidently intended | confidence | as-written member | corrected member |
|---|---|---|---|---|---|---|
| CocoaSplit/CSAnimationRunner/CSAnimationRunner.py:339-346 | `move` hands the current position plus the delta to `moveTo`, which reads its arguments as the frame origin, so the layer moves by the delta plus the position's offset from the origin | a 100 x 100 layer with frame origin (0, 0) and position (50, 50), `move(10, 0)`: target position (110, 100) | target position (60, 50): a move by the delta, as its documentation and `moveX`/`moveY` do | medium; not executed; correct only for a layer whose anchor point is (0, 0) | `Layout.MoveTarget` (`Layout.MoveOvershootsCentredLayer`) | `Layout.MoveByDelta` |
