/** The scheduling pass of `AnimationBlock.commit`: one forward walk over the
    declared steps that gives each an absolute begin time on the global
    timeline and on the sub-timeline of its input. The pass is written as a
    left fold of `StepOnce` over the step list. */
module Scheduler {
  import opened Base
  import opened Animation
  import opened AnimationBlock

  /** The bookkeeping kept for one input: its cursor (`c_begin`) and the
      furthest end reached on it (`latest_end_time`). */
  datatype InputTimes = InputTimes(cursor: real, latestEnd: real)

  /** The state of the pass: the global cursor and latest end, the per-input
      records, and the end time of the step registered under each label. */
  datatype Timeline = Timeline(
    cursor: real,
    latestEnd: real,
    inputs: map<InputId, InputTimes>,
    labels: map<string, real>)

  /** The state before the first step: both global times at the origin. */
  function Start(origin: real): Timeline {
    Timeline(origin, origin, map[], map[])
  }

  /** A step registers its label when the label is truthy and it is not a wait mark. */
  predicate Registers(s: Step) {
    s.Labelled() && !s.isWaitMark
  }

  /** Every input named by the steps' own records is known to the timeline. */
  predicate Knows(t: Timeline, input: Option<InputId>) {
    input.Some? ==> input.value in t.inputs
  }

  /** The cursor of the timeline a step belongs to. */
  function CursorOf(t: Timeline, input: Option<InputId>): real
    requires Knows(t, input)
  {
    if input.Some? then t.inputs[input.value].cursor else t.cursor
  }

  /** The latest end of the timeline a step belongs to. */
  function LatestEndOf(t: Timeline, input: Option<InputId>): real
    requires Knows(t, input)
  {
    if input.Some? then t.inputs[input.value].latestEnd else t.latestEnd
  }

  /** Creates the input's record on its first reference, seeded with the
      current global cursor and a latest end of 0. */
  function Touch(t: Timeline, input: Option<InputId>): (u: Timeline)
    ensures Knows(u, input)
    ensures u.cursor == t.cursor && u.latestEnd == t.latestEnd && u.labels == t.labels
    ensures u.inputs.Keys == t.inputs.Keys + (if input.Some? then {input.value} else {})
    ensures forall i :: i in t.inputs ==> u.inputs[i] == t.inputs[i]
    ensures input.Some? && input.value !in t.inputs ==> u.inputs[input.value] == InputTimes(t.cursor, 0.0)
  {
    if input.Some? && input.value !in t.inputs
    then t.(inputs := t.inputs[input.value := InputTimes(t.cursor, 0.0)])
    else t
  }

  /** The end a completion wait measures from: the registered end time of its
      label if that label is already known, else its timeline's latest end. */
  function WaitReference(t: Timeline, s: Step): (e: real)
    requires Knows(t, s.input)
    ensures s.Labelled() && s.labelName.value in t.labels ==> e == t.labels[s.labelName.value]
    ensures !(s.Labelled() && s.labelName.value in t.labels) ==> e == LatestEndOf(t, s.input)
  {
    if s.Labelled() && s.labelName.value in t.labels then t.labels[s.labelName.value]
    else LatestEndOf(t, s.input)
  }

  /** The cursor update of a wait mark, written to its own timeline only. A
      relative wait adds its duration to the cursor; a completion wait puts
      the cursor one duration after its reference end. Other steps pass. */
  function WaitPhase(t: Timeline, s: Step): (u: Timeline)
    requires Knows(t, s.input)
    ensures Knows(u, s.input)
    ensures !s.isWaitMark ==> u == t
    ensures u.latestEnd == t.latestEnd && u.labels == t.labels && u.inputs.Keys == t.inputs.Keys
    ensures forall i :: i in t.inputs ==> u.inputs[i].latestEnd == t.inputs[i].latestEnd
    ensures forall i :: i in t.inputs && s.input != Some(i) ==> u.inputs[i] == t.inputs[i]
    ensures s.input.Some? ==> u.cursor == t.cursor
    ensures s.isWaitMark && s.isWaitOnly ==> CursorOf(u, s.input) == CursorOf(t, s.input) + s.duration
    ensures s.isWaitMark && !s.isWaitOnly ==> CursorOf(u, s.input) == WaitReference(t, s) + s.duration
  {
    if !s.isWaitMark then t
    else
      var c := if s.isWaitOnly then CursorOf(t, s.input) + s.duration else WaitReference(t, s) + s.duration;
      match s.input
      case None => t.(cursor := c)
      case Some(k) => t.(inputs := t.inputs[k := t.inputs[k].(cursor := c)])
  }

  /** The begin time of a step: the global cursor, raised to the input's
      cursor for a step with an input; the input's cursor is raised to it. */
  function ResolveBegin(t: Timeline, input: Option<InputId>): (r: (real, Timeline))
    requires Knows(t, input)
    ensures Knows(r.1, input)
    ensures input.None? ==> r.0 == t.cursor && r.1 == t
    ensures input.Some? ==> r.0 == Max(t.cursor, t.inputs[input.value].cursor)
    ensures input.Some? ==> r.1.inputs[input.value] == t.inputs[input.value].(cursor := r.0)
    ensures r.1.cursor == t.cursor && r.1.latestEnd == t.latestEnd && r.1.labels == t.labels
    ensures r.1.inputs.Keys == t.inputs.Keys
    ensures forall i :: i in t.inputs && input != Some(i) ==> r.1.inputs[i] == t.inputs[i]
  {
    match input
    case None => (t.cursor, t)
    case Some(k) =>
      var own := t.inputs[k];
      if t.cursor > own.cursor then (t.cursor, t.(inputs := t.inputs[k := own.(cursor := t.cursor)]))
      else (own.cursor, t)
  }

  /** Latest-end bookkeeping after `apply`: unless the step ignores waits, the
      global latest end, and the input's for a step with an input, are raised
      to the step's begin plus its declared duration. */
  function Extend(t: Timeline, s: Step, begin: real): (u: Timeline)
    requires Knows(t, s.input)
    ensures Knows(u, s.input)
    ensures s.ignoreWait ==> u == t
    ensures !s.ignoreWait ==> u.latestEnd == Max(t.latestEnd, begin + s.duration)
    ensures !s.ignoreWait && s.input.Some? ==>
              u.inputs[s.input.value].latestEnd == Max(t.inputs[s.input.value].latestEnd, begin + s.duration)
    ensures u.cursor == t.cursor && u.labels == t.labels && u.inputs.Keys == t.inputs.Keys
    ensures forall i :: i in t.inputs ==> u.inputs[i].cursor == t.inputs[i].cursor
    ensures forall i :: i in t.inputs && s.input != Some(i) ==> u.inputs[i] == t.inputs[i]
  {
    if s.ignoreWait then t
    else
      var e := begin + s.duration;
      var g := t.(latestEnd := Max(t.latestEnd, e));
      match s.input
      case None => g
      case Some(k) => g.(inputs := g.inputs[k := g.inputs[k].(latestEnd := Max(g.inputs[k].latestEnd, e))])
  }

  /** Records the end time of a labelled non-wait step under its label,
      overwriting an earlier step with the same label. */
  function Register(t: Timeline, s: Step, applied: Step): (u: Timeline)
    ensures Registers(s) ==> u.labels == t.labels[s.labelName.value := applied.endTime]
    ensures !Registers(s) ==> u.labels == t.labels
    ensures u.(labels := t.labels) == t
  {
    if Registers(s) then t.(labels := t.labels[s.labelName.value := applied.endTime]) else t
  }

  /** One iteration of the loop in `commit`. The duration `apply` returns is
      not used; the bookkeeping reads the step's own duration. */
  function StepOnce(t: Timeline, s: Step): (r: (Step, Timeline))
    ensures r.0.(beginTime := s.beginTime, endTime := s.endTime) == s
    ensures r.1.inputs.Keys == t.inputs.Keys + (if s.input.Some? then {s.input.value} else {})
    ensures r.1.latestEnd >= t.latestEnd
    ensures forall i :: i in t.inputs ==> r.1.inputs[i].latestEnd >= t.inputs[i].latestEnd
    ensures s.ignoreWait ==> r.1.latestEnd == t.latestEnd && r.0.endTime == s.endTime
    ensures s.ignoreWait ==> forall i :: i in t.inputs ==> r.1.inputs[i].latestEnd == t.inputs[i].latestEnd
    ensures !s.ignoreWait ==> r.0.endTime == r.0.beginTime + s.duration && r.0.endTime <= r.1.latestEnd
    ensures !s.ignoreWait && s.input.Some? ==> r.0.endTime <= r.1.inputs[s.input.value].latestEnd
    ensures Registers(s) ==> r.1.labels == t.labels[s.labelName.value := r.0.endTime]
    ensures !Registers(s) ==> r.1.labels == t.labels
  {
    var t1 := Touch(t, s.input);
    var t2 := WaitPhase(t1, s);
    var (b, t3) := ResolveBegin(t2, s.input);
    var (applied, _) := s.Apply(b);
    var t4 := Extend(t3, s, b);
    (applied, Register(t4, s, applied))
  }

  /** The inputs a list of steps refers to. */
  function InputsOf(steps: seq<Step>): set<InputId> {
    if steps == [] then {}
    else (if steps[0].input.Some? then {steps[0].input.value} else {}) + InputsOf(steps[1..])
  }

  /** The labels a list of steps registers. */
  function LabelsOf(steps: seq<Step>): set<string> {
    if steps == [] then {}
    else (if Registers(steps[0]) then {steps[0].labelName.value} else {}) + LabelsOf(steps[1..])
  }

  /** The loop of `commit` as a left fold: the steps stamped with their
      begin and end times, in declaration order, and the final state. */
  function Run(t: Timeline, steps: seq<Step>): (r: (seq<Step>, Timeline))
    ensures |r.0| == |steps|
    ensures r.1.latestEnd >= t.latestEnd
    decreases |steps|
  {
    if steps == [] then ([], t)
    else
      var (a, t1) := StepOnce(t, steps[0]);
      var (rest, t2) := Run(t1, steps[1..]);
      ([a] + rest, t2)
  }

  /** Every step comes out of the pass as declared apart from its begin and
      end times. */
  lemma {:induction false} RunKeepsDeclarations(t: Timeline, steps: seq<Step>)
    ensures forall i :: 0 <= i < |steps| ==>
              Run(t, steps).0[i].(beginTime := steps[i].beginTime, endTime := steps[i].endTime) == steps[i]
    decreases |steps|
  {
    if steps != [] {
      var t1 := StepOnce(t, steps[0]).1;
      RunKeepsDeclarations(t1, steps[1..]);
      forall i | 0 < i < |steps|
        ensures Run(t, steps).0[i].(beginTime := steps[i].beginTime, endTime := steps[i].endTime) == steps[i]
      {
        assert Run(t, steps).0[i] == Run(t1, steps[1..]).0[i - 1];
        assert steps[1..][i - 1] == steps[i];
      }
    }
  }

  /** Input records are created for exactly the inputs the steps name and
      are never removed. */
  lemma {:induction false} RunInputs(t: Timeline, steps: seq<Step>)
    ensures Run(t, steps).1.inputs.Keys == t.inputs.Keys + InputsOf(steps)
    ensures forall i :: 0 <= i < |steps| && steps[i].input.Some? ==> steps[i].input.value in Run(t, steps).1.inputs
    decreases |steps|
  {
    RunInputKeys(t, steps);
    InputsOfMembers(steps);
  }

  /** The inductive step behind `RunInputs`. */
  lemma {:induction false} RunInputKeys(t: Timeline, steps: seq<Step>)
    ensures Run(t, steps).1.inputs.Keys == t.inputs.Keys + InputsOf(steps)
    decreases |steps|
  {
    if steps != [] {
      var t1 := StepOnce(t, steps[0]).1;
      RunInputKeys(t1, steps[1..]);
      assert Run(t, steps).1 == Run(t1, steps[1..]).1;
    }
  }

  /** Every input a step names is among the inputs of its list. */
  lemma {:induction false} InputsOfMembers(steps: seq<Step>)
    ensures forall i :: 0 <= i < |steps| && steps[i].input.Some? ==> steps[i].input.value in InputsOf(steps)
    decreases |steps|
  {
    if steps != [] {
      InputsOfMembers(steps[1..]);
      forall i | 0 < i < |steps| && steps[i].input.Some?
        ensures steps[i].input.value in InputsOf(steps)
      {
        assert steps[1..][i - 1] == steps[i];
      }
    }
  }

  /** No input's latest end moves back during the pass. */
  lemma {:induction false} RunInputLatestEnds(t: Timeline, steps: seq<Step>)
    ensures forall i :: i in t.inputs ==>
              i in Run(t, steps).1.inputs && Run(t, steps).1.inputs[i].latestEnd >= t.inputs[i].latestEnd
    decreases |steps|
  {
    if steps != [] {
      var t1 := StepOnce(t, steps[0]).1;
      RunInputLatestEnds(t1, steps[1..]);
      assert Run(t, steps).1 == Run(t1, steps[1..]).1;
    }
  }

  /** Labels enter the map only through steps that register them. */
  lemma {:induction false} RunLabels(t: Timeline, steps: seq<Step>)
    ensures Run(t, steps).1.labels.Keys == t.labels.Keys + LabelsOf(steps)
    decreases |steps|
  {
    if steps != [] {
      var t1 := StepOnce(t, steps[0]).1;
      RunLabels(t1, steps[1..]);
      assert Run(t, steps).1 == Run(t1, steps[1..]).1;
    }
  }

  /** `commit` (scheduling pass only), with the clock reading as `origin`. */
  function Commit(b: Block, origin: real): (r: (seq<Step>, Timeline))
    ensures |r.0| == |b.animations|
    ensures forall i :: 0 <= i < |r.0| ==>
              r.0[i].(beginTime := b.animations[i].beginTime, endTime := b.animations[i].endTime) == b.animations[i]
    ensures r.1.inputs.Keys == InputsOf(b.animations)
    ensures r.1.labels.Keys == LabelsOf(b.animations)
    ensures r.1.latestEnd >= origin
  {
    RunKeepsDeclarations(Start(origin), b.animations);
    RunInputs(Start(origin), b.animations);
    RunLabels(Start(origin), b.animations);
    Run(Start(origin), b.animations)
  }
}
