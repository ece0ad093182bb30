/** Worked timelines: small blocks built with the block operations and
    scheduled from a fixed origin, showing the begin times the pass produces,
    including its quirks. */
module Scenarios {
  import opened Base
  import opened Animation
  import opened AnimationBlock
  import opened Scheduler

  /** A basic Core Animation of the given duration, as `basic_animation` makes it. */
  function Basic(d: real): CoreAnimation {
    CoreAnimation(d, Count(0.0), false, 0.0)
  }

  /** An animation step on an input, as `simple_animation` declares it. */
  function Action(input: Option<InputId>, d: real, kw: Options): Step {
    NewStep(Some(Basic(d)), kw).(input := input)
  }

  function LabelOptions(l: string): Options {
    NoOptions.(labelName := Some(l))
  }

  /** Scheduling a step in front of others is one iteration, then the rest. */
  lemma RunCons(t: Timeline, s: Step, rest: seq<Step>)
    ensures Run(t, [s] + rest).0 == [StepOnce(t, s).0] + Run(StepOnce(t, s).1, rest).0
    ensures Run(t, [s] + rest).1 == Run(StepOnce(t, s).1, rest).1
  {
    var steps := [s] + rest;
    assert steps[0] == s;
    assert steps[1..] == rest;
  }

  /** Scheduling three steps is three iterations from the given state. */
  lemma RunThree(t: Timeline, a: Step, b: Step, c: Step)
    ensures var (ra, t1) := StepOnce(t, a);
            var (rb, t2) := StepOnce(t1, b);
            var (rc, t3) := StepOnce(t2, c);
            Run(t, [a, b, c]).0 == [ra, rb, rc] && Run(t, [a, b, c]).1 == t3
  {
    var (ra, t1) := StepOnce(t, a);
    var (rb, t2) := StepOnce(t1, b);
    var (rc, t3) := StepOnce(t2, c);
    RunCons(t2, c, []);
    assert [c] + [] == [c];
    RunCons(t1, b, [c]);
    assert [b] + [c] == [b, c];
    RunCons(t, a, [b, c]);
    assert [a] + [b, c] == [a, b, c];
  }

  /** Scheduling two steps is two iterations from the given state. */
  lemma RunTwo(t: Timeline, a: Step, b: Step)
    ensures var (ra, t1) := StepOnce(t, a);
            var (rb, t2) := StepOnce(t1, b);
            Run(t, [a, b]).0 == [ra, rb] && Run(t, [a, b]).1 == t2
  {
    var (ra, t1) := StepOnce(t, a);
    RunCons(t1, b, []);
    assert [b] + [] == [b];
    RunCons(t, a, [b]);
    assert [a] + [b] == [a, b];
  }

  /** Animation, relative wait of 2, a second animation (a distinct step, with
      a completion callback), from origin 0: the second
      animation begins at 2, because the wait counts from the cursor, not from
      the first animation's end. The wait marker itself is applied at 2 and
      stretches the latest end to 4. */
  lemma RelativeWaitFromCursor()
    ensures var a := Action(None, 1.0, NoOptions);
      var c := Action(None, 1.0, NoOptions.(onComplete := Some(1)));
      var b1 := AddAnimation(NewBlock(None), a).value;
      var b2 := Wait(b1, 2.0, None, NoOptions);
      var b3 := AddAnimation(b2, c).value;
      var r := Commit(b3, 0.0);
      && |r.0| == 3
      && r.0[0].beginTime == 0.0 && r.0[2].beginTime == 2.0
      && r.0[1].beginTime == 2.0 && r.0[1].endTime == 4.0
      && r.1.latestEnd == 4.0 && r.1.cursor == 2.0
  {
    var a := Action(None, 1.0, NoOptions);
    var c := Action(None, 1.0, NoOptions.(onComplete := Some(1)));
    var w := WaitMarker(2.0, None, NoOptions).(isWaitOnly := true);
    var b1 := AddAnimation(NewBlock(None), a).value;
    var b3 := AddAnimation(Wait(b1, 2.0, None, NoOptions), c).value;
    assert b3.animations == [a, w, c];
    RunThree(Start(0.0), a, w, c);
  }

  /** A completion wait on a label waits for the labelled step on another
      input: `B` on input 2 begins 2.5 after `A` on input 1 began. */
  lemma LabelAcrossInputs()
    ensures var a := Action(Some(1), 2.0, LabelOptions("a"));
      var bb := Action(Some(2), 1.0, NoOptions);
      var b1 := AddAnimation(NewBlock(None), a).value;
      var b2 := WaitAnimation(b1, 0.5, Some(2), LabelOptions("a"));
      var b3 := AddAnimation(b2, bb).value;
      var r := Commit(b3, 0.0);
      && |r.0| == 3
      && r.0[2].beginTime == r.0[0].beginTime + 2.0 + 0.5
  {
    var a := Action(Some(1), 2.0, LabelOptions("a"));
    var bb := Action(Some(2), 1.0, NoOptions);
    var w := WaitMarker(0.5, Some(2), LabelOptions("a"));
    var b1 := AddAnimation(NewBlock(None), a).value;
    var b3 := AddAnimation(WaitAnimation(b1, 0.5, Some(2), LabelOptions("a")), bb).value;
    assert b3.animations == [a, w, bb];
    RunThree(Start(0.0), a, w, bb);
  }

  /** Quirk: an input's latest end starts at 0, not at the origin. A
      completion wait of 1 on an input with no earlier work moves its cursor
      to 1, which the global cursor then overrides: from origin 100 the next
      animation on that input begins at 100, while the same wait on the
      global timeline delays it to 101. */
  lemma FreshInputWaitIsLost()
    ensures var a := Action(Some(1), 1.0, NoOptions);
      var onInput := AddAnimation(WaitAnimation(NewBlock(None), 1.0, Some(1), NoOptions), a).value;
      var global := AddAnimation(WaitAnimation(NewBlock(None), 1.0, None, NoOptions), a.(input := None)).value;
      && Commit(onInput, 100.0).0[1].beginTime == 100.0
      && Commit(global, 100.0).0[1].beginTime == 101.0
  {
    var a := Action(Some(1), 1.0, NoOptions);
    var g := a.(input := None);
    var w1 := WaitMarker(1.0, Some(1), NoOptions);
    var w0 := WaitMarker(1.0, None, NoOptions);
    var onInput := AddAnimation(WaitAnimation(NewBlock(None), 1.0, Some(1), NoOptions), a).value;
    var global := AddAnimation(WaitAnimation(NewBlock(None), 1.0, None, NoOptions), g).value;
    assert onInput.animations == [w1, a];
    assert global.animations == [w0, g];
    RunTwo(Start(100.0), w1, a);
    RunTwo(Start(100.0), w0, g);
  }

  /** Quirk: a labelled animation repeated forever ignores waits and keeps an
      end time of 0, so a completion wait of 0.5 on its label sends the global
      cursor to 0.5, before the origin of 10. */
  lemma ForeverLabelResolvesToZero()
    ensures var a := Action(None, 2.0, LabelOptions("spin").(repeatcount := Some(Forever)));
      var bb := Action(None, 1.0, NoOptions);
      var b1 := AddAnimation(NewBlock(None), a).value;
      var b2 := WaitAnimation(b1, 0.5, None, LabelOptions("spin"));
      var b3 := AddAnimation(b2, bb).value;
      var r := Commit(b3, 10.0);
      && |r.0| == 3
      && r.0[0].ignoreWait && r.0[0].endTime == 0.0
      && r.0[2].beginTime == 0.5
  {
    var a := Action(None, 2.0, LabelOptions("spin").(repeatcount := Some(Forever)));
    var bb := Action(None, 1.0, NoOptions);
    var w := WaitMarker(0.5, None, LabelOptions("spin"));
    var b1 := AddAnimation(NewBlock(None), a).value;
    var b3 := AddAnimation(WaitAnimation(b1, 0.5, None, LabelOptions("spin")), bb).value;
    assert b3.animations == [a, w, bb];
    RunThree(Start(10.0), a, w, bb);
  }

  /** Quirk: a wait marker stretches the latest end with its own duration, so
      a relative wait of 2 after a 1-second animation makes a following
      completion wait resume at 4, not at 2. */
  lemma WaitMarkerExtendsLatestEnd()
    ensures var a := Action(None, 1.0, NoOptions);
      var b1 := AddAnimation(NewBlock(None), a).value;
      var b2 := Wait(b1, 2.0, None, NoOptions);
      var b3 := WaitAnimation(b2, 0.0, None, NoOptions);
      var r := Commit(b3, 0.0);
      r.1.cursor == 4.0
  {
    var a := Action(None, 1.0, NoOptions);
    var w := WaitMarker(2.0, None, NoOptions).(isWaitOnly := true);
    var c := WaitMarker(0.0, None, NoOptions);
    var b1 := AddAnimation(NewBlock(None), a).value;
    var b3 := WaitAnimation(Wait(b1, 2.0, None, NoOptions), 0.0, None, NoOptions);
    assert b3.animations == [a, w, c];
    RunThree(Start(0.0), a, w, c);
  }
}
