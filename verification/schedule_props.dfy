/** Properties of the scheduling pass: what one iteration does to the
    cursors, latest ends and labels, and what the whole fold guarantees. */
module ScheduleProps {
  import opened Base
  import opened Animation
  import opened AnimationBlock
  import opened Scheduler

  // ---------------------------------------------------------------------
  // One iteration

  /** Where a step begins. An untargeted step begins at the global cursor as
      its wait left it; a step with an input begins at the larger of that and
      the input's cursor, and the input's cursor is raised to the begin. No
      step begins before the global cursor the iteration leaves behind, and
      no other input's record changes. */
  lemma StepBegin(t: Timeline, s: Step)
    ensures var u := WaitPhase(Touch(t, s.input), s);
            var r := StepOnce(t, s);
            && r.1.cursor == u.cursor
            && (s.input.None? ==> r.0.beginTime == u.cursor)
            && (s.input.Some? ==> r.0.beginTime == Max(u.cursor, u.inputs[s.input.value].cursor)
                                  && r.1.inputs[s.input.value].cursor == r.0.beginTime)
            && r.0.beginTime >= r.1.cursor
            && (forall i :: i in t.inputs && s.input != Some(i) ==> r.1.inputs[i] == t.inputs[i])
  {
  }

  /** An input seen for the first time gets a record seeded at the global
      cursor with a latest end of 0, and its step begins no earlier than the
      global cursor; a non-wait step begins exactly there. */
  lemma FirstReference(t: Timeline, s: Step)
    requires s.input.Some? && s.input.value !in t.inputs
    ensures Touch(t, s.input).inputs[s.input.value] == InputTimes(t.cursor, 0.0)
    ensures s.input.value in StepOnce(t, s).1.inputs
    ensures StepOnce(t, s).0.beginTime >= t.cursor
    ensures !s.isWaitMark ==> StepOnce(t, s).0.beginTime == t.cursor
  {
  }

  /** A relative wait moves its own timeline's cursor one duration past where
      it stood (a new input's cursor stands at the global cursor); the begin
      computation may then raise an input's cursor to the global cursor. The
      other cursors do not move. */
  lemma RelativeWait(t: Timeline, s: Step)
    requires s.isWaitMark && s.isWaitOnly
    ensures var r := StepOnce(t, s);
      && (s.input.None? ==> r.1.cursor == t.cursor + s.duration
                            && forall i :: i in t.inputs ==> r.1.inputs[i].cursor == t.inputs[i].cursor)
      && (s.input.Some? ==>
            var k := s.input.value;
            var prior := if k in t.inputs then t.inputs[k].cursor else t.cursor;
            && r.1.cursor == t.cursor
            && r.1.inputs[k].cursor == Max(t.cursor, prior + s.duration)
            && forall i :: i in t.inputs && i != k ==> r.1.inputs[i].cursor == t.inputs[i].cursor)
  {
  }

  /** A completion wait puts its timeline's cursor one duration after a
      reference end: the end registered under its label if that label is
      known, otherwise the timeline's latest end, which for an input seen
      for the first time is 0. */
  lemma CompletionWait(t: Timeline, s: Step)
    requires s.isWaitMark && !s.isWaitOnly
    ensures var u := WaitPhase(Touch(t, s.input), s);
      var reference :=
        if s.Labelled() && s.labelName.value in t.labels then t.labels[s.labelName.value]
        else if s.input.None? then t.latestEnd
        else if s.input.value in t.inputs then t.inputs[s.input.value].latestEnd
        else 0.0;
      && CursorOf(u, s.input) == reference + s.duration
      && (s.input.None? ==> StepOnce(t, s).1.cursor == reference + s.duration)
      && (s.input.Some? ==> StepOnce(t, s).1.inputs[s.input.value].cursor == Max(t.cursor, reference + s.duration))
  {
  }

  /** Unless a step ignores waits, it raises the global latest end to its
      begin plus its declared duration, whether or not it has an input, and a
      step with an input also raises that input's latest end (from 0 for a new
      input). Wait marks are no exception. A step that ignores waits leaves
      every latest end alone. */
  lemma LatestEndRule(t: Timeline, s: Step)
    ensures var r := StepOnce(t, s);
      && (!s.ignoreWait ==> r.1.latestEnd == Max(t.latestEnd, r.0.beginTime + s.duration))
      && (!s.ignoreWait && s.input.Some? ==>
            var k := s.input.value;
            var prior := if k in t.inputs then t.inputs[k].latestEnd else 0.0;
            r.1.inputs[k].latestEnd == Max(prior, r.0.beginTime + s.duration))
      && (s.ignoreWait ==> r.1.latestEnd == t.latestEnd
                           && forall i :: i in t.inputs ==> r.1.inputs[i].latestEnd == t.inputs[i].latestEnd)
  {
  }

  /** A labelled step that ignores waits registers the end time it carried
      in, which is 0 for a step fresh from the constructor. */
  lemma IgnoredLabelKeepsPriorEnd(t: Timeline, s: Step)
    requires Registers(s) && s.ignoreWait
    ensures StepOnce(t, s).1.labels[s.labelName.value] == s.endTime
  {
  }

  // ---------------------------------------------------------------------
  // The whole pass

  /** The fold splits at any point: scheduling `a + b` is scheduling `a` and
      then `b` from the state `a` left. */
  lemma {:induction false} RunSplit(t: Timeline, a: seq<Step>, b: seq<Step>)
    ensures Run(t, a + b).1 == Run(Run(t, a).1, b).1
    ensures Run(t, a + b).0 == Run(t, a).0 + Run(Run(t, a).1, b).0
    decreases |a|
  {
    if a == [] {
      assert a + b == b;
    } else {
      var t1 := StepOnce(t, a[0]).1;
      var x := StepOnce(t, a[0]).0;
      assert (a + b)[0] == a[0];
      assert (a + b)[1..] == a[1..] + b;
      RunSplit(t1, a[1..], b);
      var p := Run(t1, a[1..]).0;
      var q := Run(Run(t1, a[1..]).1, b).0;
      assert Run(t, a).0 == [x] + p;
      assert Run(t, a + b).0 == [x] + (p + q);
      assert [x] + (p + q) == ([x] + p) + q;
    }
  }

  /** The state step `k` is scheduled in: the state the steps before it left. */
  function Before(t: Timeline, steps: seq<Step>, k: nat): Timeline
    requires k <= |steps|
  {
    Run(t, steps[..k]).1
  }

  /** Step `k` of the pass is one iteration from the state the earlier steps
      left, and that iteration's state is the one step `k + 1` sees. */
  lemma RunAt(t: Timeline, steps: seq<Step>, k: nat)
    requires k < |steps|
    ensures Run(t, steps).0[k] == StepOnce(Before(t, steps, k), steps[k]).0
    ensures Before(t, steps, k + 1) == StepOnce(Before(t, steps, k), steps[k]).1
  {
    var t0 := Before(t, steps, k);
    var s := steps[k];
    assert steps[..k] + steps[k..] == steps;
    RunSplit(t, steps[..k], steps[k..]);
    assert steps[k..][0] == s;
    assert Run(t0, steps[k..]).0[0] == StepOnce(t0, s).0;
    assert steps[..k] + [s] == steps[..k + 1];
    RunSplit(t, steps[..k], [s]);
    assert Run(t0, [s]).1 == StepOnce(t0, s).1;
  }

  /** The pass starts with the global cursor and latest end at the origin and
      no inputs or labels: an empty block leaves that state as it is, and a
      first step that is not a wait marker begins at the origin. */
  lemma CommitStartsAtOrigin(b: Block, origin: real)
    ensures b.animations == [] ==> Commit(b, origin).1 == Timeline(origin, origin, map[], map[])
    ensures b.animations != [] && !b.animations[0].isWaitMark ==> Commit(b, origin).0[0].beginTime == origin
  {
    if b.animations != [] {
      RunAt(Start(origin), b.animations, 0);
      assert b.animations[..0] == [];
      StepBegin(Start(origin), b.animations[0]);
    }
  }

  /** When the pass ends, the global latest end is at least the end time of
      every step that does not ignore waits, and each input's latest end is
      at least the end time of every such step on that input. */
  lemma {:induction false} LatestEndCovers(t: Timeline, steps: seq<Step>)
    ensures var r := Run(t, steps);
      forall k :: 0 <= k < |steps| && !steps[k].ignoreWait ==>
        && r.0[k].endTime <= r.1.latestEnd
        && (steps[k].input.Some? ==> steps[k].input.value in r.1.inputs
                                     && r.0[k].endTime <= r.1.inputs[steps[k].input.value].latestEnd)
    decreases |steps|
  {
    if steps != [] {
      var t1 := StepOnce(t, steps[0]).1;
      LatestEndCovers(t1, steps[1..]);
      RunInputs(t, steps);
      RunInputLatestEnds(t1, steps[1..]);
      var r := Run(t, steps);
      forall k | 0 <= k < |steps| && !steps[k].ignoreWait
        ensures r.0[k].endTime <= r.1.latestEnd
        ensures steps[k].input.Some? ==> steps[k].input.value in r.1.inputs
                                         && r.0[k].endTime <= r.1.inputs[steps[k].input.value].latestEnd
      {
        if k > 0 {
          assert r.0[k] == Run(t1, steps[1..]).0[k - 1];
          assert steps[1..][k - 1] == steps[k];
        }
      }
    }
  }

  /** A label enters the map only through a step that registers it. */
  lemma {:induction false} LabelsOfMembers(steps: seq<Step>, l: string)
    ensures l in LabelsOf(steps) <==>
            exists j :: 0 <= j < |steps| && Registers(steps[j]) && steps[j].labelName.value == l
    decreases |steps|
  {
    if steps != [] {
      LabelsOfMembers(steps[1..], l);
      if l in LabelsOf(steps[1..]) {
        var j :| 0 <= j < |steps[1..]| && Registers(steps[1..][j]) && steps[1..][j].labelName.value == l;
        assert steps[j + 1] == steps[1..][j];
      }
      if exists j :: 0 <= j < |steps| && Registers(steps[j]) && steps[j].labelName.value == l {
        var j :| 0 <= j < |steps| && Registers(steps[j]) && steps[j].labelName.value == l;
        if j > 0 {
          assert steps[1..][j - 1] == steps[j];
        }
      }
    }
  }

  /** Steps that do not register a label leave its entry as it was. */
  lemma {:induction false} LabelUntouched(t: Timeline, steps: seq<Step>, l: string)
    requires forall j :: 0 <= j < |steps| ==> !(Registers(steps[j]) && steps[j].labelName.value == l)
    ensures l in Run(t, steps).1.labels <==> l in t.labels
    ensures l in t.labels ==> Run(t, steps).1.labels[l] == t.labels[l]
    decreases |steps|
  {
    if steps != [] {
      var t1 := StepOnce(t, steps[0]).1;
      forall j | 0 <= j < |steps[1..]|
        ensures !(Registers(steps[1..][j]) && steps[1..][j].labelName.value == l)
      {
        assert steps[1..][j] == steps[j + 1];
      }
      LabelUntouched(t1, steps[1..], l);
    }
  }

  /** Last write wins: after the pass, a label maps to the end time of the
      last step that registered it. */
  lemma {:induction false} LabelLastWriteWins(t: Timeline, steps: seq<Step>, k: nat)
    requires k < |steps| && Registers(steps[k])
    requires forall j :: k < j < |steps| ==>
               !(Registers(steps[j]) && steps[j].labelName.value == steps[k].labelName.value)
    ensures steps[k].labelName.value in Run(t, steps).1.labels
    ensures Run(t, steps).1.labels[steps[k].labelName.value] == Run(t, steps).0[k].endTime
    decreases |steps|
  {
    var l := steps[k].labelName.value;
    var t1 := StepOnce(t, steps[0]).1;
    if k == 0 {
      forall j | 0 <= j < |steps[1..]|
        ensures !(Registers(steps[1..][j]) && steps[1..][j].labelName.value == l)
      {
        assert steps[1..][j] == steps[j + 1];
      }
      LabelUntouched(t1, steps[1..], l);
    } else {
      assert steps[1..][k - 1] == steps[k];
      forall j | k - 1 < j < |steps[1..]|
        ensures !(Registers(steps[1..][j]) && steps[1..][j].labelName.value == l)
      {
        assert steps[1..][j] == steps[j + 1];
      }
      LabelLastWriteWins(t1, steps[1..], k - 1);
    }
  }

  /** Untargeted animation steps with no wait marker between them all begin at
      the same global cursor: they run together, not one after another. */
  lemma {:induction false} GlobalActionsRunTogether(t: Timeline, steps: seq<Step>)
    requires forall k :: 0 <= k < |steps| ==> steps[k].input.None? && !steps[k].isWaitMark
    ensures forall k :: 0 <= k < |steps| ==> Run(t, steps).0[k].beginTime == t.cursor
    ensures Run(t, steps).1.cursor == t.cursor
    decreases |steps|
  {
    if steps != [] {
      var t1 := StepOnce(t, steps[0]).1;
      StepBegin(t, steps[0]);
      forall k | 0 <= k < |steps[1..]|
        ensures steps[1..][k].input.None? && !steps[1..][k].isWaitMark
      {
        assert steps[1..][k] == steps[k + 1];
      }
      GlobalActionsRunTogether(t1, steps[1..]);
      forall k | 0 < k < |steps|
        ensures Run(t, steps).0[k].beginTime == t.cursor
      {
        assert Run(t, steps).0[k] == Run(t1, steps[1..]).0[k - 1];
      }
    }
  }

  /** An untargeted relative wait of duration `d` in front of untargeted
      animation steps shifts every one of their begin times by exactly `d`. */
  lemma RelativeWaitShifts(t: Timeline, w: Step, rest: seq<Step>)
    requires w.isWaitMark && w.isWaitOnly && w.input.None?
    requires forall k :: 0 <= k < |rest| ==> rest[k].input.None? && !rest[k].isWaitMark
    ensures forall k :: 0 <= k < |rest| ==>
              Run(t, [w] + rest).0[k + 1].beginTime == Run(t, rest).0[k].beginTime + w.duration
  {
    var t1 := StepOnce(t, w).1;
    RelativeWait(t, w);
    assert ([w] + rest)[0] == w;
    assert ([w] + rest)[1..] == rest;
    GlobalActionsRunTogether(t1, rest);
    GlobalActionsRunTogether(t, rest);
  }
}
