/** The block-building half of CSAnimationBlock.py: a block owns the ordered
    list of declared steps and a default duration; `add_animation`,
    `add_waitmarker`, `wait` and `waitAnimation` append to the list. The
    ambient "current block" is replaced by passing the block explicitly. */
module AnimationBlock {
  import opened Base
  import opened Animation

  /** The default duration a block falls back to. */
  const DefaultDuration: real := 0.25

  /** The duration `add_animation` substitutes for a zero duration. */
  const ZeroDurationSubstitute: real := 0.001

  datatype Block = Block(animations: seq<Step>, duration: real)

  /** `add_animation` on a zero-duration step without a Core Animation object
      dereferences `None` and raises. */
  datatype BlockError = MissingCoreAnimation

  /** Python truthiness of the requested block duration: `None` and `0` are falsy. */
  predicate DurationRequested(d: Option<real>) {
    d.Some? && d.value != 0.0
  }

  /** `AnimationBlock.__init__`: an empty block whose duration falls back to
      0.25 whenever the requested one is falsy. */
  function NewBlock(d: Option<real>): (b: Block)
    ensures b.animations == []
    ensures b.duration != 0.0
    ensures DurationRequested(d) <==> (d.Some? && b.duration == d.value)
    ensures !DurationRequested(d) ==> b.duration == DefaultDuration
  {
    Block([], if DurationRequested(d) then d.value else DefaultDuration)
  }

  /** `add_animation`: appends the step, first replacing a zero duration (on
      the step and on its Core Animation object) by 0.001. */
  function AddAnimation(b: Block, s: Step): (r: Result<Block, BlockError>)
    ensures r.Failure? <==> (s.duration == 0.0 && s.animation.None?)
    ensures r.Success? ==> r.value.duration == b.duration
    ensures r.Success? ==> |r.value.animations| == |b.animations| + 1
    ensures r.Success? ==> r.value.animations[..|b.animations|] == b.animations
    ensures r.Success? ==> var a := r.value.animations[|b.animations|];
      && a.duration != 0.0
      && (s.duration != 0.0 ==> a == s)
      && (s.duration == 0.0 ==> a.duration == ZeroDurationSubstitute
                                && a.animation.Some? && a.animation.value.duration == ZeroDurationSubstitute)
      && a.(duration := s.duration, animation := s.animation) == s
    ensures r.Success? && s.duration == 0.0 ==>
              r.value.animations[|b.animations|]
              == s.(duration := ZeroDurationSubstitute,
                    animation := Some(s.animation.value.(duration := ZeroDurationSubstitute)))
  {
    if s.duration == 0.0 then
      match s.animation
      case None => Failure(MissingCoreAnimation)
      case Some(c) =>
        var fixed := s.(duration := ZeroDurationSubstitute, animation := Some(c.(duration := ZeroDurationSubstitute)));
        Success(b.(animations := b.animations + [fixed]))
    else
      Success(b.(animations := b.animations + [s]))
  }

  /** The marker `add_waitmarker` builds: a step without an animation, built
      from the keyword arguments, then flagged as a wait mark and given the
      requested duration and input. */
  function WaitMarker(duration: real, input: Option<InputId>, kw: Options): (m: Step)
    ensures m.isWaitMark && !m.isWaitOnly && !m.ignoreWait
    ensures m.duration == duration && m.input == input
    ensures m.animation.None? && !AttachesDelegate(m)
    ensures m.beginTime == 0.0 && m.endTime == 0.0
    ensures m.Labelled() <==> (kw.labelName.Some? && kw.labelName.value != "")
    ensures m.Labelled() ==> m.labelName == kw.labelName
  {
    NewStep(None, kw).(isWaitMark := true, duration := duration, input := input)
  }

  /** `add_waitmarker`: appends a wait marker; nothing is timed yet. */
  function AddWaitmarker(b: Block, duration: real, input: Option<InputId>, kw: Options): (r: Block)
    ensures r.duration == b.duration
    ensures r.animations == b.animations + [WaitMarker(duration, input, kw)]
  {
    b.(animations := b.animations + [WaitMarker(duration, input, kw)])
  }

  /** `wait`: a wait marker that is also wait-only, so it delays its timeline's
      cursor by `duration` from where the cursor stands. */
  function Wait(b: Block, duration: real, input: Option<InputId>, kw: Options): (r: Block)
    ensures r.duration == b.duration
    ensures |r.animations| == |b.animations| + 1 && r.animations[..|b.animations|] == b.animations
    ensures var m := r.animations[|b.animations|];
      m.isWaitMark && m.isWaitOnly && m.duration == duration && m.input == input
    ensures r.animations[|b.animations|].(isWaitOnly := false) == WaitMarker(duration, input, kw)
  {
    b.(animations := b.animations + [WaitMarker(duration, input, kw).(isWaitOnly := true)])
  }

  /** `waitAnimation`: a plain wait marker, which waits for completion. */
  function WaitAnimation(b: Block, duration: real, input: Option<InputId>, kw: Options): (r: Block)
    ensures r.duration == b.duration
    ensures |r.animations| == |b.animations| + 1 && r.animations[..|b.animations|] == b.animations
    ensures var m := r.animations[|b.animations|];
      m.isWaitMark && !m.isWaitOnly && m.duration == duration && m.input == input
    ensures r.animations[|b.animations|] == WaitMarker(duration, input, kw)
  {
    AddWaitmarker(b, duration, input, kw)
  }

  /** Every animation step of the block has a nonzero duration: the invariant
      the zero-duration substitution maintains. */
  ghost predicate ActionsNonZero(b: Block) {
    forall i :: 0 <= i < |b.animations| && !b.animations[i].isWaitMark ==> b.animations[i].duration != 0.0
  }

  /** A new block holds the invariant, and every building operation keeps it. */
  lemma BuildingKeepsActionsNonZero(b: Block, d: Option<real>, s: Step, w: real, input: Option<InputId>, kw: Options)
    requires ActionsNonZero(b)
    ensures ActionsNonZero(NewBlock(d))
    ensures AddAnimation(b, s).Success? ==> ActionsNonZero(AddAnimation(b, s).value)
    ensures ActionsNonZero(AddWaitmarker(b, w, input, kw))
    ensures ActionsNonZero(Wait(b, w, input, kw))
    ensures ActionsNonZero(WaitAnimation(b, w, input, kw))
  {
    var n := |b.animations|;
    if AddAnimation(b, s).Success? {
      var r := AddAnimation(b, s).value;
      forall i | 0 <= i < |r.animations| && !r.animations[i].isWaitMark
        ensures r.animations[i].duration != 0.0
      {
        if i < n {
          assert r.animations[i] == r.animations[..n][i];
        }
      }
    }
    var m := Wait(b, w, input, kw);
    forall i | 0 <= i < |m.animations| && !m.animations[i].isWaitMark
      ensures m.animations[i].duration != 0.0
    {
      assert i < n;
      assert m.animations[i] == m.animations[..n][i];
    }
  }
}
