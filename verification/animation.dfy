/** The step record of CSAnimation.js: one declared animation or wait marker,
    its defaults, its duration arithmetic, and `apply`, which stamps the step
    with the begin and end time the scheduler chose. Only the timing-relevant
    state is kept; the Core Animation layer calls are left out. */
module Animation {
  import opened Base

  /** The argument of `repeatcount`: a number of repetitions or the string 'forever'. */
  datatype Repeat = Forever | Count(n: real)

  /** A completion callback: the internal model-value updater every step starts
      with, or a user-supplied handler. */
  datatype Handler = SetModelValue | Callback(id: nat)

  /** The timing fields of the wrapped Core Animation object that a step writes. */
  datatype CoreAnimation = CoreAnimation(duration: real, repeatCount: Repeat, autoreverses: bool, repeatDuration: real)

  /** The keyword arguments the constructor reads. A present option models a key
      whose value is truthy or not, exactly as passed. */
  datatype Options = Options(
    repeatcount: Option<Repeat>,
    autoreverse: bool,
    repeatduration: Option<real>,
    onComplete: Option<nat>,
    labelName: Option<string>)

  const NoOptions := Options(None, false, None, None, None)

  /** Identity of an animated input; a step's input names its sub-timeline. */
  type InputId = nat

  datatype Step = Step(
    animation: Option<CoreAnimation>,
    isWaitMark: bool,
    isWaitOnly: bool,
    ignoreWait: bool,
    duration: real,
    input: Option<InputId>,
    labelName: Option<string>,
    beginTime: real,
    endTime: real,
    completionHandler: Option<Handler>,
    internalHandler: Option<Handler>)
  {
    /** `if anim.label`: a label is truthy only when present and non-empty. */
    predicate Labelled() {
      labelName.Some? && labelName.value != ""
    }

    /** `repeatcount`: only acts when an underlying animation exists. 'forever'
        makes the step ignore waits and keeps its duration; a count scales it. */
    function RepeatCount(r: Repeat): (s: Step)
      ensures animation.None? ==> s == this
      ensures animation.Some? && r.Forever? ==> s.ignoreWait && s.duration == duration
      ensures animation.Some? && r.Count? ==> s.ignoreWait == ignoreWait && s.duration == duration * r.n
      ensures animation.Some? ==> s.animation.Some? && s.animation.value.repeatCount == r
      ensures animation.Some? ==> s.animation == Some(animation.value.(repeatCount := r))
      ensures s.(animation := animation, ignoreWait := ignoreWait, duration := duration) == this
    {
      match animation
      case None => this
      case Some(a) =>
        if r.Forever? then this.(ignoreWait := true, animation := Some(a.(repeatCount := Forever)))
        else this.(duration := duration * r.n, animation := Some(a.(repeatCount := r)))
    }

    /** `autoreverse`: doubles the duration whether or not an animation exists. */
    function Autoreverse(): (s: Step)
      ensures s.duration == 2.0 * duration
      ensures animation.Some? <==> s.animation.Some?
      ensures s.animation.Some? ==> s.animation.value.autoreverses
      ensures animation.Some? ==> s.animation == Some(animation.value.(autoreverses := true))
      ensures s.(animation := animation, duration := duration) == this
    {
      var a := if animation.Some? then Some(animation.value.(autoreverses := true)) else None;
      this.(animation := a, duration := duration * 2.0)
    }

    /** `repeatduration`: the duration becomes exactly `d`. */
    function RepeatDuration(d: real): (s: Step)
      ensures s.duration == d
      ensures animation.Some? <==> s.animation.Some?
      ensures s.animation.Some? ==> s.animation.value.repeatDuration == d
      ensures animation.Some? ==> s.animation == Some(animation.value.(repeatDuration := d))
      ensures s.(animation := animation, duration := duration) == this
    {
      var a := if animation.Some? then Some(animation.value.(repeatDuration := d)) else None;
      this.(animation := a, duration := d)
    }

    /** `apply(begin)`: records the begin time and, unless the step ignores
        waits, an end time one duration later; it returns the duration. */
    function Apply(b: real): (r: (Step, real))
      ensures r.0.beginTime == b
      ensures !ignoreWait ==> r.0.endTime - r.0.beginTime == duration
      ensures ignoreWait ==> r.0.endTime == endTime
      ensures r.1 == duration
      ensures r.0.(beginTime := beginTime, endTime := endTime) == this
    {
      var e := if ignoreWait then endTime else b + duration;
      (this.(beginTime := b, endTime := e), duration)
    }

    /** `completed`: the handlers run, in order; each only if set. */
    function Completed(): (hs: seq<Handler>)
      ensures |hs| == (if internalHandler.Some? then 1 else 0) + (if completionHandler.Some? then 1 else 0)
      ensures forall h :: h in hs <==> (internalHandler == Some(h) || completionHandler == Some(h))
      ensures internalHandler.Some? && completionHandler.Some? ==>
                hs == [internalHandler.value, completionHandler.value]
      ensures internalHandler.Some? ==> hs[0] == internalHandler.value
    {
      (if internalHandler.Some? then [internalHandler.value] else [])
      + (if completionHandler.Some? then [completionHandler.value] else [])
    }
  }

  /** JavaScript truthiness of a `repeatcount` value: 0 is falsy. */
  predicate Truthy(r: Repeat) {
    r.Forever? || r.n != 0.0
  }

  /** The field initialisers of the constructor, before the animation and the
      keyword arguments are consulted. */
  function Defaults(animation: Option<CoreAnimation>): Step {
    Step(animation, false, false, false, 0.0, None, None, 0.0, 0.0, None, Some(SetModelValue))
  }

  /** The duration factor contributed by a truthy `repeatcount` option. */
  function RepeatFactor(kw: Options): real {
    if kw.repeatcount.Some? && kw.repeatcount.value.Count? && kw.repeatcount.value.n != 0.0
    then kw.repeatcount.value.n else 1.0
  }

  /** True when a truthy `repeatduration` option overrides every other duration. */
  predicate OverridesDuration(kw: Options) {
    kw.repeatduration.Some? && kw.repeatduration.value != 0.0
  }

  /** The duration-related part of the constructor: the animation's own
      duration, then `repeatcount`, `autoreverse` and `repeatduration`. */
  function Timed(animation: Option<CoreAnimation>, kw: Options): (s: Step)
    ensures s.animation.Some? <==> animation.Some?
    ensures s.(animation := animation, duration := 0.0, ignoreWait := false) == Defaults(animation)
    ensures s.ignoreWait <==> (animation.Some? && kw.repeatcount == Some(Forever))
    ensures OverridesDuration(kw) ==> s.duration == kw.repeatduration.value
    ensures !OverridesDuration(kw) ==>
              s.duration == (if animation.Some?
                             then animation.value.duration * RepeatFactor(kw) * (if kw.autoreverse then 2.0 else 1.0)
                             else 0.0)
    ensures animation.Some? ==>
              s.animation == Some(animation.value.(
                repeatCount := if kw.repeatcount.Some? && Truthy(kw.repeatcount.value)
                               then kw.repeatcount.value else animation.value.repeatCount,
                autoreverses := kw.autoreverse || animation.value.autoreverses,
                repeatDuration := if OverridesDuration(kw) then kw.repeatduration.value
                                  else animation.value.repeatDuration))
  {
    var s0 := Defaults(animation);
    var s1 := if animation.Some? then s0.(duration := animation.value.duration) else s0;
    var s2 := if kw.repeatcount.Some? && Truthy(kw.repeatcount.value) then s1.RepeatCount(kw.repeatcount.value) else s1;
    assert s2.duration == (if animation.Some? then animation.value.duration * RepeatFactor(kw) else 0.0);
    var s3 := if kw.autoreverse then s2.Autoreverse() else s2;
    if OverridesDuration(kw) then s3.RepeatDuration(kw.repeatduration.value) else s3
  }

  /** The constructor: defaults, then the animation's own duration, then the
      keyword arguments in the order `repeatcount`, `autoreverse`,
      `repeatduration`, `on_complete`, `label`. */
  function NewStep(animation: Option<CoreAnimation>, kw: Options): (s: Step)
    ensures s.animation.Some? <==> animation.Some?
    ensures !s.isWaitMark && !s.isWaitOnly && s.input.None?
    ensures s.beginTime == 0.0 && s.endTime == 0.0
    ensures s.internalHandler == Some(SetModelValue)
    ensures kw.onComplete.Some? <==> s.completionHandler.Some?
    ensures kw.onComplete.Some? ==> s.completionHandler == Some(Callback(kw.onComplete.value))
    ensures s.Labelled() <==> (kw.labelName.Some? && kw.labelName.value != "")
    ensures s.Labelled() ==> s.labelName == kw.labelName
    ensures s.ignoreWait <==> (animation.Some? && kw.repeatcount == Some(Forever))
    ensures OverridesDuration(kw) ==> s.duration == kw.repeatduration.value
    ensures !OverridesDuration(kw) ==>
              s.duration == (if animation.Some?
                             then animation.value.duration * RepeatFactor(kw) * (if kw.autoreverse then 2.0 else 1.0)
                             else 0.0)
    ensures s.animation == Timed(animation, kw).animation
  {
    var s4 := Timed(animation, kw);
    var s5 := if kw.onComplete.Some? then s4.(completionHandler := Some(Callback(kw.onComplete.value))) else s4;
    if kw.labelName.Some? && kw.labelName.value != "" then s5.(labelName := kw.labelName) else s5
  }

  /** Whether `commit` attaches a completion delegate to the step. */
  predicate AttachesDelegate(s: Step) {
    !s.ignoreWait && s.animation.Some?
  }

  /** A step built without an animation and without options has every default. */
  lemma FreshStepDefaults()
    ensures var s := NewStep(None, NoOptions);
      && !s.isWaitMark && !s.isWaitOnly && !s.ignoreWait
      && s.duration == 0.0 && s.beginTime == 0.0 && s.endTime == 0.0
      && s.labelName.None? && s.input.None? && s.completionHandler.None?
      && !AttachesDelegate(s)
  {
  }

  /** With an underlying animation and no options, the step takes that
      animation's duration. */
  lemma InitialDurationFromAnimation(a: CoreAnimation)
    ensures NewStep(Some(a), NoOptions).duration == a.duration
    ensures NewStep(Some(a), NoOptions).animation == Some(a)
  {
  }

  /** Re-applying a step overrides the earlier timing completely. */
  lemma ApplyOverrides(s: Step, b1: real, b2: real)
    ensures s.Apply(b1).0.Apply(b2).0 == s.Apply(b2).0
  {
  }

  /** `repeatcount` and `autoreverse` commute on the duration. */
  lemma RepeatAutoreverseCommute(s: Step, r: Repeat)
    ensures s.RepeatCount(r).Autoreverse().duration == s.Autoreverse().RepeatCount(r).duration
    ensures s.RepeatCount(r).Autoreverse().ignoreWait == s.Autoreverse().RepeatCount(r).ignoreWait
  {
  }
}
