/** The single scroll-reveal wrapper: which classes it puts on its `div` for a
    given animation type, visibility, delay and duration. Visibility is an input,
    because the hook that detects it is not part of this model. */
module ScrollReveal {
  import opened Wrappers
  import opened ClassTokens

  const DefaultAnimationType: string := "fadeUp"
  const DefaultDelayMs: int := 0
  /** 0.8 seconds. */
  const DefaultDurationMs: int := 800
  /** Hidden elements are displaced by Tailwind step 8. */
  const HiddenOffset: nat := 8

  /** The wrapper's props; an absent optional prop takes its default. Timings are
      whole milliseconds and `className` is the caller's list of class names. */
  datatype Props = Props(
    className: seq<string>,
    animationType: Option<string>,
    delayMs: Option<int>,
    durationMs: Option<int>)

  /** The wrapper's own classes: base, duration, an optional delay, then the
      state tokens of the animation type. */
  function AnimationClasses(animationType: string, isVisible: bool, delayMs: int, durationMs: int): (r: seq<ClassToken>)
    ensures |r| >= 4 && r[..3] == [TransitionAll, EaseOut, DurationMs(durationMs)]
    ensures Opacity(100) in r <==> isVisible
    ensures Opacity(0) in r <==> !isVisible
    ensures (exists t :: t in r && t.DelayMs?) <==> delayMs > 0
    ensures delayMs > 0 ==> r[3] == DelayMs(delayMs)
    ensures forall t :: t in r ==> !t.Custom?
  {
    var state := RevealTokens(animationType, isVisible, HiddenOffset);
    var timing := [TransitionAll, EaseOut, DurationMs(durationMs)] + DelayClass(delayMs);
    assert forall t :: t in timing ==> !t.Opacity? && !IsMotion(t);
    assert (exists t :: t in timing && t.DelayMs?) <==> delayMs > 0 by {
      if delayMs > 0 { assert timing[3] in timing; }
    }
    timing + state
  }

  /** The delay class, emitted only for a positive delay. */
  function DelayClass(delayMs: int): (r: seq<ClassToken>)
    ensures |r| == (if delayMs > 0 then 1 else 0)
    ensures forall t :: t in r ==> t == DelayMs(delayMs)
  {
    if delayMs > 0 then [DelayMs(delayMs)] else []
  }

  /** The classes of the rendered `div`: the animation classes, then the caller's. */
  function WrapperClasses(props: Props, isVisible: bool): (r: seq<ClassToken>)
    ensures var n := |r| - |props.className|;
            n >= 4 &&
            r[..n] == AnimationClasses(props.animationType.GetOr(DefaultAnimationType), isVisible,
                                        props.delayMs.GetOr(DefaultDelayMs), props.durationMs.GetOr(DefaultDurationMs)) &&
            forall k :: 0 <= k < |props.className| ==> r[n + k] == Custom(props.className[k])
  {
    var own := AnimationClasses(props.animationType.GetOr(DefaultAnimationType), isVisible,
                                props.delayMs.GetOr(DefaultDelayMs), props.durationMs.GetOr(DefaultDurationMs));
    own + seq(|props.className|, k requires 0 <= k < |props.className| => Custom(props.className[k]))
  }

  /** With no props at all: fadeUp, no delay class, an 800 ms duration. */
  lemma DefaultClasses(isVisible: bool)
    ensures WrapperClasses(Props([], None, None, None), isVisible) ==
            if isVisible then [TransitionAll, EaseOut, DurationMs(800), Opacity(100), TranslateY(0)]
            else [TransitionAll, EaseOut, DurationMs(800), Opacity(0), TranslateY(8)]
  {
  }

  /** A string outside the five animation types falls through to the default
      branch, which emits exactly fadeUp's classes. */
  lemma UnknownTypeIsFadeUp(animationType: string, isVisible: bool, delayMs: int, durationMs: int)
    requires animationType !in AnimationTypes
    ensures AnimationClasses(animationType, isVisible, delayMs, durationMs) ==
            AnimationClasses("fadeUp", isVisible, delayMs, durationMs)
  {
  }

  /** fadeUp hides at step 8 below its place and reveals at vertical position 0,
      whatever the delay and duration. */
  lemma FadeUpOffsets(delayMs: int, durationMs: int)
    ensures TranslateY(8) in AnimationClasses("fadeUp", false, delayMs, durationMs)
    ensures TranslateY(0) in AnimationClasses("fadeUp", true, delayMs, durationMs)
  {
    var tail := if delayMs > 0 then 4 else 3;
    assert AnimationClasses("fadeUp", false, delayMs, durationMs)[tail + 1] == TranslateY(8);
    assert AnimationClasses("fadeUp", true, delayMs, durationMs)[tail + 1] == TranslateY(0);
  }

  /** slideLeft hides at step 8 to the right, slideRight at step 8 to the left,
      and both reveal at horizontal position 0. */
  lemma SlideOffsets(delayMs: int, durationMs: int)
    ensures TranslateX(8) in AnimationClasses("slideLeft", false, delayMs, durationMs)
    ensures TranslateX(-8) in AnimationClasses("slideRight", false, delayMs, durationMs)
    ensures TranslateX(0) in AnimationClasses("slideLeft", true, delayMs, durationMs)
    ensures TranslateX(0) in AnimationClasses("slideRight", true, delayMs, durationMs)
  {
    var tail := if delayMs > 0 then 4 else 3;
    assert AnimationClasses("slideLeft", false, delayMs, durationMs)[tail + 1] == TranslateX(8);
    assert AnimationClasses("slideRight", false, delayMs, durationMs)[tail + 1] == TranslateX(-8);
    assert AnimationClasses("slideLeft", true, delayMs, durationMs)[tail + 1] == TranslateX(0);
    assert AnimationClasses("slideRight", true, delayMs, durationMs)[tail + 1] == TranslateX(0);
  }

  /** scaleUp hides at scale 95 and reveals at scale 100. */
  lemma ScaleUpTokens(delayMs: int, durationMs: int)
    ensures Scale(95) in AnimationClasses("scaleUp", false, delayMs, durationMs)
    ensures Scale(100) in AnimationClasses("scaleUp", true, delayMs, durationMs)
    ensures Scale(100) !in AnimationClasses("scaleUp", false, delayMs, durationMs)
    ensures Scale(95) !in AnimationClasses("scaleUp", true, delayMs, durationMs)
  {
    var tail := if delayMs > 0 then 4 else 3;
    assert AnimationClasses("scaleUp", false, delayMs, durationMs)[tail + 1] == Scale(95);
    assert AnimationClasses("scaleUp", true, delayMs, durationMs)[tail + 1] == Scale(100);
  }

  /** fadeIn moves nothing: apart from the base, duration and delay classes it
      emits a single opacity token. */
  lemma FadeInOnlyOpacity(isVisible: bool, delayMs: int, durationMs: int)
    ensures var r := AnimationClasses("fadeIn", isVisible, delayMs, durationMs);
            forall t :: t in r ==>
              !IsMotion(t) && (t.TransitionAll? || t.EaseOut? || t.DurationMs? || t.DelayMs? || t.Opacity?)
  {
  }

  /** Revealing swaps only the state tokens: the base, duration and delay
      classes, which drive the transition, are the same before and after. */
  lemma RevealKeepsTiming(animationType: string, delayMs: int, durationMs: int)
    ensures var hidden := AnimationClasses(animationType, false, delayMs, durationMs);
            var shown := AnimationClasses(animationType, true, delayMs, durationMs);
            var n := if delayMs > 0 then 4 else 3;
            |hidden| == |shown| && hidden[..n] == shown[..n] && hidden[n..] != shown[n..]
  {
    var n := if delayMs > 0 then 4 else 3;
    var hidden := AnimationClasses(animationType, false, delayMs, durationMs);
    var shown := AnimationClasses(animationType, true, delayMs, durationMs);
    assert hidden[n] == Opacity(0) && shown[n] == Opacity(100);
    assert hidden[n..][0] != shown[n..][0];
  }
}
