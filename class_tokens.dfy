/** Tailwind utility classes that the reveal wrappers emit, as structured tokens,
    and the part of the animation `switch` that both wrappers share. */
module ClassTokens {
  import opened Decimal

  datatype ClassToken =
    | TransitionAll            // transition-all
    | EaseOut                  // ease-out
    | DurationStep(scale: nat)  // a theme duration, duration-700
    | DurationMs(ms: int)      // an arbitrary duration, duration-[800ms]
    | DelayMs(ms: int)         // an arbitrary delay, delay-[150ms]
    | Opacity(percent: nat)    // opacity-0, opacity-100
    | TranslateX(step: int)    // translate-x-8; a negative step is -translate-x-8
    | TranslateY(step: int)    // translate-y-8
    | Scale(percent: nat)      // scale-95, scale-100
    | Custom(name: string)     // a class the caller passes in

  /** A spacing utility with Tailwind's leading minus for negative steps. */
  function Signed(prefix: string, n: int): (r: string)
    ensures ' ' !in prefix ==> ' ' !in r
    ensures |r| > |prefix|
  {
    NumeralsHaveNoBlank();
    if n < 0 then "-" + prefix + NatToString(-n) else prefix + NatToString(n)
  }

  /** The class name as it appears in the `className` attribute; apart from a
      caller's own class, each token is one non-empty, blank-free name. */
  function Render(t: ClassToken): (r: string)
    ensures !t.Custom? ==> |r| > 0 && ' ' !in r
  {
    NumeralsHaveNoBlank();
    match t
    case TransitionAll => "transition-all"
    case EaseOut => "ease-out"
    case DurationStep(scale) => "duration-" + NatToString(scale)
    case DurationMs(ms) => "duration-[" + IntToString(ms) + "ms]"
    case DelayMs(ms) => "delay-[" + IntToString(ms) + "ms]"
    case Opacity(p) => "opacity-" + NatToString(p)
    case TranslateX(n) => Signed("translate-x-", n)
    case TranslateY(n) => Signed("translate-y-", n)
    case Scale(p) => "scale-" + NatToString(p)
    case Custom(name) => name
  }

  /** Decimal forms of the numbers that occur in the class names below. */
  lemma Numerals()
    ensures NatToString(0) == "0" && NatToString(6) == "6" && NatToString(8) == "8"
    ensures NatToString(95) == "95" && NatToString(100) == "100"
    ensures NatToString(700) == "700" && NatToString(800) == "800" && NatToString(150) == "150"
  {
    assert NatToString(95) == NatToString(9) + [DigitChar(5)];
    assert NatToString(100) == NatToString(10) + [DigitChar(0)] by {
      assert NatToString(10) == NatToString(1) + [DigitChar(0)];
    }
    assert NatToString(700) == NatToString(70) + [DigitChar(0)] by {
      assert NatToString(70) == NatToString(7) + [DigitChar(0)];
    }
    assert NatToString(800) == NatToString(80) + [DigitChar(0)] by {
      assert NatToString(80) == NatToString(8) + [DigitChar(0)];
    }
    assert NatToString(150) == NatToString(15) + [DigitChar(0)] by {
      assert NatToString(15) == NatToString(1) + [DigitChar(5)];
    }
  }

  /** The rendered names of the opacity and scale utilities, literally. */
  lemma RenderedStateNames()
    ensures Render(TransitionAll) == "transition-all" && Render(EaseOut) == "ease-out"
    ensures Render(Opacity(0)) == "opacity-0" && Render(Opacity(100)) == "opacity-100"
    ensures Render(Scale(95)) == "scale-95" && Render(Scale(100)) == "scale-100"
  {
    Numerals();
    assert Render(Opacity(100)) == "opacity-" + "100";
    assert Render(Scale(95)) == "scale-" + "95";
    assert Render(Scale(100)) == "scale-" + "100";
  }

  /** The rendered names of the timing utilities, literally. */
  lemma RenderedTimingNames()
    ensures Render(DurationStep(700)) == "duration-700"
    ensures Render(DurationMs(800)) == "duration-[800ms]"
    ensures Render(DelayMs(150)) == "delay-[150ms]"
  {
    Numerals();
    assert Render(DurationStep(700)) == "duration-" + "700";
    assert Render(DurationMs(800)) == "duration-[" + "800" + "ms]";
    assert Render(DelayMs(150)) == "delay-[" + "150" + "ms]";
  }

  /** The rendered names of the offset utilities, literally. */
  lemma RenderedOffsetNames()
    ensures Render(TranslateY(8)) == "translate-y-8" && Render(TranslateY(0)) == "translate-y-0"
    ensures Render(TranslateX(-8)) == "-translate-x-8" && Render(TranslateX(6)) == "translate-x-6"
  {
    Numerals();
    assert Render(TranslateX(-8)) == "-" + "translate-x-" + "8";
  }

  /** The number between the brackets of a rendered arbitrary duration reads back
      as that duration, so distinct durations render distinctly. */
  lemma {:induction false} DurationRenderReadsBack(ms: int)
    ensures var s := Render(DurationMs(ms));
            |s| >= 14 && s[..10] == "duration-[" && s[|s| - 3..] == "ms]" &&
            var n := s[10..|s| - 3];
            |n| >= 1 && (if n[0] == '-' then AllDigits(n[1..]) else AllDigits(n)) && ParseInt(n) == ms
  {
    var n := IntToString(ms);
    var s := Render(DurationMs(ms));
    assert s == "duration-[" + n + "ms]";
    assert s[10..|s| - 3] == n;
    IntToStringRoundTrip(ms);
  }

  /** The same for an arbitrary delay. */
  lemma {:induction false} DelayRenderReadsBack(ms: int)
    ensures var s := Render(DelayMs(ms));
            |s| >= 11 && s[..7] == "delay-[" && s[|s| - 3..] == "ms]" &&
            var n := s[7..|s| - 3];
            |n| >= 1 && (if n[0] == '-' then AllDigits(n[1..]) else AllDigits(n)) && ParseInt(n) == ms
  {
    var n := IntToString(ms);
    var s := Render(DelayMs(ms));
    assert s == "delay-[" + n + "ms]";
    assert s[7..|s| - 3] == n;
    IntToStringRoundTrip(ms);
  }

  /** Distinct durations, and distinct delays, render as distinct class names. */
  lemma TimingRenderInjective(a: int, b: int)
    requires a != b
    ensures Render(DurationMs(a)) != Render(DurationMs(b))
    ensures Render(DelayMs(a)) != Render(DelayMs(b))
  {
    DurationRenderReadsBack(a);
    DurationRenderReadsBack(b);
    DelayRenderReadsBack(a);
    DelayRenderReadsBack(b);
  }

  /** The animation types the prop's type admits; any other string takes the
      `default` branch of the switch. */
  const AnimationTypes: seq<string> := ["fadeUp", "fadeIn", "slideLeft", "slideRight", "scaleUp"]

  /** A motion token at its resting position: no offset, full size. */
  predicate AtRest(t: ClassToken) {
    t == TranslateX(0) || t == TranslateY(0) || t == Scale(100)
  }

  predicate IsMotion(t: ClassToken) {
    t.TranslateX? || t.TranslateY? || t.Scale?
  }

  /** fadeUp's pair of tokens, shared by its own case and the `default` case. */
  function FadeUpTokens(isVisible: bool, offset: nat): seq<ClassToken> {
    if isVisible then [Opacity(100), TranslateY(0)] else [Opacity(0), TranslateY(offset)]
  }

  /** The state-dependent tokens chosen by the `switch (animationType)`; `offset`
      is the hidden displacement step (8 in the single wrapper, 6 per staggered child). */
  function RevealTokens(animationType: string, isVisible: bool, offset: nat): (r: seq<ClassToken>)
    requires offset > 0
    ensures 1 <= |r| <= 2 && r[0] == Opacity(if isVisible then 100 else 0)
    ensures Opacity(100) in r <==> isVisible
    ensures Opacity(0) in r <==> !isVisible
    ensures forall i :: 1 <= i < |r| ==> IsMotion(r[i]) && (AtRest(r[i]) <==> isVisible)
    ensures forall t :: t in r ==> t.Opacity? || IsMotion(t)
  {
    if animationType == "fadeUp" then FadeUpTokens(isVisible, offset)
    else if animationType == "fadeIn" then
      (if isVisible then [Opacity(100)] else [Opacity(0)])
    else if animationType == "slideLeft" then
      (if isVisible then [Opacity(100), TranslateX(0)] else [Opacity(0), TranslateX(offset)])
    else if animationType == "slideRight" then
      (if isVisible then [Opacity(100), TranslateX(0)] else [Opacity(0), TranslateX(0 - offset)])
    else if animationType == "scaleUp" then
      (if isVisible then [Opacity(100), Scale(100)] else [Opacity(0), Scale(95)])
    else FadeUpTokens(isVisible, offset)
  }
}
