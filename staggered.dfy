/** The staggered reveal container: it wraps each child in its own `div` whose
    classes carry a delay proportional to the child's index. All children share
    the container's visibility, which is an input here. */
module Staggered {
  import opened Wrappers
  import opened ClassTokens

  /** 0.1 seconds between consecutive children. */
  const DefaultStaggerMs: int := 100
  const DefaultAnimationType: string := "fadeUp"
  /** Every child transitions over the theme duration step 700 (700 ms). */
  const ChildDuration: nat := 700
  /** Hidden children are displaced by Tailwind step 6. */
  const HiddenOffset: nat := 6

  datatype Props = Props(className: seq<string>, staggerMs: Option<int>, animationType: Option<string>)

  /** One child inside its wrapper `div`, keyed by its index. */
  datatype Wrapped<T> = Wrapped(key: nat, classes: seq<ClassToken>, child: T)

  /** The container `div` (carrying the caller's classes) and its wrapped children. */
  datatype Container<T> = Container(className: seq<string>, wrappers: seq<Wrapped<T>>)

  /** The delay of child `index`. */
  function ChildDelayMs(index: nat, staggerMs: int): (r: int)
    ensures index == 0 ==> r == 0
    ensures index > 0 ==> r == ChildDelayMs(index - 1, staggerMs) + staggerMs
  {
    index * staggerMs
  }

  /** Classes of child `index`: the fixed transition, its delay (always emitted,
      even when it is 0), then the state tokens of the animation type. */
  function ChildClasses(animationType: string, isVisible: bool, staggerMs: int, index: nat): (r: seq<ClassToken>)
    ensures |r| >= 5 && r[..4] == [TransitionAll, DurationStep(ChildDuration), EaseOut, DelayMs(ChildDelayMs(index, staggerMs))]
    ensures Opacity(100) in r <==> isVisible
    ensures Opacity(0) in r <==> !isVisible
    ensures forall t :: t in r && t.DelayMs? ==> t.ms == index * staggerMs
  {
    var timing := [TransitionAll, DurationStep(ChildDuration), EaseOut, DelayMs(ChildDelayMs(index, staggerMs))];
    var state := RevealTokens(animationType, isVisible, HiddenOffset);
    assert forall t :: t in timing ==> !t.Opacity?;
    timing + state
  }

  /** The `map` over the children: one wrapper per child, in the children's order. */
  function WrapChildren<T>(children: seq<T>, animationType: string, isVisible: bool, staggerMs: int): (r: seq<Wrapped<T>>)
    ensures |r| == |children|
    ensures forall i :: 0 <= i < |r| ==>
              r[i].key == i && r[i].child == children[i] &&
              r[i].classes == ChildClasses(animationType, isVisible, staggerMs, i)
  {
    seq(|children|, i requires 0 <= i < |children| =>
      Wrapped(i, ChildClasses(animationType, isVisible, staggerMs, i), children[i]))
  }

  /** The whole rendered container, with absent props taking their defaults. */
  function RenderContainer<T>(props: Props, children: seq<T>, isVisible: bool): (r: Container<T>)
    ensures r.className == props.className
    ensures |r.wrappers| == |children|
    ensures forall i :: 0 <= i < |children| ==>
              r.wrappers[i].key == i && r.wrappers[i].child == children[i] &&
              r.wrappers[i].classes == ChildClasses(props.animationType.GetOr(DefaultAnimationType), isVisible,
                                                    props.staggerMs.GetOr(DefaultStaggerMs), i)
  {
    Container(props.className,
      WrapChildren(children, props.animationType.GetOr(DefaultAnimationType), isVisible,
                   props.staggerMs.GetOr(DefaultStaggerMs)))
  }

  /** With a non-negative stagger a later child never starts before an earlier one. */
  lemma {:induction false} DelaysNonDecreasing(staggerMs: int, i: nat, j: nat)
    requires staggerMs >= 0 && i <= j
    ensures ChildDelayMs(i, staggerMs) <= ChildDelayMs(j, staggerMs)
    decreases j
  {
    if i < j {
      DelaysNonDecreasing(staggerMs, i, j - 1);
      assert ChildDelayMs(j, staggerMs) == ChildDelayMs(j - 1, staggerMs) + staggerMs;
    }
  }

  /** All children share one visibility flag: either every child is revealed or
      every child is hidden. */
  lemma SharedVisibility<T>(children: seq<T>, animationType: string, isVisible: bool, staggerMs: int)
    ensures var r := WrapChildren(children, animationType, isVisible, staggerMs);
            (forall i :: 0 <= i < |r| ==> Opacity(100) in r[i].classes) ||
            (forall i :: 0 <= i < |r| ==> Opacity(0) in r[i].classes)
  {
  }

  /** Every child gets the same 700 duration and a delay class, whatever its index. */
  lemma UniformTiming<T>(children: seq<T>, animationType: string, isVisible: bool, staggerMs: int)
    ensures var r := WrapChildren(children, animationType, isVisible, staggerMs);
            forall i :: 0 <= i < |r| ==>
              DurationStep(700) in r[i].classes && DelayMs(i * staggerMs) in r[i].classes
  {
    var r := WrapChildren(children, animationType, isVisible, staggerMs);
    forall i | 0 <= i < |r|
      ensures DurationStep(700) in r[i].classes && DelayMs(i * staggerMs) in r[i].classes
    {
      assert r[i].classes[1] == DurationStep(700);
      assert r[i].classes[3] == DelayMs(i * staggerMs);
    }
  }

  /** Hidden children are offset by step 6 (not 8), and an unknown animation type
      is treated as fadeUp. */
  lemma HiddenOffsets(animationType: string, isVisible: bool, staggerMs: int, index: nat)
    ensures TranslateY(6) in ChildClasses("fadeUp", false, staggerMs, index)
    ensures TranslateX(6) in ChildClasses("slideLeft", false, staggerMs, index)
    ensures TranslateX(-6) in ChildClasses("slideRight", false, staggerMs, index)
    ensures Scale(95) in ChildClasses("scaleUp", false, staggerMs, index)
    ensures Scale(100) in ChildClasses("scaleUp", true, staggerMs, index)
    ensures animationType !in AnimationTypes ==>
              ChildClasses(animationType, isVisible, staggerMs, index) == ChildClasses("fadeUp", isVisible, staggerMs, index)
  {
    if animationType !in AnimationTypes {
      UnknownChildType(animationType, isVisible, staggerMs, index);
    }
    assert ChildClasses("fadeUp", false, staggerMs, index)[5] == TranslateY(6);
    assert ChildClasses("slideLeft", false, staggerMs, index)[5] == TranslateX(6);
    assert ChildClasses("slideRight", false, staggerMs, index)[5] == TranslateX(-6);
    assert ChildClasses("scaleUp", false, staggerMs, index)[5] == Scale(95);
    assert ChildClasses("scaleUp", true, staggerMs, index)[5] == Scale(100);
  }

  /** The `default` branch of the per-child `switch` repeats fadeUp's tokens. */
  lemma UnknownChildType(animationType: string, isVisible: bool, staggerMs: int, index: nat)
    requires animationType !in AnimationTypes
    ensures ChildClasses(animationType, isVisible, staggerMs, index) == ChildClasses("fadeUp", isVisible, staggerMs, index)
  {
  }

  /** With the default props, child `i` is delayed by `i` tenths of a second and fades up. */
  lemma DefaultStagger<T>(children: seq<T>, isVisible: bool, i: nat)
    requires i < |children|
    ensures var c := RenderContainer(Props([], None, None), children, isVisible);
            c.wrappers[i].classes == ChildClasses("fadeUp", isVisible, 100, i) &&
            DelayMs(100 * i) in c.wrappers[i].classes
  {
    var c := RenderContainer(Props([], None, None), children, isVisible);
    assert c.wrappers[i].classes[3] == DelayMs(i * 100);
  }
}
