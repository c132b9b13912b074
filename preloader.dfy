/** The full-screen preloader: an interval counts a percentage from 0 to 100 one
    step per tick; the tick that finds 100 stops the interval and schedules the
    hide, and the hide takes the overlay away. Ticks and the hide are events here,
    not timed callbacks. */
module PreloaderScreen {
  import opened Wrappers

  const Complete: int := 100

  datatype LoaderState = LoaderState(counter: int, intervalActive: bool, hideScheduled: bool, isLoading: bool)

  /** On mount: counting from 0, the interval running, the overlay shown. */
  const Mounted: LoaderState := LoaderState(0, true, false, true)

  /** What holds in every state the preloader can reach. */
  predicate Inv(s: LoaderState) {
    && 0 <= s.counter <= Complete
    && (s.intervalActive ==> !s.hideScheduled && s.isLoading)
    && (s.hideScheduled ==> s.counter == Complete && s.isLoading)
    && (!s.isLoading ==> s.counter == Complete && !s.intervalActive)
  }

  /** One interval callback: the updater counts up below 100; at 100 it clears the
      interval, schedules the hide and keeps 100. */
  function AfterTick(s: LoaderState): (r: LoaderState)
    requires s.intervalActive
    ensures Inv(s) ==> Inv(r)
    ensures Inv(s) ==> s.counter <= r.counter <= s.counter + 1
    ensures s.counter < Complete ==> r.counter == s.counter + 1 && r.intervalActive
    ensures s.counter >= Complete ==> r.counter == Complete && !r.intervalActive && r.hideScheduled
    ensures r.isLoading == s.isLoading
  {
    if s.counter < Complete then s.(counter := s.counter + 1)
    else s.(counter := Complete, intervalActive := false, hideScheduled := true)
  }

  /** The scheduled timeout: the overlay goes away. */
  function AfterHide(s: LoaderState): (r: LoaderState)
    requires s.hideScheduled
    ensures Inv(s) ==> Inv(r) && r.counter == Complete
    ensures !r.isLoading && !r.hideScheduled && r.counter == s.counter
  {
    s.(hideScheduled := false, isLoading := false)
  }

  /** `k` interval callbacks; once the interval is cleared no further one fires. */
  function Ticks(s: LoaderState, k: nat): (r: LoaderState)
    ensures Inv(s) ==> Inv(r) && s.counter <= r.counter <= s.counter + k
    ensures r.isLoading == s.isLoading
    decreases k
  {
    if k == 0 || !s.intervalActive then s else Ticks(AfterTick(s), k - 1)
  }

  /** While still counting from `c`, `k` more ticks give `c + k` up to 100; the
      tick after that stops the interval and schedules the hide. */
  lemma {:induction false} TicksFrom(c: nat, k: nat)
    requires c <= Complete
    ensures Ticks(LoaderState(c, true, false, true), k) ==
            if c + k <= Complete then LoaderState(c + k, true, false, true)
            else LoaderState(Complete, false, true, true)
    decreases k
  {
    var s := LoaderState(c, true, false, true);
    if k > 0 {
      if c < Complete {
        assert AfterTick(s) == LoaderState(c + 1, true, false, true);
        TicksFrom(c + 1, k - 1);
      } else {
        assert AfterTick(s) == LoaderState(Complete, false, true, true);
        assert Ticks(AfterTick(s), k - 1) == AfterTick(s);
      }
    }
  }

  /** After `k` ticks from mount the counter reads min(k, 100); the interval runs
      through tick 100 and is cleared by tick 101, which schedules the hide. */
  lemma CounterAfterTicks(k: nat)
    ensures var s := Ticks(Mounted, k);
            s.counter == (if k <= Complete then k else Complete) &&
            (s.intervalActive <==> k <= Complete) &&
            (s.hideScheduled <==> k > Complete) &&
            s.isLoading
  {
    TicksFrom(0, k);
  }

  /** The overlay and its percentage are shown only while loading, and loading
      ends only once the counter has reached 100. */
  function PercentShown(s: LoaderState): (r: Option<int>)
    requires Inv(s)
    ensures r.Some? <==> s.isLoading
    ensures r.Some? ==> r.value == s.counter && 0 <= r.value <= Complete
    ensures r.None? ==> s.counter == Complete
  {
    if s.isLoading then Some(s.counter) else None
  }

  class Preloader {
    var counter: int
    var intervalActive: bool
    var hideScheduled: bool
    var isLoading: bool

    function State(): LoaderState
      reads this
    {
      LoaderState(counter, intervalActive, hideScheduled, isLoading)
    }

    predicate Valid()
      reads this
    {
      Inv(State())
    }

    /** Mount: the state starts at 0 and loading, and the effect starts the interval. */
    constructor ()
      ensures State() == Mounted && Valid()
    {
      counter := 0;
      isLoading := true;
      intervalActive := true;
      hideScheduled := false;
    }

    /** One firing of the interval, only possible while it is set. */
    method Tick()
      requires Valid() && intervalActive
      modifies this
      ensures Valid() && State() == AfterTick(old(State()))
      ensures old(counter) <= counter
      ensures old(counter) < Complete ==> counter == old(counter) + 1
      ensures old(counter) == Complete ==> counter == Complete && !intervalActive && hideScheduled
    {
      if counter < Complete {
        counter := counter + 1;
      } else {
        intervalActive := false;
        hideScheduled := true;
        counter := Complete;
      }
    }

    /** The scheduled timeout firing. */
    method FireHide()
      requires Valid() && hideScheduled
      modifies this
      ensures Valid() && State() == AfterHide(old(State()))
      ensures !isLoading && counter == Complete
    {
      hideScheduled := false;
      isLoading := false;
    }

    /** The effect's cleanup on unmount clears the interval; a hide already
        scheduled is not cancelled. */
    method Unmount()
      requires Valid()
      modifies this
      ensures Valid() && State() == old(State()).(intervalActive := false)
    {
      intervalActive := false;
    }
  }
}
