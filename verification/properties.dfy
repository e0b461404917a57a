/**
 Facts about the offset controller: the bounds every run keeps, which offsets
 are reachable, the round trips between the two buttons, and what a change of
 container width can and cannot break.
 */
module CarouselProperties {
  import opened Carousel
  import opened Events

  /** The lowest offset the right guard admits for a fixed width. */
  function MinOffset(s: State): int {
    -Max(0, RightLimit(s))
  }

  /** The offset is a whole number of strides to the left of the start. */
  predicate Aligned(s: State) {
    s.offset <= 0 && s.offset % CardSize == 0
  }

  /** Aligned and no farther than the right guard admits. */
  predicate Bounded(s: State) {
    Aligned(s) && MinOffset(s) <= s.offset
  }

  // ---------------------------------------------------------------------------
  // The buffer

  /** A wider container never counts fewer visible cards. */
  lemma BufferMonotone(w1: real, w2: real)
    requires w1 <= w2
    ensures Buffer(w1) <= Buffer(w2)
  {
  }

  // ---------------------------------------------------------------------------
  // Runs

  /** Handling two batches of events is handling their concatenation. */
  lemma {:induction false} RunAppend(s: State, a: seq<Event>, b: seq<Event>)
    ensures Run(s, a + b) == Run(Run(s, a), b)
    decreases |a|
  {
    if |a| == 0 {
      assert a + b == b;
    } else {
      assert (a + b)[0] == a[0];
      assert (a + b)[1..] == a[1..] + b;
      RunAppend(Step(s, a[0]), a[1..], b);
    }
  }

  /** Clicks never change the container width or the item count. */
  lemma {:induction false} ClicksKeepWidth(s: State, es: seq<Event>)
    requires ClicksOnly(es)
    ensures Run(s, es).width == s.width && Run(s, es).count == s.count
    decreases |es|
  {
    if |es| > 0 {
      assert !es[0].Measured?;
      ClicksKeepWidth(Step(s, es[0]), es[1..]);
    }
  }

  /** No event changes the item count. */
  lemma {:induction false} EventsKeepCount(s: State, es: seq<Event>)
    ensures Run(s, es).count == s.count
    decreases |es|
  {
    if |es| > 0 {
      EventsKeepCount(Step(s, es[0]), es[1..]);
    }
  }

  // ---------------------------------------------------------------------------
  // Bounds under a fixed width

  /** A left click from a bounded state only moves back toward the start. */
  lemma ShiftLeftKeepsBounded(s: State)
    requires Bounded(s)
    ensures Bounded(ShiftLeft(s))
  {
  }

  /** The right guard and alignment together keep the strip within its bound:
      an offset strictly inside the limit is at least one stride inside it. */
  lemma ShiftRightKeepsBounded(s: State)
    requires Bounded(s)
    ensures Bounded(ShiftRight(s))
  {
  }

  /** Any sequence of clicks from a bounded state stays bounded. */
  lemma {:induction false} ClicksKeepBounded(s: State, es: seq<Event>)
    requires Bounded(s) && ClicksOnly(es)
    ensures Bounded(Run(s, es))
    decreases |es|
  {
    if |es| > 0 {
      assert !es[0].Measured?;
      if es[0].LeftClick? {
        ShiftLeftKeepsBounded(s);
      } else {
        ShiftRightKeepsBounded(s);
      }
      ClicksKeepBounded(Step(s, es[0]), es[1..]);
    }
  }

  /** From mounting, every sequence of clicks leaves the offset non-positive,
      a multiple of the stride, and no lower than the right guard admits. */
  lemma RunsFromInitAreBounded(count: nat, width: real, es: seq<Event>)
    requires ClicksOnly(es)
    ensures var t := Run(Init(count, width), es);
            t.offset <= 0 && t.offset % 370 == 0
            && t.offset >= -370 * Max(0, count - Buffer(width))
  {
    ClicksKeepBounded(Init(count, width), es);
    ClicksKeepWidth(Init(count, width), es);
  }

  /** `k` right clicks from `j` strides in move the strip `k` strides further,
      as long as they stay within the bound. */
  lemma {:induction false} RightClicksAdvance(s: State, j: nat, k: nat)
    requires s.offset == -370 * j
    requires j + k <= Max(0, s.count - Buffer(s.width))
    ensures Run(s, RightClicks(k)) == s.(offset := -370 * (j + k))
    decreases k
  {
    if k > 0 {
      var es := RightClicks(k);
      assert es[0] == RightClick;
      assert es[1..] == RightClicks(k - 1);
      assert CanShiftRight(s);
      RightClicksAdvance(ShiftRight(s), j + 1, k - 1);
    }
  }

  /** Every bounded state is reachable from mounting by right clicks alone,
      so the bounded states are exactly the reachable ones. */
  lemma BoundedStatesAreReachable(s: State)
    requires Bounded(s)
    ensures Run(Init(s.count, s.width), RightClicks(-s.offset / 370)) == s
  {
    var k := -s.offset / CardSize;
    assert -s.offset == CardSize * k + (-s.offset) % CardSize;
    assert (-s.offset) % CardSize == 0;
    assert k <= Max(0, s.count - Buffer(s.width));
    RightClicksAdvance(Init(s.count, s.width), 0, k);
  }

  /** With no more items than visible cards, the strip never moves. */
  lemma {:induction false} FewItemsNeverScroll(s: State, es: seq<Event>)
    requires ClicksOnly(es)
    requires s.offset == 0 && s.count <= Buffer(s.width)
    ensures Run(s, es).offset == 0
    decreases |es|
  {
    if |es| > 0 {
      assert !es[0].Measured?;
      FewItemsNeverScroll(Step(s, es[0]), es[1..]);
    }
  }

  // ---------------------------------------------------------------------------
  // Round trips

  /** An effective right click is undone by a left click. */
  lemma RoundTripRightLeft(s: State)
    requires Aligned(s)
    requires ShiftRight(s) != s
    ensures ShiftLeft(ShiftRight(s)) == s
  {
  }

  /** In a bounded state an effective left click is undone by a right click:
      the right guard always admits the stride just given back. */
  lemma RoundTripLeftRight(s: State)
    requires Bounded(s)
    requires ShiftLeft(s) != s
    ensures ShiftRight(ShiftLeft(s)) == s
  {
  }

  // ---------------------------------------------------------------------------
  // Changing width

  /** Resizes and clicks together keep the offset non-positive and aligned. */
  lemma {:induction false} EventsKeepAligned(s: State, es: seq<Event>)
    requires Aligned(s)
    ensures Aligned(Run(s, es))
    decreases |es|
  {
    if |es| > 0 {
      var t := Step(s, es[0]);
      assert Aligned(t);
      EventsKeepAligned(t, es[1..]);
    }
  }

  /** From mounting, any mix of clicks and resizes keeps the offset
      non-positive and a multiple of the stride. */
  lemma RunsFromInitAreAligned(count: nat, width: real, es: seq<Event>)
    ensures var t := Run(Init(count, width), es);
            t.offset <= 0 && t.offset % 370 == 0
  {
    EventsKeepAligned(Init(count, width), es);
  }

  /** The floor that holds whatever the width: one stride per item beyond the
      first, the bound for the smallest buffer. */
  predicate AboveFloor(s: State) {
    Aligned(s) && s.offset >= -CardSize * Max(0, s.count - 1)
  }

  /** Every event keeps the offset aligned and above the floor. */
  lemma StepKeepsFloor(s: State, e: Event)
    requires AboveFloor(s)
    ensures AboveFloor(Step(s, e))
  {
  }

  /** Any mix of clicks and resizes keeps the offset above the floor. */
  lemma {:induction false} EventsKeepFloor(s: State, es: seq<Event>)
    requires AboveFloor(s)
    ensures AboveFloor(Run(s, es))
    decreases |es|
  {
    if |es| > 0 {
      StepKeepsFloor(s, es[0]);
      EventsKeepFloor(Step(s, es[0]), es[1..]);
    }
  }

  /** From mounting, whatever the events, the offset stays between
      -370 * (count - 1) and 0: within 370 times the item count. */
  lemma RunsFromInitStayAboveFloor(count: nat, width: real, es: seq<Event>)
    ensures var t := Run(Init(count, width), es);
            -370 * Max(0, count - 1) <= t.offset <= 0
  {
    EventsKeepFloor(Init(count, width), es);
    EventsKeepCount(Init(count, width), es);
  }

  /** A resize that does not grow the buffer keeps a bounded state bounded. */
  lemma ResizeKeepsBoundedUnlessBufferGrows(s: State, width: real)
    requires Bounded(s)
    requires Buffer(width) <= Buffer(s.width)
    ensures Bounded(Resize(s, width))
  {
  }

  /** Growing the buffer can leave the strip past its new bound: nine right
      clicks on ten items in a narrow container, then a wide container. */
  lemma BufferGrowthExceedsBound()
    ensures var t := Run(Init(10, 600.0), RightClicks(9) + [Measured(1200.0)]);
            t.offset == -3330 && t.offset < -370 * Max(0, t.count - Buffer(t.width))
  {
    var s := Init(10, 600.0);
    RightClicksAdvance(s, 0, 9);
    RunAppend(s, RightClicks(9), [Measured(1200.0)]);
  }

  /** Past the bound only the left button does anything. */
  lemma PastBoundOnlyLeft(s: State)
    requires Aligned(s) && s.offset < MinOffset(s)
    ensures ShiftRight(s) == s
    ensures ShiftLeft(s).offset == s.offset + 370
  {
  }

  /** `k` left clicks from `k` strides in bring the strip back to its start,
      whatever the width. */
  lemma {:induction false} LeftClicksReturnToStart(s: State, k: nat)
    requires s.offset == -370 * k
    ensures Run(s, LeftClicks(k)) == s.(offset := 0)
    decreases k
  {
    if k > 0 {
      var es := LeftClicks(k);
      assert es[0] == LeftClick;
      assert es[1..] == LeftClicks(k - 1);
      LeftClicksReturnToStart(ShiftLeft(s), k - 1);
    }
  }

  // ---------------------------------------------------------------------------
  // Buttons

  /** Each button is on screen exactly when clicking it changes the offset. */
  lemma ButtonsShowEffectiveClicks(s: State)
    ensures LeftButtonX(s) == "0%" <==> ShiftLeft(s) != s
    ensures RightButtonX(s) == "0%" <==> ShiftRight(s) != s
  {
  }

  // ---------------------------------------------------------------------------
  // The ten-item walk-through with a wide container

  /** Ten items in a 1200-pixel container: seven right clicks reach -2590,
      where the right button hides and further right clicks do nothing; one
      left click then gives -2220 and shows the right button again. */
  lemma WideContainerWalkThrough()
    ensures var s := Init(10, 1200.0);
            !CanShiftLeft(s) && CanShiftRight(s)
            && ShiftRight(s).offset == -370
    ensures var t := Run(Init(10, 1200.0), RightClicks(7));
            t.offset == -2590 && !CanShiftRight(t) && ShiftRight(t) == t
            && ShiftLeft(t).offset == -2220 && CanShiftRight(ShiftLeft(t))
  {
  }
}
