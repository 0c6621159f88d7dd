/** The header state machine `updateHeaderState` (assets/js/main.js:127-153):
    given the current vertical scroll offset it condenses the header past 35%
    of the hero's height, unhides it at the top of the page, ignores moves of
    fewer than 8 pixels, and otherwise hides it when scrolling down past the
    header's own height and shows it when scrolling up.

    Offsets and heights are whole pixels; the 35% test is stated exactly. */
module Header {
  import opened Dom

  /** `SCROLL_THRESHOLD`: the dead zone, in pixels. */
  const ScrollThreshold: nat := 8

  /** Whether the page has a header element and a hero element. */
  datatype HeaderConfig = HeaderConfig(headerPresent: bool, heroPresent: bool)

  /** The geometry read at the moment of an update: `header.offsetHeight`,
      `heroSection.offsetHeight` (meaningful only when the hero exists) and
      `window.innerHeight`. */
  datatype Layout = Layout(headerHeight: nat, heroHeight: nat, viewportHeight: nat)

  /** `lastScrollY` and the header's `is-hidden` and `is-condensed` classes. */
  datatype HeaderState = HeaderState(lastScrollY: int, isHidden: bool, isCondensed: bool)

  /** `heroSection?.offsetHeight || window.innerHeight`: the hero's height when
      the hero exists and that height is non-zero, else the viewport's. */
  function CondenseBase(c: HeaderConfig, l: Layout): nat {
    if c.heroPresent && l.heroHeight != 0 then l.heroHeight else l.viewportHeight
  }

  /** `y > h * 0.35`, in exact arithmetic. */
  predicate PastCondenseLine(y: int, h: nat) {
    100 * y > 35 * h
  }

  /** One call of `updateHeaderState(y)`. */
  function UpdateHeader(c: HeaderConfig, s: HeaderState, y: int, l: Layout): HeaderState {
    if !c.headerPresent then s
    else
      var condensed := PastCondenseLine(y, CondenseBase(c, l));
      if y <= 0 then HeaderState(0, false, condensed)
      else if Abs(y - s.lastScrollY) < ScrollThreshold then s.(isCondensed := condensed)
      else HeaderState(y, y > s.lastScrollY && y > l.headerHeight, condensed)
  }

  // ---------------------------------------------------------------------
  // One update
  // ---------------------------------------------------------------------

  /** Without a header element nothing changes, not even `lastScrollY`. */
  lemma NoHeaderNoChange(c: HeaderConfig, s: HeaderState, y: int, l: Layout)
    requires !c.headerPresent
    ensures UpdateHeader(c, s, y, l) == s
  {
  }

  /** The condensed class holds afterwards exactly when `y` is past 35% of
      the hero height (or of the viewport height when the hero is missing or
      has no height), on every path including the top and the dead zone. */
  lemma CondensedRule(c: HeaderConfig, s: HeaderState, y: int, l: Layout)
    requires c.headerPresent
    ensures UpdateHeader(c, s, y, l).isCondensed <==>
      100 * y > 35 * (if c.heroPresent && l.heroHeight != 0 then l.heroHeight else l.viewportHeight)
  {
  }

  /** At or above the top the header is shown and `lastScrollY` resets to 0,
      whatever the previous state. */
  lemma TopResets(c: HeaderConfig, s: HeaderState, y: int, l: Layout)
    requires c.headerPresent && y <= 0
    ensures !UpdateHeader(c, s, y, l).isHidden
    ensures UpdateHeader(c, s, y, l).lastScrollY == 0
  {
  }

  /** A move of fewer than 8 pixels leaves the hidden class and
      `lastScrollY` alone. */
  lemma DeadZoneKeeps(c: HeaderConfig, s: HeaderState, y: int, l: Layout)
    requires y > 0 && Abs(y - s.lastScrollY) < ScrollThreshold
    ensures UpdateHeader(c, s, y, l).isHidden == s.isHidden
    ensures UpdateHeader(c, s, y, l).lastScrollY == s.lastScrollY
  {
  }

  /** A move of at least 8 pixels hides the header exactly when it goes down
      and ends past the header's height, and records the new offset. */
  lemma DirectionRule(c: HeaderConfig, s: HeaderState, y: int, l: Layout)
    requires c.headerPresent && y > 0 && Abs(y - s.lastScrollY) >= ScrollThreshold
    ensures UpdateHeader(c, s, y, l).isHidden <==> y > s.lastScrollY && y > l.headerHeight
    ensures UpdateHeader(c, s, y, l).lastScrollY == y
  {
  }

  /** The example of a header 50 pixels high, starting from offset 0:
      0 shows it, 60 hides it, 64 is inside the dead zone, 10 shows it. */
  lemma WorkedSequence(c: HeaderConfig, l: Layout, s0: HeaderState)
    requires c.headerPresent && l.headerHeight == 50
    requires s0.lastScrollY == 0
    ensures var s1 := UpdateHeader(c, s0, 0, l);
      !s1.isHidden && s1.lastScrollY == 0 &&
      var s2 := UpdateHeader(c, s1, 60, l);
      s2.isHidden && s2.lastScrollY == 60 &&
      var s3 := UpdateHeader(c, s2, 64, l);
      s3.isHidden && s3.lastScrollY == 60 &&
      var s4 := UpdateHeader(c, s3, 10, l);
      !s4.isHidden && s4.lastScrollY == 10
  {
  }

  // ---------------------------------------------------------------------
  // Sequences of updates
  // ---------------------------------------------------------------------

  /** One frame's input: the latest offset and the geometry at that moment. */
  datatype Sample = Sample(y: int, layout: Layout)

  /** The header after a run of updates, oldest sample first. */
  function Replay(c: HeaderConfig, s: HeaderState, samples: seq<Sample>): HeaderState
    decreases |samples|
  {
    if samples == [] then s
    else
      var last := samples[|samples| - 1];
      UpdateHeader(c, Replay(c, s, samples[..|samples| - 1]), last.y, last.layout)
  }

  /** The header is hidden only after a downward move of at least the
      threshold, so a hidden header has a recorded offset of at least 8,
      and recorded offsets are never negative. */
  ghost predicate Coherent(s: HeaderState) {
    s.lastScrollY >= 0 && (s.isHidden ==> s.lastScrollY >= ScrollThreshold)
  }

  lemma UpdateKeepsCoherent(c: HeaderConfig, s: HeaderState, y: int, l: Layout)
    requires Coherent(s)
    ensures Coherent(UpdateHeader(c, s, y, l))
  {
  }

  lemma {:induction false} ReplayKeepsCoherent(c: HeaderConfig, s: HeaderState, samples: seq<Sample>)
    requires Coherent(s)
    ensures Coherent(Replay(c, s, samples))
    decreases |samples|
  {
    if samples != [] {
      var last := samples[|samples| - 1];
      ReplayKeepsCoherent(c, s, samples[..|samples| - 1]);
      UpdateKeepsCoherent(c, Replay(c, s, samples[..|samples| - 1]), last.y, last.layout);
    }
  }

  /** Jitter suppression: any run of samples below the top that all stay
      within the dead zone of the recorded offset never changes the hidden
      class or the recorded offset. */
  lemma {:induction false} JitterSuppressed(c: HeaderConfig, s: HeaderState, samples: seq<Sample>)
    requires forall i :: 0 <= i < |samples| ==>
      samples[i].y > 0 && Abs(samples[i].y - s.lastScrollY) < ScrollThreshold
    ensures Replay(c, s, samples).isHidden == s.isHidden
    ensures Replay(c, s, samples).lastScrollY == s.lastScrollY
    decreases |samples|
  {
    if samples != [] {
      var init := samples[..|samples| - 1];
      assert forall i :: 0 <= i < |init| ==> init[i] == samples[i];
      JitterSuppressed(c, s, init);
    }
  }

  /** Returning to the top at the end of any run shows the header. */
  lemma EndAtTopShows(c: HeaderConfig, s: HeaderState, samples: seq<Sample>)
    requires c.headerPresent && samples != [] && samples[|samples| - 1].y <= 0
    ensures !Replay(c, s, samples).isHidden && Replay(c, s, samples).lastScrollY == 0
  {
    var last := samples[|samples| - 1];
    TopResets(c, Replay(c, s, samples[..|samples| - 1]), last.y, last.layout);
  }
}
