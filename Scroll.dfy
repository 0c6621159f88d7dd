/** The scroll coordinator (assets/js/main.js:78-82, 155-170): a scroll event
    only records the offset and asks for an animation frame if none is pending
    (`ticking`); the frame callback `onScrollUpdate` runs the header update on
    the latest offset, then the parallax update, and clears the flag.

    The browser's animation-frame queue is modelled by `pendingFrames`, the
    number of `onScrollUpdate` callbacks requested and not yet run. */
module Scroll {
  import opened Header
  import opened Motion

  /** `latestScrollY`, `ticking`, and the callbacks waiting in the browser. */
  datatype Scheduler = Scheduler(latestScrollY: int, ticking: bool, pendingFrames: nat)

  /** The coordinator's whole state: the scheduler and the header. */
  datatype Coordinator = Coordinator(scheduler: Scheduler, header: HeaderState)

  /** `handleScroll` on the offset `y`. */
  function OnScroll(s: Scheduler, y: int): Scheduler {
    if s.ticking then s.(latestScrollY := y)
    else Scheduler(y, true, s.pendingFrames + 1)
  }

  /** A run of scroll events, oldest first. */
  function OnScrolls(s: Scheduler, ys: seq<int>): Scheduler
    decreases |ys|
  {
    if ys == [] then s else OnScroll(OnScrolls(s, ys[..|ys| - 1]), ys[|ys| - 1])
  }

  /** `onScrollUpdate`'s effect on the coordinator: the header is updated with
      the latest offset and the flag is cleared. */
  function ScrollUpdate(c: HeaderConfig, k: Coordinator, l: Layout): Coordinator {
    Coordinator(k.scheduler.(ticking := false),
                UpdateHeader(c, k.header, k.scheduler.latestScrollY, l))
  }

  /** The browser running one requested callback. */
  function AnimationFrame(c: HeaderConfig, k: Coordinator, l: Layout): Coordinator
    requires k.scheduler.pendingFrames > 0
  {
    var done := ScrollUpdate(c, k, l);
    done.(scheduler := done.scheduler.(pendingFrames := k.scheduler.pendingFrames - 1))
  }

  /** At most one callback is ever pending, and it is pending exactly while
      `ticking` is set. */
  ghost predicate SingleSlot(s: Scheduler) {
    s.pendingFrames <= 1 && (s.ticking <==> s.pendingFrames == 1)
  }

  // ---------------------------------------------------------------------
  // Coalescing
  // ---------------------------------------------------------------------

  /** A non-empty run of scroll events leaves the last offset recorded, the
      flag set, and exactly one more callback requested than before if none
      was pending, none more if one was. */
  lemma {:induction false} ScrollBurst(s: Scheduler, ys: seq<int>)
    requires ys != []
    ensures OnScrolls(s, ys).latestScrollY == ys[|ys| - 1]
    ensures OnScrolls(s, ys).ticking
    ensures OnScrolls(s, ys).pendingFrames ==
      if s.ticking then s.pendingFrames else s.pendingFrames + 1
    decreases |ys|
  {
    var init := ys[..|ys| - 1];
    if init != [] {
      ScrollBurst(s, init);
    }
  }

  /** Scroll events, the callback and the eager call at load all keep the
      scheduler to a single slot. */
  lemma SingleSlotKept(c: HeaderConfig, k: Coordinator, y: int, l: Layout)
    requires SingleSlot(k.scheduler)
    ensures SingleSlot(OnScroll(k.scheduler, y))
    ensures k.scheduler.pendingFrames > 0 ==> SingleSlot(AnimationFrame(c, k, l).scheduler)
    ensures !k.scheduler.ticking ==> SingleSlot(ScrollUpdate(c, k, l).scheduler)
  {
  }

  /** Any number of scroll events between two frames yields one update, on
      the last offset recorded: the run requests a single callback, and
      running it updates the header once with that offset and leaves the
      coordinator idle. Scroll events themselves never touch the header. */
  lemma {:induction false} OneUpdatePerFrame(c: HeaderConfig, k: Coordinator, ys: seq<int>, l: Layout)
    requires SingleSlot(k.scheduler) && !k.scheduler.ticking && ys != []
    ensures OnScrolls(k.scheduler, ys).pendingFrames == 1
    ensures var burst := Coordinator(OnScrolls(k.scheduler, ys), k.header);
      AnimationFrame(c, burst, l) ==
        Coordinator(Scheduler(ys[|ys| - 1], false, 0), UpdateHeader(c, k.header, ys[|ys| - 1], l))
  {
    ScrollBurst(k.scheduler, ys);
  }

  // ---------------------------------------------------------------------
  // The coordinator object
  // ---------------------------------------------------------------------

  class ScrollCoordinator {
    const config: HeaderConfig
    const parallax: ParallaxEffect
    var lastScrollY: int
    var latestScrollY: int
    var ticking: bool
    var pendingFrames: nat
    /** the header's `is-hidden` class */
    var isHidden: bool
    /** the header's `is-condensed` class */
    var isCondensed: bool

    function View(): Coordinator
      reads this
    {
      Coordinator(Scheduler(latestScrollY, ticking, pendingFrames),
                  HeaderState(lastScrollY, isHidden, isCondensed))
    }

    /** The coordinator and its parallax effect agree about the hero, and the
        effect keeps its own invariant. */
    ghost predicate Linked()
      reads this, parallax, parallax.items, parallax.children
    {
      parallax.Valid() && config.heroPresent == parallax.heroPresent
    }

    /** Between events: linked, and at most one callback pending, pending
        exactly while `ticking` is set. */
    ghost predicate Valid()
      reads this, parallax, parallax.items, parallax.children
    {
      Linked() && SingleSlot(View().scheduler)
    }

    /** The state at load: both offsets are `window.scrollY`, no frame is
        requested, and the header carries neither class. */
    constructor (headerPresent: bool, parallax: ParallaxEffect, scrollY: int)
      requires parallax.Valid()
      ensures Valid() && this.parallax == parallax
      ensures config == HeaderConfig(headerPresent, parallax.heroPresent)
      ensures View() == Coordinator(Scheduler(scrollY, false, 0), HeaderState(scrollY, false, false))
      ensures scrollY >= 0 ==> Coherent(View().header)
    {
      config := HeaderConfig(headerPresent, parallax.heroPresent);
      this.parallax := parallax;
      lastScrollY, latestScrollY := scrollY, scrollY;
      ticking, pendingFrames := false, 0;
      isHidden, isCondensed := false, false;
    }

    /** `updateHeaderState(y)`. */
    method UpdateHeaderState(y: int, layout: Layout)
      modifies this
      ensures View() == old(View()).(header := UpdateHeader(config, old(View()).header, y, layout))
    {
      if !config.headerPresent {
        return;
      }
      isCondensed := PastCondenseLine(y, CondenseBase(config, layout));
      if y <= 0 {
        isHidden := false;
        lastScrollY := 0;
        return;
      }
      if Dom.Abs(y - lastScrollY) < ScrollThreshold {
        return;
      }
      isHidden := y > lastScrollY && y > layout.headerHeight;
      lastScrollY := y;
    }

    /** `handleScroll`, with `y` the current `window.scrollY`. */
    method HandleScroll(y: int)
      requires Valid()
      modifies this
      ensures Valid()
      ensures View() == Coordinator(OnScroll(old(View()).scheduler, y), old(View()).header)
    {
      latestScrollY := y;
      if !ticking {
        pendingFrames := pendingFrames + 1;
        ticking := true;
      }
    }

    /** `onScrollUpdate`: the header first, then the parallax, with the
        transforms the parallax arithmetic computes for this frame. Also
        called once directly at load, when no callback is pending; it runs
        inside the frame callback too, where `ticking` is still set. */
    method OnScrollUpdate(layout: Layout, itemTransforms: seq<string>, childTransforms: seq<string>)
      requires Linked()
      requires |itemTransforms| == parallax.items.Length && |childTransforms| == parallax.children.Length
      modifies this, parallax.items, parallax.children
      ensures Linked()
      ensures pendingFrames == 0 ==> Valid()
      ensures View() == ScrollUpdate(config, old(View()), layout)
      ensures parallax.reduceMotion || !parallax.heroPresent ==>
        parallax.items[..] == old(parallax.items[..]) && parallax.children[..] == old(parallax.children[..])
      ensures !parallax.reduceMotion && parallax.heroPresent ==>
        parallax.items[..] == itemTransforms && parallax.children[..] == childTransforms
    {
      UpdateHeaderState(latestScrollY, layout);
      parallax.UpdateParallax(itemTransforms, childTransforms);
      ticking := false;
    }

    /** The browser running a requested `onScrollUpdate` callback. */
    method RunAnimationFrame(layout: Layout, itemTransforms: seq<string>, childTransforms: seq<string>)
      requires Valid() && pendingFrames > 0
      requires |itemTransforms| == parallax.items.Length && |childTransforms| == parallax.children.Length
      modifies this, parallax.items, parallax.children
      ensures Valid()
      ensures View() == AnimationFrame(config, old(View()), layout)
      ensures parallax.reduceMotion || !parallax.heroPresent ==>
        parallax.items[..] == old(parallax.items[..]) && parallax.children[..] == old(parallax.children[..])
      ensures !parallax.reduceMotion && parallax.heroPresent ==>
        parallax.items[..] == itemTransforms && parallax.children[..] == childTransforms
    {
      pendingFrames := pendingFrames - 1;
      OnScrollUpdate(layout, itemTransforms, childTransforms);
    }
  }
}
