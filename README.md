# Page-interaction model

A Dafny model of the client-side behaviour of a small marketing site
(`assets/js/main.js`), with proofs about it. The script wires DOM events to a few small state machines:

- **Navigation** (`Navigation.dfy`): the mobile menu's open state and its
  three DOM mirrors (nav `is-open`, toggle `aria-expanded`, body
  `is-menu-open`). It covers the toggle button, the outside-click rule and the
  smooth-scroll handler for in-page links.
- **Reveal** (`Reveal.dfy`): the fire-once reveal observer callback. An
  intersecting element gets `is-revealed` and is unobserved.
- **Header** (`Header.dfy`): `updateHeaderState`. It has a reset at the top, an
  8-pixel dead zone, the direction rule for `is-hidden`, and the 35% rule for
  `is-condensed`.
- **Scroll** (`Scroll.dfy`): the scroll coordinator. A scroll event records
  the offset and asks for at most one animation frame. The frame callback
  updates the header, then the parallax, then clears `ticking`.
- **Motion** (`Motion.dfy`): `clamp`, the parallax transforms, and the
  reduced-motion flag, whose switching on clears every transform.
- **Dom** (`Dom.dfy`): shared vocabulary (`Option`, element ids,
  `String(bool)`, `Math.abs`).

Each component whose state the script mutates is a class.
- `NavigationController`, `RevealObserver` and `ScrollCoordinator` have a
  `View()` that returns their state as a datatype. Each of their methods'
  `ensures` ties the new `View()` to a pure step function of the old one
  (`Toggle`, `ToggleClick`, `DocumentClick`, `LinkClick`, `AfterLink`,
  `HandleEntries`, `UpdateHeader`, `OnScroll`, `ScrollUpdate`,
  `AnimationFrame`). The properties the script
  promises are lemmas about those step functions.
- `ParallaxEffect` has no `View()`. Its methods state the new contents of its
  transform arrays directly, in terms of `Blank` and the old contents. Its
  `Valid()` says that no transform is in effect under reduced motion.

Inputs that come from the browser are parameters:
- the scroll offset;
- element geometry (`Layout`: header, hero and viewport heights);
- whether a click target lies inside the nav or the toggle;
- what `document.querySelector` returns for an href;
- the intersection entries;
- the media-query value;
- the parallax transform strings computed for a frame.

The browser's animation-frame queue is the count `pendingFrames`. Which
optional elements exist on the page is fixed at construction.

Two details of the code that a quick reading misses, which the model follows:
- The condense base is the viewport height both when the hero is missing and
  when its `offsetHeight` is 0, because the code uses `||`.
- The smooth-scroll handler reads `nav.classList` without checking that the
  nav exists. With no nav it throws after `preventDefault` and
  `scrollIntoView`, so the menu state (absent) is unchanged. The model returns
  `ScrollTo` and changes nothing.

## Model

| member | source | states |
|---|---|---|
| `Dom.BoolString` | assets/js/main.js:42 | `String(b)` is "true" exactly when b holds and "false" exactly when it does not |
| `Dom.Abs` | assets/js/main.js:143 | `Math.abs(x)` is x or -x and never negative |
| `Navigation.Toggle` | assets/js/main.js:37-44 | definition of `toggleMenu(forceState)` on the menu's three mirrors; no contract of its own, its properties are the lemmas below |
| `Navigation.ToggleClick` | assets/js/main.js:46-47 | definition of the toggle button's click listener, registered only when toggle and nav both exist |
| `Navigation.DocumentClick` | assets/js/main.js:46-57 | definition of the document click listener (the outside-click rule) |
| `Navigation.IsFragmentReference` | assets/js/main.js:19 | definition of the href test: present, non-empty and starting with `#` |
| `Navigation.LinkClick` | assets/js/main.js:17-25 | definition of the smooth-scroll decision: follow the link, or prevent the default and scroll to the selected element |
| `Navigation.AfterLink` | assets/js/main.js:27-29 | definition of the menu after a link click: a smooth scroll closes an open menu |
| `Navigation.ToggleSetsState` | assets/js/main.js:37-44 | `toggleMenu(b)` makes the nav open exactly when b; `toggleMenu()` negates the open state; afterwards `aria-expanded` is the string of the state and the body class equals it |
| `Navigation.ToggleInertWithoutNav` | assets/js/main.js:38 | without a nav, `toggleMenu` changes nothing |
| `Navigation.ToggleTwiceRestores` | assets/js/main.js:39-43 | flipping a mirrored menu twice restores it exactly, so the toggle is its own inverse |
| `Navigation.ForceIdempotent` | assets/js/main.js:39-43 | forcing the same state twice is the same as forcing it once |
| `Navigation.DocumentClickRule` | assets/js/main.js:46-57 | a document click changes the menu if and only if both elements exist, the menu is open and the target is outside nav and toggle; the change closes it and keeps the mirrors |
| `Navigation.ToggleClickBubbles` | assets/js/main.js:46-57 | a toggle click that bubbles to the document listener is a single flip: the document listener ignores clicks on the toggle |
| `Navigation.FragmentReferenceIsHashPrefix` | assets/js/main.js:19 | the `startsWith('#')` test on a present href holds exactly when the href is `#` followed by some string |
| `Navigation.LinkClickRule` | assets/js/main.js:17-30 | the default is prevented and the page scrolls to the selected element if and only if the href is present, starts with `#` and selects an element; otherwise the menu is untouched; after a smooth scroll the menu is closed; all of this on every menu state, and a mirrored menu stays mirrored |
| `Navigation.ListenersKeepMirrors` | assets/js/main.js:37-57 | the toggle click, the document click and the link click each keep nav class, `aria-expanded` and body class in agreement |
| `Navigation.NavigationController.constructor` | assets/js/main.js:1-3 | the controller starts from the markup's own menu state and the elements found at load |
| `Navigation.NavigationController.ToggleMenu` | assets/js/main.js:37-44 | the new menu state is `Toggle` of the old one: forced or flipped, mirrored into the attribute and body class, inert without a nav |
| `Navigation.NavigationController.OnToggleClick` | assets/js/main.js:46-47 | a toggle click flips the menu when both nav and toggle exist, and does nothing otherwise |
| `Navigation.NavigationController.OnDocumentClick` | assets/js/main.js:50-57 | a document click has the effect stated by `DocumentClickRule` |
| `Navigation.NavigationController.OnLinkClick` | assets/js/main.js:17-30 | the click's outcome (follow or scroll to the target) and the menu afterwards are as stated by `LinkClickRule` |
| `Reveal.HandleEntry` | assets/js/main.js:64-67 | definition of the callback on one entry: an intersecting target is revealed and unobserved |
| `Reveal.HandleEntries` | assets/js/main.js:62-69 | definition of the callback on a batch: `forEach` over the entries, first entry first |
| `Reveal.HandleEntriesIsHits` | assets/js/main.js:63-68 | handling the entries one by one equals adding all intersecting targets to the revealed set and removing them from the observed set |
| `Reveal.RevealCallback` | assets/js/main.js:61-69 | after the callback every intersecting target is revealed and unobserved; every other element keeps both statuses |
| `Reveal.NoIntersectionNoEffect` | assets/js/main.js:64 | a batch without intersecting entries changes nothing |
| `Reveal.FireOnceKept` | assets/js/main.js:62-68 | no element is ever both revealed and observed; revealed only grows, observed only shrinks |
| `Reveal.RevealObserver.constructor` | assets/js/main.js:76 | at load every reveal target is observed and none is revealed |
| `Reveal.RevealObserver.OnIntersection` | assets/js/main.js:62-69 | the forEach loop leaves revealed = old revealed plus the hits, and observed = old observed minus the hits |
| `Header.CondenseBase` | assets/js/main.js:130 | definition of the condense base: the hero's `offsetHeight` when the hero exists and it is non-zero, else `window.innerHeight` |
| `Header.UpdateHeader` | assets/js/main.js:127-153 | definition of one `updateHeaderState(y)` call; its properties are the lemmas below |
| `Header.NoHeaderNoChange` | assets/js/main.js:128 | without a header element an update changes nothing, not even `lastScrollY` |
| `Header.CondensedRule` | assets/js/main.js:130-135 | afterwards `is-condensed` holds exactly when 100*y > 35*H. H is the hero height when the hero exists and has non-zero height, else the viewport height. This holds on every path |
| `Header.TopResets` | assets/js/main.js:137-141 | at offset <= 0 the header is shown and `lastScrollY` becomes 0, whatever the previous state |
| `Header.DeadZoneKeeps` | assets/js/main.js:143-145 | below the top, a move of fewer than 8 pixels changes neither `is-hidden` nor `lastScrollY` |
| `Header.DirectionRule` | assets/js/main.js:147-152 | a move of at least 8 pixels hides the header exactly when y > lastScrollY and y > header height, and sets `lastScrollY` to y |
| `Header.WorkedSequence` | assets/js/main.js:137-152 | with header height 50 from offset 0: y=0 shows (last 0), y=60 hides (last 60), y=64 changes nothing, y=10 shows (last 10) |
| `Header.UpdateKeepsCoherent` | assets/js/main.js:137-152 | an update keeps `lastScrollY` non-negative and a hidden header's `lastScrollY` at least 8 |
| `Header.ReplayKeepsCoherent` | assets/js/main.js:127-153 | that coherence holds after any run of updates |
| `Header.JitterSuppressed` | assets/js/main.js:143-145 | any run of samples below the top, each within 8 pixels of the recorded offset, leaves `is-hidden` and `lastScrollY` unchanged |
| `Header.EndAtTopShows` | assets/js/main.js:137-141 | a run of updates that ends at the top leaves the header shown with `lastScrollY` 0 |
| `Motion.Clamp` | assets/js/main.js:84 | the result never exceeds max and, when min <= max, lies in [min, max]; it is the value itself when the value is in range, min when below, max when above; when max < min it is max; so every input has its value fixed |
| `Motion.ClampIdempotent` | assets/js/main.js:84 | clamping twice is clamping once |
| `Motion.ClampMonotone` | assets/js/main.js:84 | clamping preserves order |
| `Motion.ParallaxEffect.constructor` | assets/js/main.js:9-14 | the effect starts with the media query's value, the given items and children, and no inline transforms |
| `Motion.ParallaxEffect.ResetParallax` | assets/js/main.js:86-90 | every transform of the items and children is the empty string afterwards |
| `Motion.ParallaxEffect.HandleMotionPreferenceChange` | assets/js/main.js:92-97 | the flag becomes the new preference; when it is true every transform is cleared at once, and otherwise no transform changes; under reduced motion no transform is in effect (`Valid`) |
| `Motion.ParallaxEffect.UpdateParallax` | assets/js/main.js:105-125 | no-op under reduced motion or without a hero; otherwise each item and child gets its computed transform |
| `Scroll.OnScroll` | assets/js/main.js:161-167 | definition of `handleScroll` on the scheduler state |
| `Scroll.ScrollUpdate` | assets/js/main.js:155-159 | definition of `onScrollUpdate` on the coordinator state: header updated with the latest offset, `ticking` cleared |
| `Scroll.AnimationFrame` | assets/js/main.js:155-164 | definition of the browser running one requested `onScrollUpdate` callback: `ScrollUpdate` and one fewer pending |
| `Scroll.ScrollBurst` | assets/js/main.js:161-167 | a non-empty run of scroll events records the last offset, sets `ticking`, and requests exactly one callback if none was pending and none otherwise |
| `Scroll.SingleSlotKept` | assets/js/main.js:155-167 | scroll events, the frame callback and the load-time call keep at most one callback pending, pending exactly while `ticking` |
| `Scroll.OneUpdatePerFrame` | assets/js/main.js:155-167 | N scroll events between frames request one callback; running it updates the header once, with the last recorded offset, and leaves the scheduler idle |
| `Scroll.ScrollCoordinator.constructor` | assets/js/main.js:79-81 | both offsets start at `window.scrollY`, `ticking` is false and no frame is requested; the single-slot invariant holds, and the header state is coherent when `scrollY` is not negative |
| `Scroll.ScrollCoordinator.UpdateHeaderState` | assets/js/main.js:127-153 | the header part of the state becomes `UpdateHeader` of the old one; the scheduler is untouched |
| `Scroll.ScrollCoordinator.HandleScroll` | assets/js/main.js:161-167 | records the offset and requests a frame only when none is pending; the header is untouched; keeps the single-slot invariant |
| `Scroll.ScrollCoordinator.OnScrollUpdate` | assets/js/main.js:155-159 | updates the header with the latest offset, then the parallax (unchanged under reduced motion or without a hero, otherwise the computed transforms), then clears `ticking`; called with nothing pending, as at load, it leaves the single-slot invariant holding |
| `Scroll.ScrollCoordinator.RunAnimationFrame` | assets/js/main.js:155-164 | the browser runs one requested callback: one fewer pending, and the effects of `OnScrollUpdate` on header and transforms (including the no-op under reduced motion or without a hero); keeps the single-slot invariant |

## Left out

- Parallax arithmetic (assets/js/main.js:107-124). This covers the bounding box, `progress`, `baseOffset`, `parseFloat` of the speed attributes, the stagger and the `translateY(...)` text. It is floating-point numerics over browser layout. `UpdateParallax` takes the computed transform strings as inputs and models only when they are written.
- Motion.Clamp: stated over exact reals. It does not model IEEE doubles or NaN, because the script's values are floats and `Math.min`/`Math.max` propagate NaN.
- Header.CondensedRule: `y > heroHeight * 0.35` is stated exactly as `100*y > 35*H`. With doubles, `H * 0.35` rounds just below 0.35·H for some heights that are multiples of 20 (for H = 180, `180 * 0.35` is 62.99999999999999). So the script condenses at y = 63, where the exact rule does not.
- Fractional `scrollY` values: every offset is a whole pixel. This covers the header's dead zone and direction rule, the condensed test, and the scheduler's `latestScrollY`. Browsers can report fractional offsets on scaled displays, and the model does not cover them.
- Media-query subscription plumbing (assets/js/main.js:11-14, 99-103). The feature detection of `addEventListener`/`addListener` is host wiring. The constructor takes the initial `matches` value, and `HandleMotionPreferenceChange` is the listener.
- IntersectionObserver geometry (threshold 0.15, root margin). The browser computes it; the model starts from the entries given to the callback.
- `scrollIntoView` smooth animation. It is recorded only as the `ScrollTo(target)` outcome.
- `document.querySelector` on an href that is not a valid selector (for example `#` alone) throws. Its observable effect is no `preventDefault` and no menu change, so the model treats it as "no element" (`select` returns `None`).
- DOM queries, listener registration and `requestAnimationFrame` itself. These become constructor parameters, method inputs and the `pendingFrames` count. The initial classes are assumed absent from the markup: `is-hidden`, `is-condensed`, `is-revealed`, and inline transforms on parallax elements.
- Footer year stamp (assets/js/main.js:173-175): it reads the system clock and has no logic.
- An element that is both a `[data-parallax]` and a `[data-parallax-child]` is not modelled: the two lists are separate arrays.
