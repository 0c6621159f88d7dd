/** The navigation controller: the open/closed state of the mobile menu, the
    toggle button, the outside-click rule and the smooth-scroll handler for
    in-page links (assets/js/main.js:16-58).

    The menu state lives in three DOM mirrors that `toggleMenu` keeps in step:
    the `is-open` class on the nav, the `aria-expanded` attribute on the toggle
    button and the `is-menu-open` class on the body. */
module Navigation {
  import opened Dom

  /** Which of the elements the controller looks up once at load exist. */
  datatype NavConfig = NavConfig(navPresent: bool, togglePresent: bool)

  /** The three DOM mirrors of the menu state. */
  datatype Menu = Menu(navOpen: bool, ariaExpanded: string, bodyMenuOpen: bool)

  /** The mirrors agree with the nav's `is-open` class (only meaningful once
      the nav exists; the toggle's attribute only when the toggle exists). */
  ghost predicate Mirrored(c: NavConfig, m: Menu) {
    c.navPresent ==>
      m.bodyMenuOpen == m.navOpen &&
      (c.togglePresent ==> m.ariaExpanded == BoolString(m.navOpen))
  }

  /** `toggleMenu(forceState)`: a given boolean is the new state, no argument
      flips the nav's current state; inert without a nav. */
  function Toggle(c: NavConfig, m: Menu, force: Option<bool>): Menu {
    if !c.navPresent then m
    else
      var open := if force.Some? then force.value else !m.navOpen;
      Menu(open, if c.togglePresent then BoolString(open) else m.ariaExpanded, open)
  }

  /** The toggle button's click listener, registered only when both the
      toggle and the nav exist. */
  function ToggleClick(c: NavConfig, m: Menu): Menu {
    if c.navPresent && c.togglePresent then Toggle(c, m, None) else m
  }

  /** The document click listener (registered only when both exist): an open
      menu is closed by a click whose target lies outside both the nav and
      the toggle. */
  function DocumentClick(c: NavConfig, m: Menu, insideNav: bool, insideToggle: bool): Menu {
    if c.navPresent && c.togglePresent && m.navOpen && !insideNav && !insideToggle
    then Toggle(c, m, Some(false))
    else m
  }

  /** `href.startsWith('#')` on a present, non-empty href. */
  predicate IsFragmentReference(href: string) {
    |href| > 0 && href[0] == '#'
  }

  /** What a navigation-link click does: follow the link (default browser
      navigation) or prevent the default and scroll smoothly to the element
      the href selects. */
  datatype LinkOutcome = FollowLink | ScrollTo(target: ElementId)

  /** The smooth-scroll decision. `select` stands for `document.querySelector`
      on the href; it is consulted only for a fragment reference. */
  function LinkClick(href: Option<string>, select: string -> Option<ElementId>): LinkOutcome {
    if href.None? || !IsFragmentReference(href.value) then FollowLink
    else
      match select(href.value)
      case None => FollowLink
      case Some(t) => ScrollTo(t)
  }

  /** The menu after a link click: a smooth scroll closes an open menu. */
  function AfterLink(c: NavConfig, m: Menu, o: LinkOutcome): Menu {
    if o.ScrollTo? && c.navPresent && m.navOpen then Toggle(c, m, Some(false)) else m
  }

  // ---------------------------------------------------------------------
  // Properties of the menu state machine
  // ---------------------------------------------------------------------

  /** `toggleMenu(b)` sets the state to `b`, `toggleMenu()` negates it, and
      afterwards `aria-expanded` and the body class mirror the nav class. */
  lemma ToggleSetsState(c: NavConfig, m: Menu, force: Option<bool>)
    requires c.navPresent
    ensures force.Some? ==> Toggle(c, m, force).navOpen == force.value
    ensures force.None? ==> Toggle(c, m, force).navOpen == !m.navOpen
    ensures Mirrored(c, Toggle(c, m, force))
    ensures c.togglePresent ==> Toggle(c, m, force).ariaExpanded == BoolString(Toggle(c, m, force).navOpen)
    ensures Toggle(c, m, force).bodyMenuOpen == Toggle(c, m, force).navOpen
  {
  }

  /** Without a nav, `toggleMenu` changes nothing. */
  lemma ToggleInertWithoutNav(c: NavConfig, m: Menu, force: Option<bool>)
    requires !c.navPresent
    ensures Toggle(c, m, force) == m
  {
  }

  /** Flipping twice restores a mirrored menu: the toggle is its own inverse. */
  lemma ToggleTwiceRestores(c: NavConfig, m: Menu)
    requires Mirrored(c, m)
    ensures Toggle(c, Toggle(c, m, None), None) == m
  {
  }

  /** Forcing is idempotent: forcing the same state again changes nothing. */
  lemma ForceIdempotent(c: NavConfig, m: Menu, b: bool)
    ensures Toggle(c, Toggle(c, m, Some(b)), Some(b)) == Toggle(c, m, Some(b))
  {
  }

  /** A document click changes the menu exactly when the menu is open, both
      elements exist and the target is outside both; the change is a close. */
  lemma DocumentClickRule(c: NavConfig, m: Menu, insideNav: bool, insideToggle: bool)
    ensures DocumentClick(c, m, insideNav, insideToggle) != m <==>
      (c.navPresent && c.togglePresent && m.navOpen && !insideNav && !insideToggle)
    ensures DocumentClick(c, m, insideNav, insideToggle) != m ==>
      !DocumentClick(c, m, insideNav, insideToggle).navOpen &&
      Mirrored(c, DocumentClick(c, m, insideNav, insideToggle))
  {
  }

  /** A click on the toggle runs the toggle listener and then bubbles to the
      document listener; the target is inside the toggle, so the pair is one
      flip and the document listener never undoes an opening. */
  lemma ToggleClickBubbles(c: NavConfig, m: Menu, insideNav: bool)
    ensures DocumentClick(c, ToggleClick(c, m), insideNav, true) == ToggleClick(c, m)
    ensures c.navPresent && c.togglePresent ==>
      DocumentClick(c, ToggleClick(c, m), insideNav, true).navOpen == !m.navOpen
  {
  }

  /** `startsWith('#')` agrees with "the href is `#` followed by something". */
  lemma FragmentReferenceIsHashPrefix(href: string)
    ensures IsFragmentReference(href) <==> exists rest :: href == "#" + rest
  {
    if IsFragmentReference(href) {
      assert href == "#" + href[1..];
    }
  }

  /** A link whose href is missing, not a fragment reference, or selects no
      element is followed normally and leaves the menu alone; otherwise the
      page scrolls to the selected element and the menu ends up closed. */
  lemma LinkClickRule(c: NavConfig, m: Menu, href: Option<string>, select: string -> Option<ElementId>)
    ensures var o := LinkClick(href, select);
      (o.ScrollTo? <==> href.Some? && IsFragmentReference(href.value) && select(href.value).Some?) &&
      (o.ScrollTo? ==> o.target == select(href.value).value) &&
      (o.FollowLink? ==> AfterLink(c, m, o) == m) &&
      (o.ScrollTo? && c.navPresent ==> !AfterLink(c, m, o).navOpen) &&
      (Mirrored(c, m) ==> Mirrored(c, AfterLink(c, m, o)))
  {
  }

  /** Every listener keeps the three mirrors in agreement. */
  lemma ListenersKeepMirrors(c: NavConfig, m: Menu, insideNav: bool, insideToggle: bool, o: LinkOutcome)
    requires Mirrored(c, m)
    ensures Mirrored(c, ToggleClick(c, m))
    ensures Mirrored(c, DocumentClick(c, m, insideNav, insideToggle))
    ensures Mirrored(c, AfterLink(c, m, o))
  {
  }

  // ---------------------------------------------------------------------
  // The controller object
  // ---------------------------------------------------------------------

  class NavigationController {
    const config: NavConfig
    /** `nav.classList.contains('is-open')` */
    var navOpen: bool
    /** the toggle button's `aria-expanded` attribute */
    var ariaExpanded: string
    /** `body.classList.contains('is-menu-open')` */
    var bodyMenuOpen: bool

    function View(): Menu
      reads this
    {
      Menu(navOpen, ariaExpanded, bodyMenuOpen)
    }

    /** The controller over the page as loaded, with the markup's own values. */
    constructor (config: NavConfig, initial: Menu)
      ensures this.config == config && View() == initial
    {
      this.config := config;
      navOpen, ariaExpanded, bodyMenuOpen := initial.navOpen, initial.ariaExpanded, initial.bodyMenuOpen;
    }

    method ToggleMenu(force: Option<bool>)
      modifies this
      ensures View() == Toggle(config, old(View()), force)
    {
      if !config.navPresent {
        return;
      }
      var shouldOpen := if force.Some? then force.value else !navOpen;
      navOpen := shouldOpen;
      if config.togglePresent {
        ariaExpanded := BoolString(shouldOpen);
      }
      bodyMenuOpen := shouldOpen;
    }

    method OnToggleClick()
      modifies this
      ensures View() == ToggleClick(config, old(View()))
    {
      if config.navPresent && config.togglePresent {
        ToggleMenu(None);
      }
    }

    /** `insideNav` and `insideToggle` are `nav.contains(event.target)` and
        `navToggle.contains(event.target)`. */
    method OnDocumentClick(insideNav: bool, insideToggle: bool)
      modifies this
      ensures View() == DocumentClick(config, old(View()), insideNav, insideToggle)
    {
      if !(config.navPresent && config.togglePresent) {
        return;
      }
      if !navOpen {
        return;
      }
      if !insideNav && !insideToggle {
        ToggleMenu(Some(false));
      }
    }

    /** `handleSmoothScroll`: the outcome says whether the default was
        prevented and which element was scrolled into view. */
    method OnLinkClick(href: Option<string>, select: string -> Option<ElementId>) returns (outcome: LinkOutcome)
      modifies this
      ensures outcome == LinkClick(href, select)
      ensures View() == AfterLink(config, old(View()), outcome)
    {
      if href.None? || !IsFragmentReference(href.value) {
        return FollowLink;
      }
      var target := select(href.value);
      if target.None? {
        return FollowLink;
      }
      outcome := ScrollTo(target.value);
      if config.navPresent && navOpen {
        ToggleMenu(Some(false));
      }
    }
  }
}
