/** The hero parallax effect and the reduced-motion preference
    (assets/js/main.js:84-125): `clamp`, the per-frame parallax update, and
    `handleMotionPreferenceChange`, which clears every parallax transform as
    soon as the user asks for reduced motion.

    The transforms are the inline `style.transform` strings of the
    `[data-parallax]` elements (`items`) and the `[data-parallax-child]`
    elements (`children`), in document order. The values the update writes
    come from floating-point arithmetic on the hero's bounding box; the model
    takes them as given. */
module Motion {

  /** `Math.min(Math.max(value, lo), hi)`. */
  function Clamp(value: real, lo: real, hi: real): (r: real)
    ensures r <= hi
    ensures lo <= hi ==> lo <= r
    ensures lo <= value <= hi ==> r == value
    ensures value < lo && lo <= hi ==> r == lo
    ensures hi < value ==> r == hi
    ensures hi < lo ==> r == hi
  {
    var atLeast := if value < lo then lo else value;
    if hi < atLeast then hi else atLeast
  }

  /** Clamping twice is clamping once. */
  lemma ClampIdempotent(value: real, lo: real, hi: real)
    ensures Clamp(Clamp(value, lo, hi), lo, hi) == Clamp(value, lo, hi)
  {
  }

  /** Clamping preserves order. */
  lemma ClampMonotone(v: real, w: real, lo: real, hi: real)
    requires v <= w
    ensures Clamp(v, lo, hi) <= Clamp(w, lo, hi)
  {
  }

  /** `n` transforms set to the empty string. */
  function Blank(n: nat): (s: seq<string>)
    ensures |s| == n && forall i :: 0 <= i < n ==> s[i] == ""
  {
    seq(n, _ => "")
  }

  class ParallaxEffect {
    /** Whether the page has a `.hero` element. */
    const heroPresent: bool
    const items: array<string>
    const children: array<string>
    /** `shouldReduceMotion` */
    var reduceMotion: bool

    /** While reduced motion is on, no parallax transform is in effect. */
    ghost predicate Valid()
      reads this, items, children
    {
      items != children &&
      (reduceMotion ==> items[..] == Blank(items.Length) && children[..] == Blank(children.Length))
    }

    /** The effect at load: `shouldReduceMotion` seeded from the media query,
        and elements that carry no inline transform yet. */
    constructor (heroPresent: bool, itemCount: nat, childCount: nat, reduceMotion: bool)
      ensures Valid() && fresh(items) && fresh(children)
      ensures this.heroPresent == heroPresent && this.reduceMotion == reduceMotion
      ensures items[..] == Blank(itemCount) && children[..] == Blank(childCount)
    {
      this.heroPresent := heroPresent;
      this.reduceMotion := reduceMotion;
      items := new string[itemCount](_ => "");
      children := new string[childCount](_ => "");
      new;
      assert items[..] == Blank(itemCount);
      assert children[..] == Blank(childCount);
    }

    /** `resetParallax`: every element of `[...items, ...children]` gets an
        empty transform. */
    method ResetParallax()
      requires items != children
      modifies items, children
      ensures items[..] == Blank(items.Length) && children[..] == Blank(children.Length)
    {
      var n := items.Length;
      for k := 0 to n + children.Length
        invariant forall i :: 0 <= i < n && i < k ==> items[i] == ""
        invariant forall i :: 0 <= i < children.Length && n + i < k ==> children[i] == ""
      {
        if k < n {
          items[k] := "";
        } else {
          children[k - n] := "";
        }
      }
      assert items[..] == Blank(items.Length);
      assert children[..] == Blank(children.Length);
    }

    /** `handleMotionPreferenceChange`: record the new preference and, when it
        asks for reduced motion, clear the transforms at once. */
    method HandleMotionPreferenceChange(matches: bool)
      requires Valid()
      modifies this, items, children
      ensures Valid() && reduceMotion == matches
      ensures matches ==> items[..] == Blank(items.Length) && children[..] == Blank(children.Length)
      ensures !matches ==> items[..] == old(items[..]) && children[..] == old(children[..])
    {
      reduceMotion := matches;
      if reduceMotion {
        ResetParallax();
      }
    }

    /** `updateParallax`: a no-op under reduced motion or without a hero;
        otherwise each element gets its computed transform, items first,
        then children. */
    method UpdateParallax(itemTransforms: seq<string>, childTransforms: seq<string>)
      requires Valid()
      requires |itemTransforms| == items.Length && |childTransforms| == children.Length
      modifies items, children
      ensures Valid()
      ensures reduceMotion || !heroPresent ==>
        items[..] == old(items[..]) && children[..] == old(children[..])
      ensures !reduceMotion && heroPresent ==>
        items[..] == itemTransforms && children[..] == childTransforms
    {
      if reduceMotion || !heroPresent {
        return;
      }
      for i := 0 to items.Length
        invariant items[..i] == itemTransforms[..i]
        invariant children[..] == old(children[..])
      {
        items[i] := itemTransforms[i];
      }
      for i := 0 to children.Length
        invariant children[..i] == childTransforms[..i]
        invariant items[..] == itemTransforms
      {
        children[i] := childTransforms[i];
      }
    }
  }
}
