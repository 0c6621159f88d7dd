/** The reveal-on-view observer (assets/js/main.js:60-76): every watched
    element gains the `is-revealed` class the first time an intersection
    notification reports it intersecting, and is then no longer observed.

    The observer's geometry (threshold, root margin) belongs to the browser;
    the model starts from the entries the browser hands to the callback. */
module Reveal {
  import opened Dom

  /** An `IntersectionObserverEntry`, reduced to what the callback reads. */
  datatype Entry = Entry(target: ElementId, isIntersecting: bool)

  /** Elements carrying `is-revealed`, and elements still observed. */
  datatype Watch = Watch(revealed: set<ElementId>, observed: set<ElementId>)

  /** One entry as the callback handles it: add the class, then unobserve. */
  function HandleEntry(w: Watch, e: Entry): Watch {
    if e.isIntersecting then Watch(w.revealed + {e.target}, w.observed - {e.target}) else w
  }

  /** The callback: `entries.forEach`, first entry first. */
  function HandleEntries(w: Watch, entries: seq<Entry>): Watch
    decreases |entries|
  {
    if entries == [] then w
    else HandleEntry(HandleEntries(w, entries[..|entries| - 1]), entries[|entries| - 1])
  }

  /** The targets of the intersecting entries of one notification. */
  function Hits(entries: seq<Entry>): set<ElementId> {
    set e | e in entries && e.isIntersecting :: e.target
  }

  /** No element is both revealed and still observed: once revealed, the
      browser is never asked about it again. */
  ghost predicate FireOnce(w: Watch) {
    w.revealed !! w.observed
  }

  /** The callback in one step: the intersecting targets join the revealed
      set and leave the observed set. */
  lemma {:induction false} HandleEntriesIsHits(w: Watch, entries: seq<Entry>)
    ensures HandleEntries(w, entries) == Watch(w.revealed + Hits(entries), w.observed - Hits(entries))
    decreases |entries|
  {
    if entries != [] {
      var init, last := entries[..|entries| - 1], entries[|entries| - 1];
      HandleEntriesIsHits(w, init);
      assert entries == init + [last];
      assert Hits(entries) == Hits(init) + (if last.isIntersecting then {last.target} else {});
    }
  }

  /** After the callback every intersecting entry's target is revealed and no
      longer observed, and every other element keeps both of its statuses. */
  lemma RevealCallback(w: Watch, entries: seq<Entry>, x: ElementId)
    ensures x in Hits(entries) ==>
      x in HandleEntries(w, entries).revealed && x !in HandleEntries(w, entries).observed
    ensures x !in Hits(entries) ==>
      (x in HandleEntries(w, entries).revealed <==> x in w.revealed) &&
      (x in HandleEntries(w, entries).observed <==> x in w.observed)
  {
    HandleEntriesIsHits(w, entries);
  }

  /** A notification without an intersecting entry changes nothing. */
  lemma {:induction false} NoIntersectionNoEffect(w: Watch, entries: seq<Entry>)
    requires forall i :: 0 <= i < |entries| ==> !entries[i].isIntersecting
    ensures HandleEntries(w, entries) == w
    decreases |entries|
  {
    if entries != [] {
      NoIntersectionNoEffect(w, entries[..|entries| - 1]);
    }
  }

  /** Fire-once: revealing is permanent, observation only shrinks, and no
      element is ever revealed and watched at the same time. */
  lemma FireOnceKept(w: Watch, entries: seq<Entry>)
    requires FireOnce(w)
    ensures FireOnce(HandleEntries(w, entries))
    ensures w.revealed <= HandleEntries(w, entries).revealed
    ensures HandleEntries(w, entries).observed <= w.observed
  {
    HandleEntriesIsHits(w, entries);
  }

  class RevealObserver {
    var revealed: set<ElementId>
    var observed: set<ElementId>

    function View(): Watch
      reads this
    {
      Watch(revealed, observed)
    }

    /** `revealTargets.forEach((target) => observer.observe(target))`. */
    constructor (targets: set<ElementId>)
      ensures View() == Watch({}, targets) && FireOnce(View())
    {
      revealed, observed := {}, targets;
    }

    /** The observer callback on one batch of entries. */
    method OnIntersection(entries: seq<Entry>)
      modifies this
      ensures View() == HandleEntries(old(View()), entries)
      ensures revealed == old(revealed) + Hits(entries)
      ensures observed == old(observed) - Hits(entries)
    {
      for i := 0 to |entries|
        invariant View() == HandleEntries(old(View()), entries[..i])
      {
        assert entries[..i + 1][..i] == entries[..i];
        var entry := entries[i];
        if entry.isIntersecting {
          revealed := revealed + {entry.target};
          observed := observed - {entry.target};
        }
      }
      assert entries[..|entries|] == entries;
      HandleEntriesIsHits(old(View()), entries);
    }
  }
}
