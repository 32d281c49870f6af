/**
 * The page shell of the site: the `activeSection` and `selectedService` state
 * cells, explicit navigation to a section, and the scroll-spy that picks the
 * section under the middle of the viewport.
 *
 * The live layout is an input: one slot per registered section, in
 * registration order, holding the section's `offsetTop`/`offsetHeight` when
 * its ref is mounted and `None` when the ref is null.
 */
module App {
  import opened Wrappers

  /** The vertical extent of a mounted section: `offsetTop` and `offsetHeight`. */
  datatype Extent = Extent(top: real, height: real)

  /** One slot per entry of `SectionKeys`, in the same order. */
  type Layout = seq<Option<Extent>>

  /** The keys of `sectionRefs`, in registration (and iteration) order. */
  const SectionKeys: seq<string> :=
    ["home", "about", "team", "testimonials", "services", "catalog", "contact"]

  /** The probe point: the scroll offset plus half the viewport height. */
  function Probe(scrollY: real, innerHeight: real): real {
    scrollY + innerHeight / 2.0
  }

  /** The half-open interval `[top, top + height)` holds the probe. */
  predicate Contains(e: Extent, probe: real) {
    e.top <= probe < e.top + e.height
  }

  /** A slot matches when its ref is mounted and its extent holds the probe. */
  predicate Hit(slot: Option<Extent>, probe: real) {
    slot.Some? && Contains(slot.value, probe)
  }

  /** The position of the first matching slot, if any. */
  function FirstHit(layout: Layout, probe: real): (r: Option<nat>)
    ensures r.Some? ==> r.value < |layout| && Hit(layout[r.value], probe)
  {
    if |layout| == 0 then None
    else if Hit(layout[0], probe) then Some(0)
    else match FirstHit(layout[1..], probe)
      case None => None
      case Some(i) => Some(i + 1)
  }

  /** The value `activeSection` holds after one scroll event, given its previous value. */
  function ActiveAfterScroll(previous: string, layout: Layout, probe: real): string
    requires |layout| == |SectionKeys|
  {
    match FirstHit(layout, probe)
    case Some(i) => SectionKeys[i]
    case None => previous
  }

  /** The position of `section` among the registered keys, if it is one. */
  function KeyIndex(keys: seq<string>, section: string): (r: Option<nat>)
    ensures r.Some? ==> r.value < |keys| && keys[r.value] == section
    ensures r.None? ==> section !in keys
  {
    if |keys| == 0 then None
    else if keys[0] == section then Some(0)
    else match KeyIndex(keys[1..], section)
      case None => None
      case Some(i) => Some(i + 1)
  }

  /** `scrollToSection` acts on `section` exactly when it names a registered, mounted section. */
  predicate Navigable(section: string, layout: Layout)
    requires |layout| == |SectionKeys|
  {
    match KeyIndex(SectionKeys, section)
    case Some(i) => layout[i].Some?
    case None => false
  }

  /**
   * First-match semantics, both ways: the search returns `i` exactly when slot
   * `i` matches and no earlier slot does.
   */
  lemma {:induction false} FirstHitIsFirstMatch(layout: Layout, probe: real, i: nat)
    ensures FirstHit(layout, probe) == Some(i) <==>
              i < |layout| && Hit(layout[i], probe) &&
              forall j :: 0 <= j < i ==> !Hit(layout[j], probe)
  {
    if |layout| > 0 && !Hit(layout[0], probe) && 0 < i <= |layout| {
      var tail := layout[1..];
      FirstHitIsFirstMatch(tail, probe, i - 1);
      assert forall j :: 0 <= j < i - 1 ==> tail[j] == layout[j + 1];
      if forall j :: 0 <= j < i - 1 ==> !Hit(tail[j], probe) {
        forall j | 0 <= j < i ensures !Hit(layout[j], probe) {
          if j > 0 { assert layout[j] == tail[j - 1]; }
        }
      }
    }
  }

  /** The search finds nothing exactly when no slot matches. */
  lemma {:induction false} FirstHitNone(layout: Layout, probe: real)
    ensures FirstHit(layout, probe).None? <==> forall j :: 0 <= j < |layout| ==> !Hit(layout[j], probe)
  {
    if |layout| > 0 && !Hit(layout[0], probe) {
      FirstHitNone(layout[1..], probe);
      assert forall j :: 1 <= j < |layout| ==> layout[j] == layout[1..][j - 1];
    }
  }

  /**
   * The scroll-spy outcome: the key of the first matching slot, or the
   * previous value when no mounted section holds the probe.
   */
  lemma ActiveAfterScrollCases(previous: string, layout: Layout, probe: real)
    requires |layout| == |SectionKeys|
    ensures (forall j :: 0 <= j < |layout| ==> !Hit(layout[j], probe)) ==>
              ActiveAfterScroll(previous, layout, probe) == previous
    ensures forall i :: (0 <= i < |layout| && Hit(layout[i], probe) &&
                         (forall j :: 0 <= j < i ==> !Hit(layout[j], probe))) ==>
              ActiveAfterScroll(previous, layout, probe) == SectionKeys[i]
  {
    FirstHitNone(layout, probe);
    forall i | 0 <= i < |layout| && Hit(layout[i], probe) &&
               (forall j :: 0 <= j < i ==> !Hit(layout[j], probe))
      ensures ActiveAfterScroll(previous, layout, probe) == SectionKeys[i]
    {
      FirstHitIsFirstMatch(layout, probe, i);
    }
  }

  /** A scroll event on an unchanged layout and scroll position changes nothing more. */
  lemma ScrollIsIdempotent(previous: string, layout: Layout, probe: real)
    requires |layout| == |SectionKeys|
    ensures ActiveAfterScroll(ActiveAfterScroll(previous, layout, probe), layout, probe) ==
            ActiveAfterScroll(previous, layout, probe)
  {
  }

  /** A zero-height (or negative-height) section never becomes active through scrolling. */
  lemma EmptySectionNeverMatches(layout: Layout, probe: real, i: nat)
    requires i < |layout| && layout[i].Some? && layout[i].value.height <= 0.0
    ensures FirstHit(layout, probe) != Some(i)
  {
  }

  /**
   * The intended layout: every section mounted, none of negative height, each
   * starting where the previous one ends.
   */
  predicate Stacked(layout: Layout) {
    && (forall k :: 0 <= k < |layout| ==> layout[k].Some? && layout[k].value.height >= 0.0)
    && (forall k :: 0 <= k < |layout| - 1 ==>
          layout[k + 1].value.top == layout[k].value.top + layout[k].value.height)
  }

  /** In a stacked layout an earlier section ends no later than a later one starts. */
  lemma {:induction false} StackedOrdered(layout: Layout, j: nat, i: nat)
    requires Stacked(layout) && j < i < |layout|
    ensures layout[j].value.top + layout[j].value.height <= layout[i].value.top
    decreases i - j
  {
    if j + 1 < i {
      StackedOrdered(layout, j + 1, i);
    }
  }

  /**
   * In a stacked layout the section whose interval holds the probe is the one
   * chosen; in particular a probe exactly at `top + height` of one section
   * selects the next one.
   */
  lemma StackedPicksContainingSection(layout: Layout, probe: real, i: nat)
    requires Stacked(layout) && i < |layout| && Contains(layout[i].value, probe)
    ensures FirstHit(layout, probe) == Some(i)
  {
    forall j | 0 <= j < i ensures !Hit(layout[j], probe) {
      StackedOrdered(layout, j, i);
    }
    FirstHitIsFirstMatch(layout, probe, i);
  }

  /** At scroll offset 0 with an 800-pixel viewport the probe is 400, and "home" is active. */
  lemma HomeAtTop(previous: string)
    ensures ActiveAfterScroll(previous,
              [Some(Extent(0.0, 800.0)), Some(Extent(800.0, 800.0)), None, None, None, None, None],
              Probe(0.0, 800.0)) == "home"
  {
  }

  /** At scroll offset 500 with an 800-pixel viewport the probe 900 lies in "about". */
  lemma AboutAfterScrolling(previous: string)
    ensures ActiveAfterScroll(previous,
              [Some(Extent(0.0, 800.0)), Some(Extent(800.0, 800.0)), None, None, None, None, None],
              Probe(500.0, 800.0)) == "about"
  {
  }

  /** The page shell's two state cells. */
  class Shell {
    var activeSection: string
    var selectedService: string

    constructor ()
      ensures activeSection == "home" && selectedService == ""
    {
      activeSection := "home";
      selectedService := "";
    }

    /**
     * `scrollToSection`: mark `section` active before the smooth scroll
     * (left to the browser) completes, provided its ref is mounted.
     */
    method ScrollToSection(section: string, layout: Layout)
      requires |layout| == |SectionKeys|
      modifies this
      ensures activeSection == if Navigable(section, layout) then section else old(activeSection)
      ensures selectedService == old(selectedService)
    {
      var slot := KeyIndex(SectionKeys, section);
      if slot.Some? && layout[slot.value].Some? {
        activeSection := section;
      }
    }

    /** `handleBookNow`: navigate to the contact section. */
    method BookNow(layout: Layout)
      requires |layout| == |SectionKeys|
      modifies this
      ensures activeSection == if layout[6].Some? then "contact" else old(activeSection)
      ensures selectedService == old(selectedService)
    {
      ScrollToSection("contact", layout);
    }

    /** `handleBookService`: remember the chosen service, then navigate to the contact section. */
    method BookService(service: string, layout: Layout)
      requires |layout| == |SectionKeys|
      modifies this
      ensures selectedService == service
      ensures activeSection == if layout[6].Some? then "contact" else old(activeSection)
    {
      selectedService := service;
      ScrollToSection("contact", layout);
    }

    /**
     * `handleScroll`: walk the sections in registration order, skip null
     * refs, and make the first one holding the probe active.
     */
    method HandleScroll(scrollY: real, innerHeight: real, layout: Layout)
      requires |layout| == |SectionKeys|
      modifies this
      ensures activeSection == ActiveAfterScroll(old(activeSection), layout, Probe(scrollY, innerHeight))
      ensures selectedService == old(selectedService)
    {
      var scrollPosition := scrollY + innerHeight / 2.0;
      for i := 0 to |layout|
        invariant forall j :: 0 <= j < i ==> !Hit(layout[j], scrollPosition)
        invariant activeSection == old(activeSection)
      {
        if layout[i].Some? {
          var top := layout[i].value.top;
          var height := layout[i].value.height;
          if scrollPosition >= top && scrollPosition < top + height {
            activeSection := SectionKeys[i];
            FirstHitIsFirstMatch(layout, scrollPosition, i);
            return;
          }
        }
      }
      FirstHitNone(layout, scrollPosition);
    }
  }
}
