/**
 * The navigation bar's highlight rule: an item is highlighted when its id
 * equals the shell's `activeSection`. Clicking an item calls the shell's
 * `ScrollToSection` with that id.
 */
module Navigation {
  import App

  /** The ids of the navigation items, in display order; "testimonials" has no item. */
  const NavIds: seq<string> := ["home", "about", "team", "services", "catalog", "contact"]

  predicate Highlighted(activeSection: string, id: string) {
    activeSection == id
  }

  /** The positions of the items highlighted for a given active section. */
  function HighlightedItems(activeSection: string): set<nat> {
    set k | 0 <= k < |NavIds| && Highlighted(activeSection, NavIds[k])
  }

  /**
   * At most one item is highlighted; exactly one when the active section has
   * an item, and none while the testimonials section is active.
   */
  lemma HighlightIsUnique(activeSection: string)
    ensures activeSection in NavIds ==> |HighlightedItems(activeSection)| == 1
    ensures activeSection !in NavIds ==> HighlightedItems(activeSection) == {}
    ensures HighlightedItems("testimonials") == {}
  {
    if activeSection in NavIds {
      var k :| 0 <= k < |NavIds| && NavIds[k] == activeSection;
      assert HighlightedItems(activeSection) == {k};
    }
  }

  /** Every navigation item names a registered section, so a click navigates whenever that section is mounted. */
  lemma NavItemsAreSections(layout: App.Layout, k: nat)
    requires |layout| == |App.SectionKeys| && k < |NavIds|
    ensures App.Navigable(NavIds[k], layout) <==>
              layout[App.KeyIndex(App.SectionKeys, NavIds[k]).value].Some?
    ensures App.KeyIndex(App.SectionKeys, NavIds[k]).Some?
  {
    assert NavIds[k] in App.SectionKeys by {
      assert NavIds[k] == App.SectionKeys[[0, 1, 2, 4, 5, 6][k]];
    }
  }
}
