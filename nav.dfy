/**
 * The navigation bar of src/components/Nav.jsx: the mobile menu toggle, the
 * scroll handler that picks the active section, and the active-link highlight.
 *
 * `isOpen` and `activeLink` are component state changed by handlers, so the bar is a
 * class; `handleScroll` is a loop over the sections, proved against `ActiveSection`.
 * The page is a map from element id to that element's `offsetTop`.
 */
module Nav {
  import opened Wrappers

  /** An entry of `navLinks`. */
  datatype NavLink = NavLink(href: string, text: string)

  const NavLinks: seq<NavLink> := [
    NavLink("#home", "Home"),
    NavLink("#about", "About"),
    NavLink("#expertise", "Expertise"),
    NavLink("#projects", "Projects"),
    NavLink("#contact", "Contact")
  ]

  const Home := "home"

  /** `href.substring(1)`: everything after the first character. */
  function SectionId(href: string): (id: string)
    ensures |href| >= 1 ==> href == [href[0]] + id
    ensures |href| == 0 ==> id == ""
  {
    if |href| == 0 then "" else href[1..]
  }

  /** The section ids the links point to, in link order. */
  function LinkIds(): (ids: seq<string>)
    ensures |ids| == |NavLinks|
    ensures forall k :: 0 <= k < |ids| ==> ids[k] == SectionId(NavLinks[k].href)
  {
    seq(|NavLinks|, k requires 0 <= k < |NavLinks| => SectionId(NavLinks[k].href))
  }

  /** The sections of the page, in link order. */
  const Sections: seq<string> := [Home, "about", "expertise", "projects", "contact"]

  /** The link ids are the five sections, in order. */
  lemma LinkIdsAreTheSections()
    ensures LinkIds() == Sections
  {
    var ids := LinkIds();
    assert ids[0] == "#home"[1..] == Home;
    assert ids[1] == "#about"[1..] == "about";
    assert ids[2] == "#expertise"[1..] == "expertise";
    assert ids[3] == "#projects"[1..] == "projects";
    assert ids[4] == "#contact"[1..] == "contact";
  }

  /** No two sections share an id: their lengths already differ. */
  lemma SectionsDistinct()
    ensures forall k, m :: 0 <= k < m < |Sections| ==> Sections[k] != Sections[m]
  {
    forall k, m | 0 <= k < m < |Sections|
      ensures Sections[k] != Sections[m]
    {
      assert |Sections[k]| != |Sections[m]|;
    }
  }

  /** An element found by `document.getElementById`. */
  datatype Section = Section(id: string, offsetTop: int)

  /** `document.getElementById(id)`: the element with that id, or `null`. */
  function GetElementById(page: map<string, int>, id: string): (found: Option<Section>)
    ensures found.Some? <==> id in page
    ensures found.Some? ==> found.value == Section(id, page[id])
  {
    if id in page then Some(Section(id, page[id])) else None
  }

  /** The section `id` is on the page and its top is at or above `threshold`. */
  predicate Reached(page: map<string, int>, threshold: real, id: string) {
    id in page && threshold >= page[id] as real
  }

  /**
   * The active section: the last id in `ids` that is on the page and whose top is at or
   * above `threshold`, or "home" when there is none.
   */
  function ActiveSection(ids: seq<string>, page: map<string, int>, threshold: real): string
    decreases |ids|
  {
    if ids == [] then Home
    else if Reached(page, threshold, ids[|ids| - 1]) then ids[|ids| - 1]
    else ActiveSection(ids[..|ids| - 1], page, threshold)
  }

  /** The active section is "home" or one of the ids looked up. */
  lemma {:induction false} ActiveSectionIsHomeOrLooked(ids: seq<string>, page: map<string, int>, threshold: real)
    ensures ActiveSection(ids, page, threshold) == Home || ActiveSection(ids, page, threshold) in ids
  {
    if ids != [] && !Reached(page, threshold, ids[|ids| - 1]) {
      ActiveSectionIsHomeOrLooked(ids[..|ids| - 1], page, threshold);
    }
  }

  /** Position `k` holds the last id in `ids` whose section is reached. */
  predicate LastReachedAt(ids: seq<string>, page: map<string, int>, threshold: real, k: nat)
    requires k < |ids|
  {
    Reached(page, threshold, ids[k]) && forall m :: k < m < |ids| ==> !Reached(page, threshold, ids[m])
  }

  /**
   * What the loop computes: "home" when no section is reached, and otherwise the id at
   * the last position whose section is reached.
   */
  lemma {:induction false} ActiveSectionIsLastReached(ids: seq<string>, page: map<string, int>, threshold: real)
    ensures (forall k :: 0 <= k < |ids| ==> !Reached(page, threshold, ids[k])) ==>
      ActiveSection(ids, page, threshold) == Home
    ensures forall k :: 0 <= k < |ids| && LastReachedAt(ids, page, threshold, k) ==>
      ActiveSection(ids, page, threshold) == ids[k]
  {
    if ids != [] {
      var n := |ids|;
      var init := ids[..n - 1];
      if !Reached(page, threshold, ids[n - 1]) {
        ActiveSectionIsLastReached(init, page, threshold);
        forall k | 0 <= k < n && LastReachedAt(ids, page, threshold, k)
          ensures ActiveSection(ids, page, threshold) == ids[k]
        {
          assert k < n - 1;
          assert init[k] == ids[k];
          assert LastReachedAt(init, page, threshold, k);
        }
        if forall k :: 0 <= k < n ==> !Reached(page, threshold, ids[k]) {
          assert forall k :: 0 <= k < n - 1 ==> !Reached(page, threshold, init[k]);
        }
      }
    }
  }

  /** A section that is missing from the page can be dropped from the list without changing the result. */
  lemma {:induction false} ActiveSectionSkipsAbsent(ids: seq<string>, page: map<string, int>, threshold: real, k: nat)
    requires k < |ids| && ids[k] !in page
    ensures ActiveSection(ids, page, threshold) == ActiveSection(ids[..k] + ids[k + 1..], page, threshold)
    decreases |ids|
  {
    var n := |ids|;
    var dropped := ids[..k] + ids[k + 1..];
    if k == n - 1 {
      assert dropped == ids[..n - 1];
    } else {
      assert dropped[|dropped| - 1] == ids[n - 1];
      var init := ids[..n - 1];
      assert dropped[..|dropped| - 1] == init[..k] + init[k + 1..];
      ActiveSectionSkipsAbsent(init, page, threshold, k);
    }
  }

  /**
   * The body of `handleScroll`: look every id up, then walk the results in order and
   * keep the id of the last present section whose top is at or above `threshold`.
   */
  method ScanSections(ids: seq<string>, page: map<string, int>, threshold: real) returns (current: string)
    ensures current == ActiveSection(ids, page, threshold)
  {
    var sections := seq(|ids|, k requires 0 <= k < |ids| => GetElementById(page, ids[k]));
    current := Home;
    for i := 0 to |sections|
      invariant current == ActiveSection(ids[..i], page, threshold)
    {
      assert ids[..i + 1][..i] == ids[..i];
      match sections[i]
      case Some(section) =>
        if threshold >= section.offsetTop as real {
          current := section.id;
        }
      case None =>
    }
    assert ids[..|ids|] == ids;
  }

  /** The bar's state: whether the mobile menu is open and which link is active. */
  class NavBar {
    var isOpen: bool
    var activeLink: string

    /** `useState(false)` and `useState('home')`. */
    constructor ()
      ensures !isOpen && activeLink == Home
    {
      isOpen := false;
      activeLink := Home;
    }

    /** `toggleMenu`: opens a closed menu and closes an open one. */
    method ToggleMenu()
      modifies this
      ensures isOpen == !old(isOpen) && activeLink == old(activeLink)
    {
      isOpen := !isOpen;
    }

    /** A click on a mobile link runs `toggleMenu` (the browser then follows the anchor). */
    method ClickMobileLink()
      modifies this
      ensures isOpen == !old(isOpen) && activeLink == old(activeLink)
    {
      ToggleMenu();
    }

    /**
     * `handleScroll`: the active link becomes the section the scan picks for the
     * threshold `scrollY + 100`.
     */
    method HandleScroll(page: map<string, int>, scrollY: real)
      modifies this
      ensures activeLink == ActiveSection(LinkIds(), page, scrollY + 100.0)
      ensures exists k :: 0 <= k < |NavLinks| && Highlighted(NavLinks[k]) &&
                forall m :: 0 <= m < |NavLinks| && m != k ==> !Highlighted(NavLinks[m])
      ensures isOpen == old(isOpen)
    {
      var current := ScanSections(LinkIds(), page, scrollY + 100.0);
      activeLink := current;
      ScrollHighlightsExactlyOne(page, scrollY + 100.0);
    }

    /** The mobile link `link` is drawn highlighted: its href names the active section. */
    predicate Highlighted(link: NavLink)
      reads this
      ensures |link.href| >= 1 ==> (Highlighted(link) <==> link.href == [link.href[0]] + activeLink)
      ensures link.href == "" ==> (Highlighted(link) <==> activeLink == "")
    {
      activeLink == SectionId(link.href)
    }
  }

  /** Toggling twice leaves the menu as it was. */
  method ToggleTwice(bar: NavBar)
    modifies bar
    ensures bar.isOpen == old(bar.isOpen) && bar.activeLink == old(bar.activeLink)
  {
    bar.ToggleMenu();
    bar.ToggleMenu();
  }

  /** Whatever the page and the scroll position, the scroll handler picks exactly one link to highlight. */
  lemma ScrollHighlightsExactlyOne(page: map<string, int>, threshold: real)
    ensures var ids, active := LinkIds(), ActiveSection(LinkIds(), page, threshold);
      exists k :: 0 <= k < |ids| && active == ids[k] && forall m :: 0 <= m < |ids| && m != k ==> active != ids[m]
  {
    var ids := LinkIds();
    var active := ActiveSection(ids, page, threshold);
    ActiveSectionIsHomeOrLooked(ids, page, threshold);
    LinkIdsAreTheSections();
    SectionsDistinct();
    var k :| 0 <= k < |ids| && ids[k] == active;
  }
}
