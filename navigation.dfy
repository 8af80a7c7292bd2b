/**
 * The navigation module: the career selector's submission, the header that
 * changes once the page is scrolled, the mobile menu, the active link and the
 * in-page anchors.
 */
module Navigation {
  import opened Wrappers
  import opened Careers
  import opened Utils

  datatype SubmitOutcome =
    | SelectMissing                      // "Career selection not found", error alert
    | NothingSelected                    // "Please select a career field", warning and focus
    | InvalidSelection(value: string)    // "Invalid selection", error alert
    | Go(storedField: string, target: string)   // store `lastCareerSelection`, then navigate

  /** `submitCareerSelection`: `select` is the selector's value, `None` when the element is missing. */
  function SubmitCareerSelection(select: Option<string>): (r: SubmitOutcome)
    ensures r == SelectMissing <==> select.None?
    ensures r == NothingSelected <==> select == Some("")
    ensures r.Go? <==> select.Some? && select.value in CareerPaths
    ensures r.Go? ==> r.storedField == select.value && r.target == CareerPaths[select.value]
    ensures r.InvalidSelection? <==> select.Some? && select.value != "" && select.value !in CareerPaths
  {
    match select
    case None => SelectMissing
    case Some(value) =>
      if value == "" then NothingSelected
      else if value in CareerPaths then Go(value, CareerPaths[value])
      else InvalidSelection(value)
  }

  /** The three field codes route to their pages. */
  lemma SubmitRoutes()
    ensures SubmitCareerSelection(Some("S")) == Go("S", "pages/science.html")
    ensures SubmitCareerSelection(Some("T")) == Go("T", "pages/tech_eng.html")
    ensures SubmitCareerSelection(Some("M")) == Go("M", "pages/math.html")
  {
  }

  const ScrollThreshold: int := 100
  const ScrollThrottleDelay: int := 100

  /** `setupScrollHeader`: the header's 'scroll' class, behind a 100 ms throttle. */
  class ScrollHeader {
    var scroll: bool
    const throttle: Throttle

    ghost predicate Valid()
      reads this, throttle
    {
      throttle.Valid() && throttle.delay == ScrollThrottleDelay
    }

    constructor (scroll: bool)
      ensures Valid() && fresh(throttle)
      ensures this.scroll == scroll && throttle.lastCall == 0 && throttle.runs == []
      ensures throttle.delay == ScrollThrottleDelay
    {
      this.scroll := scroll;
      throttle := new Throttle(ScrollThrottleDelay);
    }

    /** A scroll event at time `now` with the page scrolled by `scrollY`. */
    method OnScroll(now: int, scrollY: int) returns (handled: bool)
      requires Valid()
      modifies this, throttle
      ensures Valid()
      ensures handled <==> now - old(throttle.lastCall) >= ScrollThrottleDelay
      ensures handled ==> (scroll <==> scrollY > ScrollThreshold)
      ensures handled ==> throttle.lastCall == now && throttle.runs == old(throttle.runs) + [now]
      ensures !handled ==> scroll == old(scroll) && throttle.lastCall == old(throttle.lastCall)
      ensures !handled ==> throttle.runs == old(throttle.runs)
    {
      handled := throttle.Call(now);
      if handled {
        scroll := scrollY > ScrollThreshold;
      }
    }
  }

  /** `setupMobileMenu`: the nav list's 'active' class and the toggle's `aria-expanded` (`None` until first set). */
  class MobileMenu {
    var active: bool
    var ariaExpanded: Option<bool>

    /** `aria-expanded`, once set, mirrors 'active'. */
    ghost predicate Valid()
      reads this
    {
      ariaExpanded == None || ariaExpanded == Some(active)
    }

    constructor (active: bool)
      ensures Valid() && this.active == active && ariaExpanded == None
    {
      this.active := active;
      ariaExpanded := None;
    }

    /** A click on the menu toggle flips 'active'. */
    method ToggleClicked()
      requires Valid()
      modifies this
      ensures Valid()
      ensures active == !old(active) && ariaExpanded == Some(active)
    {
      active := !active;
      ariaExpanded := Some(active);
    }

    /** Any click in the document: one outside both the toggle and the list closes the menu. */
    method DocumentClicked(inToggle: bool, inNavList: bool)
      requires Valid()
      modifies this
      ensures Valid()
      ensures !inToggle && !inNavList ==> !active && ariaExpanded == Some(false)
      ensures inToggle || inNavList ==> active == old(active) && ariaExpanded == old(ariaExpanded)
    {
      if !inToggle && !inNavList {
        active := false;
        ariaExpanded := Some(false);
      }
    }

    /** A key press: Escape closes an open menu and moves focus back to the toggle. */
    method KeyDown(key: string) returns (focusToggle: bool)
      requires Valid()
      modifies this
      ensures Valid()
      ensures focusToggle <==> key == "Escape" && old(active)
      ensures focusToggle ==> !active && ariaExpanded == Some(false)
      ensures !focusToggle ==> active == old(active) && ariaExpanded == old(ariaExpanded)
    {
      focusToggle := key == "Escape" && active;
      if focusToggle {
        active := false;
        ariaExpanded := Some(false);
      }
    }
  }

  /** `setupActiveNavigation`'s test: `href` is the link's attribute, `None` when it has none. */
  predicate IsActiveLink(href: Option<string>, path: string) {
    href == Some(path) || (path == "/" && href == Some("#home"))
  }

  /** Off the root path only the exact match is active; on it, the '#home' link is as well. */
  lemma ActiveLinkCases(href: Option<string>, path: string)
    ensures path != "/" ==> (IsActiveLink(href, path) <==> href == Some(path))
    ensures path == "/" ==> (IsActiveLink(href, path) <==> href == Some("/") || href == Some("#home"))
  {
  }

  /**
   * The `forEach` over the nav links: a matching link gets 'active'; the class
   * is only ever added, so links that had it keep it.
   */
  method SetupActiveNavigation(links: seq<Option<string>>, wasActive: seq<bool>, path: string)
    returns (active: seq<bool>)
    requires |wasActive| == |links|
    ensures |active| == |links|
    ensures forall i :: 0 <= i < |links| ==> active[i] == (wasActive[i] || IsActiveLink(links[i], path))
  {
    active := wasActive;
    for i := 0 to |links|
      invariant |active| == |links|
      invariant forall j :: 0 <= j < i ==> active[j] == (wasActive[j] || IsActiveLink(links[j], path))
      invariant forall j :: i <= j < |links| ==> active[j] == wasActive[j]
    {
      if IsActiveLink(links[i], path) {
        active := active[i := true];
      }
    }
  }

  /** `setupSmoothScrolling`: a click on an in-page anchor scrolls to its target, except for a bare '#'. */
  function AnchorTarget(href: string): (r: Option<string>)
    ensures r.None? <==> href == "#"
    ensures r.Some? ==> r.value == href
  {
    if href != "#" then Some(href) else None
  }
}
