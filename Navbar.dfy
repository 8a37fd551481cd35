/**
  The navigation bar script: the `nav-scrolled` class that follows the scroll
  position, and the mobile menu, whose open/closed flag is the one piece of
  state every class list, ARIA attribute and inline style it touches is derived
  from.  The page elements are values held in the fields of `NavbarScript` (the
  closure of initNavbar); an element the page lacks is `None`.
*/
module Navbar {
  import opened Options

  /** The parts of a DOM element the script reads or writes. */
  datatype Element = Element(classes: set<string>, attributes: map<string, string>, style: map<string, string>)

  const ScrolledClass := "nav-scrolled"
  const ScrollThreshold := 20.0
  const DesktopWidth := 768

  const MenuShownClass := "translate-x-0"
  const MenuHiddenClass := "translate-x-full"
  const OverlayShownClasses: set<string> := {"opacity-100", "pointer-events-auto"}
  const OverlayHiddenClasses: set<string> := {"opacity-0", "pointer-events-none"}

  const LineOneOpen := "translateY(8px) rotate(45deg)"
  const LineThreeOpen := "translateY(-8px) rotate(-45deg)"

  /** classList.add, then classList.remove. */
  function AddThenRemove(e: Element, add: set<string>, remove: set<string>): (r: Element)
    ensures r.attributes == e.attributes && r.style == e.style
    ensures forall c :: c in r.classes <==> (c in e.classes || c in add) && c !in remove
  {
    e.(classes := (e.classes + add) - remove)
  }

  /** classList.remove, then classList.add. */
  function RemoveThenAdd(e: Element, remove: set<string>, add: set<string>): (r: Element)
    ensures r.attributes == e.attributes && r.style == e.style
    ensures forall c :: c in r.classes <==> (c in e.classes && c !in remove) || c in add
  {
    e.(classes := (e.classes - remove) + add)
  }

  /** The scroll listener's effect on the nav bar's classes. */
  function NavAfterScroll(nav: Element, scrollTop: real): (r: Element)
    ensures ScrolledClass in r.classes <==> scrollTop > ScrollThreshold
    ensures forall c :: c != ScrolledClass ==> (c in r.classes <==> c in nav.classes)
    ensures r.attributes == nav.attributes && r.style == nav.style
  {
    if scrollTop > ScrollThreshold then AddThenRemove(nav, {ScrolledClass}, {})
    else RemoveThenAdd(nav, {ScrolledClass}, {})
  }

  /** Everything the script keeps: the elements it found and the menu flag. */
  datatype Page = Page(
    nav: Option<Element>,
    menuToggle: Option<Element>,
    mobileMenu: Option<Element>,
    menuOverlay: Option<Element>,
    hamburgerLines: seq<Element>,
    bodyOverflow: string,
    isMenuOpen: bool)

  /** The mobile menu panel for an open or closed menu. */
  function MenuFor(e: Element, open: bool): Element
  {
    if open then RemoveThenAdd(e, {MenuHiddenClass}, {MenuShownClass})
    else AddThenRemove(e, {MenuHiddenClass}, {MenuShownClass})
  }

  /** The overlay for an open or closed menu. */
  function OverlayFor(e: Element, open: bool): Element
  {
    if open then RemoveThenAdd(e, OverlayHiddenClasses, OverlayShownClasses)
    else AddThenRemove(e, OverlayHiddenClasses, OverlayShownClasses)
  }

  /** The toggle button for an open or closed menu. */
  function ToggleButtonFor(e: Element, open: bool): Element
  {
    e.(attributes := e.attributes["aria-expanded" := if open then "true" else "false"])
  }

  /** The three hamburger lines for an open (an X) or closed menu; any other number of
      lines is left as it is. */
  function LinesFor(lines: seq<Element>, open: bool): (r: seq<Element>)
    ensures |r| == |lines|
  {
    if |lines| == 3 then
      [lines[0].(style := lines[0].style["transform" := if open then LineOneOpen else ""]),
       lines[1].(style := lines[1].style["opacity" := if open then "0" else "1"]),
       lines[2].(style := lines[2].style["transform" := if open then LineThreeOpen else ""])]
    else lines
  }

  function MapOption(e: Option<Element>, f: Element -> Element): (r: Option<Element>)
    ensures r.Some? <==> e.Some?
  {
    if e.Some? then Some(f(e.value)) else None
  }

  /** toggleMenu: the flag is flipped and every element present is redrawn from it;
      the body's scroll lock follows the menu only when the menu panel exists. */
  function Toggled(p: Page): Page
  {
    var open := !p.isMenuOpen;
    p.(isMenuOpen := open,
       mobileMenu := MapOption(p.mobileMenu, e => MenuFor(e, open)),
       bodyOverflow := if p.mobileMenu.Some? then (if open then "hidden" else "") else p.bodyOverflow,
       menuOverlay := MapOption(p.menuOverlay, e => OverlayFor(e, open)),
       menuToggle := MapOption(p.menuToggle, e => ToggleButtonFor(e, open)),
       hamburgerLines := LinesFor(p.hamburgerLines, open))
  }

  /** The three lines drawn for `open`. */
  predicate LinesShow(lines: seq<Element>, open: bool)
  {
    |lines| == 3 ==>
      && "transform" in lines[0].style && lines[0].style["transform"] == (if open then LineOneOpen else "")
      && "opacity" in lines[1].style && lines[1].style["opacity"] == (if open then "0" else "1")
      && "transform" in lines[2].style && lines[2].style["transform"] == (if open then LineThreeOpen else "")
  }

  /** Every element present shows the menu flag. */
  predicate Synced(p: Page)
  {
    && (p.mobileMenu.Some? ==>
          && (MenuShownClass in p.mobileMenu.value.classes <==> p.isMenuOpen)
          && (MenuHiddenClass in p.mobileMenu.value.classes <==> !p.isMenuOpen)
          && p.bodyOverflow == (if p.isMenuOpen then "hidden" else ""))
    && (p.menuOverlay.Some? ==>
          && (p.isMenuOpen ==>
                OverlayShownClasses <= p.menuOverlay.value.classes && OverlayHiddenClasses !! p.menuOverlay.value.classes)
          && (!p.isMenuOpen ==>
                OverlayHiddenClasses <= p.menuOverlay.value.classes && OverlayShownClasses !! p.menuOverlay.value.classes))
    && (p.menuToggle.Some? ==>
          && "aria-expanded" in p.menuToggle.value.attributes
          && p.menuToggle.value.attributes["aria-expanded"] == (if p.isMenuOpen then "true" else "false"))
    && LinesShow(p.hamburgerLines, p.isMenuOpen)
  }

  /** After a toggle the flag is flipped, every element present shows it, no element
      appears or disappears, and no class, attribute or style the script does not
      own is touched. */
  lemma ToggledShowsFlag(p: Page)
    ensures var t := Toggled(p);
      && t.isMenuOpen == !p.isMenuOpen && Synced(t)
      && t.nav == p.nav
      && t.mobileMenu.Some? == p.mobileMenu.Some?
      && t.menuOverlay.Some? == p.menuOverlay.Some?
      && t.menuToggle.Some? == p.menuToggle.Some?
      && |t.hamburgerLines| == |p.hamburgerLines|
      && (p.mobileMenu.None? ==> t.bodyOverflow == p.bodyOverflow)
      && (p.mobileMenu.Some? ==> forall c :: c != MenuShownClass && c != MenuHiddenClass ==>
            (c in t.mobileMenu.value.classes <==> c in p.mobileMenu.value.classes))
      && (p.menuOverlay.Some? ==> forall c :: c !in OverlayShownClasses && c !in OverlayHiddenClasses ==>
            (c in t.menuOverlay.value.classes <==> c in p.menuOverlay.value.classes))
      && (|p.hamburgerLines| != 3 ==> t.hamburgerLines == p.hamburgerLines)
      && (p.mobileMenu.Some? ==>
            && t.mobileMenu.value.attributes == p.mobileMenu.value.attributes
            && t.mobileMenu.value.style == p.mobileMenu.value.style)
      && (p.menuOverlay.Some? ==>
            && t.menuOverlay.value.attributes == p.menuOverlay.value.attributes
            && t.menuOverlay.value.style == p.menuOverlay.value.style)
      && (p.menuToggle.Some? ==>
            && t.menuToggle.value.classes == p.menuToggle.value.classes
            && t.menuToggle.value.style == p.menuToggle.value.style
            && t.menuToggle.value.attributes - {"aria-expanded"} == p.menuToggle.value.attributes - {"aria-expanded"})
      && (|p.hamburgerLines| == 3 ==>
            && (forall k :: 0 <= k < 3 ==>
                  && t.hamburgerLines[k].classes == p.hamburgerLines[k].classes
                  && t.hamburgerLines[k].attributes == p.hamburgerLines[k].attributes)
            && t.hamburgerLines[0].style - {"transform"} == p.hamburgerLines[0].style - {"transform"}
            && t.hamburgerLines[1].style - {"opacity"} == p.hamburgerLines[1].style - {"opacity"}
            && t.hamburgerLines[2].style - {"transform"} == p.hamburgerLines[2].style - {"transform"})
  {
    var open := !p.isMenuOpen;
    var t := Toggled(p);
    if p.menuOverlay.Some? {
      var e := p.menuOverlay.value;
      assert t.menuOverlay.value == OverlayFor(e, open);
    }
    if p.mobileMenu.Some? {
      assert t.mobileMenu.value == MenuFor(p.mobileMenu.value, open);
    }
    if p.menuToggle.Some? {
      assert t.menuToggle.value == ToggleButtonFor(p.menuToggle.value, open);
    }
  }

  /** Two toggles restore a page whose elements show the flag, exactly. */
  lemma ToggleTwiceRestores(p: Page)
    requires Synced(p)
    ensures Toggled(Toggled(p)) == p
  {
    var t := Toggled(Toggled(p));
    if p.mobileMenu.Some? {
      var e := p.mobileMenu.value;
      var back := MenuFor(MenuFor(e, !p.isMenuOpen), p.isMenuOpen);
      assert back.classes == e.classes;
      assert t.mobileMenu == Some(back);
    }
    if p.menuOverlay.Some? {
      var e := p.menuOverlay.value;
      var back := OverlayFor(OverlayFor(e, !p.isMenuOpen), p.isMenuOpen);
      assert back.classes == e.classes;
      assert t.menuOverlay == Some(back);
    }
    if p.menuToggle.Some? {
      var e := p.menuToggle.value;
      var back := ToggleButtonFor(ToggleButtonFor(e, !p.isMenuOpen), p.isMenuOpen);
      assert back.attributes == e.attributes;
      assert t.menuToggle == Some(back);
    }
    if |p.hamburgerLines| == 3 {
      var ls := p.hamburgerLines;
      var back := LinesFor(LinesFor(ls, !p.isMenuOpen), p.isMenuOpen);
      assert back[0].style == ls[0].style;
      assert back[1].style == ls[1].style;
      assert back[2].style == ls[2].style;
      assert back == ls;
    }
  }

  /** The link and overlay listeners: a toggle only when the menu is open. */
  function ClosedIfOpen(p: Page): Page
  {
    if p.isMenuOpen then Toggled(p) else p
  }

  /** The resize listener. */
  function AfterResize(p: Page, innerWidth: int): Page
  {
    if innerWidth >= DesktopWidth && p.isMenuOpen then Toggled(p) else p
  }

  /** The keydown listener. */
  function AfterKeyDown(p: Page, key: string): Page
  {
    if key == "Escape" && p.isMenuOpen then Toggled(p) else p
  }

  /** The link, overlay, resize and Escape triggers never open the menu, do nothing
      to a closed one, and close an open one when they fire (a resize only to a
      desktop width, a key only for Escape). */
  lemma ListenersOnlyClose(p: Page, innerWidth: int, key: string)
    ensures ClosedIfOpen(p).isMenuOpen ==> p.isMenuOpen
    ensures AfterResize(p, innerWidth).isMenuOpen ==> p.isMenuOpen
    ensures AfterKeyDown(p, key).isMenuOpen ==> p.isMenuOpen
    ensures !p.isMenuOpen ==>
      ClosedIfOpen(p) == p && AfterResize(p, innerWidth) == p && AfterKeyDown(p, key) == p
    ensures p.isMenuOpen ==>
      && !ClosedIfOpen(p).isMenuOpen && Synced(ClosedIfOpen(p))
      && (AfterResize(p, innerWidth).isMenuOpen <==> innerWidth < DesktopWidth)
      && (AfterKeyDown(p, key).isMenuOpen <==> key != "Escape")
  {
    if p.isMenuOpen {
      ToggledShowsFlag(p);
    }
  }

  /** initNavbar's closure: the elements found on the page and the menu flag. */
  class NavbarScript {
    var nav: Option<Element>
    var menuToggle: Option<Element>
    var mobileMenu: Option<Element>
    var menuOverlay: Option<Element>
    var hamburgerLines: seq<Element>
    /** document.body.style.overflow */
    var bodyOverflow: string
    var isMenuOpen: bool

    function State(): Page
      reads this
    {
      Page(nav, menuToggle, mobileMenu, menuOverlay, hamburgerLines, bodyOverflow, isMenuOpen)
    }

    /** initNavbar on a page with these elements: the menu starts closed. */
    constructor (nav: Option<Element>, menuToggle: Option<Element>, mobileMenu: Option<Element>,
                 menuOverlay: Option<Element>, hamburgerLines: seq<Element>, bodyOverflow: string)
      ensures State() == Page(nav, menuToggle, mobileMenu, menuOverlay, hamburgerLines, bodyOverflow, false)
    {
      this.nav := nav;
      this.menuToggle := menuToggle;
      this.mobileMenu := mobileMenu;
      this.menuOverlay := menuOverlay;
      this.hamburgerLines := hamburgerLines;
      this.bodyOverflow := bodyOverflow;
      isMenuOpen := false;
    }

    /** The scroll listener's class update (the progress bar is not modelled). */
    method OnScroll(scrollTop: real)
      modifies this
      ensures nav == MapOption(old(nav), e => NavAfterScroll(e, scrollTop))
      ensures State() == old(State()).(nav := nav)
    {
      if nav.Some? {
        var e := nav.value;
        ghost var before := e;
        if scrollTop > ScrollThreshold {
          e := e.(classes := e.classes + {ScrolledClass});
        } else {
          e := e.(classes := e.classes - {ScrolledClass});
        }
        assert e.classes == NavAfterScroll(before, scrollTop).classes;
        nav := Some(e);
      }
    }

    method ToggleMenu()
      modifies this
      ensures State() == Toggled(old(State()))
    {
      isMenuOpen := !isMenuOpen;

      if mobileMenu.Some? {
        var e := mobileMenu.value;
        if isMenuOpen {
          e := e.(classes := e.classes - {MenuHiddenClass});
          e := e.(classes := e.classes + {MenuShownClass});
          bodyOverflow := "hidden";
        } else {
          e := e.(classes := e.classes + {MenuHiddenClass});
          e := e.(classes := e.classes - {MenuShownClass});
          bodyOverflow := "";
        }
        mobileMenu := Some(e);
      }

      if menuOverlay.Some? {
        var e := menuOverlay.value;
        if isMenuOpen {
          e := e.(classes := e.classes - OverlayHiddenClasses);
          e := e.(classes := e.classes + OverlayShownClasses);
        } else {
          e := e.(classes := e.classes + OverlayHiddenClasses);
          e := e.(classes := e.classes - OverlayShownClasses);
        }
        menuOverlay := Some(e);
      }

      if menuToggle.Some? {
        var e := menuToggle.value;
        menuToggle := Some(e.(attributes := e.attributes["aria-expanded" := if isMenuOpen then "true" else "false"]));
      }

      if |hamburgerLines| == 3 {
        var line1, line2, line3 := hamburgerLines[0], hamburgerLines[1], hamburgerLines[2];
        if isMenuOpen {
          line1 := line1.(style := line1.style["transform" := LineOneOpen]);
          line2 := line2.(style := line2.style["opacity" := "0"]);
          line3 := line3.(style := line3.style["transform" := LineThreeOpen]);
        } else {
          line1 := line1.(style := line1.style["transform" := ""]);
          line2 := line2.(style := line2.style["opacity" := "1"]);
          line3 := line3.(style := line3.style["transform" := ""]);
        }
        hamburgerLines := [line1, line2, line3];
      }
    }

    /** The toggle button's click listener (attached only when the button exists). */
    method OnToggleClick()
      requires menuToggle.Some?
      modifies this
      ensures State() == Toggled(old(State()))
    {
      ToggleMenu();
    }

    /** The click listener of each mobile link. */
    method OnMobileLinkClick()
      modifies this
      ensures State() == ClosedIfOpen(old(State()))
    {
      if isMenuOpen {
        ToggleMenu();
      }
    }

    /** The overlay's click listener (attached only when the overlay exists). */
    method OnOverlayClick()
      requires menuOverlay.Some?
      modifies this
      ensures State() == ClosedIfOpen(old(State()))
    {
      if isMenuOpen {
        ToggleMenu();
      }
    }

    method OnResize(innerWidth: int)
      modifies this
      ensures State() == AfterResize(old(State()), innerWidth)
    {
      if innerWidth >= DesktopWidth && isMenuOpen {
        ToggleMenu();
      }
    }

    method OnKeyDown(key: string)
      modifies this
      ensures State() == AfterKeyDown(old(State()), key)
    {
      if key == "Escape" && isMenuOpen {
        ToggleMenu();
      }
    }
  }
}
