/**
 * The navigation bar of src/components/Navbar.tsx: a fixed list of in-page
 * links and two flags, one following the page's scroll offset and one for
 * the mobile menu.
 */
module Navbar {

  datatype NavItem = NavItem(title: string, href: string)

  /** The `navItems` table, in display order. */
  const NavItems: seq<NavItem> := [
    NavItem("Home", "#home"),
    NavItem("Features", "#features"),
    NavItem("Showcase", "#showcase"),
    NavItem("Contact", "#contact")
  ]

  /** ASCII lower case, which is all the titles need. */
  function LowerChar(c: char): (r: char)
    ensures 'A' <= c <= 'Z' ==> 'a' <= r <= 'z' && r as int - c as int == 32
    ensures !('A' <= c <= 'Z') ==> r == c
  {
    if 'A' <= c <= 'Z' then (c as int + 32) as char else c
  }

  function Lower(s: string): (r: string)
    ensures |r| == |s|
    ensures forall i :: 0 <= i < |s| ==> r[i] == LowerChar(s[i])
  {
    seq(|s|, i requires 0 <= i < |s| => LowerChar(s[i]))
  }

  /** Every link points at the anchor named by its title in lower case. */
  lemma NavItemsAnchors()
    ensures |NavItems| == 4
    ensures forall i :: 0 <= i < |NavItems| ==> NavItems[i].href == "#" + Lower(NavItems[i].title)
  {
  }

  /** The offset, in pixels, past which the bar switches to its scrolled look. */
  const ScrollThreshold: real := 20.0

  /** `window.scrollY > 20`: strictly past the threshold. */
  predicate ScrolledAt(scrollY: real)
  {
    scrollY > ScrollThreshold
  }

  /** The threshold itself is not scrolled; anything above it is, and scrolling further down keeps it so. */
  lemma ScrolledAtThreshold(y1: real, y2: real)
    ensures !ScrolledAt(20.0)
    ensures ScrolledAt(y1) <==> y1 > 20.0
    ensures ScrolledAt(y1) && y1 <= y2 ==> ScrolledAt(y2)
  {
  }

  class NavbarState {
    /** The `isScrolled` state. */
    var isScrolled: bool
    /** The `isMobileMenuOpen` state. */
    var isMobileMenuOpen: bool

    /** Both flags start false. */
    constructor ()
      ensures !isScrolled && !isMobileMenuOpen
      ensures MobileMenuItems() == []
    {
      isScrolled := false;
      isMobileMenuOpen := false;
    }

    /** The links the mobile menu renders: all of them while it is open, none otherwise. */
    function MobileMenuItems(): (items: seq<NavItem>)
      reads this
      ensures isMobileMenuOpen ==> items == NavItems
      ensures !isMobileMenuOpen ==> items == []
    {
      if isMobileMenuOpen then NavItems else []
    }

    /** The scroll listener: records whether the page is past the threshold, and nothing else. */
    method HandleScroll(scrollY: real)
      modifies this
      ensures isScrolled == ScrolledAt(scrollY)
      ensures isMobileMenuOpen == old(isMobileMenuOpen)
    {
      isScrolled := ScrolledAt(scrollY);
    }

    /** `toggleMobileMenu`: flips the menu flag. */
    method ToggleMobileMenu()
      modifies this
      ensures isMobileMenuOpen == !old(isMobileMenuOpen)
      ensures MobileMenuItems() == (if old(isMobileMenuOpen) then [] else NavItems)
      ensures isScrolled == old(isScrolled)
    {
      isMobileMenuOpen := !isMobileMenuOpen;
    }

    /** The `onClick` of a mobile menu link: closes the menu whatever its state. */
    method CloseMobileMenu()
      modifies this
      ensures !isMobileMenuOpen
      ensures MobileMenuItems() == []
      ensures isScrolled == old(isScrolled)
    {
      isMobileMenuOpen := false;
    }
  }

  /** A visitor's session, checked against the contracts alone. */
  method Scenario()
  {
    var nav := new NavbarState();
    assert nav.MobileMenuItems() == [];
    nav.HandleScroll(20.0);
    assert !nav.isScrolled;
    nav.HandleScroll(20.5);
    assert nav.isScrolled && !nav.isMobileMenuOpen;
    nav.ToggleMobileMenu();
    assert nav.MobileMenuItems() == NavItems;
    nav.ToggleMobileMenu();
    assert !nav.isMobileMenuOpen;
    nav.ToggleMobileMenu();
    nav.CloseMobileMenu();
    nav.CloseMobileMenu();
    assert !nav.isMobileMenuOpen && nav.isScrolled;
  }
}
