/** The navigation bar: which link is highlighted, the scroll flag and the mobile menu. */
module Navbar {
  import opened Text

  /** The hrefs of the navigation items, in menu order. */
  const NavHrefs: seq<string> := ["/", "/novel", "/character", "/script", "/storyboard", "/search"]

  /** `isActive`: the home link only on '/' itself, every other link on any path it prefixes. */
  predicate IsActive(pathname: string, href: string)
  {
    if href == "/" then pathname == "/" else StartsWith(pathname, href)
  }

  /** The prefix rule is textual: '/novelx' highlights the '/novel' link. */
  lemma PrefixHighlightsLongerPath()
    ensures IsActive("/novelx", "/novel")
    ensures !IsActive("/novelx", "/")
  {
    assert "/novelx"[..6] == "/novel";
  }

  /** Two menu hrefs other than '/' differ within the shorter of the two. */
  lemma HrefsDiverge(i: nat, j: nat)
    requires 0 < i < j < |NavHrefs|
    ensures exists k :: 0 <= k < |NavHrefs[i]| && k < |NavHrefs[j]| && NavHrefs[i][k] != NavHrefs[j][k]
  {
    var a, b := NavHrefs[i], NavHrefs[j];
    if a[1] != b[1] {
      assert a[1] != b[1];
    } else {
      assert a[2] != b[2];
    }
  }

  /** At most one navigation link is highlighted for any path. */
  lemma AtMostOneActive(pathname: string, i: nat, j: nat)
    requires i < j < |NavHrefs|
    ensures !(IsActive(pathname, NavHrefs[i]) && IsActive(pathname, NavHrefs[j]))
  {
    if i == 0 {
      if pathname == "/" {
        assert |NavHrefs[j]| > 1;
      }
    } else {
      HrefsDiverge(i, j);
      var k :| 0 <= k < |NavHrefs[i]| && k < |NavHrefs[j]| && NavHrefs[i][k] != NavHrefs[j][k];
      if IsActive(pathname, NavHrefs[i]) {
        assert pathname[k] == NavHrefs[i][k];
      }
    }
  }

  class Bar {
    var isMenuOpen: bool
    var isScrolled: bool
    var pathname: string

    constructor (pathname: string)
      ensures !isMenuOpen && !isScrolled && this.pathname == pathname
    {
      isMenuOpen := false;
      isScrolled := false;
      this.pathname := pathname;
    }

    /** The scroll listener: the bar is marked scrolled exactly past ten pixels. */
    method Scroll(scrollY: real)
      modifies this
      ensures isScrolled <==> scrollY > 10.0
      ensures isMenuOpen == old(isMenuOpen) && pathname == old(pathname)
    {
      isScrolled := scrollY > 10.0;
    }

    /** A route change: the effect on `pathname` closes the menu. */
    method Navigate(to: string)
      modifies this
      ensures pathname == to
      ensures to != old(pathname) ==> !isMenuOpen
      ensures to == old(pathname) ==> isMenuOpen == old(isMenuOpen)
      ensures isScrolled == old(isScrolled)
    {
      if to != pathname {
        isMenuOpen := false;
      }
      pathname := to;
    }

    /** The menu button flips the menu. */
    method ToggleMenu()
      modifies this
      ensures isMenuOpen == !old(isMenuOpen)
      ensures isScrolled == old(isScrolled) && pathname == old(pathname)
    {
      isMenuOpen := !isMenuOpen;
    }

    /** A link in the mobile menu closes it. */
    method ClickMobileLink()
      modifies this
      ensures !isMenuOpen
      ensures isScrolled == old(isScrolled) && pathname == old(pathname)
    {
      isMenuOpen := false;
    }
  }
}
