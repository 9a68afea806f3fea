/** The navigation sidebar: which of its links is highlighted for the
    current path. */
module Sidebar {
  import opened Base

  /** A navigation link, by its target and its caption. */
  datatype NavItem = NavItem(href: string, caption: string)

  const NavItems: seq<NavItem> := [
    NavItem("/", "Dashboard"),
    NavItem("/purchase-orders", "Purchase Orders"),
    NavItem("/invoices", "Invoices"),
    NavItem("/invoices/history", "Automation History")
  ]

  /** `isActive`: the path is the link's target, or the target is not the
      root and the path starts with it, compared character by character
      rather than by path segment. */
  function IsActive(pathname: string, href: string): (active: bool)
    ensures pathname == href ==> active
    ensures href == "/" ==> (active <==> pathname == "/")
    ensures href != "/" ==> (active <==> |href| <= |pathname| && pathname[..|href|] == href)
  {
    pathname == href || (href != "/" && StartsWith(pathname, href))
  }

  /** The targets of the links highlighted for `pathname`, in sidebar order. */
  function ActiveHrefs(pathname: string, items: seq<NavItem>): (r: seq<string>)
    ensures forall i :: 0 <= i < |r| ==> IsActive(pathname, r[i])
    ensures forall k :: 0 <= k < |items| && IsActive(pathname, items[k].href) ==> items[k].href in r
  {
    if items == [] then []
    else
      var rest := ActiveHrefs(pathname, items[1..]);
      var r := (if IsActive(pathname, items[0].href) then [items[0].href] else []) + rest;
      assert forall k :: 1 <= k < |items| ==> items[1..][k - 1] == items[k];
      r
  }

  /** A link stays highlighted on every path below its target, and a link
      whose target lies below another's highlights that one too. */
  lemma ActiveBelow(pathname: string, href: string, deeper: string, suffix: string)
    requires href != "/"
    ensures IsActive(pathname, href) ==> IsActive(pathname + suffix, href)
    ensures IsActive(pathname, deeper) && IsActive(deeper, href) && deeper != "/" ==> IsActive(pathname, href)
  {
    if IsActive(pathname, href) {
      assert (pathname + suffix)[..|href|] == pathname[..|href|];
    }
    if IsActive(pathname, deeper) && IsActive(deeper, href) && deeper != "/" {
      assert pathname[..|href|] == pathname[..|deeper|][..|href|];
    }
  }

  /** The highlighted targets for `pathname`, given which of the four
      sidebar links it activates. */
  lemma ActiveOnPath(pathname: string, root: bool, orders: bool, invoices: bool, history: bool)
    requires IsActive(pathname, "/") == root && IsActive(pathname, "/purchase-orders") == orders
    requires IsActive(pathname, "/invoices") == invoices && IsActive(pathname, "/invoices/history") == history
    ensures ActiveHrefs(pathname, NavItems)
            == (if root then ["/"] else []) + (if orders then ["/purchase-orders"] else [])
               + (if invoices then ["/invoices"] else []) + (if history then ["/invoices/history"] else [])
  {
    var items := NavItems;
    assert ActiveHrefs(pathname, items[4..]) == [];
    assert ActiveHrefs(pathname, items[3..]) == (if history then ["/invoices/history"] else []);
    assert ActiveHrefs(pathname, items[2..])
           == (if invoices then ["/invoices"] else []) + (if history then ["/invoices/history"] else []);
    assert ActiveHrefs(pathname, items[1..])
           == (if orders then ["/purchase-orders"] else [])
              + (if invoices then ["/invoices"] else []) + (if history then ["/invoices/history"] else []);
  }

  /** On the automation history page both the Invoices and the Automation
      History links are highlighted. */
  lemma HistoryPathActive()
    ensures ActiveHrefs("/invoices/history", NavItems) == ["/invoices", "/invoices/history"]
  {
    var p := "/invoices/history";
    assert !StartsWith(p, "/purchase-orders") by {
      assert p[..16][1] == 'i' != "/purchase-orders"[1];
    }
    assert StartsWith(p, "/invoices");
    ActiveOnPath(p, false, false, true, true);
  }

  /** On "/invoicesX" the Invoices link is highlighted: the prefix is a
      plain string prefix, not a path segment. */
  lemma RawPrefixActive()
    ensures ActiveHrefs("/invoicesX", NavItems) == ["/invoices"]
  {
    var p := "/invoicesX";
    assert !StartsWith(p, "/purchase-orders");
    assert StartsWith(p, "/invoices");
    assert !StartsWith(p, "/invoices/history");
    ActiveOnPath(p, false, false, true, false);
  }

  /** The root link is highlighted on the root alone, and alone there. */
  lemma RootPathActive()
    ensures ActiveHrefs("/", NavItems) == ["/"]
    ensures ActiveHrefs("/purchase-orders", NavItems) == ["/purchase-orders"]
  {
    ActiveOnPath("/", true, false, false, false);
    var p := "/purchase-orders";
    assert !StartsWith(p, "/invoices") by {
      assert p[..9][1] == 'p' != "/invoices"[1];
    }
    ActiveOnPath(p, false, true, false, false);
  }
}
