/**
 * The navigation of src/components/layout/Sidebar.tsx: seven entries, four
 * of them for admins only, filtered by the signed-in user's role, with the
 * entry whose link equals the current path highlighted.
 */
module Sidebar {
  import opened Collections

  /** A navigation entry; `adminOnly` is false where the code leaves it unset. */
  datatype NavItem = NavItem(name: string, href: string, adminOnly: bool)

  const NavItems: seq<NavItem> := [
    NavItem("Dashboard", "/dashboard", false),
    NavItem("POS", "/pos", false),
    NavItem("Products", "/products", true),
    NavItem("Sales", "/sales", false),
    NavItem("Cashiers", "/cashiers", true),
    NavItem("Reports", "/reports", true),
    NavItem("Settings", "/settings", true)
  ]

  /** The role gate: an entry is shown when it is not admin-only or the user is an admin. */
  predicate Shown(item: NavItem, isAdmin: bool)
  {
    !item.adminOnly || isAdmin
  }

  /** `filteredItems`: the entries the role gate lets through, in declared order. */
  function VisibleItems(isAdmin: bool): (r: seq<NavItem>)
    ensures IsSubsequence(r, NavItems)
    ensures forall i :: 0 <= i < |r| ==> r[i] in NavItems && Shown(r[i], isAdmin)
    ensures forall i :: 0 <= i < |NavItems| && Shown(NavItems[i], isAdmin) ==> NavItems[i] in r
  {
    FilterMembers(NavItems, (item: NavItem) => Shown(item, isAdmin));
    Filter(NavItems, (item: NavItem) => Shown(item, isAdmin))
  }

  /** `isActive`: the entry links to the current path. */
  predicate IsActive(pathname: string, item: NavItem)
  {
    pathname == item.href
  }

  /** No two entries share a link. */
  lemma HrefsDistinct()
    ensures forall i, j :: 0 <= i < j < |NavItems| ==> NavItems[i].href != NavItems[j].href
  {
  }

  /** An admin sees all seven entries in declared order. */
  lemma AdminSeesEverything()
    ensures VisibleItems(true) == NavItems
  {
    FilterAll(NavItems, (item: NavItem) => Shown(item, true));
  }

  /** Anyone else sees exactly Dashboard, POS and Sales, in that order. */
  lemma CashierSeesThree()
    ensures VisibleItems(false) == [NavItems[0], NavItems[1], NavItems[3]]
  {
    var p := (item: NavItem) => Shown(item, false);
    var front, admin1, sales, admin3 := NavItems[..2], NavItems[2..3], NavItems[3..4], NavItems[4..];
    assert NavItems == front + admin1 + sales + admin3;
    FilterAll(front, p);
    FilterNone(admin1, p);
    FilterAll(sales, p);
    FilterNone(admin3, p);
    FilterAppend(front + admin1 + sales, admin3, p);
    FilterAppend(front + admin1, sales, p);
    FilterAppend(front, admin1, p);
  }

  /** Because links are distinct, no two shown entries are highlighted together, whatever the path. */
  lemma AtMostOneActive(pathname: string, isAdmin: bool)
    ensures forall i, j :: 0 <= i < j < |VisibleItems(isAdmin)| ==>
              !(IsActive(pathname, VisibleItems(isAdmin)[i]) && IsActive(pathname, VisibleItems(isAdmin)[j]))
  {
    if isAdmin {
      AdminSeesEverything();
      HrefsDistinct();
    } else {
      CashierSeesThree();
    }
  }
}
