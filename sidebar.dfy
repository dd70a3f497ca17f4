/**
 * The dashboard's navigation sidebar: the fixed menu table and which entry
 * is highlighted and badged.
 */
module Sidebar {
  import opened Replies

  datatype MenuItem = MenuItem(name: string, href: string, badge: Option<string>)

  const MenuItems: seq<MenuItem> := [
    MenuItem("Overview", "/dashboard", None),
    MenuItem("Order Management", "/dashboard/order-management", Some("13")),
    MenuItem("Customer Management", "/dashboard/customers", None),
    MenuItem("Discount & Promotion", "/dashboard/discounts", None),
    MenuItem("Product Management", "/dashboard/products", None),
    MenuItem("Shipping & Logistics", "/dashboard/shipping", None),
    MenuItem("Inventory", "/dashboard/inventory", None),
    MenuItem("Returns & Refunds", "/dashboard/returns", None),
    MenuItem("Reports & Analytics", "/dashboard/reports", None),
    MenuItem("Notifications", "/dashboard/notifications", None),
    MenuItem("Permission & Roles", "/dashboard/roles", None),
    MenuItem("Banner Management", "/dashboard/banners", None),
    MenuItem("Audit Logs", "/dashboard/audit", None)
  ]

  /** One rendered link. */
  datatype NavEntry = NavEntry(name: string, href: string, active: bool, badge: Option<string>)

  /** The link for one item: highlighted on an exact path match, with a badge
    * only when the item's badge text is non-empty. */
  function Entry(item: MenuItem, pathname: string): (e: NavEntry)
    ensures e.active <==> pathname == item.href
    ensures e.badge.Some? <==> Truthy(item.badge)
    ensures e.name == item.name && e.href == item.href
  {
    NavEntry(item.name, item.href, pathname == item.href, if Truthy(item.badge) then item.badge else None)
  }

  /** `menuItems.map(...)`: one link per item, in table order. */
  function Nav(items: seq<MenuItem>, pathname: string): (r: seq<NavEntry>)
    ensures |r| == |items|
    ensures forall i :: 0 <= i < |items| ==> r[i] == Entry(items[i], pathname)
    decreases |items|
  {
    if items == [] then [] else [Entry(items[0], pathname)] + Nav(items[1..], pathname)
  }

  /** No two menu items link to the same path. */
  lemma MenuHrefsDistinct(i: int, j: int)
    requires 0 <= i < j < |MenuItems|
    ensures MenuItems[i].href != MenuItems[j].href
  {
  }

  /** Order Management is the only item with a badge. */
  lemma MenuBadges(i: int)
    requires 0 <= i < |MenuItems|
    ensures Truthy(MenuItems[i].badge) <==> i == 1
  {
  }

  /** For any path at most one link is highlighted. */
  lemma AtMostOneActive(pathname: string, i: int, j: int)
    requires 0 <= i < |MenuItems| && 0 <= j < |MenuItems|
    requires Nav(MenuItems, pathname)[i].active && Nav(MenuItems, pathname)[j].active
    ensures i == j
  {
    if i < j {
      MenuHrefsDistinct(i, j);
    } else if j < i {
      MenuHrefsDistinct(j, i);
    }
  }

  /** Highlighting is an exact match: a path that is none of the hrefs
    * highlights nothing, however many of them it extends. */
  lemma UnlistedPathHighlightsNothing(pathname: string, i: int)
    requires 0 <= i < |MenuItems|
    requires forall j :: 0 <= j < |MenuItems| ==> MenuItems[j].href != pathname
    ensures !Nav(MenuItems, pathname)[i].active
  {
  }

  /** The customer details page, below the customers entry, highlights nothing. */
  lemma NoPrefixMatching(i: int)
    requires 0 <= i < |MenuItems|
    ensures !Nav(MenuItems, "/dashboard/customers/details")[i].active
  {
    assert |MenuItems[i].href| < |"/dashboard/customers/details"|;
  }

  /** Only Order Management carries a badge, and it reads "13". */
  lemma OnlyOrderManagementHasBadge(pathname: string, i: int)
    requires 0 <= i < |MenuItems|
    ensures Nav(MenuItems, pathname)[i].badge.Some? <==> i == 1
    ensures i == 1 ==> Nav(MenuItems, pathname)[i].badge == Some("13") && Nav(MenuItems, pathname)[i].name == "Order Management"
  {
    MenuBadges(i);
  }
}
