/** The dashboard's sidebar: the menu, which entry is highlighted for the current path, and the
    collapse toggle. */
module Sidebar {
  import opened JsText

  datatype MenuItem = MenuItem(name: string, href: string)

  const OverviewHref := "/dashboard"
  const CreateAdminHref := "/dashboard/create-admin"

  const MenuItems: seq<MenuItem> := [
    MenuItem("Overview", "/dashboard"),
    MenuItem("Booking Management", "/dashboard/booking-management"),
    MenuItem("Transaction", "/dashboard/transaction-management"),
    MenuItem("User Management", "/dashboard/user-management"),
    MenuItem("Reports", "/dashboard/report"),
    MenuItem("Create Admin", "/dashboard/create-admin"),
    MenuItem("Verify", "/dashboard/create-admin"),
    MenuItem("Banner Management", "/dashboard/banner-management"),
    MenuItem("Platform Fee", "/dashboard/platform-fee"),
    MenuItem("Settings", "/dashboard/settings")
  ]

  /** An entry is highlighted on its own path and, except for the overview, on every path that
      starts with its href. */
  predicate IsActive(pathname: string, href: string) {
    pathname == href || (href != OverviewHref && StartsWith(pathname, href))
  }

  /** The overview is highlighted on "/dashboard" only, never on the pages under it. */
  lemma OverviewOnlyOnExactMatch(pathname: string)
    ensures IsActive(pathname, MenuItems[0].href) <==> pathname == OverviewHref
  {
  }

  /** "Create Admin" and "Verify" share one href, so they are highlighted together. */
  lemma CreateAdminAndVerifyTogether(pathname: string)
    ensures MenuItems[5].href == MenuItems[6].href == CreateAdminHref
    ensures IsActive(pathname, MenuItems[5].href) <==> IsActive(pathname, MenuItems[6].href)
  {
  }

  /** The two characters after "/dashboard/" in each section href; only "Create Admin" and
      "Verify" share them. */
  function SectionKey(i: int): (char, char)
    requires 1 <= i < |MenuItems|
  {
    match i
    case 1 => ('b', 'o') case 2 => ('t', 'r') case 3 => ('u', 's') case 4 => ('r', 'e')
    case 5 => ('c', 'r') case 6 => ('c', 'r') case 7 => ('b', 'a') case 8 => ('p', 'l')
    case _ => ('s', 'e')
  }

  lemma SectionKeyOfHref(i: int)
    requires 1 <= i < |MenuItems|
    ensures |MenuItems[i].href| > 12
    ensures SectionKey(i) == (MenuItems[i].href[11], MenuItems[i].href[12])
  {
    if i == 1 {} else if i == 2 {} else if i == 3 {} else if i == 4 {} else if i == 5 {}
    else if i == 6 {} else if i == 7 {} else if i == 8 {} else {}
  }

  /** The hrefs of the entries other than the overview are not prefixes of one another unless
      equal. */
  lemma SectionHrefsIndependent(i: int, j: int)
    requires 1 <= i < |MenuItems| && 1 <= j < |MenuItems|
    ensures StartsWith(MenuItems[j].href, MenuItems[i].href) <==> MenuItems[i].href == MenuItems[j].href
  {
    var a := MenuItems[i].href;
    var b := MenuItems[j].href;
    if StartsWith(b, a) {
      SectionKeyOfHref(i);
      SectionKeyOfHref(j);
      assert a[11] == b[11] && a[12] == b[12];
      assert SectionKey(i) == SectionKey(j);
      assert i == j || (i in {5, 6} && j in {5, 6});
    }
  }

  /** On the page an entry links to, the highlighted entries are exactly those with that same
      href: one entry, or the "Create Admin"/"Verify" pair. */
  lemma ActiveOnMenuPage(i: int, j: int)
    requires 0 <= i < |MenuItems| && 0 <= j < |MenuItems|
    ensures IsActive(MenuItems[i].href, MenuItems[j].href) <==> MenuItems[i].href == MenuItems[j].href
  {
    if j != 0 && i != 0 {
      SectionHrefsIndependent(j, i);
    }
  }

  /** The collapse button negates `isCollapsed`. */
  function Toggle(isCollapsed: bool): (r: bool)
    ensures r != isCollapsed
  {
    !isCollapsed
  }

  /** The title and the menu labels are rendered only while the sidebar is expanded. */
  predicate LabelsShown(isCollapsed: bool) {
    !isCollapsed
  }

  /** One press of the button shows hidden labels or hides shown ones; two presses restore
      the sidebar as it was. */
  lemma ToggleFlipsLabels(isCollapsed: bool)
    ensures LabelsShown(Toggle(isCollapsed)) <==> !LabelsShown(isCollapsed)
    ensures Toggle(Toggle(isCollapsed)) == isCollapsed
  {
  }
}
