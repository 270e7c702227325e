/** The sidebar's navigation table and its role filter (src/components/layout/sidebar-nav.tsx). */
module SidebarNav {
  import opened Seqs
  import opened AuthContext

  datatype NavItem = NavItem(title: string, href: string, requiresManager: bool)

  const NavItems: seq<NavItem> := [
    NavItem("Dashboard", "/dashboard", false),
    NavItem("Projects", "/projects", false),
    NavItem("Tasks", "/tasks", false),
    NavItem("Reports", "/reports", false),
    NavItem("Users", "/users", true),
    NavItem("Settings", "/settings", false)
  ]

  /** `navItems.filter(item => !item.requiresManager || isManager)`. */
  function VisibleItems(isManager: bool): (r: seq<NavItem>)
    ensures forall item :: item in r <==> item in NavItems && (!item.requiresManager || isManager)
  {
    Filter(NavItems, (item: NavItem) => !item.requiresManager || isManager)
  }

  /** The items the current session sees. */
  function SessionItems(s: Session): seq<NavItem>
  {
    VisibleItems(IsManager(s))
  }

  /** Six items; only "Users" is reserved to managers. */
  lemma NavTable()
    ensures |NavItems| == 6
    ensures forall i :: 0 <= i < |NavItems| ==>
      (NavItems[i].requiresManager <==> NavItems[i].title == "Users")
  {
  }

  /** A manager sees the whole table in order. */
  lemma ManagerSeesAll(s: Session)
    requires IsManager(s)
    ensures SessionItems(s) == NavItems
  {
    FilterAll(NavItems, (item: NavItem) => !item.requiresManager || true);
  }

  /** Anyone else sees the five unrestricted items in table order. */
  lemma OthersSeeFive(s: Session)
    requires !IsManager(s)
    ensures SessionItems(s) == NavItems[..4] + NavItems[5..]
    ensures |SessionItems(s)| == 5
  {
    var keep := (item: NavItem) => !item.requiresManager || false;
    var tail := NavItems[4..];
    assert tail == [NavItems[4]] + NavItems[5..];
    assert Filter(tail, keep) == NavItems[5..] by {
      FilterAll(NavItems[5..], keep);
    }
    assert Filter(NavItems[..4], keep) == NavItems[..4] by {
      FilterAll(NavItems[..4], keep);
    }
    FilterAppend(NavItems[..4], tail, keep);
    assert NavItems == NavItems[..4] + tail;
  }

  /** What is shown is always the table with some items dropped, never reordered. */
  lemma ShownIsSubsequence(isManager: bool)
    ensures IsSubsequence(VisibleItems(isManager), NavItems)
  {
    FilterIsSubsequence(NavItems, (item: NavItem) => !item.requiresManager || isManager);
  }

  /** The "Dashboard" link is offered to non-managers too. */
  lemma DashboardOfferedToEveryone(isManager: bool)
    ensures NavItem("Dashboard", "/dashboard", false) in VisibleItems(isManager)
  {
    assert NavItems[0] == NavItem("Dashboard", "/dashboard", false);
  }
}
