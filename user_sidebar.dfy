/**
 * The taxpayer navigation, base/Users/includes/user_sidebar.php: six menu
 * items, each with its own test of the current page. The Dashboard item tests
 * a file name other than the one it links to, and Logout has no test at all.
 */
module UserSidebar {
  import opened Strings
  import AdminSidebar

  /** A menu item: its link, its caption, and the page name its `active` test compares against, if it has one. */
  datatype Item = Item(href: string, caption: string, activeOn: Option<string>)

  const DashboardPage: string := "dashboard.php"

  const Items: seq<Item> := [
    Item(DashboardPage, "Dashboard", Some("user_dashboard.php")),
    Item("filings.php", "Returns", Some("filings.php")),
    Item("payments.php", "Payments", Some("payments.php")),
    Item("compliance.php", "Compliance", Some("compliance.php")),
    Item("profile.php", "Profile", Some("profile.php")),
    Item("logout.php", "Logout", None)]

  /** `$currentPage` as given, else the basename of `PHP_SELF`. */
  function CurrentPage(given: Option<string>, phpSelf: string): (p: string)
    ensures given.None? ==> p == AdminSidebar.BaseName(phpSelf)
    ensures given.Some? ==> p == given.value
  {
    AdminSidebar.CurrentPage(given, phpSelf)
  }

  /** The `active` flag of each item for the current page. */
  function ActiveFlags(currentPage: string): (flags: seq<bool>)
    ensures |flags| == |Items|
    ensures forall i :: 0 <= i < |flags| ==> (flags[i] <==> Items[i].activeOn == Some(currentPage))
  {
    seq(|Items|, i requires 0 <= i < |Items| => Items[i].activeOn == Some(currentPage))
  }

  /** Returns, Payments, Compliance and Profile are active exactly on their own page. */
  lemma LinkedItemsActiveOnOwnPage(currentPage: string, i: nat)
    requires 1 <= i <= 4
    ensures ActiveFlags(currentPage)[i] <==> currentPage == Items[i].href
  {
  }

  /** On the dashboard page itself the Dashboard item is not active: its test names 'user_dashboard.php'. */
  lemma DashboardNeverActiveOnDashboard()
    ensures Items[0].href == DashboardPage
    ensures forall i :: 0 <= i < |Items| ==> !ActiveFlags(DashboardPage)[i]
  {
    var flags := ActiveFlags(DashboardPage);
    assert Some(DashboardPage) != Some("user_dashboard.php");
    forall i | 0 <= i < |Items|
      ensures !flags[i]
    {
      assert Items[i].activeOn != Some(DashboardPage);
    }
  }

  /** Logout is never active. */
  lemma LogoutNeverActive(currentPage: string)
    ensures !ActiveFlags(currentPage)[5]
  {
  }
}
