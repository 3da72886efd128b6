/**
 * The admin navigation, base/src/includes/sidebar.php: the current page
 * (given by the including page or taken from the script path), the ten links
 * of which the one whose href is the current page is marked active, and the
 * escaped name and email in the footer.
 */
module AdminSidebar {
  import opened Strings
  import opened Php

  const DefaultName: string := "Admin User"
  const DefaultEmail: string := "admin@example.com"

  datatype Link = Link(href: string, caption: string)

  /** The ten links, in menu order. */
  const Links: seq<Link> := [
    Link("dashboard.php", "Overview"), Link("analysis.php", "Analytics"),
    Link("assessments.php", "Risk Assessments"), Link("taxpayers.php", "Taxpayers"),
    Link("compliance.php", "Compliance"), Link("alerts.php", "Alerts"),
    Link("reports.php", "Reports"), Link("users.php", "User Management"),
    Link("audit.php", "Audit Logs"), Link("settings.php", "Settings")]

  /** PHP `basename`: the part after the last '/', once trailing slashes are dropped. */
  function BaseName(path: string): (b: string)
    ensures '/' !in b
  {
    LastSegment(TrimRight(path, IsSlash), '/')
  }

  predicate IsSlash(c: char) { c == '/' }

  /** `$currentPage` as the including page set it, else the basename of `PHP_SELF`. */
  function CurrentPage(given: Option<string>, phpSelf: string): (p: string)
    ensures given.Some? ==> p == given.value
    ensures given.None? ==> p == BaseName(phpSelf)
  {
    match given
    case Some(page) => page
    case None => BaseName(phpSelf)
  }

  /** A rendered link: its href, its caption and whether it carries the `active` class. */
  datatype NavItem = NavItem(href: string, caption: string, active: bool)

  /** One conditional per link: active exactly when its href is the current page. */
  function Nav(currentPage: string): (items: seq<NavItem>)
    ensures |items| == |Links|
    ensures forall i :: 0 <= i < |items| ==> items[i].href == Links[i].href && items[i].caption == Links[i].caption
    ensures forall i :: 0 <= i < |items| ==> (items[i].active <==> Links[i].href == currentPage)
  {
    seq(|Links|, i requires 0 <= i < |Links| => NavItem(Links[i].href, Links[i].caption, Links[i].href == currentPage))
  }

  /** The indices of the active links. */
  function ActiveIndices(items: seq<NavItem>): set<nat> {
    set i: nat | i < |items| && items[i].active
  }

  /** No two links share an href. */
  lemma HrefsDistinct()
    ensures forall i, j :: 0 <= i < j < |Links| ==> Links[i].href != Links[j].href
  {
  }

  /** At most one link is active, whatever the current page. */
  lemma AtMostOneActive(currentPage: string)
    ensures |ActiveIndices(Nav(currentPage))| <= 1
  {
    var items := Nav(currentPage);
    HrefsDistinct();
    if k :| 0 <= k < |items| && items[k].active {
      assert ActiveIndices(items) <= {k};
      assert |{k}| == 1;
      SubsetSize(ActiveIndices(items), {k});
    } else {
      assert ActiveIndices(items) == {};
    }
  }

  lemma SubsetSize(a: set<nat>, b: set<nat>)
    requires a <= b
    ensures |a| <= |b|
  {
    assert b == a + (b - a);
  }

  /** A current page that is none of the ten hrefs leaves every link inactive. */
  lemma NoMatchNoActive(currentPage: string)
    requires forall i :: 0 <= i < |Links| ==> Links[i].href != currentPage
    ensures ActiveIndices(Nav(currentPage)) == {}
  {
  }

  /** The footer's name and email: the given values or the defaults, HTML-escaped. */
  function Footer(adminName: Option<string>, adminEmail: Option<string>): (f: (string, string))
    ensures f.0 == HtmlEscape(Coalesce(adminName, DefaultName))
    ensures f.1 == HtmlEscape(Coalesce(adminEmail, DefaultEmail))
    ensures '<' !in f.0 && '<' !in f.1
  {
    (HtmlEscape(Coalesce(adminName, DefaultName)), HtmlEscape(Coalesce(adminEmail, DefaultEmail)))
  }
}
