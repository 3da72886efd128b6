/**
 * The header every admin page shares (base/src/risk.php, base/src/taxpayers.php,
 * base/src/analysis.php): the `user_id` session guard and the signed-in
 * admin's name and email, with fixed defaults when no admin row matches.
 */
module AdminSession {
  import opened Strings

  const AdminLogin: string := "admin_login.php"
  const DefaultName: string := "Admin User"
  const DefaultEmail: string := "admin@zra.gov.zm"

  /** A `tax_admins` row. */
  datatype Admin = Admin(id: string, fullName: string, email: string)

  /** The name and email shown in the page header, already HTML-escaped. */
  datatype Header = Header(userName: string, userEmail: string)

  /** A page is shown only when the session holds a `user_id`; otherwise it redirects to the admin login. */
  predicate SignedIn(session: map<string, string>) {
    "user_id" in session
  }

  /** `SELECT full_name, email FROM tax_admins WHERE id = ?` fetched once: the first matching row. */
  function FindAdmin(admins: seq<Admin>, id: string): (r: Option<Admin>)
    ensures r.None? <==> forall j :: 0 <= j < |admins| ==> admins[j].id != id
    ensures r.Some? ==> r.value in admins && r.value.id == id
  {
    if admins == [] then None
    else if admins[0].id == id then Some(admins[0])
    else FindAdmin(admins[1..], id)
  }

  /** The escaped name and email of the admin row, or the two defaults when there is none. */
  function HeaderOf(admin: Option<Admin>): (h: Header)
    ensures admin.None? ==> h == Header(DefaultName, DefaultEmail)
    ensures admin.Some? ==> h == Header(HtmlEscape(admin.value.fullName), HtmlEscape(admin.value.email))
    ensures '<' !in h.userName && '<' !in h.userEmail
  {
    match admin
    case None => Header(DefaultName, DefaultEmail)
    case Some(a) => Header(HtmlEscape(a.fullName), HtmlEscape(a.email))
  }
}
