/**
 * Business sign-in, base/businesses/business_login.php: both fields required
 * under PHP truthiness, one lookup in `biz_businesses` by email, a single
 * message for every other failure, and on success a regenerated session
 * holding the business's id, name and email.
 *
 * `password_verify` is the function `verify`; the table is a sequence of rows.
 */
module BusinessLogin {
  import opened Strings
  import opened Php
  import Query
  import PhpSession

  const BothRequired: string := "Both email and TPIN are required."
  const InvalidCredentials: string := "Invalid email or TPIN."
  const BusinessDashboard: string := "business_dashboard.php"
  const IdKey: string := "business_id"
  const NameKey: string := "business_name"
  const EmailKey: string := "business_email"

  /** A `biz_businesses` row. */
  datatype Business = Business(businessId: string, businessName: string, email: string, tpinHash: string)

  datatype Result = Redirect(location: string) | Form(error: string)

  function EmailIs(email: string): Business -> bool {
    (b: Business) => b.email == email
  }

  /** `trim($_POST[key] ?? '')`. */
  function Field(post: map<string, string>, key: string): string {
    PhpTrim(Coalesce(if key in post then Some(post[key]) else None, ""))
  }

  /**
   * The outcome of a POST: the required message when either field is falsy,
   * otherwise the redirect exactly when the first business with that email has
   * a hash the TPIN verifies against, and the one invalid message in every
   * other case.
   */
  function Outcome(email: string, tpin: string, rows: seq<Business>, verify: (string, string) -> bool): (r: Result)
    ensures !(Truthy(email) && Truthy(tpin)) ==> r == Form(BothRequired)
    ensures Truthy(email) && Truthy(tpin) ==>
      (r == Redirect(BusinessDashboard) <==> Query.First(rows, EmailIs(email)).Some? && verify(tpin, Query.First(rows, EmailIs(email)).value.tpinHash))
    ensures Truthy(email) && Truthy(tpin) && r.Form? ==> r == Form(InvalidCredentials)
  {
    if !(Truthy(email) && Truthy(tpin)) then Form(BothRequired)
    else
      var business := Query.First(rows, EmailIs(email));
      if business.Some? && verify(tpin, business.value.tpinHash) then Redirect(BusinessDashboard) else Form(InvalidCredentials)
  }

  /** A TPIN of '0' is treated as missing, so it is never looked up. */
  lemma ZeroTpinRequired(email: string, rows: seq<Business>, verify: (string, string) -> bool)
    ensures Outcome(email, "0", rows, verify) == Form(BothRequired)
  {
    assert !Truthy("0");
  }

  /** One request; a GET shows the empty form, a POST reads the trimmed email and TPIN. */
  method HandleRequest(session: PhpSession.Session, requestMethod: string, post: map<string, string>,
                       rows: seq<Business>, verify: (string, string) -> bool)
    returns (r: Result)
    modifies session
    ensures requestMethod != "POST" ==> r == Form([]) && unchanged(session)
    ensures requestMethod == "POST" ==> r == Outcome(Field(post, "email"), Field(post, "tpin"), rows, verify)
    ensures r.Form? ==> unchanged(session)
  {
    if requestMethod != "POST" {
      return Form([]);
    }
    r := SignIn(session, Field(post, "email"), Field(post, "tpin"), rows, verify);
  }

  /** The POST branch: only a verified TPIN regenerates the session and stores the business's id, name and email. */
  method SignIn(session: PhpSession.Session, email: string, tpin: string, rows: seq<Business>, verify: (string, string) -> bool)
    returns (r: Result)
    modifies session
    ensures r == Outcome(email, tpin, rows, verify)
    ensures r.Form? ==> unchanged(session)
    ensures r.Redirect? ==> Query.First(rows, EmailIs(email)).Some?
    ensures r.Redirect? ==> session.generation == old(session.generation) + 1
    ensures r.Redirect? ==>
      var b := Query.First(rows, EmailIs(email)).value;
      session.values == old(session.values)[IdKey := b.businessId][NameKey := b.businessName][EmailKey := b.email]
  {
    if !(Truthy(email) && Truthy(tpin)) {
      return Form(BothRequired);
    }
    var business := Query.First(rows, EmailIs(email));
    if business.Some? && verify(tpin, business.value.tpinHash) {
      session.Regenerate();
      session.Put(IdKey, business.value.businessId);
      session.Put(NameKey, business.value.businessName);
      session.Put(EmailKey, business.value.email);
      return Redirect(BusinessDashboard);
    }
    r := Form(InvalidCredentials);
  }
}
