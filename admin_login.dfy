/**
 * Admin sign-in, base/src/admin_login.php: two validation messages joined
 * into one error, a lookup only when both pass, three distinct failure
 * messages checked in order, and on success a regenerated session holding the
 * admin's id and name.
 *
 * `filter_var(…, FILTER_VALIDATE_EMAIL)` and `password_verify` are the
 * functions `isEmail` and `verify`; the `tax_admins` table is a sequence of
 * rows.
 */
module AdminLogin {
  import opened Strings
  import opened Php
  import Query
  import PhpSession

  const InvalidEmail: string := "Please enter a valid email address."
  const ShortPassword: string := "Please enter your password (min 8 characters)."
  const NoAccount: string := "No account found for that email."
  const BadHash: string := "Password hash is missing or invalid."
  const WrongPassword: string := "Incorrect password."
  const DefaultUserName: string := "Admin"
  const Dashboard: string := "dashboard.php"
  const UserIdKey: string := "user_id"
  const UserNameKey: string := "user_name"

  /** A `tax_admins` row; `full_name` and `password_hash` may be NULL. */
  datatype Account = Account(id: string, fullName: Option<string>, email: string, passwordHash: Option<string>)

  /** The two validation checks, in order. */
  function ValidationErrors(email: string, password: string, isEmail: string -> bool): (errors: seq<string>)
    ensures InvalidEmail in errors <==> email == [] || !isEmail(email)
    ensures ShortPassword in errors <==> |password| < 8
    ensures errors == [] <==> email != [] && isEmail(email) && |password| >= 8
  {
    (if email == [] || !isEmail(email) then [InvalidEmail] else [])
    + (if password == [] || |password| < 8 then [ShortPassword] else [])
  }

  /** With both checks failing, the one error shown is the two messages joined by a single space. */
  lemma BothMessagesJoined(email: string, password: string, isEmail: string -> bool)
    requires email == [] && |password| < 8
    ensures Implode(ValidationErrors(email, password, isEmail), " ") == InvalidEmail + " " + ShortPassword
  {
    assert ValidationErrors(email, password, isEmail) == [InvalidEmail, ShortPassword];
  }

  function EmailIs(email: string): Account -> bool {
    (a: Account) => a.email == email
  }

  /** The failure of a lookup that found `account`, in the order the page checks: no row, no hash, wrong password. */
  function Failure(account: Option<Account>, password: string, verify: (string, string) -> bool): (r: Option<string>)
    ensures account.None? ==> r == Some(NoAccount)
    ensures account.Some? && account.value.passwordHash.None? ==> r == Some(BadHash)
    ensures account.Some? && account.value.passwordHash.Some? ==>
      (r.None? <==> verify(password, account.value.passwordHash.value))
    ensures r.Some? ==> r.value in {NoAccount, BadHash, WrongPassword}
  {
    match account
    case None => Some(NoAccount)
    case Some(a) =>
      match a.passwordHash
      case None => Some(BadHash)
      case Some(h) => if verify(password, h) then None else Some(WrongPassword)
  }

  /** The page after the request: a redirect, or the form with its error (empty on a GET). */
  datatype Result = Redirect(location: string) | Form(error: string)

  /** One request: a GET shows the empty form; a POST signs in with the posted email (trimmed) and password (as sent). */
  method HandleRequest(session: PhpSession.Session, requestMethod: string, post: map<string, string>,
                       accounts: seq<Account>, isEmail: string -> bool, verify: (string, string) -> bool)
    returns (r: Result)
    modifies session
    ensures requestMethod != "POST" ==> r == Form([]) && unchanged(session)
    ensures requestMethod == "POST" ==> r == Outcome(ReadEmail(post), ReadPassword(post), accounts, isEmail, verify)
    ensures r.Form? ==> unchanged(session)
  {
    if requestMethod != "POST" {
      return Form([]);
    }
    r := SignIn(session, ReadEmail(post), ReadPassword(post), accounts, isEmail, verify);
  }

  /**
   * The POST branch. Only a verified password writes to the session: it
   * regenerates the id and stores `user_id` and `user_name` (the full name, or
   * 'Admin' when it is NULL) before the redirect.
   */
  method SignIn(session: PhpSession.Session, email: string, password: string,
                accounts: seq<Account>, isEmail: string -> bool, verify: (string, string) -> bool)
    returns (r: Result)
    modifies session
    ensures r == Outcome(email, password, accounts, isEmail, verify)
    ensures r.Form? ==> unchanged(session)
    ensures r.Redirect? ==> session.generation == old(session.generation) + 1
    ensures r.Redirect? ==> Query.First(accounts, EmailIs(email)).Some?
    ensures r.Redirect? ==>
      var a := Query.First(accounts, EmailIs(email)).value;
      session.values == old(session.values)[UserIdKey := a.id][UserNameKey := Coalesce(a.fullName, DefaultUserName)]
  {
    var errors := ValidationErrors(email, password, isEmail);
    if errors != [] {
      return Form(Implode(errors, " "));
    }
    var account := Query.First(accounts, EmailIs(email));
    var failure := Failure(account, password, verify);
    if failure.Some? {
      return Form(failure.value);
    }
    session.Regenerate();
    session.Put(UserIdKey, account.value.id);
    session.Put(UserNameKey, Coalesce(account.value.fullName, DefaultUserName));
    r := Redirect(Dashboard);
  }

  /** `trim($_POST['email'] ?? '')`. */
  function ReadEmail(post: map<string, string>): string {
    PhpTrim(Coalesce(if "email" in post then Some(post["email"]) else None, ""))
  }

  /** `$_POST['password'] ?? ''`, not trimmed. */
  function ReadPassword(post: map<string, string>): string {
    Coalesce(if "password" in post then Some(post["password"]) else None, "")
  }

  /**
   * The outcome of a POST: the joined validation messages without any lookup;
   * otherwise the first row with that email decides between the three
   * failures and the redirect to the dashboard.
   */
  function Outcome(email: string, password: string, accounts: seq<Account>,
                   isEmail: string -> bool, verify: (string, string) -> bool): (r: Result)
    ensures ValidationErrors(email, password, isEmail) != [] ==> r == Form(Implode(ValidationErrors(email, password, isEmail), " "))
    ensures r == Redirect(Dashboard) <==>
      && ValidationErrors(email, password, isEmail) == []
      && Query.First(accounts, EmailIs(email)).Some?
      && Failure(Query.First(accounts, EmailIs(email)), password, verify).None?
  {
    var errors := ValidationErrors(email, password, isEmail);
    if errors != [] then Form(Implode(errors, " "))
    else
      var failure := Failure(Query.First(accounts, EmailIs(email)), password, verify);
      if failure.Some? then Form(failure.value) else Redirect(Dashboard)
  }

  /** The validation outcome does not depend on the table: nothing is looked up until both checks pass. */
  lemma NoLookupOnInvalidInput(email: string, password: string, a1: seq<Account>, a2: seq<Account>,
                               isEmail: string -> bool, verify: (string, string) -> bool)
    requires ValidationErrors(email, password, isEmail) != []
    ensures Outcome(email, password, a1, isEmail, verify) == Outcome(email, password, a2, isEmail, verify)
    ensures Outcome(email, password, a1, isEmail, verify).Form?
  {
  }

  /** Signing in needs an account row with that email whose hash is present and verifies. */
  lemma SignInNeedsVerifiedHash(email: string, password: string, accounts: seq<Account>,
                                isEmail: string -> bool, verify: (string, string) -> bool)
    requires Outcome(email, password, accounts, isEmail, verify).Redirect?
    ensures exists i :: (0 <= i < |accounts| && accounts[i].email == email && accounts[i].passwordHash.Some? && verify(password, accounts[i].passwordHash.value))
  {
    var a := Query.First(accounts, EmailIs(email));
    var k :| 0 <= k < |accounts| && accounts[k] == a.value && EmailIs(email)(accounts[k]) && forall j :: 0 <= j < k ==> !EmailIs(email)(accounts[j]);
    assert accounts[k].email == email;
  }
}
