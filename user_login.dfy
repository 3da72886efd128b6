/**
 * Individual taxpayer sign-in, base/src/login.php: both fields required under
 * PHP truthiness, one lookup of the individual and its TPIN hash by email, a
 * single message for an unknown email and a wrong TPIN alike, and on success a
 * regenerated session holding the individual's id and full name.
 *
 * `password_verify` is the function `verify`; the join of `individuals` with
 * `tpin_hashes` is a sequence of rows.
 */
module UserLogin {
  import opened Strings
  import opened Php
  import Query
  import PhpSession

  const BothRequired: string := "Both email and TPIN are required."
  const InvalidCredentials: string := "Invalid email or TPIN."
  const UserDashboard: string := "../users/dashboard.php"
  const UserIdKey: string := "user_id"
  const UserNameKey: string := "user_name"

  /** A row of `individuals JOIN tpin_hashes`. */
  datatype Individual = Individual(individualId: string, firstName: string, lastName: string, email: string, tpinHash: string)

  datatype Result = Redirect(location: string) | Form(error: string)

  function EmailIs(email: string): Individual -> bool {
    (i: Individual) => i.email == email
  }

  /** `trim($_POST[key] ?? '')`. */
  function Field(post: map<string, string>, key: string): string {
    PhpTrim(Coalesce(if key in post then Some(post[key]) else None, ""))
  }

  /** The name stored in the session: first and last name with one space between. */
  function DisplayName(i: Individual): (name: string)
    ensures |name| == |i.firstName| + 1 + |i.lastName|
    ensures name[..|i.firstName|] == i.firstName && name[|i.firstName|] == ' ' && name[|i.firstName| + 1..] == i.lastName
  {
    i.firstName + " " + i.lastName
  }

  /**
   * The outcome of a POST: the required message when either field is falsy,
   * otherwise the redirect exactly when the first row with that email has a
   * hash the TPIN verifies against.
   */
  function Outcome(email: string, tpin: string, rows: seq<Individual>, verify: (string, string) -> bool): (r: Result)
    ensures !(Truthy(email) && Truthy(tpin)) ==> r == Form(BothRequired)
    ensures Truthy(email) && Truthy(tpin) ==>
      (r == Redirect(UserDashboard) <==> Query.First(rows, EmailIs(email)).Some? && verify(tpin, Query.First(rows, EmailIs(email)).value.tpinHash))
    ensures Truthy(email) && Truthy(tpin) && r.Form? ==> r == Form(InvalidCredentials)
  {
    if !(Truthy(email) && Truthy(tpin)) then Form(BothRequired)
    else
      var user := Query.First(rows, EmailIs(email));
      if user.Some? && verify(tpin, user.value.tpinHash) then Redirect(UserDashboard) else Form(InvalidCredentials)
  }

  /** An unknown email and a wrong TPIN for a known one give the same message. */
  lemma SameMessageForUnknownEmailAndWrongTpin(email: string, tpin: string, rows: seq<Individual>, verify: (string, string) -> bool)
    requires Truthy(email) && Truthy(tpin)
    requires forall i :: 0 <= i < |rows| ==> rows[i].email != email
    ensures Outcome(email, tpin, rows, verify) == Form(InvalidCredentials)
  {
    assert Query.First(rows, EmailIs(email)).None?;
  }

  /** Only the first row for an email is consulted: a later row with the same email and a matching hash does not sign in. */
  lemma OnlyFirstRowCounts(first: Individual, later: Individual, tpin: string, verify: (string, string) -> bool)
    requires first.email == later.email && Truthy(first.email) && Truthy(tpin)
    requires !verify(tpin, first.tpinHash) && verify(tpin, later.tpinHash)
    ensures Outcome(first.email, tpin, [first, later], verify) == Form(InvalidCredentials)
  {
    assert EmailIs(first.email)(first);
  }

  /** One request; a GET shows the empty form, a POST reads the trimmed email and TPIN. */
  method HandleRequest(session: PhpSession.Session, requestMethod: string, post: map<string, string>,
                       rows: seq<Individual>, verify: (string, string) -> bool)
    returns (r: Result)
    modifies session
    ensures requestMethod != "POST" ==> r == Form([]) && unchanged(session)
    ensures requestMethod == "POST" ==> r == Outcome(Field(post, "email"), Field(post, "tpin"), rows, verify)
    ensures r.Form? ==> unchanged(session)
  {
    if requestMethod != "POST" {
      return Form([]);
    }
    r := SignIn(session, Field(post, "email"), Field(post, "tpin"), rows, verify);
  }

  /** The POST branch: only a verified TPIN regenerates the session and stores the individual's id and name. */
  method SignIn(session: PhpSession.Session, email: string, tpin: string, rows: seq<Individual>, verify: (string, string) -> bool)
    returns (r: Result)
    modifies session
    ensures r == Outcome(email, tpin, rows, verify)
    ensures r.Form? ==> unchanged(session)
    ensures r.Redirect? ==> Query.First(rows, EmailIs(email)).Some?
    ensures r.Redirect? ==> session.generation == old(session.generation) + 1
    ensures r.Redirect? ==>
      var user := Query.First(rows, EmailIs(email)).value;
      session.values == old(session.values)[UserIdKey := user.individualId][UserNameKey := DisplayName(user)]
  {
    if !(Truthy(email) && Truthy(tpin)) {
      return Form(BothRequired);
    }
    var user := Query.First(rows, EmailIs(email));
    if user.Some? && verify(tpin, user.value.tpinHash) {
      session.Regenerate();
      session.Put(UserIdKey, user.value.individualId);
      session.Put(UserNameKey, DisplayName(user.value));
      return Redirect(UserDashboard);
    }
    r := Form(InvalidCredentials);
  }
}
