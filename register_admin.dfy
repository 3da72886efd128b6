/**
 * Admin registration, base/src/register_admin.php: four independent checks
 * that each add their own message, then one insert into `tax_admins`, which is
 * attempted only when no check failed and which sets the success flag only
 * when it goes through.
 *
 * `filter_var(…, FILTER_VALIDATE_EMAIL)` and `password_hash` are the functions
 * `isEmail` and `hash`; a failing insert is given as the `PDOException` it
 * throws.
 */
module RegisterAdmin {
  import opened Strings
  import opened Php

  const NameRequired: string := "Full name is required."
  const EmailRequired: string := "Valid email is required."
  const PasswordTooShort: string := "Password must be at least 8 characters."
  const PasswordMismatch: string := "Passwords do not match."
  const EmailTaken: string := "That email is already registered."
  const DatabaseErrorPrefix: string := "Database error: "

  /** The SQLSTATE of an integrity constraint violation, such as the UNIQUE email. */
  const IntegrityViolation: string := "23000"

  const MinPasswordLength: nat := 8

  /** The posted fields: name and email trimmed, the two passwords as sent. */
  datatype Form = Form(fullName: string, email: string, password: string, passwordConfirm: string)

  function ReadForm(post: map<string, string>): (f: Form)
    ensures f.fullName == PhpTrim(Coalesce(if "full_name" in post then Some(post["full_name"]) else None, ""))
    ensures f.email == PhpTrim(Coalesce(if "email" in post then Some(post["email"]) else None, ""))
    ensures f.password == Coalesce(if "password" in post then Some(post["password"]) else None, "")
    ensures f.passwordConfirm == Coalesce(if "password_confirm" in post then Some(post["password_confirm"]) else None, "")
  {
    Form(
      PhpTrim(Coalesce(if "full_name" in post then Some(post["full_name"]) else None, "")),
      PhpTrim(Coalesce(if "email" in post then Some(post["email"]) else None, "")),
      Coalesce(if "password" in post then Some(post["password"]) else None, ""),
      Coalesce(if "password_confirm" in post then Some(post["password_confirm"]) else None, ""))
  }

  /** The four checks, in the order they run; each failing one contributes its message. */
  function ValidationErrors(f: Form, isEmail: string -> bool): (errors: seq<string>)
    ensures NameRequired in errors <==> f.fullName == []
    ensures EmailRequired in errors <==> f.email == [] || !isEmail(f.email)
    ensures PasswordTooShort in errors <==> |f.password| < MinPasswordLength
    ensures PasswordMismatch in errors <==> f.password != f.passwordConfirm
    ensures errors == [] <==> f.fullName != [] && f.email != [] && isEmail(f.email) && |f.password| >= MinPasswordLength && f.password == f.passwordConfirm
    ensures |errors| <= 4
  {
    Check(f.fullName == [], NameRequired)
    + Check(f.email == [] || !isEmail(f.email), EmailRequired)
    + Check(|f.password| < MinPasswordLength, PasswordTooShort)
    + Check(f.password != f.passwordConfirm, PasswordMismatch)
  }

  /** One check's contribution: its message when it fails. */
  function Check(failed: bool, message: string): (r: seq<string>)
    ensures message in r <==> failed
    ensures |r| <= 1
  {
    if failed then [message] else []
  }

  /** Several checks can fail at once: a blank name with a short, mismatched password gives three messages, in check order. */
  lemma ErrorsCoOccur(isEmail: string -> bool)
    requires isEmail("a@b.zm")
    ensures ValidationErrors(Form([], "a@b.zm", "short", "shorter"), isEmail) == [NameRequired, PasswordTooShort, PasswordMismatch]
  {
    assert |"short"| == 5;
  }

  /** The four `if`s of the POST branch, each appending its message when its check fails. */
  method Validate(f: Form, isEmail: string -> bool) returns (errors: seq<string>)
    ensures errors == ValidationErrors(f, isEmail)
  {
    errors := [];
    if f.fullName == [] {
      errors := errors + [NameRequired];
    }
    assert errors == Check(f.fullName == [], NameRequired);
    if f.email == [] || !isEmail(f.email) {
      errors := errors + [EmailRequired];
    }
    ghost var upToEmail := errors;
    if |f.password| < MinPasswordLength {
      errors := errors + [PasswordTooShort];
    }
    assert errors == upToEmail + Check(|f.password| < MinPasswordLength, PasswordTooShort);
    if f.password != f.passwordConfirm {
      errors := errors + [PasswordMismatch];
    }
  }

  /** A `tax_admins` row. */
  datatype AdminRow = AdminRow(fullName: string, email: string, passwordHash: string)

  /** The `PDOException` the insert throws, if it throws: its SQLSTATE code and message. */
  datatype InsertFailure = NoFailure | Throws(code: string, message: string)

  /** The message of a failed insert: the duplicate email for an integrity violation, the database error otherwise. */
  function FailureMessage(code: string, message: string): (m: string)
    ensures code == IntegrityViolation ==> m == EmailTaken
    ensures code != IntegrityViolation ==> m == DatabaseErrorPrefix + message
  {
    if code == IntegrityViolation then EmailTaken else DatabaseErrorPrefix + message
  }

  /** What the page shows: the error list and whether the success alert appears. */
  datatype Outcome = Outcome(errors: seq<string>, success: bool)

  /** The `tax_admins` table the page inserts into. */
  class AdminTable {
    var rows: seq<AdminRow>

    constructor (rows: seq<AdminRow>)
      ensures this.rows == rows
    {
      this.rows := rows;
    }

    /**
     * One request. A GET shows nothing. A POST runs the four checks, appending
     * each failing one's message; with no message it hashes the password and
     * inserts the admin, and only a completed insert sets success.
     */
    method HandleRequest(requestMethod: string, post: map<string, string>, isEmail: string -> bool,
                         hash: string -> string, failure: InsertFailure) returns (out: Outcome)
      modifies this
      ensures requestMethod != "POST" ==> out == Outcome([], false) && rows == old(rows)
      ensures requestMethod == "POST" && ValidationErrors(ReadForm(post), isEmail) != [] ==>
        out == Outcome(ValidationErrors(ReadForm(post), isEmail), false) && rows == old(rows)
      ensures requestMethod == "POST" && ValidationErrors(ReadForm(post), isEmail) == [] && failure.NoFailure? ==>
        out == Outcome([], true) && rows == old(rows) + [AdminRow(ReadForm(post).fullName, ReadForm(post).email, hash(ReadForm(post).password))]
      ensures requestMethod == "POST" && ValidationErrors(ReadForm(post), isEmail) == [] && failure.Throws? ==>
        out == Outcome([FailureMessage(failure.code, failure.message)], false) && rows == old(rows)
      ensures out.success <==> out.errors == [] && rows != old(rows)
    {
      if requestMethod != "POST" {
        return Outcome([], false);
      }
      var form := ReadForm(post);
      out := Register(form, isEmail, hash, failure);
    }

    /** The POST branch on the read form. */
    method Register(form: Form, isEmail: string -> bool, hash: string -> string, failure: InsertFailure) returns (out: Outcome)
      modifies this
      ensures ValidationErrors(form, isEmail) != [] ==> out == Outcome(ValidationErrors(form, isEmail), false) && rows == old(rows)
      ensures ValidationErrors(form, isEmail) == [] && failure.NoFailure? ==>
        out == Outcome([], true) && rows == old(rows) + [AdminRow(form.fullName, form.email, hash(form.password))]
      ensures ValidationErrors(form, isEmail) == [] && failure.Throws? ==>
        out == Outcome([FailureMessage(failure.code, failure.message)], false) && rows == old(rows)
      ensures out.success <==> out.errors == [] && rows != old(rows)
    {
      var errors := Validate(form, isEmail);
      var success := false;
      if errors == [] {
        var passwordHash := hash(form.password);
        match failure
        case NoFailure =>
          rows := rows + [AdminRow(form.fullName, form.email, passwordHash)];
          success := true;
        case Throws(code, message) =>
          errors := errors + [FailureMessage(code, message)];
      }
      out := Outcome(errors, success);
    }
  }
}
