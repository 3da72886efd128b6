/**
 * Taxpayer registration, base/src/register.php: the validation of the
 * individual and business forms under PHP truthiness, the individual's three
 * inserts in one transaction, and the business's duplicate check, which is
 * followed by the redirect whether or not a row was inserted.
 *
 * `filter_var(…, FILTER_VALIDATE_EMAIL)` and `password_hash` are given as the
 * functions `isEmail` and `hash`. A database failure is given as a `Fault`: the
 * number of the statement that throws, and its message.
 */
module Register {
  import opened Strings
  import opened Php
  import Query

  /** `trim($_POST[key] ?? '')`. */
  function Field(post: map<string, string>, key: string): (v: string)
    ensures key !in post ==> v == []
    ensures key in post ==> v == PhpTrim(post[key])
  {
    PhpTrim(Coalesce(if key in post then Some(post[key]) else None, ""))
  }

  const FirstNameKey: string := "first_name"
  const LastNameKey: string := "last_name"
  const BusinessNameKey: string := "business_name"
  const EmailKey: string := "email"
  const TpinKey: string := "tpin"
  const TpinConfirmKey: string := "tpin_confirm"

  /** The trimmed fields of a form; `name` is the first name or the business name, `lastName` is unused for a business. */
  datatype Form = Form(name: string, lastName: string, email: string, tpin: string, tpinConfirm: string)

  function IndividualForm(post: map<string, string>): (f: Form)
    ensures f.name == Field(post, FirstNameKey) && f.lastName == Field(post, LastNameKey)
    ensures f.email == Field(post, EmailKey) && f.tpin == Field(post, TpinKey) && f.tpinConfirm == Field(post, TpinConfirmKey)
  {
    Form(Field(post, FirstNameKey), Field(post, LastNameKey), Field(post, EmailKey), Field(post, TpinKey), Field(post, TpinConfirmKey))
  }

  function BusinessForm(post: map<string, string>): (f: Form)
    ensures f.name == Field(post, BusinessNameKey) && f.lastName == []
    ensures f.email == Field(post, EmailKey) && f.tpin == Field(post, TpinKey) && f.tpinConfirm == Field(post, TpinConfirmKey)
  {
    Form(Field(post, BusinessNameKey), [], Field(post, EmailKey), Field(post, TpinKey), Field(post, TpinConfirmKey))
  }

  /** The individual form passes: first name, last name and TPIN truthy, a valid email, and the TPIN confirmed. */
  predicate IndividualAccepted(f: Form, isEmail: string -> bool) {
    Truthy(f.name) && Truthy(f.lastName) && isEmail(f.email) && Truthy(f.tpin) && f.tpin == f.tpinConfirm
  }

  /** The business form passes: business name and TPIN truthy, a valid email, and the TPIN confirmed. */
  predicate BusinessAccepted(f: Form, isEmail: string -> bool) {
    Truthy(f.name) && isEmail(f.email) && Truthy(f.tpin) && f.tpin == f.tpinConfirm
  }

  /** A TPIN that is '0' or white space only counts as missing, so neither form passes. */
  lemma FalsyTpinRejected(post: map<string, string>, isEmail: string -> bool)
    requires TpinKey in post
    requires PhpTrim(post[TpinKey]) == "0" || forall i :: 0 <= i < |post[TpinKey]| ==> PhpSpace(post[TpinKey][i])
    ensures !IndividualAccepted(IndividualForm(post), isEmail) && !BusinessAccepted(BusinessForm(post), isEmail)
  {
    if PhpTrim(post[TpinKey]) != "0" {
      assert Field(post, TpinKey) == [];
    }
  }

  datatype TaxpayerRow = TaxpayerRow(tpin: string, taxpayerType: string, registrationDate: string, status: string, email: string)
  datatype IndividualRow = IndividualRow(individualId: nat, tpin: string, firstName: string, lastName: string, email: string)
  datatype HashRow = HashRow(individualId: nat, tpinHash: string)
  datatype BusinessRow = BusinessRow(businessName: string, tpin: string, email: string, tpinHash: string)

  /** Which statement of the request throws a `PDOException`, if any, and its message. */
  datatype Fault = NoFault | FailsAt(step: nat, message: string)

  predicate Fails(fault: Fault, step: nat) {
    fault.FailsAt? && fault.step == step
  }

  const IndividualError: string := "Please fill all individual fields correctly."
  const BusinessError: string := "Please fill all business fields correctly."
  const DuplicateBusiness: string := "This TPIN is already registered as a business. Please log in instead."
  const UserLogin: string := "user_login.php"
  const BusinessLogin: string := "../businesses/business_login.php"

  /** The outcome of one request: the error list and the redirect, if the handler exited with one. */
  datatype Outcome = Outcome(errors: seq<string>, redirect: Option<string>)

  /** The tables the handler writes. */
  class Store {
    var taxpayers: seq<TaxpayerRow>
    var individuals: seq<IndividualRow>
    var tpinHashes: seq<HashRow>
    var businesses: seq<BusinessRow>
    var nextIndividualId: nat   // the AUTO_INCREMENT counter of `individuals`

    constructor ()
      ensures taxpayers == [] && individuals == [] && tpinHashes == [] && businesses == []
      ensures nextIndividualId == 1
    {
      taxpayers, individuals, tpinHashes, businesses := [], [], [], [];
      nextIndividualId := 1;
    }

    /**
     * A POST request: 'individual' and 'business' run their own branch; any other
     * account type, and any other method, does nothing and reports nothing.
     */
    method HandleRequest(requestMethod: string, post: map<string, string>, isEmail: string -> bool,
                         hash: string -> string, today: string, fault: Fault) returns (out: Outcome)
      modifies this
      ensures requestMethod != "POST" || Coalesce(if "account_type" in post then Some(post["account_type"]) else None, "") !in {"individual", "business"} ==>
        out == Outcome([], None) && unchanged(this)
    {
      out := Outcome([], None);
      if requestMethod == "POST" {
        var accountType := Coalesce(if "account_type" in post then Some(post["account_type"]) else None, "");
        if accountType == "individual" {
          out := RegisterIndividual(IndividualForm(post), isEmail, hash, today, fault);
        } else if accountType == "business" {
          out := RegisterBusiness(BusinessForm(post), isEmail, hash, fault);
        }
      }
    }

    /**
     * The individual branch, given the trimmed fields. A rejected form gets the one generic error and no
     * insert. An accepted one inserts the taxpayer, the individual and the TPIN
     * hash in one transaction: all three rows and the redirect to the user
     * login, or, when a statement throws, none of the rows and one error.
     */
    method RegisterIndividual(form: Form, isEmail: string -> bool, hash: string -> string,
                              today: string, fault: Fault) returns (out: Outcome)
      modifies this`taxpayers, this`individuals, this`tpinHashes, this`nextIndividualId
      ensures !IndividualAccepted(form, isEmail) ==>
        out == Outcome([IndividualError], None) && unchanged(this)
      ensures IndividualAccepted(form, isEmail) && !InTransaction(fault) ==>
        out == Outcome([], Some(UserLogin))
      ensures IndividualAccepted(form, isEmail) && !InTransaction(fault) ==>
        taxpayers == old(taxpayers) + [TaxpayerOf(form, today)]
      ensures IndividualAccepted(form, isEmail) && !InTransaction(fault) ==>
        individuals == old(individuals) + [IndividualOf(old(nextIndividualId), form)]
      ensures IndividualAccepted(form, isEmail) && !InTransaction(fault) ==>
        tpinHashes == old(tpinHashes) + [HashRow(old(nextIndividualId), hash(form.tpin))]
      ensures IndividualAccepted(form, isEmail) && InTransaction(fault) ==>
        out == Outcome(["Error: " + fault.message], None)
      ensures IndividualAccepted(form, isEmail) && InTransaction(fault) ==>
        taxpayers == old(taxpayers) && individuals == old(individuals) && tpinHashes == old(tpinHashes)
    {
      if !IndividualAccepted(form, isEmail) {
        return Outcome([IndividualError], None);
      }
      var tpinHash := hash(form.tpin);
      // beginTransaction
      var savedTaxpayers, savedIndividuals, savedHashes := taxpayers, individuals, tpinHashes;
      var failed := Fails(fault, 1);
      if !failed {
        taxpayers := taxpayers + [TaxpayerOf(form, today)];
        failed := Fails(fault, 2);
      }
      var individualId := nextIndividualId;
      if !failed {
        individuals := individuals + [IndividualOf(individualId, form)];
        nextIndividualId := nextIndividualId + 1;
        failed := Fails(fault, 3);
      }
      if !failed {
        tpinHashes := tpinHashes + [HashRow(individualId, tpinHash)];
        // commit
        out := Outcome([], Some(UserLogin));
      } else {
        // rollBack: the AUTO_INCREMENT counter is not given back
        taxpayers, individuals, tpinHashes := savedTaxpayers, savedIndividuals, savedHashes;
        out := Outcome(["Error: " + fault.message], None);
      }
    }

    /**
     * The business branch, given the trimmed fields. A rejected form gets the one generic error. An
     * accepted one counts the businesses with that TPIN (statement 1) and inserts
     * the business (statement 2) only when there is none; either way it then
     * redirects to the business login, so the duplicate message is never shown.
     */
    method RegisterBusiness(form: Form, isEmail: string -> bool, hash: string -> string,
                            fault: Fault) returns (out: Outcome)
      modifies this`businesses
      ensures !BusinessAccepted(form, isEmail) ==>
        out == Outcome([BusinessError], None) && businesses == old(businesses)
      ensures BusinessAccepted(form, isEmail) && Fails(fault, 1) ==>
        out == Outcome(["Error: " + fault.message], None) && businesses == old(businesses)
      ensures BusinessAccepted(form, isEmail) && !Fails(fault, 1) && Registered(old(businesses), form.tpin) ==>
        out == Outcome([DuplicateBusiness], Some(BusinessLogin)) && businesses == old(businesses)
      ensures BusinessAccepted(form, isEmail) && !Fails(fault, 1) && !Registered(old(businesses), form.tpin) && Fails(fault, 2) ==>
        out == Outcome(["Error: " + fault.message], None) && businesses == old(businesses)
      ensures BusinessAccepted(form, isEmail) && !Fails(fault, 1) && !Registered(old(businesses), form.tpin) && !Fails(fault, 2) ==>
        out == Outcome([], Some(BusinessLogin)) && businesses == old(businesses) + [BusinessOf(form, hash)]
    {
      if !BusinessAccepted(form, isEmail) {
        return Outcome([BusinessError], None);
      }
      if Fails(fault, 1) {
        return Outcome(["Error: " + fault.message], None);
      }
      var errors: seq<string> := [];
      if |Query.Where(businesses, SameTpin(form.tpin))| > 0 {
        errors := errors + [DuplicateBusiness];
      } else {
        if Fails(fault, 2) {
          return Outcome(["Error: " + fault.message], None);
        }
        businesses := businesses + [BusinessOf(form, hash)];
      }
      out := Outcome(errors, Some(BusinessLogin));
    }
  }

  /** One of the three statements inside the individual's transaction throws. */
  predicate InTransaction(fault: Fault) {
    Fails(fault, 1) || Fails(fault, 2) || Fails(fault, 3)
  }

  /** The `taxpayers` row of an individual: type 'Individual', status 'Active', registered today. */
  function TaxpayerOf(f: Form, today: string): (t: TaxpayerRow)
    ensures t.tpin == f.tpin && t.email == f.email && t.registrationDate == today
  {
    TaxpayerRow(f.tpin, "Individual", today, "Active", f.email)
  }

  function IndividualOf(id: nat, f: Form): (r: IndividualRow)
    ensures r.individualId == id && r.tpin == f.tpin && r.firstName == f.name && r.lastName == f.lastName && r.email == f.email
  {
    IndividualRow(id, f.tpin, f.name, f.lastName, f.email)
  }

  function BusinessOf(f: Form, hash: string -> string): (b: BusinessRow)
    ensures b.businessName == f.name && b.tpin == f.tpin && b.email == f.email && b.tpinHash == hash(f.tpin)
  {
    BusinessRow(f.name, f.tpin, f.email, hash(f.tpin))
  }

  function SameTpin(tpin: string): BusinessRow -> bool {
    (b: BusinessRow) => b.tpin == tpin
  }

  /** `SELECT COUNT(*) FROM businesses WHERE TPIN = ?` is positive. */
  predicate Registered(businesses: seq<BusinessRow>, tpin: string) {
    |Query.Where(businesses, SameTpin(tpin))| > 0
  }

  /** The count is positive exactly when some business row carries the TPIN. */
  lemma RegisteredIff(businesses: seq<BusinessRow>, tpin: string)
    ensures Registered(businesses, tpin) <==> exists i :: 0 <= i < |businesses| && businesses[i].tpin == tpin
  {
    var w := Query.Where(businesses, SameTpin(tpin));
    if Registered(businesses, tpin) {
      assert w[0] in multiset(businesses);
      assert SameTpin(tpin)(w[0]);
      var i :| 0 <= i < |businesses| && businesses[i] == w[0];
    }
    if exists i :: 0 <= i < |businesses| && businesses[i].tpin == tpin {
      var i :| 0 <= i < |businesses| && businesses[i].tpin == tpin;
      assert SameTpin(tpin)(businesses[i]);
      assert businesses[i] in w;
    }
  }
}
