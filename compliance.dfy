/**
 * The individual's compliance page, base/Users/compliance.php: the session
 * guard, the two return counts scoped to the signed-in individual's TPIN, and
 * the compliance rate computed from them.
 */
module Compliance {
  import opened Strings
  import opened Php
  import Query

  const UserLogin: string := "../login.php"
  const FiledStatus: string := "Filed"

  /** An `individuals` row. */
  datatype Individual = Individual(individualId: string, tpin: string, firstName: string, lastName: string)

  /** A `TaxReturns` row, reduced to the two columns the counts read. */
  datatype TaxReturn = TaxReturn(tpin: string, status: string)

  /**
   * The signed-in individual's TPIN; None when no row has that id, in which
   * case `TPIN = NULL` matches no return.
   */
  function TpinOf(individuals: seq<Individual>, userId: string): (t: Option<string>)
    ensures t.None? <==> forall i :: 0 <= i < |individuals| ==> individuals[i].individualId != userId
    ensures t.Some? ==> exists i :: 0 <= i < |individuals| && individuals[i].individualId == userId && individuals[i].tpin == t.value
  {
    match Query.First(individuals, IdIs(userId))
    case None => None
    case Some(i) => Some(i.tpin)
  }

  function IdIs(userId: string): Individual -> bool {
    (i: Individual) => i.individualId == userId
  }

  /** `WHERE TPIN = ?`. */
  function ReturnOf(tpin: Option<string>): TaxReturn -> bool {
    (r: TaxReturn) => tpin.Some? && r.tpin == tpin.value
  }

  /** `WHERE TPIN = ? AND Status = 'Filed'`. */
  function FiledReturnOf(tpin: Option<string>): TaxReturn -> bool {
    (r: TaxReturn) => tpin.Some? && r.tpin == tpin.value && r.status == FiledStatus
  }

  /** The figures the page shows. */
  datatype Figures = Figures(totalReturns: nat, filedReturns: nat, complianceRate: real)

  /**
   * The two counts and the rate. The rate is 0 without returns and otherwise
   * the filed share of the total in percent; it never leaves [0, 100].
   */
  function FiguresOf(tpin: Option<string>, taxReturns: seq<TaxReturn>): (f: Figures)
    ensures f.totalReturns == |Query.Where(taxReturns, ReturnOf(tpin))|
    ensures f.filedReturns == |Query.Where(taxReturns, FiledReturnOf(tpin))|
    ensures f.filedReturns <= f.totalReturns
    ensures f.complianceRate == Rate(f.filedReturns, f.totalReturns)
    ensures 0.0 <= f.complianceRate <= 100.0
  {
    var total := |Query.Where(taxReturns, ReturnOf(tpin))|;
    var filed := |Query.Where(taxReturns, FiledReturnOf(tpin))|;
    Query.WhereStricter(taxReturns, ReturnOf(tpin), FiledReturnOf(tpin));
    RateInRange(filed, total);
    Figures(total, filed, Rate(filed, total))
  }

  /** An id with no individual row shows no returns and a rate of 0. */
  lemma UnknownIndividualHasNoReturns(taxReturns: seq<TaxReturn>)
    ensures FiguresOf(None, taxReturns) == Figures(0, 0, 0.0)
  {
    Query.WhereNone(taxReturns, ReturnOf(None));
    Query.WhereNone(taxReturns, FiledReturnOf(None));
  }

  /** Another taxpayer's taxReturns change neither count. */
  lemma OtherTaxpayersIgnored(tpin: string, taxReturns: seq<TaxReturn>, others: seq<TaxReturn>)
    requires forall i :: 0 <= i < |others| ==> others[i].tpin != tpin
    ensures FiguresOf(Some(tpin), taxReturns + others) == FiguresOf(Some(tpin), taxReturns)
  {
    Query.WhereIgnoresOthers(taxReturns, others, ReturnOf(Some(tpin)));
    Query.WhereIgnoresOthers(taxReturns, others, FiledReturnOf(Some(tpin)));
  }

  /** An illustration only: seven filed returns out of ten give a rate of 70. `Php.RateInRange` covers every input. */
  lemma SevenOfTen()
    ensures Rate(7, 10) == 70.0
  {
  }

  /** The page: the login redirect without a `user_id`, otherwise the name and figures. */
  datatype Page = Redirect(location: string) | Show(fullName: string, figures: Figures)

  function Load(session: map<string, string>, individuals: seq<Individual>, taxReturns: seq<TaxReturn>): (p: Page)
    ensures "user_id" !in session <==> p == Redirect(UserLogin)
    ensures p.Show? ==> p.figures == FiguresOf(TpinOf(individuals, session["user_id"]), taxReturns)
  {
    if "user_id" !in session then Redirect(UserLogin)
    else
      var user := Query.First(individuals, IdIs(session["user_id"]));
      // A missing row gives NULL first and last names, which concatenate as ''.
      var fullName := match user case Some(i) => i.firstName + " " + i.lastName case None => " ";
      Show(fullName, FiguresOf(TpinOf(individuals, session["user_id"]), taxReturns))
  }
}
