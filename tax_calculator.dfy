/**
 * The public site's tax calculator and form check, base/script.js:
 * `calculateTax` (PAYE, company tax and VAT) and `validateForm`.
 *
 * Amounts are exact reals; JavaScript's binary floating point and the
 * `toLocaleString` rendering are not part of this model. `parseFloat` is given
 * as its outcome: None when it yields NaN.
 */
module TaxCalculator {
  import opened Strings

  const PersonalRelief: real := 4800.0

  /** PAYE taxable income: the income less the annual personal relief, never below zero. */
  function PayeTaxable(income: real): (t: real)
    ensures t >= 0.0 && t >= income - PersonalRelief
    ensures t == income - PersonalRelief || t == 0.0
  {
    if income - PersonalRelief > 0.0 then income - PersonalRelief else 0.0
  }

  /**
   * The bracket chain of `calculateTax`, highest threshold first: nothing is due
   * up to 18000, and above it the tax is positive and never more than the top
   * rate of 37.5% of the taxable income.
   */
  function PayeTax(t: real): (r: real)
    ensures r >= 0.0
    ensures r == 0.0 <==> t <= 18000.0
    ensures t > 18000.0 ==> r <= 0.375 * t
  {
    if t > 84000.0 then (t - 84000.0) * 0.375 + 20700.0
    else if t > 54000.0 then (t - 54000.0) * 0.3 + 8700.0
    else if t > 42000.0 then (t - 42000.0) * 0.225 + 4500.0
    else if t > 36000.0 then (t - 36000.0) * 0.2 + 2700.0
    else if t > 30000.0 then (t - 30000.0) * 0.175 + 1500.0
    else if t > 24000.0 then (t - 24000.0) * 0.15 + 600.0
    else if t > 18000.0 then (t - 18000.0) * 0.125
    else 0.0
  }

  /** One PAYE bracket: income above `threshold` is taxed at `rate` on top of `base`. */
  datatype Bracket = Bracket(threshold: real, rate: real, base: real)

  /** The brackets in ascending order of threshold. */
  const Brackets: seq<Bracket> := [
    Bracket(18000.0, 0.125, 0.0),
    Bracket(24000.0, 0.15, 600.0),
    Bracket(30000.0, 0.175, 1500.0),
    Bracket(36000.0, 0.2, 2700.0),
    Bracket(42000.0, 0.225, 4500.0),
    Bracket(54000.0, 0.3, 8700.0),
    Bracket(84000.0, 0.375, 20700.0)]

  /** Reference reading of the table: the formula of the highest threshold exceeded, or 0 when none is. */
  function TaxByTable(brackets: seq<Bracket>, t: real): real
    decreases |brackets|
  {
    if brackets == [] then 0.0
    else
      var b := brackets[|brackets| - 1];
      if t > b.threshold then (t - b.threshold) * b.rate + b.base
      else TaxByTable(brackets[..|brackets| - 1], t)
  }

  /** The if/else chain is the highest-threshold-exceeded reading of the bracket table. */
  lemma PayeTaxIsTable(t: real)
    ensures PayeTax(t) == TaxByTable(Brackets, t)
  {
    BracketPrefix(7, t);
    BracketPrefix(6, t);
    BracketPrefix(5, t);
    BracketPrefix(4, t);
    BracketPrefix(3, t);
    BracketPrefix(2, t);
    BracketPrefix(1, t);
    assert Brackets[..7] == Brackets;
  }

  /** One step of the reference reading: the first `k` brackets. */
  lemma BracketPrefix(k: nat, t: real)
    requires 1 <= k <= |Brackets|
    ensures TaxByTable(Brackets[..k], t) ==
      if t > Brackets[k - 1].threshold then (t - Brackets[k - 1].threshold) * Brackets[k - 1].rate + Brackets[k - 1].base
      else TaxByTable(Brackets[..k - 1], t)
  {
    assert Brackets[..k][..k - 1] == Brackets[..k - 1];
  }

  /**
   * The bracket bases do not continue one another: the 18000 band reaches 750 at
   * 24000 while the next band restarts at 600, so a higher income can owe less.
   */
  lemma PayeTaxNotMonotone()
    ensures PayeTax(24000.0) == 750.0 && PayeTax(24001.0) == 600.15
    ensures PayeTax(24001.0) < PayeTax(24000.0)
  {
  }

  /** The calculator's result panel. */
  datatype TaxResult = TaxResult(income: real, taxable: real, annualTax: real, monthlyTax: real)

  /**
   * `calculateTax`: a NaN, zero or negative income is refused (None); PAYE uses
   * the relief and the brackets, company tax is 30% and VAT 16% of the whole
   * income, and any other type owes nothing.
   */
  function CalculateTax(income: Option<real>, taxType: string): (r: Option<TaxResult>)
    ensures r.None? <==> income.None? || income.value <= 0.0
    ensures r.Some? ==> r.value.income == income.value && r.value.monthlyTax * 12.0 == r.value.annualTax
    ensures r.Some? && taxType == "paye" ==>
      r.value.taxable == PayeTaxable(income.value) && r.value.annualTax == PayeTax(r.value.taxable)
    ensures r.Some? && taxType == "company" ==> r.value.taxable == income.value && r.value.annualTax == income.value * 0.30
    ensures r.Some? && taxType == "vat" ==> r.value.taxable == income.value && r.value.annualTax == income.value * 0.16
    ensures r.Some? && taxType !in {"paye", "company", "vat"} ==> r.value.taxable == income.value && r.value.annualTax == 0.0
  {
    match income
    case None => None
    case Some(x) =>
      if x <= 0.0 then None
      else
        var taxable := if taxType == "paye" then PayeTaxable(x) else x;
        var tax :=
          if taxType == "paye" then PayeTax(taxable)
          else if taxType == "company" then taxable * 0.30
          else if taxType == "vat" then taxable * 0.16
          else 0.0;
        Some(TaxResult(x, taxable, tax, tax / 12.0))
  }

  /** Company tax and VAT never exceed the income they are charged on. */
  lemma FlatTaxesBelowIncome(x: real, taxType: string)
    requires x > 0.0 && (taxType == "company" || taxType == "vat")
    ensures CalculateTax(Some(x), taxType).Some?
    ensures 0.0 < CalculateTax(Some(x), taxType).value.annualTax < x
  {
  }

  /** A required input or select of a form: its value and whether its border was set to red. */
  datatype FormInput = FormInput(value: string, flagged: bool)

  /** An input is blank when its value is white space only. */
  predicate Blank(input: FormInput) {
    forall i :: 0 <= i < |input.value| ==> JsSpace(input.value[i])
  }

  /** Blank is exactly the `!input.value.trim()` test. */
  lemma BlankIsEmptyTrim(input: FormInput)
    ensures Blank(input) <==> JsTrim(input.value) == []
  {
  }

  class CalculatorPage {
    var result: Option<TaxResult>
    var resultShown: bool
    var alerts: seq<string>
    var inputs: seq<FormInput>

    constructor (formInputs: seq<FormInput>)
      ensures result.None? && !resultShown && alerts == [] && inputs == formInputs
    {
      result, resultShown, alerts, inputs := None, false, [], formInputs;
    }

    /** The calculate button: an alert for a refused income, otherwise the result panel shown. */
    method OnCalculate(income: Option<real>, taxType: string)
      modifies this`result, this`resultShown, this`alerts
      ensures CalculateTax(income, taxType).None? ==>
        alerts == old(alerts) + ["Please enter a valid income amount"]
        && result == old(result) && resultShown == old(resultShown)
      ensures CalculateTax(income, taxType).Some? ==>
        alerts == old(alerts) && result == CalculateTax(income, taxType) && resultShown
    {
      var r := CalculateTax(income, taxType);
      if r.None? {
        alerts := alerts + ["Please enter a valid income amount"];
      } else {
        result, resultShown := r, true;
      }
    }

    /** `validateForm`: every blank required field is flagged, every other one cleared; valid iff none is blank. */
    method ValidateForm() returns (isValid: bool)
      modifies this`inputs
      ensures |inputs| == |old(inputs)|
      ensures forall j :: 0 <= j < |inputs| ==> inputs[j] == old(inputs)[j].(flagged := Blank(old(inputs)[j]))
      ensures isValid <==> forall j :: 0 <= j < |inputs| ==> !Blank(old(inputs)[j])
    {
      isValid := true;
      var i := 0;
      while i < |inputs|
        invariant 0 <= i <= |inputs| == |old(inputs)|
        invariant forall j :: 0 <= j < i ==> inputs[j] == old(inputs)[j].(flagged := Blank(old(inputs)[j]))
        invariant forall j :: i <= j < |inputs| ==> inputs[j] == old(inputs)[j]
        invariant isValid <==> forall j :: 0 <= j < i ==> !inputs[j].flagged
      {
        var blank := Blank(inputs[i]);
        inputs := inputs[i := inputs[i].(flagged := blank)];
        if blank {
          isValid := false;
        }
        i := i + 1;
      }
    }
  }
}
