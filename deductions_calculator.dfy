/** The payroll-deductions calculator state (src/hooks/useDeductionsCalculator.ts): three inputs
    replaced by their handlers, and outputs that the recompute effect either keeps or derives
    from the payroll-deduction engine. The rate tables are a parameter of the recompute step. */
module DeductionsCalculatorHook {
  import opened Wrappers
  import opened JsValues
  import opened CanadianProvinces
  import opened DeductionTypes
  import opened CanadianDeductions

  /** The outputs: the engine's result and the net income left after the deductions. */
  datatype DeductionsOutputs = DeductionsOutputs(deductions: PayrollDeductionsResult, netAnnualIncome: real)

  /** `defaultOutputs`: every amount 0. */
  const DefaultOutputs: DeductionsOutputs :=
    DeductionsOutputs(PayrollDeductionsResult(0.0, 0.0, 0.0, 0.0, 0.0, 0.0, 0.0, 0.0), 0.0)

  /** The outputs derived from an income, a code and a year: the net income is the income minus
      the total deductions. */
  function Derive(income: real, code: ProvinceCode, year: TaxYear, t: DeductionTables): (o: DeductionsOutputs)
    ensures o.deductions == PayrollDeductions(income, code, year, t)
    ensures o.netAnnualIncome + o.deductions.totalDeductions == income
    ensures Consistent(o.deductions)
  {
    var deductionResults := PayrollDeductions(income, code, year, t);
    DeductionsOutputs(deductionResults, income - deductionResults.totalDeductions)
  }

  /** With well-formed tables and a non-negative income, the net income lies between 0 deductions
      and the whole income: deductions never add to the income. */
  lemma NetAtMostGross(income: real, code: ProvinceCode, year: TaxYear, t: DeductionTables)
    requires WellFormedTables(t) && income >= 0.0
    ensures Derive(income, code, year, t).netAnnualIncome <= income
  {
    PayrollDeductionsNonNegative(income, code, year, t);
  }

  class DeductionsCalculator {
    var grossAnnualIncome: JsNumber
    var provinceCode: Option<ProvinceCode>
    var year: Option<TaxYear>
    var outputs: DeductionsOutputs

    /** `defaultParams` and `defaultOutputs`. */
    constructor ()
      ensures grossAnnualIncome == Num(0.0) && provinceCode == None && year == None
      ensures outputs == DefaultOutputs
    {
      grossAnnualIncome := Num(0.0);
      provinceCode := None;
      year := None;
      outputs := DefaultOutputs;
    }

    /** The guard of the recompute effect: a truthy income, a province and a year. */
    predicate ShouldRecalculate()
      reads this
    {
      Truthy(grossAnnualIncome) && provinceCode.Some? && year.Some?
    }

    /** `isCompleted`: the income is never null, so only the province and the year decide. A
        completed form does not imply a recompute: an income of 0 or `NaN` blocks it. */
    function IsCompleted(): (b: bool)
      reads this
      ensures ShouldRecalculate() ==> b
      ensures b && Truthy(grossAnnualIncome) ==> ShouldRecalculate()
    {
      provinceCode.Some? && year.Some?
    }

    /** `handleGrossAnnualIncomeChange`: a blank value is 0, otherwise the parsed number. */
    method HandleGrossAnnualIncomeChange(value: TextInput)
      modifies this
      ensures grossAnnualIncome == (if value.Blank? then Num(0.0) else value.parsed)
      ensures provinceCode == old(provinceCode) && year == old(year) && outputs == old(outputs)
    {
      if value.Blank? {
        grossAnnualIncome := Num(0.0);
      } else {
        grossAnnualIncome := value.parsed;
      }
    }

    /** `handleProvinceCodeChange`: `undefined` becomes null. */
    method HandleProvinceCodeChange(value: Option<ProvinceCode>)
      modifies this
      ensures provinceCode == value
      ensures grossAnnualIncome == old(grossAnnualIncome) && year == old(year) && outputs == old(outputs)
    {
      provinceCode := value;
    }

    /** `handleYearChange`: a blank value becomes null. */
    method HandleYearChange(value: Option<TaxYear>)
      modifies this
      ensures year == value
      ensures grossAnnualIncome == old(grossAnnualIncome) && provinceCode == old(provinceCode) && outputs == old(outputs)
    {
      year := value;
    }

    /** `resetInputs`: the default inputs; the outputs stay. */
    method ResetInputs()
      modifies this
      ensures grossAnnualIncome == Num(0.0) && provinceCode == None && year == None
      ensures !ShouldRecalculate() && !IsCompleted()
      ensures outputs == old(outputs)
    {
      grossAnnualIncome := Num(0.0);
      provinceCode := None;
      year := None;
    }

    /** The recompute effect: the previous outputs stay unless the guard passes; then they are
        derived from the inputs. */
    method Recalculate(t: DeductionTables)
      modifies this
      ensures grossAnnualIncome == old(grossAnnualIncome) && provinceCode == old(provinceCode) && year == old(year)
      ensures !ShouldRecalculate() ==> outputs == old(outputs)
      ensures ShouldRecalculate() ==>
                outputs == Derive(grossAnnualIncome.value, provinceCode.value, year.value, t)
      ensures ShouldRecalculate() ==>
                outputs.netAnnualIncome == grossAnnualIncome.value - outputs.deductions.totalDeductions
    {
      if !Truthy(grossAnnualIncome) || provinceCode.None? || year.None? {
        return;
      }
      outputs := Derive(grossAnnualIncome.value, provinceCode.value, year.value, t);
    }
  }
}
