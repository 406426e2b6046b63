/** The income-tax calculator state (src/hooks/useTaxCalculator.ts): an income that may be null, a
    province and a year, and outputs that the recompute effect either keeps or derives from the
    older, tax-only engine. The rate tables are a parameter of the recompute step. */
module TaxCalculatorHook {
  import opened Wrappers
  import opened JsValues
  import opened CanadianProvinces
  import opened DeductionTypes
  import opened CanadianTaxCalculator

  /** The outputs: the engine's taxes and the net income left after them. */
  datatype TaxOutputs = TaxOutputs(taxes: TaxCalculationResult, netAnnualIncome: real)

  /** `defaultOutputs`: every amount 0. */
  const DefaultOutputs: TaxOutputs := TaxOutputs(TaxCalculationResult(0.0, 0.0, 0.0), 0.0)

  /** The outputs derived from an income, a code and a year: the net income is the income minus
      the total tax. */
  function Derive(income: real, code: ProvinceCode, year: TaxYear, t: TaxTables): (o: TaxOutputs)
    ensures o.taxes == CanadianTaxes(income, code, year, t)
    ensures o.netAnnualIncome + o.taxes.totalFederalTax + o.taxes.totalProvincialTax == income
  {
    var taxResults := CanadianTaxes(income, code, year, t);
    TaxOutputs(taxResults, income - taxResults.totalTax)
  }

  /** With non-negative widths and rates and a non-negative income, tax never adds to the income. */
  lemma NetAtMostIncome(income: real, code: ProvinceCode, year: TaxYear, t: TaxTables)
    requires income >= 0.0
    requires NonNegativeWidths(t.federal(year)) && NonNegativeRates(t.federal(year))
    requires NonNegativeWidths(t.provincial(year)(code)) && NonNegativeRates(t.provincial(year)(code))
    ensures Derive(income, code, year, t).netAnnualIncome <= income
  {
    WidthTaxNonNegative(income, t.federal(year));
    WidthTaxNonNegative(income, t.provincial(year)(code));
  }

  class TaxCalculator {
    var annualIncome: Option<JsNumber>
    var provinceCode: Option<ProvinceCode>
    var year: Option<TaxYear>
    var outputs: TaxOutputs

    /** Every input starts as null, every output as 0. */
    constructor ()
      ensures annualIncome == None && provinceCode == None && year == None
      ensures outputs == DefaultOutputs
    {
      annualIncome := None;
      provinceCode := None;
      year := None;
      outputs := DefaultOutputs;
    }

    /** The guard of the recompute effect: a truthy income (not null, `NaN` or 0), a province
        and a year. */
    predicate ShouldRecalculate()
      reads this
    {
      annualIncome.Some? && Truthy(annualIncome.value) && provinceCode.Some? && year.Some?
    }

    /** `isCompleted`: all three inputs are non-null. An income of 0 counts as entered, so the
        form can be complete while the recompute effect does nothing. */
    function IsCompleted(): (b: bool)
      reads this
      ensures ShouldRecalculate() ==> b
      ensures b && annualIncome.Some? && Truthy(annualIncome.value) ==> ShouldRecalculate()
      ensures annualIncome == Some(Num(0.0)) && provinceCode.Some? && year.Some? ==> b && !ShouldRecalculate()
    {
      annualIncome.Some? && provinceCode.Some? && year.Some?
    }

    /** `handleAnnualIncomeChange`: a blank value becomes null, otherwise the parsed number. */
    method HandleAnnualIncomeChange(value: TextInput)
      modifies this
      ensures annualIncome == (if value.Blank? then None else Some(value.parsed))
      ensures provinceCode == old(provinceCode) && year == old(year) && outputs == old(outputs)
    {
      if value.Blank? {
        annualIncome := None;
      } else {
        annualIncome := Some(value.parsed);
      }
    }

    /** `handleProvinceCodeChange`: `undefined` becomes null. */
    method HandleProvinceCodeChange(value: Option<ProvinceCode>)
      modifies this
      ensures provinceCode == value
      ensures annualIncome == old(annualIncome) && year == old(year) && outputs == old(outputs)
    {
      provinceCode := value;
    }

    /** `handleYearChange`: a blank value becomes null. */
    method HandleYearChange(value: Option<TaxYear>)
      modifies this
      ensures year == value
      ensures annualIncome == old(annualIncome) && provinceCode == old(provinceCode) && outputs == old(outputs)
    {
      year := value;
    }

    /** The recompute effect: the previous outputs stay unless the guard passes; then they are
        derived from the inputs. */
    method Recalculate(t: TaxTables)
      modifies this
      ensures annualIncome == old(annualIncome) && provinceCode == old(provinceCode) && year == old(year)
      ensures !ShouldRecalculate() ==> outputs == old(outputs)
      ensures ShouldRecalculate() ==>
                outputs == Derive(annualIncome.value.value, provinceCode.value, year.value, t)
      ensures ShouldRecalculate() ==>
                outputs.netAnnualIncome == annualIncome.value.value - outputs.taxes.totalTax
    {
      if annualIncome.None? || !Truthy(annualIncome.value) || provinceCode.None? || year.None? {
        return;
      }
      outputs := Derive(annualIncome.value.value, provinceCode.value, year.value, t);
    }
  }
}
