/** The income calculator state (src/hooks/useIncomeCalculator.ts): the calculator parameters,
    the wage breakdown, and the calls the calculator makes on its deductions collaborator. The
    collaborator itself is outside this model: the calls it receives are recorded in order, and
    the net income and completion flag it reports are parameters. */
module IncomeCalculatorHook {
  import opened Wrappers
  import opened Numbers
  import opened CanadianProvinces
  import opened DeductionTypes
  import opened IncomeCalculations

  /** `GrossIncomeType`. */
  datatype GrossIncomeType = Hourly | Yearly

  /** `IncomeCalculatorParams`. */
  datatype IncomeCalculatorParams = IncomeCalculatorParams(
    grossIncome: real,
    grossIncomeType: GrossIncomeType,
    hoursPerWeek: real,
    daysPerWeek: real,
    overtimeHoursPerWeek: real,
    overtimeHourMultiplier: real)

  /** `defaultParams`. */
  const DefaultParams: IncomeCalculatorParams := IncomeCalculatorParams(0.0, Hourly, 37.5, 5.0, 0.0, 0.0)

  /** `defaultWages`: every amount 0. */
  const DefaultWages: WageResults := WageResults(Finite(0.0), Finite(0.0), 0.0, 0.0, 0.0)

  /** The argument of `handleParamsChange`: any subset of the parameters, and optionally a
      province and a year; `None` is a field left out. */
  datatype ParamsUpdate = ParamsUpdate(
    grossIncome: Option<real>,
    grossIncomeType: Option<GrossIncomeType>,
    hoursPerWeek: Option<real>,
    daysPerWeek: Option<real>,
    overtimeHoursPerWeek: Option<real>,
    overtimeHourMultiplier: Option<real>,
    provinceCode: Option<ProvinceCode>,
    year: Option<TaxYear>)

  /** A call on the deductions collaborator: the selection forwarded by `handleParamsChange`
      (both fields always present, `None` for `undefined`), the taxable income, or a reset. */
  datatype DeductionsCall =
    | SelectionChange(provinceCode: Option<ProvinceCode>, year: Option<TaxYear>)
    | IncomeChange(grossAnnualIncome: real)
    | ResetRequest

  function Pick<T>(given: Option<T>, current: T): T
  {
    if given.Some? then given.value else current
  }

  /** `{ ...prevState, ...fields }`: the supplied fields replace theirs, the others stay. */
  function Merge(p: IncomeCalculatorParams, fields: ParamsUpdate): (q: IncomeCalculatorParams)
    ensures fields.grossIncome.None? ==> q.grossIncome == p.grossIncome
    ensures fields.grossIncome.Some? ==> q.grossIncome == fields.grossIncome.value
    ensures fields.grossIncomeType.None? ==> q.grossIncomeType == p.grossIncomeType
    ensures fields.grossIncomeType.Some? ==> q.grossIncomeType == fields.grossIncomeType.value
    ensures fields.hoursPerWeek.None? ==> q.hoursPerWeek == p.hoursPerWeek
    ensures fields.hoursPerWeek.Some? ==> q.hoursPerWeek == fields.hoursPerWeek.value
    ensures fields.daysPerWeek.None? ==> q.daysPerWeek == p.daysPerWeek
    ensures fields.daysPerWeek.Some? ==> q.daysPerWeek == fields.daysPerWeek.value
    ensures fields.overtimeHoursPerWeek.None? ==> q.overtimeHoursPerWeek == p.overtimeHoursPerWeek
    ensures fields.overtimeHoursPerWeek.Some? ==> q.overtimeHoursPerWeek == fields.overtimeHoursPerWeek.value
    ensures fields.overtimeHourMultiplier.None? ==> q.overtimeHourMultiplier == p.overtimeHourMultiplier
    ensures fields.overtimeHourMultiplier.Some? ==> q.overtimeHourMultiplier == fields.overtimeHourMultiplier.value
  {
    IncomeCalculatorParams(
      Pick(fields.grossIncome, p.grossIncome),
      Pick(fields.grossIncomeType, p.grossIncomeType),
      Pick(fields.hoursPerWeek, p.hoursPerWeek),
      Pick(fields.daysPerWeek, p.daysPerWeek),
      Pick(fields.overtimeHoursPerWeek, p.overtimeHoursPerWeek),
      Pick(fields.overtimeHourMultiplier, p.overtimeHourMultiplier))
  }

  /** Applying the same update twice is applying it once, and an update that supplies no
      parameter changes nothing. */
  lemma MergeIdempotent(p: IncomeCalculatorParams, fields: ParamsUpdate)
    ensures Merge(Merge(p, fields), fields) == Merge(p, fields)
    ensures fields.grossIncome.None? && fields.grossIncomeType.None? && fields.hoursPerWeek.None?
            && fields.daysPerWeek.None? && fields.overtimeHoursPerWeek.None? && fields.overtimeHourMultiplier.None?
            ==> Merge(p, fields) == p
  {
  }

  /** Whether the taxable-income effect goes ahead: a positive income, hours and days. */
  predicate HasPositiveInputs(p: IncomeCalculatorParams)
  {
    p.grossIncome > 0.0 && p.hoursPerWeek > 0.0 && p.daysPerWeek > 0.0
  }

  /** The hourly wage the taxable-income effect works from: the income itself for an hourly
      income, and the yearly income spread over the hours of the year otherwise. */
  function HourlyWageOf(p: IncomeCalculatorParams): (wage: real)
    requires HasPositiveInputs(p)
    ensures p.grossIncomeType == Hourly ==> wage == p.grossIncome
    ensures p.grossIncomeType == Yearly ==> AnnualIncomeWithHourlyWage(wage, p.hoursPerWeek) == p.grossIncome
  {
    if p.grossIncomeType == Hourly then p.grossIncome
    else HourlyIncomeWithAnnualIncome(p.grossIncome, p.hoursPerWeek).value
  }

  /** The taxable income the effect sends to the deductions side: the regular pay for the hours
      of a year plus the overtime pay. */
  function TaxableIncome(p: IncomeCalculatorParams): (income: real)
    requires HasPositiveInputs(p)
  {
    var hourlyWage := HourlyWageOf(p);
    AnnualIncomeWithHourlyWage(hourlyWage, p.hoursPerWeek)
      + AnnualOvertimePay(hourlyWage, p.overtimeHoursPerWeek, p.overtimeHourMultiplier)
  }

  /** Without overtime a yearly income is sent on unchanged, and an hourly wage as the wage for
      every hour of the year. */
  lemma TaxableIncomeWithoutOvertime(p: IncomeCalculatorParams)
    requires HasPositiveInputs(p)
    requires p.overtimeHoursPerWeek <= 0.0 || p.overtimeHourMultiplier < 1.0
    ensures p.grossIncomeType == Yearly ==> TaxableIncome(p) == p.grossIncome
    ensures p.grossIncomeType == Hourly ==> TaxableIncome(p) == p.grossIncome * p.hoursPerWeek * WeeksPerYear
  {
  }

  /** Overtime at a multiplier of at least 1 only raises the taxable income above the regular pay. */
  lemma TaxableIncomeAtLeastRegular(p: IncomeCalculatorParams)
    requires HasPositiveInputs(p)
    ensures TaxableIncome(p) >= AnnualIncomeWithHourlyWage(HourlyWageOf(p), p.hoursPerWeek)
  {
    var wage := HourlyWageOf(p);
    if p.overtimeHoursPerWeek > 0.0 && p.overtimeHourMultiplier >= 1.0 {
      assert wage > 0.0 by {
        if p.grossIncomeType == Yearly {
          assert wage == (p.grossIncome / WeeksPerYear) / p.hoursPerWeek;
        }
      }
      OvertimeAtLeastRegularPay(wage, p.overtimeHoursPerWeek, p.overtimeHourMultiplier);
      assert AnnualIncomeWithHourlyWage(wage, p.overtimeHoursPerWeek) >= 0.0 by {
        assert wage * p.overtimeHoursPerWeek >= 0.0;
      }
    }
  }

  class IncomeCalculator {
    var params: IncomeCalculatorParams
    var wageResults: WageResults
    var deductionsCalls: seq<DeductionsCall>

    constructor ()
      ensures params == DefaultParams && wageResults == DefaultWages && deductionsCalls == []
    {
      params := DefaultParams;
      wageResults := DefaultWages;
      deductionsCalls := [];
    }

    /** `isCompleted`, given the deductions side's own flag: exactly when the taxable-income
        effect goes ahead and the deductions side is complete. */
    function IsCompleted(isTaxCompleted: bool): (b: bool)
      reads this
      ensures b <==> isTaxCompleted && HasPositiveInputs(params)
      ensures b ==> params.grossIncome > 0.0 && params.hoursPerWeek > 0.0 && params.daysPerWeek > 0.0
    {
      isTaxCompleted && params.grossIncome > 0.0 && params.hoursPerWeek > 0.0 && params.daysPerWeek > 0.0
    }

    /** `handleParamsChange`: the supplied parameters replace theirs and the province and year
        are forwarded to the deductions side. */
    method HandleParamsChange(fields: ParamsUpdate)
      modifies this
      ensures params == Merge(old(params), fields)
      ensures deductionsCalls == old(deductionsCalls) + [SelectionChange(fields.provinceCode, fields.year)]
      ensures wageResults == old(wageResults)
    {
      params := Merge(params, fields);
      deductionsCalls := deductionsCalls + [SelectionChange(fields.provinceCode, fields.year)];
    }

    /** `resetParams`: the default parameters, and a reset of the deductions side. */
    method ResetParams()
      modifies this
      ensures params == DefaultParams && !HasPositiveInputs(params)
      ensures deductionsCalls == old(deductionsCalls) + [ResetRequest]
      ensures wageResults == old(wageResults)
    {
      params := DefaultParams;
      deductionsCalls := deductionsCalls + [ResetRequest];
    }

    /** The effect that runs when `grossIncomeType` changes: the income goes back to 0. */
    method GrossIncomeTypeEffect()
      modifies this
      ensures params == old(params).(grossIncome := 0.0)
      ensures !HasPositiveInputs(params)
      ensures wageResults == old(wageResults) && deductionsCalls == old(deductionsCalls)
    {
      params := params.(grossIncome := 0.0);
    }

    /** The taxable-income effect: without a positive income, hours and days the wage results
        are reset and nothing is sent; otherwise the taxable income is sent to the deductions
        side. */
    method TaxableIncomeEffect()
      modifies this
      ensures params == old(params)
      ensures !HasPositiveInputs(params) ==> wageResults == DefaultWages && deductionsCalls == old(deductionsCalls)
      ensures HasPositiveInputs(params) ==>
                wageResults == old(wageResults)
                && deductionsCalls == old(deductionsCalls) + [IncomeChange(TaxableIncome(params))]
    {
      if params.grossIncome <= 0.0 || params.hoursPerWeek <= 0.0 || params.daysPerWeek <= 0.0 {
        wageResults := DefaultWages;
        return;
      }
      var hourlyWage: real;
      if params.grossIncomeType == Hourly {
        hourlyWage := params.grossIncome;
      } else {
        hourlyWage := HourlyIncomeWithAnnualIncome(params.grossIncome, params.hoursPerWeek).value;
      }
      var overtimePay := AnnualOvertimePay(hourlyWage, params.overtimeHoursPerWeek, params.overtimeHourMultiplier);
      var taxableAnnualIncome := AnnualIncomeWithHourlyWage(hourlyWage, params.hoursPerWeek) + overtimePay;
      deductionsCalls := deductionsCalls + [IncomeChange(taxableAnnualIncome)];
    }

    /** The wage-results effect: the breakdown of the net income the deductions side reports. */
    method WageEffect(netAnnualIncome: real)
      modifies this
      ensures wageResults == CalculateIncome(netAnnualIncome, params.hoursPerWeek, params.daysPerWeek)
      ensures HasPositiveInputs(params) ==> wageResults.hourlyWage.Finite? && wageResults.dailyWage.Finite?
      ensures wageResults.yearlyWage == netAnnualIncome
      ensures params == old(params) && deductionsCalls == old(deductionsCalls)
    {
      wageResults := CalculateIncome(netAnnualIncome, params.hoursPerWeek, params.daysPerWeek);
    }
  }
}
