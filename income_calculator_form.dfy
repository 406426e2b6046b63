/** The field validators and the text-to-number mapping of the income calculator form
    (src/app/income-calculator/IncomeCalculatorPageClient.tsx, with `isGreaterThanZero` of
    src/lib/utils/validations.ts). Every field arrives as a text, given here by what `parseFloat`
    makes of it; an empty text is `Blank`. */
module IncomeCalculatorForm {
  import opened Wrappers
  import opened JsValues
  import opened CanadianProvinces
  import opened DeductionTypes
  import opened IncomeCalculations
  import opened IncomeCalculatorHook

  /** The most hours a week has. */
  const HoursPerWeekLimit: real := 168.0

  /** The most days a week has. */
  const DaysPerWeekLimit: int := 7

  /** The messages the validators return. */
  datatype FieldError =
    | InvalidNumber
    | TooManyHours
    | TooManyDays
    | TooManyOvertimeHours
    | MultiplierBelowOne

  function Message(e: FieldError): string
  {
    match e
    case InvalidNumber => "Please enter a valid number"
    case TooManyHours => "Hours per week cannot be more than 168"
    case TooManyDays => "Days per week cannot be more than 7"
    case TooManyOvertimeHours => "Overtime hours per week + hours per week cannot exceed 168"
    case MultiplierBelowOne => "Overtime hour multiplier must be at least 1 (eg. 1.5)"
  }

  /** `isGreaterThanZero`: the text parses to a number above 0. */
  predicate IsGreaterThanZero(value: TextInput)
  {
    value.Text? && value.parsed.Num? && value.parsed.value > 0.0
  }

  /** JavaScript truncation toward zero, which `parseInt` applies to a plain decimal text. */
  function Truncate(x: real): (n: int)
    ensures x >= 0.0 ==> n as real <= x < n as real + 1.0
    ensures x < 0.0 ==> n as real - 1.0 < x <= n as real
  {
    if x >= 0.0 then x.Floor else -((-x).Floor)
  }

  /** `parseFloat(value) || 0`: `NaN` and 0 both become 0. */
  function FloatOrZero(value: TextInput): (x: real)
    ensures value.Text? && value.parsed.Num? ==> x == value.parsed.value
    ensures IsGreaterThanZero(value) ==> x > 0.0
    ensures value.Blank? || value.parsed.NaN? ==> x == 0.0
  {
    if value.Text? && value.parsed.Num? then value.parsed.value else 0.0
  }

  /** `parseInt(value) || 0`. */
  function IntOrZero(value: TextInput): (n: int)
    ensures value.Blank? || value.parsed.NaN? ==> n == 0
    ensures value.Text? && value.parsed.Num? ==> n == Truncate(value.parsed.value)
  {
    if value.Text? && value.parsed.Num? then Truncate(value.parsed.value) else 0
  }

  /** `validateGrossIncome`. */
  function ValidateGrossIncome(value: TextInput): (e: Option<FieldError>)
    ensures e.None? <==> value.Blank? || IsGreaterThanZero(value)
    ensures e.Some? ==> e.value == InvalidNumber
  {
    if value.Blank? then None
    else if !IsGreaterThanZero(value) then Some(InvalidNumber)
    else None
  }

  /** `validateHoursPerWeek`: the limit is checked only after the number is known positive. */
  function ValidateHoursPerWeek(value: TextInput): (e: Option<FieldError>)
    ensures e.None? <==> value.Blank? || (IsGreaterThanZero(value) && value.parsed.value <= HoursPerWeekLimit)
    ensures e == Some(TooManyHours) <==> IsGreaterThanZero(value) && value.parsed.value > HoursPerWeekLimit
  {
    if value.Blank? then None
    else if !IsGreaterThanZero(value) then Some(InvalidNumber)
    else if value.parsed.value > HoursPerWeekLimit then Some(TooManyHours)
    else None
  }

  /** `validateDaysPerWeek`: the integer part is compared with 7, so every positive number below
      8 passes. */
  function ValidateDaysPerWeek(value: TextInput): (e: Option<FieldError>)
    ensures e.None? <==> value.Blank? || (IsGreaterThanZero(value) && value.parsed.value < 8.0)
    ensures e == Some(TooManyDays) <==> IsGreaterThanZero(value) && value.parsed.value >= 8.0
  {
    if value.Blank? then None
    else if !IsGreaterThanZero(value) then Some(InvalidNumber)
    else if Truncate(value.parsed.value) > DaysPerWeekLimit then Some(TooManyDays)
    else None
  }

  /** `validateOvertimeHoursPerWeek`, against the hours per week the calculator holds. */
  function ValidateOvertimeHoursPerWeek(value: TextInput, hoursPerWeek: real): (e: Option<FieldError>)
    ensures e.None? <==> value.Blank? || (IsGreaterThanZero(value) && value.parsed.value + hoursPerWeek <= HoursPerWeekLimit)
    ensures e == Some(TooManyOvertimeHours) <==>
              IsGreaterThanZero(value) && value.parsed.value + hoursPerWeek > HoursPerWeekLimit
  {
    if value.Blank? then None
    else if !IsGreaterThanZero(value) then Some(InvalidNumber)
    else if value.parsed.value + hoursPerWeek > HoursPerWeekLimit then Some(TooManyOvertimeHours)
    else None
  }

  /** `validateOvertimeHourMultiplier`. */
  function ValidateOvertimeHourMultiplier(value: TextInput): (e: Option<FieldError>)
    ensures e.None? <==> value.Blank? || (value.parsed.Num? && value.parsed.value >= 1.0)
    ensures e == Some(MultiplierBelowOne) <==> IsGreaterThanZero(value) && value.parsed.value < 1.0
  {
    if value.Blank? then None
    else if !IsGreaterThanZero(value) then Some(InvalidNumber)
    else if value.parsed.value < 1.0 then Some(MultiplierBelowOne)
    else None
  }

  /** The update the required-inputs form sends on every change. */
  function RequiredInputsUpdate(
    grossIncome: TextInput, grossIncomeType: GrossIncomeType, hoursPerWeek: TextInput,
    daysPerWeek: TextInput, provinceCode: Option<ProvinceCode>, year: Option<TaxYear>): (u: ParamsUpdate)
    ensures u.grossIncome == Some(FloatOrZero(grossIncome))
    ensures u.grossIncomeType == Some(grossIncomeType)
    ensures u.hoursPerWeek == Some(FloatOrZero(hoursPerWeek))
    ensures u.daysPerWeek == Some(IntOrZero(daysPerWeek) as real)
    ensures u.overtimeHoursPerWeek.None? && u.overtimeHourMultiplier.None?
    ensures u.provinceCode == provinceCode && u.year == year
  {
    ParamsUpdate(
      Some(FloatOrZero(grossIncome)), Some(grossIncomeType), Some(FloatOrZero(hoursPerWeek)),
      Some(IntOrZero(daysPerWeek) as real), None, None, provinceCode, year)
  }

  /** The update the optional-inputs form sends on every change. */
  function OptionalInputsUpdate(overtimeHoursPerWeek: TextInput, overtimeHourMultiplier: TextInput): (u: ParamsUpdate)
    ensures u.overtimeHoursPerWeek == Some(FloatOrZero(overtimeHoursPerWeek))
    ensures u.overtimeHourMultiplier == Some(FloatOrZero(overtimeHourMultiplier))
    ensures u.grossIncome.None? && u.grossIncomeType.None? && u.hoursPerWeek.None? && u.daysPerWeek.None?
    ensures u.provinceCode.None? && u.year.None?
  {
    ParamsUpdate(None, None, None, None,
      Some(FloatOrZero(overtimeHoursPerWeek)), Some(FloatOrZero(overtimeHourMultiplier)), None, None)
  }

  /** A day count the validator accepts reaches the calculator as a whole number from 0 to 7; at
      least one day is sent as 1 to 7. */
  lemma AcceptedDaysAreWholeDaysOfAWeek(daysPerWeek: TextInput)
    requires daysPerWeek.Text? && ValidateDaysPerWeek(daysPerWeek).None?
    ensures 0 <= IntOrZero(daysPerWeek) <= DaysPerWeekLimit
    ensures daysPerWeek.parsed.value >= 1.0 ==> 1 <= IntOrZero(daysPerWeek)
  {
  }

  /** Filled-in required fields that every validator accepts, with at least one day, give the
      calculator positive inputs, so its taxable-income effect goes ahead. */
  lemma AcceptedInputsAreProcessed(
    p: IncomeCalculatorParams, grossIncome: TextInput, grossIncomeType: GrossIncomeType,
    hoursPerWeek: TextInput, daysPerWeek: TextInput, provinceCode: Option<ProvinceCode>, year: Option<TaxYear>)
    requires grossIncome.Text? && ValidateGrossIncome(grossIncome).None?
    requires hoursPerWeek.Text? && ValidateHoursPerWeek(hoursPerWeek).None?
    requires daysPerWeek.Text? && ValidateDaysPerWeek(daysPerWeek).None? && daysPerWeek.parsed.value >= 1.0
    ensures var q := Merge(p, RequiredInputsUpdate(grossIncome, grossIncomeType, hoursPerWeek, daysPerWeek, provinceCode, year));
            && HasPositiveInputs(q)
            && q.grossIncome == grossIncome.parsed.value
            && q.hoursPerWeek == hoursPerWeek.parsed.value <= HoursPerWeekLimit
            && q.daysPerWeek <= DaysPerWeekLimit as real
  {
    AcceptedDaysAreWholeDaysOfAWeek(daysPerWeek);
  }

  /** Accepted overtime fields with overtime hours give overtime pay, within a week of 168 hours
      together with the regular hours. */
  lemma AcceptedOvertimeIsPaid(
    p: IncomeCalculatorParams, overtimeHoursPerWeek: TextInput, overtimeHourMultiplier: TextInput)
    requires overtimeHoursPerWeek.Text? && ValidateOvertimeHoursPerWeek(overtimeHoursPerWeek, p.hoursPerWeek).None?
    requires overtimeHourMultiplier.Text? && ValidateOvertimeHourMultiplier(overtimeHourMultiplier).None?
    ensures var q := Merge(p, OptionalInputsUpdate(overtimeHoursPerWeek, overtimeHourMultiplier));
            && q.overtimeHoursPerWeek > 0.0 && q.overtimeHourMultiplier >= 1.0
            && q.overtimeHoursPerWeek + q.hoursPerWeek <= HoursPerWeekLimit
            && (q.overtimeHourMultiplier * q.overtimeHoursPerWeek > 0.0)
  {
    var q := Merge(p, OptionalInputsUpdate(overtimeHoursPerWeek, overtimeHourMultiplier));
    assert q.overtimeHourMultiplier * q.overtimeHoursPerWeek >= q.overtimeHoursPerWeek by {
      assert (q.overtimeHourMultiplier - 1.0) * q.overtimeHoursPerWeek >= 0.0;
    }
  }
}
