/** The wage conversions of the income form (src/components/lib/income-calculations.ts): guarded
    hourly/annual conversions and breakdowns from an hourly or a yearly amount. */
module ComponentIncomeCalculations {
  import opened Numbers
  import IncomeCalculations

  const WeeksPerYear: real := 52.0

  /** `calculateHourlyWage`: 0 unless both the salary and the hours are positive. */
  function CalculateHourlyWage(annualSalary: real, hoursPerWeek: real): (wage: real)
    ensures annualSalary <= 0.0 || hoursPerWeek <= 0.0 ==> wage == 0.0
    ensures annualSalary > 0.0 && hoursPerWeek > 0.0 ==> wage > 0.0 && wage * hoursPerWeek * WeeksPerYear == annualSalary
  {
    if annualSalary <= 0.0 || hoursPerWeek <= 0.0 then 0.0
    else (annualSalary / WeeksPerYear) / hoursPerWeek
  }

  /** `calculateAnnualSalary`: 0 unless both the wage and the hours are positive. */
  function CalculateAnnualSalary(hourlyWage: real, hoursPerWeek: real): (salary: real)
    ensures hourlyWage <= 0.0 || hoursPerWeek <= 0.0 ==> salary == 0.0
    ensures hourlyWage > 0.0 && hoursPerWeek > 0.0 ==>
              salary > 0.0 && salary == IncomeCalculations.AnnualIncomeWithHourlyWage(hourlyWage, hoursPerWeek)
  {
    if hourlyWage <= 0.0 || hoursPerWeek <= 0.0 then 0.0
    else
      assert hourlyWage * hoursPerWeek > 0.0;
      hourlyWage * hoursPerWeek * WeeksPerYear
  }

  /** For positive amounts and hours, the two conversions undo each other. */
  lemma WageSalaryRoundTrip(hourlyWage: real, annualSalary: real, hoursPerWeek: real)
    requires hoursPerWeek > 0.0
    ensures hourlyWage > 0.0 ==> CalculateHourlyWage(CalculateAnnualSalary(hourlyWage, hoursPerWeek), hoursPerWeek) == hourlyWage
    ensures annualSalary > 0.0 ==> CalculateAnnualSalary(CalculateHourlyWage(annualSalary, hoursPerWeek), hoursPerWeek) == annualSalary
  {
  }

  /** `HourlyWageResults`. */
  datatype HourlyWageResults = HourlyWageResults(dailyWage: Quotient, weeklyWage: real, monthlyWage: real, yearlyWage: real)

  /** `calculateIncomeWithHourlyWage`: a week of hours at the amount, spread over the days and
      multiplied out to the year and the month. */
  function CalculateIncomeWithHourlyWage(amount: real, hoursPerWeek: real, daysPerWeek: real): (r: HourlyWageResults)
    ensures r.yearlyWage == IncomeCalculations.AnnualIncomeWithHourlyWage(amount, hoursPerWeek)
    ensures r.weeklyWage * WeeksPerYear == r.yearlyWage
    ensures r.monthlyWage * 12.0 == r.yearlyWage
    ensures r.dailyWage.Finite? <==> daysPerWeek != 0.0
    ensures r.dailyWage.Finite? ==> r.dailyWage.value * daysPerWeek == r.weeklyWage
  {
    var weeklyWage := amount * hoursPerWeek;
    var dailyWage := Divide(weeklyWage, daysPerWeek);
    var yearlyWage := weeklyWage * WeeksPerYear;
    var monthlyWage := yearlyWage / 12.0;
    HourlyWageResults(dailyWage, weeklyWage, monthlyWage, yearlyWage)
  }

  /** `YearlyWageResults`. */
  datatype YearlyWageResults = YearlyWageResults(hourlyWage: Quotient, dailyWage: Quotient, weeklyWage: real, monthlyWage: real)

  /** `calculateIncomeWithYearlyWage`: the same breakdown as `calculateIncome` of the income library,
      without the yearly amount. */
  function CalculateIncomeWithYearlyWage(amount: real, hoursPerWeek: real, daysPerWeek: real): (r: YearlyWageResults)
    ensures var full := IncomeCalculations.CalculateIncome(amount, hoursPerWeek, daysPerWeek);
            && r.hourlyWage == full.hourlyWage && r.dailyWage == full.dailyWage
            && r.weeklyWage == full.weeklyWage && r.monthlyWage == full.monthlyWage
  {
    var monthlyWage := amount / 12.0;
    var weeklyWage := amount / WeeksPerYear;
    var dailyWage := Divide(weeklyWage, daysPerWeek);
    var hourlyWage := Divide(weeklyWage, hoursPerWeek);
    YearlyWageResults(hourlyWage, dailyWage, weeklyWage, monthlyWage)
  }

  /** Feeding the yearly amount of the hourly breakdown into the yearly breakdown gives back the
      hourly amount and the same weekly, daily and monthly amounts. */
  lemma HourlyThenYearlyRoundTrip(amount: real, hoursPerWeek: real, daysPerWeek: real)
    requires hoursPerWeek != 0.0
    ensures var h := CalculateIncomeWithHourlyWage(amount, hoursPerWeek, daysPerWeek);
            var y := CalculateIncomeWithYearlyWage(h.yearlyWage, hoursPerWeek, daysPerWeek);
            && y.hourlyWage == Finite(amount)
            && y.weeklyWage == h.weeklyWage
            && y.dailyWage == h.dailyWage
            && y.monthlyWage == h.monthlyWage
  {
    var h := CalculateIncomeWithHourlyWage(amount, hoursPerWeek, daysPerWeek);
    assert h.yearlyWage / WeeksPerYear == h.weeklyWage;
  }
}
