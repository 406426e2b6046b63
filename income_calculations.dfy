/** Wage conversions between hourly, daily, weekly, monthly and yearly amounts
    (src/lib/income-calculations.ts). A year has 52 weeks and 12 months. */
module IncomeCalculations {
  import opened Numbers

  /** `WEEKS_PER_YEAR`. */
  const WeeksPerYear: real := 52.0

  const MonthsPerYear: real := 12.0

  /** `calculateAnnualIncomeWithHourlyWage`: the wage for every hour of every week of the year. */
  function AnnualIncomeWithHourlyWage(hourlyWage: real, hoursPerWeek: real): (annual: real)
    ensures hoursPerWeek != 0.0 ==> annual / WeeksPerYear / hoursPerWeek == hourlyWage
  {
    hourlyWage * hoursPerWeek * WeeksPerYear
  }

  /** `calculateHourlyIncomeWithAnnualIncome`: the weekly share of the income spread over the hours.
      With no hours the JavaScript division gives Infinity or NaN. */
  function HourlyIncomeWithAnnualIncome(annualIncome: real, hoursPerWeek: real): (hourly: Quotient)
    ensures hourly.Finite? <==> hoursPerWeek != 0.0
    ensures hourly.Finite? ==> hourly.value * hoursPerWeek * WeeksPerYear == annualIncome
  {
    var weeklyWage := annualIncome / WeeksPerYear;
    Divide(weeklyWage, hoursPerWeek)
  }

  /** The two conversions are inverse to each other whenever the hours are not 0. */
  lemma HourlyAnnualRoundTrip(hourlyWage: real, annualIncome: real, hoursPerWeek: real)
    requires hoursPerWeek != 0.0
    ensures HourlyIncomeWithAnnualIncome(AnnualIncomeWithHourlyWage(hourlyWage, hoursPerWeek), hoursPerWeek) == Finite(hourlyWage)
    ensures AnnualIncomeWithHourlyWage(HourlyIncomeWithAnnualIncome(annualIncome, hoursPerWeek).value, hoursPerWeek) == annualIncome
  {
  }

  /** `calculateAnnualOvertimePay`: nothing without overtime hours or with a multiplier below 1;
      otherwise the raised wage for every overtime hour of every week of the year. */
  function AnnualOvertimePay(hourlyWage: real, overtimeHoursPerWeek: real, overtimeHourMultiplier: real): (pay: real)
    ensures overtimeHoursPerWeek <= 0.0 || overtimeHourMultiplier < 1.0 ==> pay == 0.0
    ensures overtimeHoursPerWeek > 0.0 && overtimeHourMultiplier >= 1.0 ==>
              pay == AnnualIncomeWithHourlyWage(hourlyWage * overtimeHourMultiplier, overtimeHoursPerWeek)
  {
    if overtimeHoursPerWeek <= 0.0 || overtimeHourMultiplier < 1.0 then 0.0
    else
      var overtimeWage := hourlyWage * overtimeHourMultiplier;
      overtimeWage * overtimeHoursPerWeek * WeeksPerYear
  }

  /** Overtime at a multiplier of at least 1 pays at least the regular wage for the same hours. */
  lemma OvertimeAtLeastRegularPay(hourlyWage: real, overtimeHoursPerWeek: real, overtimeHourMultiplier: real)
    requires hourlyWage >= 0.0 && overtimeHoursPerWeek > 0.0 && overtimeHourMultiplier >= 1.0
    ensures AnnualOvertimePay(hourlyWage, overtimeHoursPerWeek, overtimeHourMultiplier)
         >= AnnualIncomeWithHourlyWage(hourlyWage, overtimeHoursPerWeek)
  {
    var weekly := overtimeHoursPerWeek * WeeksPerYear;
    assert hourlyWage * overtimeHourMultiplier >= hourlyWage by {
      assert hourlyWage * (overtimeHourMultiplier - 1.0) >= 0.0;
    }
    assert (hourlyWage * overtimeHourMultiplier - hourlyWage) * weekly >= 0.0;
  }

  /** `WageResults`. Divisions by the hours and by the days may not be finite. */
  datatype WageResults = WageResults(
    hourlyWage: Quotient,
    dailyWage: Quotient,
    weeklyWage: real,
    monthlyWage: real,
    yearlyWage: real)

  /** `calculateIncome`: an annual income broken down per month, week, day and hour. */
  function CalculateIncome(annualIncome: real, hoursPerWeek: real, daysPerWeek: real): (r: WageResults)
    ensures r.yearlyWage == annualIncome
    ensures r.monthlyWage * MonthsPerYear == annualIncome
    ensures r.weeklyWage * WeeksPerYear == annualIncome
    ensures r.dailyWage.Finite? <==> daysPerWeek != 0.0
    ensures r.dailyWage.Finite? ==> r.dailyWage.value * daysPerWeek == r.weeklyWage
    ensures r.hourlyWage == HourlyIncomeWithAnnualIncome(annualIncome, hoursPerWeek)
  {
    var monthlyWage := annualIncome / MonthsPerYear;
    var weeklyWage := annualIncome / WeeksPerYear;
    var dailyWage := Divide(weeklyWage, daysPerWeek);
    var hourlyWage := Divide(weeklyWage, hoursPerWeek);
    WageResults(hourlyWage, dailyWage, weeklyWage, monthlyWage, annualIncome)
  }

  /** Every amount of the breakdown adds back up to the annual income: the hourly wage over the
      hours of the year, the daily wage over the days of the year, the monthly over 12 months. */
  lemma BreakdownAddsUp(annualIncome: real, hoursPerWeek: real, daysPerWeek: real)
    requires hoursPerWeek != 0.0 && daysPerWeek != 0.0
    ensures var r := CalculateIncome(annualIncome, hoursPerWeek, daysPerWeek);
            && r.hourlyWage.value * hoursPerWeek * WeeksPerYear == annualIncome
            && r.dailyWage.value * daysPerWeek * WeeksPerYear == annualIncome
            && r.hourlyWage.value * hoursPerWeek == r.dailyWage.value * daysPerWeek
  {
    var r := CalculateIncome(annualIncome, hoursPerWeek, daysPerWeek);
    assert r.dailyWage.value * daysPerWeek == r.weeklyWage;
    assert r.hourlyWage.value * hoursPerWeek == r.weeklyWage;
  }

  /** The figures the tests check: 31.25 an hour for 40 hours is 65000 a year and back, and 5
      overtime hours at 1.5 times 31.25 pay 12187.5 a year, but nothing at 0 hours or at 0.5. */
  lemma TestFigures()
    ensures AnnualIncomeWithHourlyWage(31.25, 40.0) == 65000.0
    ensures HourlyIncomeWithAnnualIncome(65000.0, 40.0) == Finite(31.25)
    ensures AnnualOvertimePay(31.25, 0.0, 1.5) == 0.0
    ensures AnnualOvertimePay(31.25, 5.0, 0.5) == 0.0
    ensures AnnualOvertimePay(31.25, 5.0, 1.5) == 12187.5
  {
  }
}
