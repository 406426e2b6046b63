# Canadian payroll and budget calculators — a verified Dafny model

This project models the computational core of a small Canadian personal-finance web application:

- **Payroll deductions.** The deductions engine computes progressive federal and provincial income tax over cumulative bracket limits. It also computes CPP/QPP contributions in two capped tiers, EI/QPIP premiums (Quebec pays a separate QPIP premium), and an aggregate result.
- **The older tax-only engine.** Its progressive loop reads each bracket's `incomeUpTo` as a bracket *width* rather than a cumulative limit. It is modelled separately, and it is proved to agree with the newer engine exactly when widths are turned into running totals.
- **Tables and provinces.** The shapes of the rate tables, the single tax year 2025, and the 13-entry province/territory name↔code table.
- **Wage conversions.** Hourly, daily, weekly, monthly, yearly and overtime conversions with a 52-week, 12-month year, in both the library and the form-component variants.
- **The monthly budget planner.** A class holding a total budget and a list of uniquely named categories, with the derived "Unallocated" row.
- **The calculator hooks.** The deductions, tax and income calculators are classes. Handlers replace parameter fields, each React effect is an explicit method, and completion flags are functions.
- **Form validation.** The validators of the new-category form and of the income form, and how those forms turn text into numbers.

Money is `real`. The rate tables are JSON data files that are not part of this model, so they are parameters:
- a total `Record` becomes a function type (`TaxYear -> seq<TaxBracket>`);
- `WellFormedTables` states what a sensible table satisfies: ascending non-negative limits, the unbounded bracket last, non-negative rates, and ordered CPP ceilings.

A JavaScript `null`/`undefined` is `Option.None`. A number read from text is `JsNumber` (`NaN` or a finite value). A JavaScript division that may divide by zero yields `Quotient` (`Finite` or `NonFinite`).

Every money×rate product goes through `Numbers.Tax`, so that equal amounts give equal taxes without nonlinear reasoning.

## Model

| member | source | states |
|---|---|---|
| Numbers.Divide | src/lib/income-calculations.ts:29-35 | a JavaScript quotient is finite exactly when the divisor is not 0, and then it times the divisor gives back the dividend |
| Numbers.TaxMonotone | src/lib/deductions/canadian-deductions.ts:25 | at a non-negative rate, a larger amount is never taxed less |
| CanadianProvinces.Names | src/lib/canadian-provinces.ts:1-15 | there are 13 province and territory names, all distinct |
| CanadianProvinces.Codes | src/lib/canadian-provinces.ts:19-33 | there are 13 codes, all distinct |
| CanadianProvinces.CodeString | src/lib/canadian-provinces.ts:19-35 | every code of the datatype is one of the listed code strings |
| CanadianProvinces.ParseCode | src/lib/canadian-provinces.ts:19-35 | a string reads as a code exactly when it is in the code list, and the code prints back as that string |
| CanadianProvinces.CodeRoundTrip | src/lib/canadian-provinces.ts:19-35 | printing a code and reading it back gives the same code |
| CanadianProvinces.AllCodesMatchCodes | src/lib/canadian-provinces.ts:19-35 | the code datatype lists its 13 values in the order of the code list, and every value is listed |
| CanadianProvinces.NameToCodeDomain | src/lib/canadian-provinces.ts:37-54 | the name→code map is defined for exactly the 13 names |
| CanadianProvinces.NameToCodeAligned | src/lib/canadian-provinces.ts:1-54 | for every index i, the map sends the i-th name to the i-th code |
| CanadianProvinces.NameToCodeBijective | src/lib/canadian-provinces.ts:41-53 | the map is injective and its image is exactly the code list |
| CanadianProvinces.QuebecIsQC | src/lib/canadian-provinces.ts:49 | 'Quebec' maps to 'QC', the code the deduction rules branch on |
| DeductionTypes.YearNumber | src/lib/deductions/canadian-deductions.types.ts:3-5 | the tax year is the number 2025 |
| DeductionTypes.OnlyTaxYear | src/lib/deductions/canadian-deductions.types.ts:3-5 | `TaxYear` has exactly one inhabitant, 2025, and `TaxYears` lists it |
| DeductionTypes.ParseYear | src/lib/deductions/canadian-deductions.types.ts:3-5 | a number is a tax year exactly when it is 2025 |
| DeductionTypes.UpperLimit | src/lib/deductions/canadian-deductions.ts:21 | the unbounded (`null`) bracket reaches up to the income itself |
| CanadianDeductions.CalculateProgressiveTax | src/lib/deductions/canadian-deductions.ts:16-36 | the loop, with its guard, its `break` and the carried previous limit, returns the progressive tax over cumulative limits |
| CanadianDeductions.Slice | src/lib/deductions/canadian-deductions.ts:24 | the part of an income falling in a bracket is never negative |
| CanadianDeductions.SliceBounds | src/lib/deductions/canadian-deductions.ts:24 | a bracket's slice is at most the income above its lower limit and at most the bracket's width |
| CanadianDeductions.SliceGrows | src/lib/deductions/canadian-deductions.ts:24 | a larger income never has a smaller slice in a bracket |
| CanadianDeductions.AscendingTail | src/lib/deductions/canadian-deductions.ts:20-32 | the brackets after the first are still ascending and start at or above the first limit; only the last bracket may be unbounded |
| CanadianDeductions.MarginalSumAboveIncome | src/lib/deductions/canadian-deductions.ts:23-30 | brackets lying wholly above the income contribute nothing |
| CanadianDeductions.TaxableIsSlice | src/lib/deductions/canadian-deductions.ts:23-25 | the guarded `min(income, limit) − previous` is the bracket's slice of the income |
| CanadianDeductions.LoopIsMarginalSum | src/lib/deductions/canadian-deductions.ts:20-32 | with ascending limits, the early-stopping loop equals the sum over all brackets of rate × slice |
| CanadianDeductions.ProgressiveTaxIsMarginalSum | src/lib/deductions/canadian-deductions.ts:16-36 | with ascending limits, the progressive tax is the sum of rate × max(0, min(income, upTo) − previous upTo), with no slice counted twice |
| CanadianDeductions.SlicesPartitionFrom | src/lib/deductions/canadian-deductions.ts:20-32 | above a lower limit, the slices of a schedule ending in the unbounded bracket add up to the income above that limit |
| CanadianDeductions.SlicesPartitionIncome | src/lib/deductions/canadian-deductions.ts:20-32 | for a well-formed schedule, the slices of a non-negative income add up to the income: every unit is taxed exactly once |
| CanadianDeductions.ZeroIncomeFrom | src/lib/deductions/canadian-deductions.ts:23-30 | with non-negative limits, an income of 0 never passes the guard and collects no tax |
| CanadianDeductions.ZeroIncomeZeroTax | src/lib/deductions/canadian-deductions.ts:16-36 | with non-negative limits, an income of 0 is taxed 0 |
| CanadianDeductions.UnboundedBracketEndsLoop | src/lib/deductions/canadian-deductions.ts:21-30 | once the unbounded bracket is reached the loop stops, so brackets after it are never read |
| CanadianDeductions.MarginalSumCapped | src/lib/deductions/canadian-deductions.ts:24 | brackets all capped at or below a level tax any income at or above that level alike |
| CanadianDeductions.UntaxedAboveLastLimit | src/lib/deductions/canadian-deductions.ts:20-33 | without an unbounded bracket, income above the last limit goes untaxed |
| CanadianDeductions.UnboundedBracketMonotone | src/lib/deductions/canadian-deductions.ts:21-25 | an unbounded bracket at a non-negative rate never taxes a larger income less |
| CanadianDeductions.BoundedStep | src/lib/deductions/canadian-deductions.ts:24-32 | a bounded first bracket contributes its slice and hands its limit on as the next lower limit |
| CanadianDeductions.BoundedBracketMonotone | src/lib/deductions/canadian-deductions.ts:24-32 | a bounded first bracket keeps monotonicity from the rest of the schedule |
| CanadianDeductions.MarginalSumMonotone | src/lib/deductions/canadian-deductions.ts:20-32 | with ascending limits and non-negative rates, a larger income is never taxed less |
| CanadianDeductions.ProgressiveTaxMonotone | src/lib/deductions/canadian-deductions.ts:16-36 | the progressive tax never falls as the income rises |
| CanadianDeductions.MarginalSumNonNegative | src/lib/deductions/canadian-deductions.ts:20-32 | with non-negative rates, the sum of bracket taxes is never negative |
| CanadianDeductions.ProgressiveTaxNonNegative | src/lib/deductions/canadian-deductions.ts:16-36 | the progressive tax is never negative |
| CanadianDeductions.FirstBracketOnly | src/lib/deductions/canadian-deductions.ts:23-30 | an income within the first limit is taxed at the first rate alone |
| CanadianDeductions.FederalTax | src/lib/deductions/canadian-deductions.ts:38-41 | the federal tax is the rate × slice sum over the year's federal schedule |
| CanadianDeductions.ProvincialTax | src/lib/deductions/canadian-deductions.ts:43-46 | the provincial tax is the rate × slice sum over the year's schedule for the province |
| CanadianDeductions.CppQppContribution | src/lib/deductions/canadian-deductions.ts:55-57 | nothing is contributed on income at or below the basic exemption |
| CanadianDeductions.CppQpp | src/lib/deductions/canadian-deductions.ts:51-71 | 'QC' selects the QPP entry and every other code the CPP entry; income at or below that entry's exemption contributes nothing |
| CanadianDeductions.CppQppIsTwoCappedTiers | src/lib/deductions/canadian-deductions.ts:60-70 | the contribution is rate × the slice from the exemption to the YMPE plus rate2 × the slice from the YMPE to the YAMPE |
| CanadianDeductions.CppQppBounded | src/lib/deductions/canadian-deductions.ts:60-70 | for an ordered entry, the contribution lies between 0 and the two full tiers |
| CanadianDeductions.CppQppFirstTierOnly | src/lib/deductions/canadian-deductions.ts:60-68 | income between the exemption and the YMPE pays the first rate only, on the income above the exemption |
| CanadianDeductions.CppQppMonotone | src/lib/deductions/canadian-deductions.ts:51-71 | a larger income never contributes less |
| CanadianDeductions.CppQppSameOutsideQuebec | src/lib/deductions/canadian-deductions.ts:52-53 | every code other than 'QC' gets the same, rest-of-Canada contribution |
| CanadianDeductions.CappedPremium | src/lib/deductions/canadian-deductions.ts:81-91 | income at or above the maximum insurable earnings pays the full capped premium |
| CanadianDeductions.EiQpip | src/lib/deductions/canadian-deductions.ts:77-95 | outside Quebec there is no QPIP and EI is the capped ROC premium; in Quebec, EI and QPIP are each capped at their own maximum |
| CanadianDeductions.CappedPremiumBounded | src/lib/deductions/canadian-deductions.ts:80-94 | a premium on a non-negative income lies between 0 and maximum insurable earnings × rate |
| CanadianDeductions.QuebecPaysQpip | src/lib/deductions/canadian-deductions.ts:80-87 | in Quebec a positive income pays a positive QPIP premium when the QPIP rate and maximum are positive |
| CanadianDeductions.PayrollDeductions | src/lib/deductions/canadian-deductions.ts:97-134 | totalTax = federal + provincial, totalContributions = cpp + ei + qpip, totalDeductions = their sum, each part from its own calculation; no QPIP outside Quebec |
| CanadianDeductions.PayrollDeductionsNonNegative | src/lib/deductions/canadian-deductions.ts:111-134 | with well-formed tables, every amount of the result is non-negative for a non-negative income |
| CanadianTaxCalculator.CalculateProgressiveTax | src/lib/taxes/canadian-tax-calculator.ts:29-49 | the width loop, with its `break`, returns the width-based progressive tax |
| CanadianTaxCalculator.WidthsTail | src/lib/taxes/canadian-tax-calculator.ts:33-46 | non-negative widths and rates carry over to the brackets after the first |
| CanadianTaxCalculator.ToCumulative | src/lib/taxes/canadian-tax-calculator.ts:41-45 | turning widths into running totals keeps one bracket per bracket |
| CanadianTaxCalculator.WidthLoopIsCumulativeLoop | src/lib/taxes/canadian-tax-calculator.ts:33-46 | the width loop on the income above an offset equals the cumulative-limit loop of the newer engine on the running totals of the widths from that offset |
| CanadianTaxCalculator.WidthsAreCumulativeLimits | src/lib/taxes/canadian-tax-calculator.ts:29-49 | for a non-negative income and non-negative widths, the older engine's tax is the newer engine's tax on the running totals of the widths |
| CanadianTaxCalculator.RevisionsAgreeOnFirstBracket | src/lib/taxes/canadian-tax-calculator.ts:36-38 | within the first bracket both engines tax income × first rate |
| CanadianTaxCalculator.RevisionsDisagree | src/lib/taxes/canadian-tax-calculator.ts:41-45 | on the schedule 10 @ 10%, 20 @ 20%, rest @ 30%, an income of 25 is taxed 4.0 as widths and 4.5 as cumulative limits |
| CanadianTaxCalculator.UnboundedBracketEndsLoop | src/lib/taxes/canadian-tax-calculator.ts:36-38 | at a `null` bracket all remaining income is taxed at its rate and the loop stops |
| CanadianTaxCalculator.UntaxedBeyondLastBracket | src/lib/taxes/canadian-tax-calculator.ts:33-48 | when the brackets run out without a `null` one, income beyond the total width goes untaxed: the tax is that of the full brackets |
| CanadianTaxCalculator.WidthTotalNonNegative | src/lib/taxes/canadian-tax-calculator.ts:41-45 | non-negative widths add up to a non-negative total |
| CanadianTaxCalculator.WidthTaxNonNegative | src/lib/taxes/canadian-tax-calculator.ts:29-49 | with non-negative widths and rates, a non-negative income is never taxed below 0 |
| CanadianTaxCalculator.ZeroIncomeZeroTax | src/lib/taxes/canadian-tax-calculator.ts:36-38 | with non-negative widths, an income of 0 is taxed 0 |
| CanadianTaxCalculator.FederalTax | src/lib/taxes/canadian-tax-calculator.ts:51-54 | the federal tax is the newer engine's tax on the running totals of the year's widths |
| CanadianTaxCalculator.ProvincialTax | src/lib/taxes/canadian-tax-calculator.ts:56-59 | the same for the province's schedule |
| CanadianTaxCalculator.CanadianTaxes | src/lib/taxes/canadian-tax-calculator.ts:62-74 | totalTax is federal + provincial, each from its own schedule |
| CanadianTaxCalculator.ZeroIncomeZeroTaxes | src/lib/deductions/canadian-deductions.test.ts:22-73 | an income of 0 gives 0 federal, provincial and total tax |
| CanadianTaxCalculator.AlbertaFirstBracket | src/lib/deductions/canadian-deductions.test.ts:52-57 | with Alberta's first bracket at 8% up to 30000, an income of 20000 pays 1600 provincial tax |
| IncomeCalculations.AnnualIncomeWithHourlyWage | src/lib/income-calculations.ts:16-21 | the annual income spread back over 52 weeks and the weekly hours is the hourly wage |
| IncomeCalculations.HourlyIncomeWithAnnualIncome | src/lib/income-calculations.ts:29-35 | the hourly wage is finite exactly when there are hours, and then the wage × hours × 52 is the annual income |
| IncomeCalculations.HourlyAnnualRoundTrip | src/lib/income-calculations.test.ts:10-32 | for non-zero hours, hourly → annual → hourly and annual → hourly → annual both give back the start |
| IncomeCalculations.AnnualOvertimePay | src/lib/income-calculations.ts:46-56 | no overtime hours or a multiplier below 1 pays 0; otherwise the raised wage over the overtime hours of a year |
| IncomeCalculations.OvertimeAtLeastRegularPay | src/lib/income-calculations.ts:51-55 | paid overtime is worth at least the same hours at the regular wage |
| IncomeCalculations.CalculateIncome | src/lib/income-calculations.ts:73-89 | yearly = annual, monthly × 12 = annual, weekly × 52 = annual; daily is finite exactly when there are days, and daily × days = weekly; hourly is the hourly conversion of the annual income |
| IncomeCalculations.BreakdownAddsUp | src/lib/income-calculations.ts:79-81 | for non-zero days and hours, daily × days = hourly × hours, and each multiplied out over the year gives the annual income |
| IncomeCalculations.TestFigures | src/lib/income-calculations.test.ts:10-67 | 31.25 an hour for 40 hours is 65000 a year and back; 5 overtime hours at 1.5 pay 12187.5, and 0 hours or a multiplier of 0.5 pay 0 |
| ComponentIncomeCalculations.CalculateHourlyWage | src/components/lib/income-calculations.ts:3-8 | 0 unless salary and hours are positive; otherwise a positive wage that, over the hours of a year, gives back the salary |
| ComponentIncomeCalculations.CalculateAnnualSalary | src/components/lib/income-calculations.ts:10-14 | 0 unless wage and hours are positive; otherwise the positive library annual income |
| ComponentIncomeCalculations.WageSalaryRoundTrip | src/components/lib/income-calculations.ts:3-14 | for positive amounts and hours, hourly wage and annual salary convert into each other and back |
| ComponentIncomeCalculations.CalculateIncomeWithHourlyWage | src/components/lib/income-calculations.ts:16-30 | yearly is the library annual income, weekly × 52 = yearly, monthly × 12 = yearly, and daily × days = weekly when there are days |
| ComponentIncomeCalculations.CalculateIncomeWithYearlyWage | src/components/lib/income-calculations.ts:32-45 | the hourly, daily, weekly and monthly amounts agree with the library's `calculateIncome` |
| ComponentIncomeCalculations.HourlyThenYearlyRoundTrip | src/components/lib/income-calculations.ts:23-45 | feeding the hourly variant's yearly amount to the yearly variant gives back the hourly amount and the same weekly, daily and monthly amounts |
| MonthlyBudgetPlanner.AllocatedConcat | src/hooks/useMonthlyBudgetPlanner.ts:45-48 | the allocated amount of two lists joined is the sum of their allocated amounts |
| MonthlyBudgetPlanner.ContainsName | src/hooks/useMonthlyBudgetPlanner.ts:106-108 | `find` by name succeeds exactly when some category has the name |
| MonthlyBudgetPlanner.RemoveByName | src/hooks/useMonthlyBudgetPlanner.ts:102-104 | the filtered list keeps exactly the categories with other names, is no longer than before, and has none with the name |
| MonthlyBudgetPlanner.RemoveAbsentName | src/hooks/useMonthlyBudgetPlanner.ts:102-104 | removing a name that no category has changes nothing |
| MonthlyBudgetPlanner.RemoveDistributes | src/hooks/useMonthlyBudgetPlanner.ts:102-104 | filtering distributes over joining lists, so the kept categories keep their order |
| MonthlyBudgetPlanner.RemoveKeepsUniqueNames | src/hooks/useMonthlyBudgetPlanner.ts:102-104 | removal keeps names unique |
| MonthlyBudgetPlanner.RemoveLowersAllocated | src/hooks/useMonthlyBudgetPlanner.ts:45-104 | with non-negative amounts, removal never raises the allocated amount |
| MonthlyBudgetPlanner.BudgetPlanner.constructor | src/hooks/useMonthlyBudgetPlanner.ts:37-42 | the budget starts at `initialBudget ?? 0`, with no categories and no error |
| MonthlyBudgetPlanner.BudgetPlanner.UnallocatedBudget | src/hooks/useMonthlyBudgetPlanner.ts:50-60 | the row has id 'unallocated', name 'Unallocated' and colour '#232323', and its amount plus the allocated amount is the total budget; it is non-negative exactly when the list is within budget |
| MonthlyBudgetPlanner.BudgetPlanner.CategoryExists | src/hooks/useMonthlyBudgetPlanner.ts:106-108 | true exactly when some category has the name |
| MonthlyBudgetPlanner.BudgetPlanner.IsValidCategoryName | src/hooks/useMonthlyBudgetPlanner.ts:77-79 | true exactly when no category has the name, i.e. exactly when `categoryExists` is false |
| MonthlyBudgetPlanner.BudgetPlanner.IsValidCategoryAmount | src/hooks/useMonthlyBudgetPlanner.ts:81-83 | true exactly when the amount fits in the unallocated row's amount |
| MonthlyBudgetPlanner.BudgetPlanner.ResetCategoryError | src/hooks/useMonthlyBudgetPlanner.ts:62 | clears the error and changes nothing else |
| MonthlyBudgetPlanner.BudgetPlanner.HandleBudgetChange | src/hooks/useMonthlyBudgetPlanner.ts:64-71 | a non-numeric value sets 0 and any number is accepted, even below the allocated amount; nothing else changes |
| MonthlyBudgetPlanner.BudgetPlanner.ResetBudget | src/hooks/useMonthlyBudgetPlanner.ts:73-75 | sets the budget to 0 and changes nothing else |
| MonthlyBudgetPlanner.BudgetPlanner.AddCategory | src/hooks/useMonthlyBudgetPlanner.ts:77-100 | the name is checked before the amount. A duplicate name returns false with the "already exists" message; an amount over the unallocated budget returns false with 'Amount exceeds unallocated budget'; the list is unchanged on both. Otherwise exactly one category is appended, true is returned, the unallocated amount falls by the amount, and the list is within budget. Names stay unique, and a list within budget stays so |
| MonthlyBudgetPlanner.BudgetPlanner.RemoveCategory | src/hooks/useMonthlyBudgetPlanner.ts:102-104 | the list becomes the filtered list and the name no longer exists; names stay unique, and with non-negative amounts the list stays within budget |
| MonthlyBudgetPlanner.BudgetPlanner.ResetCategories | src/hooks/useMonthlyBudgetPlanner.ts:110-112 | the list is emptied, so the whole budget is unallocated |
| DeductionsCalculatorHook.Derive | src/hooks/useDeductionsCalculator.ts:76-83 | the outputs are the engine's consistent result, and the net income plus the total deductions is the gross income |
| DeductionsCalculatorHook.NetAtMostGross | src/hooks/useDeductionsCalculator.ts:76-83 | with well-formed tables, the net income of a non-negative gross income is at most the gross |
| DeductionsCalculatorHook.DeductionsCalculator.constructor | src/hooks/useDeductionsCalculator.ts:27-46 | inputs start at gross 0, no province, no year; every output 0 |
| DeductionsCalculatorHook.DeductionsCalculator.IsCompleted | src/hooks/useDeductionsCalculator.ts:87-88 | the recompute guard implies completion, and completion implies the guard when the income is truthy; a gross of 0 or `NaN` completes the form without a recompute |
| DeductionsCalculatorHook.DeductionsCalculator.HandleGrossAnnualIncomeChange | src/hooks/useDeductionsCalculator.ts:49-52 | a blank value becomes 0, otherwise the parsed number; nothing else changes |
| DeductionsCalculatorHook.DeductionsCalculator.HandleProvinceCodeChange | src/hooks/useDeductionsCalculator.ts:54-59 | `undefined` becomes null; only the province changes |
| DeductionsCalculatorHook.DeductionsCalculator.HandleYearChange | src/hooks/useDeductionsCalculator.ts:61-64 | a blank value becomes null; only the year changes |
| DeductionsCalculatorHook.DeductionsCalculator.ResetInputs | src/hooks/useDeductionsCalculator.ts:66-68 | restores gross 0, no province and no year, so the form is neither complete nor recomputed; the outputs stay |
| DeductionsCalculatorHook.DeductionsCalculator.Recalculate | src/hooks/useDeductionsCalculator.ts:73-84 | with a gross of 0 or `NaN`, or no province or year, the previous outputs stay; otherwise they are the engine's result and net = gross − totalDeductions |
| TaxCalculatorHook.Derive | src/hooks/useTaxCalculator.ts:44-46 | the outputs are the engine's taxes, and the net income plus federal and provincial tax is the income |
| TaxCalculatorHook.NetAtMostIncome | src/hooks/useTaxCalculator.ts:44-46 | with non-negative widths and rates, the net income of a non-negative income is at most the income |
| TaxCalculatorHook.TaxCalculator.constructor | src/hooks/useTaxCalculator.ts:16-38 | every input starts as null and every output as 0 |
| TaxCalculatorHook.TaxCalculator.IsCompleted | src/hooks/useTaxCalculator.ts:42-53 | the recompute guard implies completion, and completion implies the guard when the income is truthy; an income of 0 with province and year counts as complete although no recompute happens |
| TaxCalculatorHook.TaxCalculator.HandleAnnualIncomeChange | src/hooks/useTaxCalculator.ts:16-20 | a blank value becomes null, otherwise the parsed number; nothing else changes |
| TaxCalculatorHook.TaxCalculator.HandleProvinceCodeChange | src/hooks/useTaxCalculator.ts:22-25 | `undefined` becomes null; only the province changes |
| TaxCalculatorHook.TaxCalculator.HandleYearChange | src/hooks/useTaxCalculator.ts:27-31 | a blank value becomes null; only the year changes |
| TaxCalculatorHook.TaxCalculator.Recalculate | src/hooks/useTaxCalculator.ts:41-47 | with no income, an income of 0 or `NaN`, or no province or year, the previous outputs stay; otherwise they are the engine's taxes and net = income − totalTax |
| IncomeCalculatorHook.Merge | src/hooks/useIncomeCalculator.ts:79-84 | each supplied field replaces its parameter and every other parameter stays |
| IncomeCalculatorHook.MergeIdempotent | src/hooks/useIncomeCalculator.ts:79-84 | applying an update twice is applying it once, and an update without parameters changes nothing |
| IncomeCalculatorHook.HourlyWageOf | src/hooks/useIncomeCalculator.ts:121 | an hourly income is the wage itself; a yearly income gives the wage whose annual income is that income |
| IncomeCalculatorHook.TaxableIncomeWithoutOvertime | src/hooks/useIncomeCalculator.ts:113-125 | without paid overtime, a yearly income is sent on unchanged and an hourly one as wage × hours × 52 |
| IncomeCalculatorHook.TaxableIncomeAtLeastRegular | src/hooks/useIncomeCalculator.ts:121-123 | the taxable income is never below the regular pay for the hours of a year |
| IncomeCalculatorHook.IncomeCalculator.constructor | src/hooks/useIncomeCalculator.ts:37-56 | parameters start at the defaults, wages at 0, and no call has been made |
| IncomeCalculatorHook.IncomeCalculator.IsCompleted | src/hooks/useIncomeCalculator.ts:151-158 | complete exactly when the deductions side is complete and the taxable-income effect goes ahead (gross, hours and days all positive) |
| IncomeCalculatorHook.IncomeCalculator.HandleParamsChange | src/hooks/useIncomeCalculator.ts:79-91 | the parameters become the merge of the update, the province and year are forwarded as one call, and the wages stay |
| IncomeCalculatorHook.IncomeCalculator.ResetParams | src/hooks/useIncomeCalculator.ts:37-97 | restores gross 0, 'hourly', 37.5 hours, 5 days, no overtime and multiplier 0, and resets the deductions side |
| IncomeCalculatorHook.IncomeCalculator.GrossIncomeTypeEffect | src/hooks/useIncomeCalculator.ts:70-76 | the gross income goes back to 0 and nothing else changes, so the taxable-income effect will not go ahead |
| IncomeCalculatorHook.IncomeCalculator.TaxableIncomeEffect | src/hooks/useIncomeCalculator.ts:103-133 | without positive gross, hours and days the wages are reset to 0 and nothing is sent; otherwise exactly the taxable income (regular plus overtime pay) is sent |
| IncomeCalculatorHook.IncomeCalculator.WageEffect | src/hooks/useIncomeCalculator.ts:136-148 | the wages are the breakdown of the reported net income, with finite hourly and daily wages when hours and days are positive |
| IncomeCalculatorForm.Truncate | src/app/income-calculator/IncomeCalculatorPageClient.tsx:84 | the integer part lies within one of the number, toward zero |
| IncomeCalculatorForm.FloatOrZero | src/app/income-calculator/IncomeCalculatorPageClient.tsx:81-83 | an empty or unparseable text becomes 0, and any number, negative ones included, stays itself |
| IncomeCalculatorForm.IntOrZero | src/app/income-calculator/IncomeCalculatorPageClient.tsx:84 | an empty or unparseable text becomes 0, and a number becomes its integer part |
| IncomeCalculatorForm.ValidateGrossIncome | src/app/income-calculator/IncomeCalculatorPageClient.tsx:105-109 | no error exactly when the text is empty or a number above 0; the only error is 'Please enter a valid number' |
| IncomeCalculatorForm.ValidateHoursPerWeek | src/app/income-calculator/IncomeCalculatorPageClient.tsx:111-116 | accepted exactly when empty or above 0 and at most 168; the 168 message appears only for positive numbers above 168 |
| IncomeCalculatorForm.ValidateDaysPerWeek | src/app/income-calculator/IncomeCalculatorPageClient.tsx:118-123 | accepted exactly when empty or above 0 and below 8, since the integer part is compared with 7 |
| IncomeCalculatorForm.ValidateOvertimeHoursPerWeek | src/app/income-calculator/IncomeCalculatorPageClient.tsx:297-302 | accepted exactly when empty or above 0 with overtime plus weekly hours at most 168 |
| IncomeCalculatorForm.ValidateOvertimeHourMultiplier | src/app/income-calculator/IncomeCalculatorPageClient.tsx:304-309 | accepted exactly when empty or at least 1 |
| IncomeCalculatorForm.RequiredInputsUpdate | src/app/income-calculator/IncomeCalculatorPageClient.tsx:80-87 | every required field is sent, numbers through `\|\| 0`, the days as an integer |
| IncomeCalculatorForm.OptionalInputsUpdate | src/app/income-calculator/IncomeCalculatorPageClient.tsx:290-293 | only the overtime fields are sent, through `\|\| 0` |
| IncomeCalculatorForm.AcceptedDaysAreWholeDaysOfAWeek | src/app/income-calculator/IncomeCalculatorPageClient.tsx:84-123 | an accepted day count reaches the calculator as a whole number from 0 to 7, and from 1 when at least one day was entered |
| IncomeCalculatorForm.AcceptedInputsAreProcessed | src/app/income-calculator/IncomeCalculatorPageClient.tsx:80-123 | accepted, filled-in required fields with at least one day give the calculator positive inputs, hours at most 168 and days at most 7 |
| IncomeCalculatorForm.AcceptedOvertimeIsPaid | src/app/income-calculator/IncomeCalculatorPageClient.tsx:290-309 | accepted overtime fields give positive overtime hours at a multiplier of at least 1, within 168 hours together with the regular hours |
| BudgetCategoryList.ValidateAmount | src/components/BudgetCategoryList.tsx:109-123 | an empty text is 'Amount is required'; `NaN` or a number ≤ 0 is the positive-number message; otherwise accepted exactly when at most the unallocated amount, and the exceed message carries that amount |
| BudgetCategoryList.Utf16Length | src/components/BudgetCategoryList.tsx:150 | a name's length in UTF-16 code units lies between its character count and twice that: equal to it for characters inside the Basic Multilingual Plane, twice it for characters outside |
| BudgetCategoryList.ValidateName | src/components/BudgetCategoryList.tsx:147-157 | checked in order: only characters `trim` removes (ECMAScript white space and line terminators) → required; over 50 UTF-16 code units (a character outside the Basic Multilingual Plane counts 2) → length message; an existing name → 'must be unique'; accepted exactly when none applies |
| BudgetCategoryList.UnicodeSpacesAreBlank | src/components/BudgetCategoryList.tsx:148-149 | names made only of line or paragraph separators, or of ideographic, ogham and other Unicode spaces, are rejected as missing, while a name with a visible character is not |
| BudgetCategoryList.NameLengthCountsCodeUnits | src/components/BudgetCategoryList.tsx:150-152 | 26 characters outside the Basic Multilingual Plane are rejected as too long, while 50 inside it are accepted when new |
| BudgetCategoryList.AcceptedNameIsNew | src/components/BudgetCategoryList.tsx:147-157 | an accepted name is carried by no category, so removing it would change nothing |
| BudgetCategoryList.AcceptedAmountFits | src/components/BudgetCategoryList.tsx:113-123 | an amount accepted against the planner's unallocated amount is positive and passes `addCategory`'s budget check |
| BudgetCategoryList.CategoryRows | src/components/BudgetCategoryList.tsx:17-21 | the rows are the user categories and the unallocated row, minus the hidden rows |
| BudgetCategoryList.VisibleRowsConcat | src/components/BudgetCategoryList.tsx:17-21 | hiding rows distributes over joining lists |
| BudgetCategoryList.RowsAreCategoriesThenUnallocated | src/components/BudgetCategoryList.tsx:17-21 | when no user category has the id 'unallocated', the rows are all user categories in order, then the unallocated row unless its amount is exactly 0 |
| BudgetCategoryList.AddFormShownIffSomeAmountFits | src/components/BudgetCategoryList.tsx:53 | the add form is shown exactly when some amount would pass the amount validator |

## Left out

- Reading the JSON rate tables: the tables are parameters, and `WellFormedTables` names what the lemmas assume of them.
- IEEE-754 rounding: money is exact `real`. `Infinity` as a parsed number is not modelled, and every non-finite quotient is lumped into `Quotient.NonFinite`.
- `parseFloat` and `parseInt` themselves: a handler receives the parsed value (`TextInput`). `parseInt` is taken as truncation of the `parseFloat` value, which differs for exponent notation such as "1e3".
- The handlers take a province code or a year value, not an arbitrary string. The selects offer only valid codes and the year 2025, so casting any other string is not modelled.
- `crypto.randomUUID()`: the new category's id is a parameter of `AddCategory`.
- React's scheduling:
  - each effect is a method called explicitly;
  - state updates within one render, which see the same stale closure, are modelled as sequential calls;
  - the income calculator's deductions collaborator is abstract. It exposes `handleParamsChange`/`resetParams`, but src/hooks/useDeductionsCalculator.ts exports separate handlers and `resetInputs`, so calls into it are recorded as a list, and its net income and completion flag are parameters.
- Rendering, `toFixed(2)` formatting of amounts, charts, the deduction table and CSV export. One oddity: the pie chart's net income omits `qpipPremium` (src/components/IncomeDeductionsBreakdownPieChart.tsx:33), while the table subtracts `totalDeductions`.
- The older engine's own type declarations (src/lib/taxes/canadian-tax-calculator.ts:5-20) have the same shapes as the newer ones and reuse `DeductionTypes`.
- CanadianDeductions.ZeroIncomeZeroTax: stated for schedules whose limits are non-negative. For an arbitrary bracket list with a negative limit the guard `income > previousBracketLimit` can pass at income 0, and a negative slice may be taxed.
- CanadianTaxCalculator.ZeroIncomeZeroTax: stated for non-negative widths, for the same reason.
