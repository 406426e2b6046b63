/** The shapes of the payroll-deduction rate tables (src/lib/deductions/canadian-deductions.types.ts).
    The tables themselves are data files that this model takes as parameters. */
module DeductionTypes {
  import opened Wrappers
  import opened CanadianProvinces

  /** `TaxYears = [2025]`: the only tax year. */
  datatype TaxYear = Y2025

  function YearNumber(y: TaxYear): (n: int)
    ensures n == 2025
  {
    match y
    case Y2025 => 2025
  }

  /** `TaxYears`, the list the year selector offers. */
  function TaxYears(): seq<TaxYear>
  {
    [Y2025]
  }

  /** `TaxYear` has exactly one inhabitant, 2025, and the selector lists it. */
  lemma OnlyTaxYear(y: TaxYear)
    ensures y == Y2025 && YearNumber(y) == 2025 && y in TaxYears()
  {
    match y
    case Y2025 => assert TaxYears()[0] == y;
  }

  /** Reads a year from the number a selector produced; only 2025 is a tax year. */
  function ParseYear(n: int): (y: Option<TaxYear>)
    ensures y.Some? <==> n == 2025
    ensures y.Some? ==> YearNumber(y.value) == n
  {
    if n == 2025 then Some(Y2025) else None
  }

  /** A bracket: an optional upper limit (`None` is the unbounded bracket) and a marginal rate. */
  datatype TaxBracket = TaxBracket(incomeUpTo: Option<real>, rate: real)

  /** `FederalTaxData`: a bracket list for every year. */
  type FederalTaxData = TaxYear -> seq<TaxBracket>

  /** `ProvincialTaxData`: a bracket list for every year and every province code. */
  type ProvincialTaxData = TaxYear -> ProvinceCode -> seq<TaxBracket>

  /** `CppQppEntry`: first-tier rate, basic exemption, YMPE (first ceiling),
      second-tier rate and YAMPE (second ceiling). */
  datatype CppQppEntry = CppQppEntry(rate: real, basicExemption: real, ympe: real, rate2: real, yampe: real)

  /** `CppQppYearData`: the rest-of-Canada (CPP) entry and the Quebec (QPP) entry. */
  datatype CppQppYearData = CppQppYearData(ROC: CppQppEntry, QC: CppQppEntry)

  type CppQppData = TaxYear -> CppQppYearData

  /** `EIQpipEntry`: a premium rate and the maximum insurable earnings. */
  datatype EiQpipEntry = EiQpipEntry(rate: real, mie: real)

  /** `QcEqQpipData`: Quebec has a reduced EI premium and a separate QPIP premium. */
  datatype QcEiQpipData = QcEiQpipData(ei: EiQpipEntry, qpip: EiQpipEntry)

  /** `EiQpipYearData`. */
  datatype EiQpipYearData = EiQpipYearData(ROC: EiQpipEntry, QC: QcEiQpipData)

  type EiQpipData = TaxYear -> EiQpipYearData

  /** The four data files the newer engine reads. */
  datatype DeductionTables = DeductionTables(
    federal: FederalTaxData,
    provincial: ProvincialTaxData,
    cppQpp: CppQppData,
    eiQpip: EiQpipData)

  /** The two data files the older, tax-only engine reads. */
  datatype TaxTables = TaxTables(federal: FederalTaxData, provincial: ProvincialTaxData)

  /** The upper limit a bracket has for a given income: its own limit, or the income itself
      for the unbounded bracket (`incomeUpTo ?? income`). */
  function UpperLimit(b: TaxBracket, income: real): (u: real)
    ensures b.incomeUpTo.None? ==> u == income
  {
    match b.incomeUpTo
    case None => income
    case Some(limit) => limit
  }

  /** Finite limits are non-negative and strictly ascending, and only the last bracket may be unbounded. */
  ghost predicate AscendingLimits(brackets: seq<TaxBracket>)
  {
    && (forall i :: 0 <= i < |brackets| - 1 ==> brackets[i].incomeUpTo.Some?)
    && (forall i :: 0 <= i < |brackets| && brackets[i].incomeUpTo.Some? ==> brackets[i].incomeUpTo.value >= 0.0)
    && (forall i, j :: 0 <= i < j < |brackets| && brackets[j].incomeUpTo.Some? ==>
          brackets[i].incomeUpTo.value < brackets[j].incomeUpTo.value)
  }

  ghost predicate NonNegativeRates(brackets: seq<TaxBracket>)
  {
    forall i :: 0 <= i < |brackets| ==> brackets[i].rate >= 0.0
  }

  /** A well-formed schedule of cumulative limits: ascending, ending in the unbounded bracket,
      with non-negative rates. */
  ghost predicate WellFormedBrackets(brackets: seq<TaxBracket>)
  {
    && |brackets| > 0
    && brackets[|brackets| - 1].incomeUpTo.None?
    && AscendingLimits(brackets)
    && NonNegativeRates(brackets)
  }

  /** A CPP/QPP entry whose ceilings are ordered and whose rates are non-negative. */
  ghost predicate WellFormedCppQpp(e: CppQppEntry)
  {
    0.0 <= e.basicExemption <= e.ympe <= e.yampe && e.rate >= 0.0 && e.rate2 >= 0.0
  }

  ghost predicate WellFormedEiQpip(e: EiQpipEntry)
  {
    e.rate >= 0.0 && e.mie >= 0.0
  }

  /** Every table of every year and province is well formed. */
  ghost predicate WellFormedTables(t: DeductionTables)
  {
    && (forall y :: WellFormedBrackets(t.federal(y)))
    && (forall y, c :: WellFormedBrackets(t.provincial(y)(c)))
    && (forall y :: WellFormedCppQpp(t.cppQpp(y).ROC) && WellFormedCppQpp(t.cppQpp(y).QC))
    && (forall y :: WellFormedEiQpip(t.eiQpip(y).ROC) && WellFormedEiQpip(t.eiQpip(y).QC.ei)
                    && WellFormedEiQpip(t.eiQpip(y).QC.qpip))
  }
}
