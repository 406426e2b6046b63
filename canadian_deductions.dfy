/** Canadian payroll deductions, current revision (src/lib/deductions/canadian-deductions.ts):
    progressive federal and provincial income tax over CUMULATIVE bracket limits,
    CPP/QPP contributions, EI/QPIP premiums and their aggregate. */
module CanadianDeductions {
  import opened Wrappers
  import opened Numbers
  import opened CanadianProvinces
  import opened DeductionTypes

  // ---------------------------------------------------------------------------------------------
  // Progressive tax

  /** What the loop of `calculateProgressiveTax` adds up from `brackets` on, when `previous` is the
      limit of the bracket before: a bracket taxes `min(income, limit) - previous` only while
      `income > previous`, and the loop stops at the first bracket whose limit reaches the income. */
  function ProgressiveTaxFrom(income: real, brackets: seq<TaxBracket>, previous: real): real
    decreases |brackets|
  {
    if brackets == [] then 0.0
    else
      var limit := UpperLimit(brackets[0], income);
      var rest := if income <= limit then 0.0 else ProgressiveTaxFrom(income, brackets[1..], limit);
      Tax(TaxableInBracket(income, brackets[0], previous), brackets[0].rate) + rest
  }

  /** The income one pass of the loop taxes at `bracket`'s rate: `min(income, limit) - previous`
      when `income > previous`, and nothing otherwise. */
  function TaxableInBracket(income: real, bracket: TaxBracket, previous: real): real
  {
    if income > previous then Min(income, UpperLimit(bracket, income)) - previous else 0.0
  }

  /** The value `calculateProgressiveTax` returns: the loop starts with a previous limit of 0. */
  function ProgressiveTax(income: real, brackets: seq<TaxBracket>): real
  {
    ProgressiveTaxFrom(income, brackets, 0.0)
  }

  /** `calculateProgressiveTax`: the loop with its early `break`. */
  method CalculateProgressiveTax(income: real, brackets: seq<TaxBracket>) returns (totalTax: real)
    ensures totalTax == ProgressiveTax(income, brackets)
  {
    totalTax := 0.0;
    var previousBracketLimit := 0.0;
    for i := 0 to |brackets|
      invariant totalTax + ProgressiveTaxFrom(income, brackets[i..], previousBracketLimit) == ProgressiveTax(income, brackets)
    {
      assert brackets[i..][0] == brackets[i] && brackets[i..][1..] == brackets[i + 1..];
      var bracket := brackets[i];
      var currentBracketLimit := UpperLimit(bracket, income);
      ghost var before := totalTax;
      if income > previousBracketLimit {
        var taxableInBracket := Min(income, currentBracketLimit) - previousBracketLimit;
        totalTax := totalTax + Tax(taxableInBracket, bracket.rate);
      }
      assert totalTax == before + Tax(TaxableInBracket(income, bracket, previousBracketLimit), bracket.rate);
      if income <= currentBracketLimit {
        break;
      }
      previousBracketLimit := currentBracketLimit;
    }
  }

  /** The part of `income` that lies between `lower` and `upper`. */
  function Slice(income: real, lower: real, upper: real): (s: real)
    ensures 0.0 <= s
  {
    Max(0.0, Min(income, upper) - lower)
  }

  lemma SliceBounds(income: real, lower: real, upper: real)
    ensures Slice(income, lower, upper) <= Max(0.0, income - lower)
    ensures Slice(income, lower, upper) <= Max(0.0, upper - lower)
  {
  }

  /** A slice grows with the income. */
  lemma SliceGrows(income1: real, income2: real, lower: real, upper: real)
    requires income1 <= income2
    ensures Slice(income1, lower, upper) <= Slice(income2, lower, upper)
  {
  }

  /** Reference definition: the sum over the brackets of rate times the slice of income between the
      previous bracket's limit and this bracket's limit. */
  function MarginalSum(income: real, brackets: seq<TaxBracket>, lower: real): real
    decreases |brackets|
  {
    if brackets == [] then 0.0
    else
      var upper := UpperLimit(brackets[0], income);
      Tax(Slice(income, lower, upper), brackets[0].rate) + MarginalSum(income, brackets[1..], upper)
  }

  /** The sum of the slice widths alone, without rates. */
  function SliceTotal(income: real, brackets: seq<TaxBracket>, lower: real): real
    decreases |brackets|
  {
    if brackets == [] then 0.0
    else
      var upper := UpperLimit(brackets[0], income);
      Slice(income, lower, upper) + SliceTotal(income, brackets[1..], upper)
  }

  /** Every finite limit is at least `lower`. */
  ghost predicate LimitsAtLeast(brackets: seq<TaxBracket>, lower: real)
  {
    forall i :: 0 <= i < |brackets| && brackets[i].incomeUpTo.Some? ==> brackets[i].incomeUpTo.value >= lower
  }

  lemma AscendingTail(brackets: seq<TaxBracket>)
    requires |brackets| > 0 && AscendingLimits(brackets)
    ensures AscendingLimits(brackets[1..])
    ensures NonNegativeRates(brackets) ==> NonNegativeRates(brackets[1..])
    ensures brackets[0].incomeUpTo.None? ==> |brackets| == 1
    ensures brackets[0].incomeUpTo.Some? ==> LimitsAtLeast(brackets[1..], brackets[0].incomeUpTo.value)
  {
    if brackets[0].incomeUpTo.Some? {
      forall i | 0 <= i < |brackets[1..]| && brackets[1..][i].incomeUpTo.Some?
        ensures brackets[1..][i].incomeUpTo.value >= brackets[0].incomeUpTo.value
      {
        assert brackets[1..][i] == brackets[i + 1];
      }
    }
  }

  /** No slice lies above the income: once the lower bound reaches the income, nothing is added. */
  lemma {:induction false} MarginalSumAboveIncome(income: real, brackets: seq<TaxBracket>, lower: real)
    requires income <= lower && LimitsAtLeast(brackets, income)
    ensures MarginalSum(income, brackets, lower) == 0.0
    ensures SliceTotal(income, brackets, lower) == 0.0
    decreases |brackets|
  {
    if brackets != [] {
      var upper := UpperLimit(brackets[0], income);
      assert Slice(income, lower, upper) == 0.0;
      assert LimitsAtLeast(brackets[1..], income) by {
        forall i | 0 <= i < |brackets[1..]| ensures brackets[1..][i] == brackets[i + 1] { }
      }
      MarginalSumAboveIncome(income, brackets[1..], upper);
    }
  }

  /** While the limit is not below the previous one, what one pass of the loop taxes is the slice. */
  lemma TaxableIsSlice(income: real, b: TaxBracket, previous: real)
    requires income > previous ==> UpperLimit(b, income) >= previous
    ensures TaxableInBracket(income, b, previous) == Slice(income, previous, UpperLimit(b, income))
  {
  }

  /** With ascending limits, the loop computes exactly the marginal sum: every slice of income is
      taxed once, at the rate of the bracket it falls in. */
  lemma {:induction false} LoopIsMarginalSum(income: real, brackets: seq<TaxBracket>, previous: real)
    requires AscendingLimits(brackets) && LimitsAtLeast(brackets, previous)
    ensures ProgressiveTaxFrom(income, brackets, previous) == MarginalSum(income, brackets, previous)
    decreases |brackets|
  {
    if brackets != [] {
      var limit := UpperLimit(brackets[0], income);
      AscendingTail(brackets);
      assert brackets[0].incomeUpTo.Some? ==> brackets[0].incomeUpTo.value >= previous;
      if income <= limit {
        MarginalSumAboveIncome(income, brackets[1..], limit);
      } else {
        LoopIsMarginalSum(income, brackets[1..], limit);
      }
      TaxableIsSlice(income, brackets[0], previous);
    }
  }

  /** The tax of `calculateProgressiveTax` is the marginal sum over a schedule of ascending limits. */
  lemma ProgressiveTaxIsMarginalSum(income: real, brackets: seq<TaxBracket>)
    ensures AscendingLimits(brackets) ==> ProgressiveTax(income, brackets) == MarginalSum(income, brackets, 0.0)
  {
    if AscendingLimits(brackets) {
      LoopIsMarginalSum(income, brackets, 0.0);
    }
  }

  /** Over a well-formed schedule the slices partition the income: their widths add up to it. */
  lemma {:induction false} SlicesPartitionFrom(income: real, brackets: seq<TaxBracket>, lower: real)
    requires |brackets| > 0 && brackets[|brackets| - 1].incomeUpTo.None?
    requires AscendingLimits(brackets) && LimitsAtLeast(brackets, lower)
    ensures SliceTotal(income, brackets, lower) == Max(0.0, income - lower)
    decreases |brackets|
  {
    AscendingTail(brackets);
    var upper := UpperLimit(brackets[0], income);
    if brackets[0].incomeUpTo.None? {
      assert brackets[1..] == [];
    } else {
      SlicesPartitionFrom(income, brackets[1..], upper);
    }
  }

  lemma SlicesPartitionIncome(income: real, brackets: seq<TaxBracket>)
    requires WellFormedBrackets(brackets) && income >= 0.0
    ensures SliceTotal(income, brackets, 0.0) == income
  {
    SlicesPartitionFrom(income, brackets, 0.0);
  }

  /** Income 0 is never taxed, whatever the brackets, as long as no limit is negative
      (the first guard `income > previousBracketLimit` never holds). */
  lemma {:induction false} ZeroIncomeFrom(brackets: seq<TaxBracket>, previous: real)
    requires previous >= 0.0 && LimitsAtLeast(brackets, 0.0)
    ensures ProgressiveTaxFrom(0.0, brackets, previous) == 0.0
    decreases |brackets|
  {
    if brackets != [] {
      var limit := UpperLimit(brackets[0], 0.0);
      assert TaxableInBracket(0.0, brackets[0], previous) == 0.0;
      if 0.0 > limit {
      } else {
        assert LimitsAtLeast(brackets[1..], 0.0) by {
          forall i | 0 <= i < |brackets[1..]| && brackets[1..][i].incomeUpTo.Some?
            ensures brackets[1..][i].incomeUpTo.value >= 0.0
          {
            assert brackets[1..][i] == brackets[i + 1];
          }
        }
        ZeroIncomeFrom(brackets[1..], limit);
      }
    }
  }

  lemma ZeroIncomeZeroTax(brackets: seq<TaxBracket>)
    requires LimitsAtLeast(brackets, 0.0)
    ensures ProgressiveTax(0.0, brackets) == 0.0
  {
    ZeroIncomeFrom(brackets, 0.0);
  }

  /** The loop never reads past the unbounded bracket: its limit is the income itself. */
  lemma {:induction false} UnboundedBracketEndsLoop(income: real, brackets: seq<TaxBracket>, rest: seq<TaxBracket>, previous: real)
    requires |brackets| > 0 && brackets[|brackets| - 1].incomeUpTo.None?
    ensures ProgressiveTaxFrom(income, brackets + rest, previous) == ProgressiveTaxFrom(income, brackets, previous)
    decreases |brackets|
  {
    assert (brackets + rest)[0] == brackets[0];
    var limit := UpperLimit(brackets[0], income);
    if income > limit {
      assert |brackets| > 1;
      assert (brackets + rest)[1..] == brackets[1..] + rest;
      UnboundedBracketEndsLoop(income, brackets[1..], rest, limit);
    }
  }

  /** All finite limits are at most `cap`. */
  ghost predicate LimitsAtMost(brackets: seq<TaxBracket>, cap: real)
  {
    forall i :: 0 <= i < |brackets| ==> brackets[i].incomeUpTo.Some? && brackets[i].incomeUpTo.value <= cap
  }

  lemma {:induction false} MarginalSumCapped(income: real, cap: real, brackets: seq<TaxBracket>, lower: real)
    requires LimitsAtMost(brackets, cap) && cap <= income
    ensures MarginalSum(income, brackets, lower) == MarginalSum(cap, brackets, lower)
    decreases |brackets|
  {
    if brackets != [] {
      assert LimitsAtMost(brackets[1..], cap) by {
        forall i | 0 <= i < |brackets[1..]| ensures brackets[1..][i] == brackets[i + 1] { }
      }
      assert brackets[0].incomeUpTo.Some?;
      MarginalSumCapped(income, cap, brackets[1..], brackets[0].incomeUpTo.value);
    }
  }

  /** Without an unbounded bracket, income above the last limit goes untaxed: the tax is the
      tax of the last limit. */
  lemma UntaxedAboveLastLimit(income: real, brackets: seq<TaxBracket>)
    requires |brackets| > 0 && AscendingLimits(brackets)
    requires brackets[|brackets| - 1].incomeUpTo.Some?
    requires income >= brackets[|brackets| - 1].incomeUpTo.value
    ensures ProgressiveTax(income, brackets) == ProgressiveTax(brackets[|brackets| - 1].incomeUpTo.value, brackets)
  {
    var cap := brackets[|brackets| - 1].incomeUpTo.value;
    assert LimitsAtMost(brackets, cap) by {
      forall i | 0 <= i < |brackets| ensures brackets[i].incomeUpTo.Some? && brackets[i].incomeUpTo.value <= cap {
        if i < |brackets| - 1 {
          assert brackets[i].incomeUpTo.Some?;
        }
      }
    }
    ProgressiveTaxIsMarginalSum(income, brackets);
    ProgressiveTaxIsMarginalSum(cap, brackets);
    MarginalSumCapped(income, cap, brackets, 0.0);
  }

  /** The unbounded bracket alone: its slice is the whole income above `lower`. */
  lemma UnboundedBracketMonotone(income1: real, income2: real, b: TaxBracket, lower: real)
    requires income1 <= income2 && b.incomeUpTo.None? && b.rate >= 0.0
    ensures MarginalSum(income1, [b], lower) <= MarginalSum(income2, [b], lower)
  {
    var s1, s2 := Slice(income1, lower, income1), Slice(income2, lower, income2);
    TaxMonotone(s1, s2, b.rate);
    assert [b][1..] == [];
  }

  /** Unfolds one bounded bracket of the reference sum. */
  lemma BoundedStep(income: real, brackets: seq<TaxBracket>, lower: real)
    requires brackets != [] && brackets[0].incomeUpTo.Some?
    ensures MarginalSum(income, brackets, lower)
         == Tax(Slice(income, lower, brackets[0].incomeUpTo.value), brackets[0].rate)
          + MarginalSum(income, brackets[1..], brackets[0].incomeUpTo.value)
  {
  }

  /** A bounded first bracket keeps the order that the rest of the schedule keeps. */
  lemma BoundedBracketMonotone(income1: real, income2: real, brackets: seq<TaxBracket>, lower: real)
    requires income1 <= income2 && brackets != [] && brackets[0].incomeUpTo.Some? && brackets[0].rate >= 0.0
    requires MarginalSum(income1, brackets[1..], brackets[0].incomeUpTo.value)
          <= MarginalSum(income2, brackets[1..], brackets[0].incomeUpTo.value)
    ensures MarginalSum(income1, brackets, lower) <= MarginalSum(income2, brackets, lower)
  {
    var upper := brackets[0].incomeUpTo.value;
    SliceGrows(income1, income2, lower, upper);
    BoundedStep(income1, brackets, lower);
    BoundedStep(income2, brackets, lower);
    TaxMonotone(Slice(income1, lower, upper), Slice(income2, lower, upper), brackets[0].rate);
  }

  lemma {:induction false} MarginalSumMonotone(income1: real, income2: real, brackets: seq<TaxBracket>, lower: real)
    requires income1 <= income2
    requires AscendingLimits(brackets) && NonNegativeRates(brackets)
    ensures MarginalSum(income1, brackets, lower) <= MarginalSum(income2, brackets, lower)
    decreases |brackets|
  {
    if brackets != [] {
      AscendingTail(brackets);
      var b := brackets[0];
      assert b.rate >= 0.0;
      if b.incomeUpTo.None? {
        assert brackets == [b];
        UnboundedBracketMonotone(income1, income2, b, lower);
      } else {
        MarginalSumMonotone(income1, income2, brackets[1..], b.incomeUpTo.value);
        BoundedBracketMonotone(income1, income2, brackets, lower);
      }
    }
  }

  /** More income never means less tax. */
  lemma ProgressiveTaxMonotone(income1: real, income2: real, brackets: seq<TaxBracket>)
    requires income1 <= income2 && AscendingLimits(brackets) && NonNegativeRates(brackets)
    ensures ProgressiveTax(income1, brackets) <= ProgressiveTax(income2, brackets)
  {
    ProgressiveTaxIsMarginalSum(income1, brackets);
    ProgressiveTaxIsMarginalSum(income2, brackets);
    MarginalSumMonotone(income1, income2, brackets, 0.0);
  }

  lemma {:induction false} MarginalSumNonNegative(income: real, brackets: seq<TaxBracket>, lower: real)
    requires NonNegativeRates(brackets)
    ensures MarginalSum(income, brackets, lower) >= 0.0
    decreases |brackets|
  {
    if brackets != [] {
      assert NonNegativeRates(brackets[1..]) by {
        forall i | 0 <= i < |brackets[1..]| ensures brackets[1..][i] == brackets[i + 1] { }
      }
      MarginalSumNonNegative(income, brackets[1..], UpperLimit(brackets[0], income));
    }
  }

  /** Tax is never negative over ascending limits with non-negative rates. */
  lemma ProgressiveTaxNonNegative(income: real, brackets: seq<TaxBracket>)
    requires AscendingLimits(brackets) && NonNegativeRates(brackets)
    ensures ProgressiveTax(income, brackets) >= 0.0
  {
    ProgressiveTaxIsMarginalSum(income, brackets);
    MarginalSumNonNegative(income, brackets, 0.0);
  }

  /** Income within the first bracket is taxed at the first rate alone. */
  lemma FirstBracketOnly(income: real, brackets: seq<TaxBracket>)
    requires |brackets| > 0 && 0.0 <= income <= UpperLimit(brackets[0], income)
    ensures ProgressiveTax(income, brackets) == Tax(income, brackets[0].rate)
  {
    assert Min(income, UpperLimit(brackets[0], income)) == income;
    assert TaxableInBracket(income, brackets[0], 0.0) == income;
  }

  // ---------------------------------------------------------------------------------------------
  // Federal and provincial tax

  /** `calculateFederalTax`: the year's federal schedule. */
  function FederalTax(income: real, year: TaxYear, federal: FederalTaxData): (tax: real)
    ensures AscendingLimits(federal(year)) ==> tax == MarginalSum(income, federal(year), 0.0)
  {
    ProgressiveTaxIsMarginalSum(income, federal(year));
    ProgressiveTax(income, federal(year))
  }

  /** `calculateProvincialTax`: the schedule of the year and province; the record is total, so the
      lookup cannot miss. */
  function ProvincialTax(income: real, code: ProvinceCode, year: TaxYear, provincial: ProvincialTaxData): (tax: real)
    ensures AscendingLimits(provincial(year)(code)) ==> tax == MarginalSum(income, provincial(year)(code), 0.0)
  {
    ProgressiveTaxIsMarginalSum(income, provincial(year)(code));
    ProgressiveTax(income, provincial(year)(code))
  }

  // ---------------------------------------------------------------------------------------------
  // CPP/QPP

  /** `'QC'` selects the Quebec (QPP) entry; every other code selects the rest-of-Canada (CPP) entry. */
  function CppQppEntryFor(code: ProvinceCode, year: TaxYear, data: CppQppData): CppQppEntry
  {
    if code == QC then data(year).QC else data(year).ROC
  }

  /** The contribution for one entry: nothing up to the basic exemption, then the first rate up to
      the YMPE and, above the YMPE, the second rate up to the YAMPE. */
  function CppQppContribution(income: real, e: CppQppEntry): (contribution: real)
    ensures income <= e.basicExemption ==> contribution == 0.0
  {
    if income <= e.basicExemption then 0.0
    else
      var baseContribution := Tax(Max(0.0, Min(income, e.ympe) - e.basicExemption), e.rate);
      var secondContribution := if income > e.ympe then Tax(Max(0.0, Min(income, e.yampe) - e.ympe), e.rate2) else 0.0;
      baseContribution + secondContribution
  }

  /** `calculateCppQpp`. */
  function CppQpp(income: real, code: ProvinceCode, year: TaxYear, data: CppQppData): (contribution: real)
    ensures income <= CppQppEntryFor(code, year, data).basicExemption ==> contribution == 0.0
  {
    CppQppContribution(income, CppQppEntryFor(code, year, data))
  }

  /** The contribution is two capped slices of the income: exemption to YMPE at the first rate,
      YMPE to YAMPE at the second rate. */
  lemma CppQppIsTwoCappedTiers(income: real, e: CppQppEntry)
    requires e.basicExemption <= e.ympe
    ensures CppQppContribution(income, e) == Tax(Slice(income, e.basicExemption, e.ympe), e.rate) + Tax(Slice(income, e.ympe, e.yampe), e.rate2)
  {
    if income <= e.basicExemption {
      assert Slice(income, e.basicExemption, e.ympe) == 0.0;
      assert Slice(income, e.ympe, e.yampe) == 0.0;
    } else if income <= e.ympe {
      assert Slice(income, e.ympe, e.yampe) == 0.0;
    }
  }

  /** Both tiers are capped: the contribution lies between 0 and the two full tiers. */
  lemma CppQppBounded(income: real, e: CppQppEntry)
    requires WellFormedCppQpp(e)
    ensures 0.0 <= CppQppContribution(income, e)
    ensures CppQppContribution(income, e) <= Tax(e.ympe - e.basicExemption, e.rate) + Tax(e.yampe - e.ympe, e.rate2)
  {
    CppQppIsTwoCappedTiers(income, e);
    var s1, s2 := Slice(income, e.basicExemption, e.ympe), Slice(income, e.ympe, e.yampe);
    var w1, w2 := e.ympe - e.basicExemption, e.yampe - e.ympe;
    SliceBounds(income, e.basicExemption, e.ympe);
    SliceBounds(income, e.ympe, e.yampe);
    TaxMonotone(0.0, s1, e.rate);
    TaxMonotone(0.0, s2, e.rate2);
    TaxMonotone(s1, w1, e.rate);
    TaxMonotone(s2, w2, e.rate2);
  }

  /** Up to the YMPE only the first tier applies (so at the YMPE the second tier is 0). */
  lemma CppQppFirstTierOnly(income: real, e: CppQppEntry)
    requires e.basicExemption < income <= e.ympe
    ensures CppQppContribution(income, e) == Tax(income - e.basicExemption, e.rate)
  {
  }

  /** The contribution grows with the income. */
  lemma CppQppMonotone(income1: real, income2: real, e: CppQppEntry)
    requires income1 <= income2 && WellFormedCppQpp(e)
    ensures CppQppContribution(income1, e) <= CppQppContribution(income2, e)
  {
    CppQppIsTwoCappedTiers(income1, e);
    CppQppIsTwoCappedTiers(income2, e);
    var a1, a2 := Slice(income1, e.basicExemption, e.ympe), Slice(income2, e.basicExemption, e.ympe);
    var b1, b2 := Slice(income1, e.ympe, e.yampe), Slice(income2, e.ympe, e.yampe);
    SliceGrows(income1, income2, e.basicExemption, e.ympe);
    SliceGrows(income1, income2, e.ympe, e.yampe);
    TaxMonotone(a1, a2, e.rate);
    TaxMonotone(b1, b2, e.rate2);
  }

  /** Outside Quebec the province does not matter: every other code reads the same entry. */
  lemma CppQppSameOutsideQuebec(income: real, code1: ProvinceCode, code2: ProvinceCode, year: TaxYear, data: CppQppData)
    requires code1 != QC && code2 != QC
    ensures CppQpp(income, code1, year, data) == CppQpp(income, code2, year, data)
    ensures CppQpp(income, code1, year, data) == CppQppContribution(income, data(year).ROC)
  {
  }

  // ---------------------------------------------------------------------------------------------
  // EI/QPIP

  datatype Premiums = Premiums(eiPremium: real, qpipPremium: real)

  /** A premium on insurable earnings capped at the maximum. */
  function CappedPremium(income: real, e: EiQpipEntry): (premium: real)
    ensures income >= e.mie ==> premium == Tax(e.mie, e.rate)
  {
    Tax(Min(income, e.mie), e.rate)
  }

  /** `calculateEiQpip`: in Quebec both EI and QPIP apply, each on its own capped earnings;
      elsewhere only EI applies and the QPIP premium is 0. */
  function EiQpip(income: real, code: ProvinceCode, year: TaxYear, data: EiQpipData): (p: Premiums)
    ensures code != QC ==> p.qpipPremium == 0.0 && p.eiPremium == CappedPremium(income, data(year).ROC)
    ensures code == QC ==> p.eiPremium == CappedPremium(income, data(year).QC.ei) && p.qpipPremium == CappedPremium(income, data(year).QC.qpip)
  {
    var d := data(year);
    if code == QC then
      Premiums(Tax(Min(income, d.QC.ei.mie), d.QC.ei.rate), Tax(Min(income, d.QC.qpip.mie), d.QC.qpip.rate))
    else
      Premiums(Tax(Min(income, d.ROC.mie), d.ROC.rate), 0.0)
  }

  /** Each premium lies between 0 and its maximum insurable earnings times its rate. */
  lemma CappedPremiumBounded(income: real, e: EiQpipEntry)
    requires income >= 0.0 && WellFormedEiQpip(e)
    ensures 0.0 <= CappedPremium(income, e) <= Tax(e.mie, e.rate)
  {
    TaxMonotone(0.0, Min(income, e.mie), e.rate);
    TaxMonotone(Min(income, e.mie), e.mie, e.rate);
  }

  /** In Quebec any positive income pays a positive QPIP premium when the QPIP rate and ceiling
      are positive. */
  lemma QuebecPaysQpip(income: real, year: TaxYear, data: EiQpipData)
    requires income > 0.0 && data(year).QC.qpip.rate > 0.0 && data(year).QC.qpip.mie > 0.0
    ensures EiQpip(income, QC, year, data).qpipPremium > 0.0
  {
    var e := data(year).QC.qpip;
    assert Min(income, e.mie) > 0.0;
  }

  // ---------------------------------------------------------------------------------------------
  // Aggregate

  /** `PayrollDeductionsResult`. */
  datatype PayrollDeductionsResult = PayrollDeductionsResult(
    totalFederalTax: real,
    totalProvincialTax: real,
    totalTax: real,
    cppContribution: real,
    eiPremium: real,
    qpipPremium: real,
    totalContributions: real,
    totalDeductions: real)

  /** The totals of a result add up its parts. */
  ghost predicate Consistent(r: PayrollDeductionsResult)
  {
    && r.totalTax == r.totalFederalTax + r.totalProvincialTax
    && r.totalContributions == r.cppContribution + r.eiPremium + r.qpipPremium
    && r.totalDeductions == r.totalTax + r.totalContributions
  }

  /** `calculatePayrollDeductions`. */
  function PayrollDeductions(taxableIncome: real, code: ProvinceCode, year: TaxYear, t: DeductionTables): (r: PayrollDeductionsResult)
    ensures Consistent(r)
    ensures r.totalDeductions == r.totalFederalTax + r.totalProvincialTax + r.cppContribution + r.eiPremium + r.qpipPremium
    ensures r.totalFederalTax == FederalTax(taxableIncome, year, t.federal)
    ensures r.totalProvincialTax == ProvincialTax(taxableIncome, code, year, t.provincial)
    ensures r.cppContribution == CppQpp(taxableIncome, code, year, t.cppQpp)
    ensures r.eiPremium == EiQpip(taxableIncome, code, year, t.eiQpip).eiPremium
    ensures r.qpipPremium == EiQpip(taxableIncome, code, year, t.eiQpip).qpipPremium
    ensures code != QC ==> r.qpipPremium == 0.0
  {
    var totalFederalTax := FederalTax(taxableIncome, year, t.federal);
    var totalProvincialTax := ProvincialTax(taxableIncome, code, year, t.provincial);
    var totalTax := totalFederalTax + totalProvincialTax;
    var cppContribution := CppQpp(taxableIncome, code, year, t.cppQpp);
    var premiums := EiQpip(taxableIncome, code, year, t.eiQpip);
    var totalContributions := cppContribution + premiums.eiPremium + premiums.qpipPremium;
    var totalDeductions := totalTax + totalContributions;
    PayrollDeductionsResult(totalFederalTax, totalProvincialTax, totalTax, cppContribution,
                            premiums.eiPremium, premiums.qpipPremium, totalContributions, totalDeductions)
  }

  /** With well-formed tables and a non-negative income every amount of the result is non-negative. */
  lemma PayrollDeductionsNonNegative(taxableIncome: real, code: ProvinceCode, year: TaxYear, t: DeductionTables)
    requires WellFormedTables(t) && taxableIncome >= 0.0
    ensures var r := PayrollDeductions(taxableIncome, code, year, t);
      && r.totalFederalTax >= 0.0 && r.totalProvincialTax >= 0.0 && r.totalTax >= 0.0
      && r.cppContribution >= 0.0 && r.eiPremium >= 0.0 && r.qpipPremium >= 0.0
      && r.totalContributions >= 0.0 && r.totalDeductions >= 0.0
  {
    assert WellFormedBrackets(t.federal(year));
    assert WellFormedBrackets(t.provincial(year)(code));
    ProgressiveTaxNonNegative(taxableIncome, t.federal(year));
    ProgressiveTaxNonNegative(taxableIncome, t.provincial(year)(code));
    CppQppBounded(taxableIncome, CppQppEntryFor(code, year, t.cppQpp));
    var d := t.eiQpip(year);
    CappedPremiumBounded(taxableIncome, d.ROC);
    CappedPremiumBounded(taxableIncome, d.QC.ei);
    CappedPremiumBounded(taxableIncome, d.QC.qpip);
  }
}
