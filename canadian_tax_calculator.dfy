/** Canadian income tax, older tax-only revision (src/lib/taxes/canadian-tax-calculator.ts).
    Its progressive loop reads a bracket's `incomeUpTo` as the WIDTH of the bracket: a full bracket
    is taxed and its width subtracted from the income still to be taxed. */
module CanadianTaxCalculator {
  import opened Wrappers
  import opened CanadianProvinces
  import opened DeductionTypes
  import opened Numbers
  import CanadianDeductions

  // ---------------------------------------------------------------------------------------------
  // Progressive tax over bracket widths

  /** What the loop of `calculateProgressiveTax` adds up from `brackets` on while `remaining`
      income is left: an unbounded bracket, or one at least as wide as what is left, takes all of
      it and ends the loop; a narrower bracket is taxed in full and the loop goes on. */
  function WidthTax(remaining: real, brackets: seq<TaxBracket>): real
    decreases |brackets|
  {
    if brackets == [] then 0.0
    else
      match brackets[0].incomeUpTo
      case None => Tax(remaining, brackets[0].rate)
      case Some(width) =>
        if remaining <= width then Tax(remaining, brackets[0].rate)
        else Tax(width, brackets[0].rate) + WidthTax(remaining - width, brackets[1..])
  }

  /** The value `calculateProgressiveTax` returns: at first the whole income remains. */
  function ProgressiveTax(income: real, brackets: seq<TaxBracket>): real
  {
    WidthTax(income, brackets)
  }

  /** `calculateProgressiveTax`: the loop with its early `break`. */
  method CalculateProgressiveTax(income: real, brackets: seq<TaxBracket>) returns (totalTax: real)
    ensures totalTax == ProgressiveTax(income, brackets)
  {
    var remainingIncome := income;
    totalTax := 0.0;
    for i := 0 to |brackets|
      invariant totalTax + WidthTax(remainingIncome, brackets[i..]) == ProgressiveTax(income, brackets)
    {
      assert brackets[i..][0] == brackets[i] && brackets[i..][1..] == brackets[i + 1..];
      var bracket := brackets[i];
      if bracket.incomeUpTo.None? || remainingIncome <= bracket.incomeUpTo.value {
        totalTax := totalTax + Tax(remainingIncome, bracket.rate);
        break;
      } else {
        var taxableAmount := bracket.incomeUpTo.value;
        totalTax := totalTax + Tax(taxableAmount, bracket.rate);
        remainingIncome := remainingIncome - taxableAmount;
      }
    }
  }

  /** Every finite width is non-negative. */
  ghost predicate NonNegativeWidths(brackets: seq<TaxBracket>)
  {
    forall i :: 0 <= i < |brackets| && brackets[i].incomeUpTo.Some? ==> brackets[i].incomeUpTo.value >= 0.0
  }

  lemma WidthsTail(brackets: seq<TaxBracket>)
    requires brackets != [] && NonNegativeWidths(brackets)
    ensures NonNegativeWidths(brackets[1..])
    ensures NonNegativeRates(brackets) ==> NonNegativeRates(brackets[1..])
  {
    forall i | 0 <= i < |brackets[1..]| ensures brackets[1..][i] == brackets[i + 1] { }
  }

  // ---------------------------------------------------------------------------------------------
  // Widths against cumulative limits

  /** The schedule of cumulative limits that the widths describe, starting at `offset`: each
      finite width becomes the running total of the widths up to and including it. */
  function ToCumulative(brackets: seq<TaxBracket>, offset: real): (limits: seq<TaxBracket>)
    ensures |limits| == |brackets|
    decreases |brackets|
  {
    if brackets == [] then []
    else
      match brackets[0].incomeUpTo
      case None => [TaxBracket(None, brackets[0].rate)] + ToCumulative(brackets[1..], offset)
      case Some(width) => [TaxBracket(Some(offset + width), brackets[0].rate)] + ToCumulative(brackets[1..], offset + width)
  }

  /** From any point at which `income - offset` is still to be taxed, the width loop and the
      cumulative-limit loop of the newer revision, run on the prefix sums of the widths, add the
      same tax. */
  lemma {:induction false} WidthLoopIsCumulativeLoop(income: real, brackets: seq<TaxBracket>, offset: real)
    requires offset <= income && NonNegativeWidths(brackets)
    ensures WidthTax(income - offset, brackets)
         == CanadianDeductions.ProgressiveTaxFrom(income, ToCumulative(brackets, offset), offset)
    decreases |brackets|
  {
    if brackets != [] {
      var b := brackets[0];
      var limits := ToCumulative(brackets, offset);
      var taxed := CanadianDeductions.TaxableInBracket(income, limits[0], offset);
      match b.incomeUpTo
      case None =>
        assert limits[0] == TaxBracket(None, b.rate);
        assert taxed == income - offset;
      case Some(width) =>
        assert limits[0] == TaxBracket(Some(offset + width), b.rate);
        if income - offset <= width {
          assert taxed == income - offset;
        } else {
          assert taxed == width;
          assert limits[1..] == ToCumulative(brackets[1..], offset + width);
          WidthsTail(brackets);
          WidthLoopIsCumulativeLoop(income, brackets[1..], offset + width);
          assert income - offset - width == income - (offset + width);
        }
    }
  }

  /** For a non-negative income and non-negative widths, the older revision computes exactly what
      the newer revision computes on the schedule whose limits are the running totals of the widths. */
  lemma WidthsAreCumulativeLimits(income: real, brackets: seq<TaxBracket>)
    ensures income >= 0.0 && NonNegativeWidths(brackets) ==>
              ProgressiveTax(income, brackets) == CanadianDeductions.ProgressiveTax(income, ToCumulative(brackets, 0.0))
  {
    if income >= 0.0 && NonNegativeWidths(brackets) {
      WidthLoopIsCumulativeLoop(income, brackets, 0.0);
      assert income - 0.0 == income;
    }
  }

  /** Within the first bracket the two revisions agree: both tax the income at the first rate. */
  lemma RevisionsAgreeOnFirstBracket(income: real, brackets: seq<TaxBracket>)
    requires brackets != [] && income >= 0.0
    requires brackets[0].incomeUpTo.None? || income <= brackets[0].incomeUpTo.value
    ensures ProgressiveTax(income, brackets) == Tax(income, brackets[0].rate)
    ensures CanadianDeductions.ProgressiveTax(income, brackets) == Tax(income, brackets[0].rate)
  {
    CanadianDeductions.FirstBracketOnly(income, brackets);
  }

  /** Beyond the first bracket they differ: limits 10 and 20 then an unbounded bracket, at rates
      10%, 20% and 30%, on an income of 25. Read as widths, 10 is taxed at 10% and the other 15 fit
      into the 20-wide second bracket (4); read as limits, 10 + 10 + 5 are taxed at the three
      rates (4.5). */
  lemma RevisionsDisagree()
    ensures var schedule := [TaxBracket(Some(10.0), 0.1), TaxBracket(Some(20.0), 0.2), TaxBracket(None, 0.3)];
            ProgressiveTax(25.0, schedule) == 4.0 && CanadianDeductions.ProgressiveTax(25.0, schedule) == 4.5
  {
    var schedule := [TaxBracket(Some(10.0), 0.1), TaxBracket(Some(20.0), 0.2), TaxBracket(None, 0.3)];
    assert schedule[1..] == [TaxBracket(Some(20.0), 0.2), TaxBracket(None, 0.3)];
    assert schedule[1..][1..] == [TaxBracket(None, 0.3)];
    assert WidthTax(15.0, schedule[1..]) == 3.0;
    assert CanadianDeductions.ProgressiveTaxFrom(25.0, schedule[1..][1..], 20.0) == 1.5;
    assert CanadianDeductions.ProgressiveTaxFrom(25.0, schedule[1..], 10.0) == 3.5;
  }

  /** An unbounded bracket ends the loop: whatever follows it is never read. */
  lemma UnboundedBracketEndsLoop(remaining: real, b: TaxBracket, rest: seq<TaxBracket>)
    requires b.incomeUpTo.None?
    ensures WidthTax(remaining, [b] + rest) == Tax(remaining, b.rate)
  {
  }

  /** The sum of the widths of a schedule, counting an unbounded bracket as empty. */
  function WidthTotal(brackets: seq<TaxBracket>): real
    decreases |brackets|
  {
    if brackets == [] then 0.0
    else
      match brackets[0].incomeUpTo
      case None => WidthTotal(brackets[1..])
      case Some(width) => width + WidthTotal(brackets[1..])
  }

  /** The tax of every bracket taxed in full. */
  function FullBracketsTax(brackets: seq<TaxBracket>): real
    decreases |brackets|
  {
    if brackets == [] then 0.0
    else
      match brackets[0].incomeUpTo
      case None => FullBracketsTax(brackets[1..])
      case Some(width) => Tax(width, brackets[0].rate) + FullBracketsTax(brackets[1..])
  }

  /** Without an unbounded bracket, income beyond the sum of the widths is not taxed: the tax is
      that of every bracket taxed in full, whatever the excess. */
  lemma {:induction false} UntaxedBeyondLastBracket(remaining: real, brackets: seq<TaxBracket>)
    requires forall i :: 0 <= i < |brackets| ==> brackets[i].incomeUpTo.Some?
    requires NonNegativeWidths(brackets) && remaining > WidthTotal(brackets)
    ensures WidthTax(remaining, brackets) == FullBracketsTax(brackets)
    decreases |brackets|
  {
    if brackets != [] {
      var width := brackets[0].incomeUpTo.value;
      WidthsTail(brackets);
      assert remaining > width by {
        WidthTotalNonNegative(brackets[1..]);
      }
      assert forall i :: 0 <= i < |brackets[1..]| ==> brackets[1..][i].incomeUpTo.Some? by {
        forall i | 0 <= i < |brackets[1..]| ensures brackets[1..][i] == brackets[i + 1] { }
      }
      UntaxedBeyondLastBracket(remaining - width, brackets[1..]);
    }
  }

  lemma {:induction false} WidthTotalNonNegative(brackets: seq<TaxBracket>)
    requires NonNegativeWidths(brackets)
    ensures WidthTotal(brackets) >= 0.0
    decreases |brackets|
  {
    if brackets != [] {
      WidthsTail(brackets);
      WidthTotalNonNegative(brackets[1..]);
    }
  }

  /** Tax on a non-negative income is never negative when widths and rates are non-negative. */
  lemma {:induction false} WidthTaxNonNegative(remaining: real, brackets: seq<TaxBracket>)
    requires remaining >= 0.0 && NonNegativeWidths(brackets) && NonNegativeRates(brackets)
    ensures WidthTax(remaining, brackets) >= 0.0
    decreases |brackets|
  {
    if brackets != [] {
      var rate := brackets[0].rate;
      assert rate >= 0.0;
      TaxMonotone(0.0, remaining, rate);
      match brackets[0].incomeUpTo
      case None =>
      case Some(width) =>
        if remaining > width {
          WidthsTail(brackets);
          TaxMonotone(0.0, width, rate);
          WidthTaxNonNegative(remaining - width, brackets[1..]);
        }
    }
  }

  /** An income of 0 is taxed 0 whenever the first width is not negative. */
  lemma ZeroIncomeZeroTax(brackets: seq<TaxBracket>)
    requires NonNegativeWidths(brackets)
    ensures ProgressiveTax(0.0, brackets) == 0.0
  {
    if brackets != [] && brackets[0].incomeUpTo.Some? {
      assert brackets[0].incomeUpTo.value >= 0.0;
    }
  }

  // ---------------------------------------------------------------------------------------------
  // Federal, provincial and combined tax

  /** `TaxCalculationResult`. */
  datatype TaxCalculationResult = TaxCalculationResult(totalFederalTax: real, totalProvincialTax: real, totalTax: real)

  /** `calculateFederalTax`: the year's federal schedule, read as widths. */
  function FederalTax(income: real, year: TaxYear, federal: FederalTaxData): (tax: real)
    ensures income >= 0.0 && NonNegativeWidths(federal(year)) ==>
              tax == CanadianDeductions.ProgressiveTax(income, ToCumulative(federal(year), 0.0))
  {
    WidthsAreCumulativeLimits(income, federal(year));
    ProgressiveTax(income, federal(year))
  }

  /** `calculateProvincialTax`: the schedule of the year and province, read as widths. */
  function ProvincialTax(income: real, code: ProvinceCode, year: TaxYear, provincial: ProvincialTaxData): (tax: real)
    ensures income >= 0.0 && NonNegativeWidths(provincial(year)(code)) ==>
              tax == CanadianDeductions.ProgressiveTax(income, ToCumulative(provincial(year)(code), 0.0))
  {
    WidthsAreCumulativeLimits(income, provincial(year)(code));
    ProgressiveTax(income, provincial(year)(code))
  }

  /** `calculateCanadianTaxes`: federal and provincial tax and their sum. */
  function CanadianTaxes(taxableIncome: real, code: ProvinceCode, year: TaxYear, t: TaxTables): (r: TaxCalculationResult)
    ensures r.totalTax == r.totalFederalTax + r.totalProvincialTax
    ensures r.totalFederalTax == FederalTax(taxableIncome, year, t.federal)
    ensures r.totalProvincialTax == ProvincialTax(taxableIncome, code, year, t.provincial)
  {
    var totalFederalTax := FederalTax(taxableIncome, year, t.federal);
    var totalProvincialTax := ProvincialTax(taxableIncome, code, year, t.provincial);
    TaxCalculationResult(totalFederalTax, totalProvincialTax, totalFederalTax + totalProvincialTax)
  }

  /** An income of 0 gives 0 federal, 0 provincial and 0 total tax. */
  lemma ZeroIncomeZeroTaxes(code: ProvinceCode, year: TaxYear, t: TaxTables)
    requires NonNegativeWidths(t.federal(year)) && NonNegativeWidths(t.provincial(year)(code))
    ensures CanadianTaxes(0.0, code, year, t) == TaxCalculationResult(0.0, 0.0, 0.0)
  {
    ZeroIncomeZeroTax(t.federal(year));
    ZeroIncomeZeroTax(t.provincial(year)(code));
  }

  /** A schedule whose first bracket is 8% up to 30000, as Alberta's is described, taxes 20000 at
      1600. */
  lemma AlbertaFirstBracket(provincial: ProvincialTaxData)
    requires provincial(Y2025)(AB) != [] && provincial(Y2025)(AB)[0] == TaxBracket(Some(30000.0), 0.08)
    ensures ProvincialTax(20000.0, AB, Y2025, provincial) == 1600.0
  {
    RevisionsAgreeOnFirstBracket(20000.0, provincial(Y2025)(AB));
  }
}
