/** Growth-readiness features: savings growth over the whole period, loan
    uptake and exposure, and the steadiness of income. */
module Growth {
  import opened Stats
  import opened Observation
  import opened FeatureNames

  /** Growth from the first to the last savings entry, relative to the first
      entry floored at 1; 0 when there are fewer than two entries. */
  function GrowthRatio(savings: seq<real>): real
  {
    if |savings| > 1 then (savings[|savings| - 1] - savings[0]) / Max(savings[0], 1.0) else 0.0
  }

  function ComputeGrowthFeatures(raw: RawObservation, root: SquareRoot): (r: FeatureMap)
    ensures r.Keys == GrowthKeys
    ensures 0.0 <= r[SavingsGrowthRate] <= 100.0
    ensures r[LoanUtilizationScore] == 100.0 <==> raw.totalLoanTaken.GetOr(0.0) > 0.0
    ensures r[LoanUtilizationScore] == 0.0 <==> raw.totalLoanTaken.GetOr(0.0) <= 0.0
    ensures 0.0 <= r[LoanToSavingsRatio] <= 100.0
    ensures 0.0 <= r[IncomeStabilityProxy] <= 100.0
  {
    var savings := raw.monthlySavings.GetOr([]);
    var totalLoan := raw.totalLoanTaken.GetOr(0.0);
    var income := raw.incomeProxy.GetOr([]);
    var loanUtilizationScore := if totalLoan > 0.0 then 1.0 else 0.0;
    var loanToSavingsRatio := totalLoan / Max(Sum(savings), 1.0);
    var incomeStability := 100.0 - Std(income, root);
    map[
      SavingsGrowthRate := Clamp(GrowthRatio(savings) * 100.0),
      LoanUtilizationScore := loanUtilizationScore * 100.0,
      LoanToSavingsRatio := Clamp(loanToSavingsRatio * 100.0),
      IncomeStabilityProxy := Clamp(incomeStability)
    ]
  }

  /** Savings growth is 0 with fewer than two entries; otherwise it is
      positive exactly when the last entry exceeds the first, and it reaches
      100 once the gain is at least the (floored) first entry. */
  lemma SavingsGrowthFirstToLast(raw: RawObservation, root: SquareRoot)
    ensures var s := raw.monthlySavings.GetOr([]);
            var g := ComputeGrowthFeatures(raw, root)[SavingsGrowthRate];
            && (|s| < 2 ==> g == 0.0)
            && (0.0 < g <==> |s| >= 2 && s[|s| - 1] > s[0])
            && (|s| >= 2 && s[|s| - 1] - s[0] >= Max(s[0], 1.0) ==> g == 100.0)
            && (|s| >= 2 && s[0] <= s[|s| - 1] <= s[0] + Max(s[0], 1.0)
                ==> g == ((s[|s| - 1] - s[0]) / Max(s[0], 1.0)) * 100.0)
  {
    var s := raw.monthlySavings.GetOr([]);
    if |s| >= 2 {
      RatioBounds(s[|s| - 1] - s[0], Max(s[0], 1.0));
    }
  }

  /** Only the first and the last entries matter: two savings series of at
      least two entries with the same ends grow by the same rate, whatever
      lies between them. */
  lemma SavingsGrowthIgnoresMiddle(raw: RawObservation, other: RawObservation, root: SquareRoot)
    requires |raw.monthlySavings.GetOr([])| >= 2 && |other.monthlySavings.GetOr([])| >= 2
    requires raw.monthlySavings.GetOr([])[0] == other.monthlySavings.GetOr([])[0]
    requires var s, t := raw.monthlySavings.GetOr([]), other.monthlySavings.GetOr([]);
             s[|s| - 1] == t[|t| - 1]
    ensures ComputeGrowthFeatures(raw, root)[SavingsGrowthRate] == ComputeGrowthFeatures(other, root)[SavingsGrowthRate]
  {
  }

  /** Exposure relative to total savings (floored at 1): 0 without a loan,
      100 once the loan is at least the savings, the unclamped ratio between. */
  lemma LoanToSavingsExposure(raw: RawObservation, root: SquareRoot)
    ensures var loan := raw.totalLoanTaken.GetOr(0.0);
            var base := Max(Sum(raw.monthlySavings.GetOr([])), 1.0);
            var ratio := ComputeGrowthFeatures(raw, root)[LoanToSavingsRatio];
            && (loan <= 0.0 ==> ratio == 0.0)
            && (0.0 <= loan <= base ==> ratio == (loan / base) * 100.0)
            && (base <= loan ==> ratio == 100.0)
  {
    RatioBounds(raw.totalLoanTaken.GetOr(0.0), Max(Sum(raw.monthlySavings.GetOr([])), 1.0));
  }

  /** Income stability is 100 minus the spread of income, floored at 0: it is
      100 exactly when income does not vary (in particular when none was
      reported) and falls one for one with the spread up to 100. */
  lemma IncomeStabilityFromSpread(raw: RawObservation, root: SquareRoot)
    ensures var income := raw.incomeProxy.GetOr([]);
            var spread := Std(income, root);
            var proxy := ComputeGrowthFeatures(raw, root)[IncomeStabilityProxy];
            && (proxy == 100.0 <==> spread == 0.0)
            && (|income| == 0 ==> proxy == 100.0)
            && (spread <= 100.0 ==> proxy == 100.0 - spread)
            && (100.0 <= spread ==> proxy == 0.0)
  {
  }

  /** Steady income earns full stability. */
  lemma SteadyIncomeIsFullyStable(raw: RawObservation, root: SquareRoot, c: real)
    requires forall i :: 0 <= i < |raw.incomeProxy.GetOr([])| ==> raw.incomeProxy.GetOr([])[i] == c
    ensures ComputeGrowthFeatures(raw, root)[IncomeStabilityProxy] == 100.0
  {
    StdOfConstant(raw.incomeProxy.GetOr([]), c, root);
  }

  /** With no field supplied every growth feature is 0 except income
      stability, which is 100. */
  lemma GrowthOfEmptyObservation(root: SquareRoot)
    ensures var r := ComputeGrowthFeatures(EmptyObservation, root);
            && r[SavingsGrowthRate] == 0.0 && r[LoanUtilizationScore] == 0.0
            && r[LoanToSavingsRatio] == 0.0 && r[IncomeStabilityProxy] == 100.0
  {
    SavingsGrowthFirstToLast(EmptyObservation, root);
    LoanToSavingsExposure(EmptyObservation, root);
    IncomeStabilityFromSpread(EmptyObservation, root);
  }
}
