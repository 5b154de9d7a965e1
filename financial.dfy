/** Financial-discipline features: how much and how regularly the group
    saves, how often it misses an instalment, how late it repays. */
module Financial {
  import opened Stats
  import opened Observation
  import opened FeatureNames

  function ComputeFinancialFeatures(raw: RawObservation, root: SquareRoot): (r: FeatureMap)
    ensures r.Keys == FinancialKeys
    ensures 0.0 <= r[SavingsStd]
    ensures 0.0 <= r[SavingsRegularityPct] <= 100.0
    ensures 0.0 <= r[EmiMissRate] <= 100.0
  {
    var savings := raw.monthlySavings.GetOr([]);
    var missedEmi := raw.emiMissed.GetOr(0.0);
    var delays := raw.repaymentDelayDays.GetOr([]);
    var periods := Max(|savings| as real, 1.0);
    var savingsRegularityPct := (CountPositive(savings) as real / periods) * 100.0;
    var emiMissRate := missedEmi / periods;
    map[
      AvgMonthlySavings := Mean(savings),
      SavingsStd := Std(savings, root),
      SavingsRegularityPct := Clamp(savingsRegularityPct),
      EmiMissRate := Clamp(emiMissRate * 100.0),
      AvgRepaymentDelay := Mean(delays)
    ]
  }

  /** The regularity percentage never needs its clamp: it is the share of
      months with a positive saving, in percent. It is 100 exactly when there
      are savings entries and all are positive, and 0 exactly when no entry
      is. */
  lemma SavingsRegularityIsShareOfPositiveMonths(raw: RawObservation, root: SquareRoot)
    ensures var savings := raw.monthlySavings.GetOr([]);
            var pct := ComputeFinancialFeatures(raw, root)[SavingsRegularityPct];
            && pct == (CountPositive(savings) as real / Max(|savings| as real, 1.0)) * 100.0
            && (pct == 100.0 <==> |savings| > 0 && forall i :: 0 <= i < |savings| ==> savings[i] > 0.0)
            && (pct == 0.0 <==> forall i :: 0 <= i < |savings| ==> savings[i] <= 0.0)
  {
    var savings := raw.monthlySavings.GetOr([]);
    var n := CountPositive(savings) as real;
    var d := Max(|savings| as real, 1.0);
    RatioBounds(n, d);
    assert n == d ==> |savings| > 0 && n == |savings| as real;
  }

  /** The missed-EMI rate is the number of missed instalments per reporting
      period, in percent: 0 when none was missed, 100 when at least one per
      period was missed, and otherwise the unclamped rate. */
  lemma EmiMissRatePerPeriod(raw: RawObservation, root: SquareRoot)
    ensures var savings := raw.monthlySavings.GetOr([]);
            var missed := raw.emiMissed.GetOr(0.0);
            var rate := ComputeFinancialFeatures(raw, root)[EmiMissRate];
            var periods := Max(|savings| as real, 1.0);
            && (missed <= 0.0 ==> rate == 0.0)
            && (0.0 <= missed <= periods ==> rate == (missed / periods) * 100.0)
            && (periods <= missed ==> rate == 100.0)
  {
    var savings := raw.monthlySavings.GetOr([]);
    RatioBounds(raw.emiMissed.GetOr(0.0), Max(|savings| as real, 1.0));
  }

  /** The average saving and the average repayment delay are 0 without data,
      and otherwise lie within the bounds the entries respect. */
  lemma AveragesWithinEntries(raw: RawObservation, root: SquareRoot, lo: real, hi: real)
    ensures var savings := raw.monthlySavings.GetOr([]);
            var delays := raw.repaymentDelayDays.GetOr([]);
            var r := ComputeFinancialFeatures(raw, root);
            && (|savings| == 0 ==> r[AvgMonthlySavings] == 0.0 && r[SavingsStd] == 0.0)
            && (|delays| == 0 ==> r[AvgRepaymentDelay] == 0.0)
            && (|savings| > 0 && (forall i :: 0 <= i < |savings| ==> lo <= savings[i] <= hi)
                ==> lo <= r[AvgMonthlySavings] <= hi)
            && (|delays| > 0 && (forall i :: 0 <= i < |delays| ==> lo <= delays[i] <= hi)
                ==> lo <= r[AvgRepaymentDelay] <= hi)
  {
    var savings := raw.monthlySavings.GetOr([]);
    var delays := raw.repaymentDelayDays.GetOr([]);
    if |savings| > 0 && (forall i :: 0 <= i < |savings| ==> lo <= savings[i] <= hi) {
      MeanWithin(savings, lo, hi);
    }
    if |delays| > 0 && (forall i :: 0 <= i < |delays| ==> lo <= delays[i] <= hi) {
      MeanWithin(delays, lo, hi);
    }
  }

  /** With no field supplied every financial feature is 0. */
  lemma FinancialOfEmptyObservation(root: SquareRoot)
    ensures var r := ComputeFinancialFeatures(EmptyObservation, root);
            && r[AvgMonthlySavings] == 0.0 && r[SavingsStd] == 0.0 && r[SavingsRegularityPct] == 0.0
            && r[EmiMissRate] == 0.0 && r[AvgRepaymentDelay] == 0.0
  {
    SavingsRegularityIsShareOfPositiveMonths(EmptyObservation, root);
    EmiMissRatePerPeriod(EmptyObservation, root);
  }
}
