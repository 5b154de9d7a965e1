/** Worked cases: concrete observations and the features they yield. */
module WorkedCases {
  import opened Stats
  import opened Observation
  import opened FeatureNames
  import opened Financial
  import opened Growth
  import opened Behavior

  /** An observation that reports only the given savings and missed EMIs. */
  function SavingsOnly(savings: seq<real>, missed: real): RawObservation
  {
    EmptyObservation.(monthlySavings := Some(savings), emiMissed := Some(missed))
  }

  /** Savings 1000, 500, 2500: every month saved, so regularity is 100. */
  lemma EveryMonthSaved(root: SquareRoot)
    ensures ComputeFinancialFeatures(SavingsOnly([1000.0, 500.0, 2500.0], 1.0), root)[SavingsRegularityPct] == 100.0
  {
    var s := [1000.0, 500.0, 2500.0];
    assert forall i :: 0 <= i < |s| ==> s[i] > 0.0;
    SavingsRegularityIsShareOfPositiveMonths(SavingsOnly(s, 1.0), root);
  }

  /** One missed EMI over three reporting periods is a rate of 100/3. */
  lemma OneMissInThreePeriods(root: SquareRoot)
    ensures ComputeFinancialFeatures(SavingsOnly([1000.0, 500.0, 2500.0], 1.0), root)[EmiMissRate] == 100.0 / 3.0
  {
    EmiMissRatePerPeriod(SavingsOnly([1000.0, 500.0, 2500.0], 1.0), root);
  }

  /** Growth of 150% from the first month to the last is clamped to 100. */
  lemma GrowthClampedTo100(root: SquareRoot)
    ensures ComputeGrowthFeatures(SavingsOnly([1000.0, 500.0, 2500.0], 1.0), root)[SavingsGrowthRate] == 100.0
  {
    SavingsGrowthFirstToLast(SavingsOnly([1000.0, 500.0, 2500.0], 1.0), root);
  }

  /** Attendance falling from 90 to 50 is below 70% of 90 (63) and raises the
      drop flag; falling to 70 does not. */
  lemma AttendanceDrop()
    ensures ComputeBehaviorFeatures(EmptyObservation.(attendancePct := Some([90.0, 50.0])))[AttendanceDropFlag] == 1.0
    ensures ComputeBehaviorFeatures(EmptyObservation.(attendancePct := Some([90.0, 70.0])))[AttendanceDropFlag] == 0.0
  {
  }

  /** Savings rising from 100 to 250 more than double and raise the jump
      flag; rising to 150 does not. */
  lemma SavingsJump()
    ensures ComputeBehaviorFeatures(SavingsOnly([100.0, 250.0], 0.0))[SuddenSavingsJump] == 1.0
    ensures ComputeBehaviorFeatures(SavingsOnly([100.0, 150.0], 0.0))[SuddenSavingsJump] == 0.0
  {
  }
}
