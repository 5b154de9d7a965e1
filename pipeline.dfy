/** The master pipeline: one raw observation in, one feature vector of
    seventeen named values out, assembled from the four feature groups. */
module Pipeline {
  import opened Stats
  import opened Observation
  import opened FeatureNames
  import opened Financial
  import opened Stability
  import opened Growth
  import opened Behavior

  /** The feature vector as the union of the four groups' maps. */
  function FeatureVector(raw: RawObservation, root: SquareRoot): (r: FeatureMap)
    ensures r.Keys == AllKeys
    ensures forall f :: f in FinancialKeys ==> r[f] == ComputeFinancialFeatures(raw, root)[f]
    ensures forall f :: f in StabilityKeys ==> r[f] == ComputeStabilityFeatures(raw, root)[f]
    ensures forall f :: f in GrowthKeys ==> r[f] == ComputeGrowthFeatures(raw, root)[f]
    ensures forall f :: f in BehaviorKeys ==> r[f] == ComputeBehaviorFeatures(raw)[f]
  {
    KeysDisjoint();
    ComputeFinancialFeatures(raw, root) + ComputeStabilityFeatures(raw, root)
      + ComputeGrowthFeatures(raw, root) + ComputeBehaviorFeatures(raw)
  }

  /** Updating an empty map with a map yields that map. */
  lemma UpdateEmpty<K, V>(m: map<K, V>)
    ensures map[] + m == m
  {
  }

  /** Merging maps with pairwise disjoint keys, in reverse order, gives the
      same map. */
  lemma MergeReversed<K, V>(a: map<K, V>, b: map<K, V>, c: map<K, V>, d: map<K, V>)
    requires a.Keys !! b.Keys && a.Keys !! c.Keys && a.Keys !! d.Keys
    requires b.Keys !! c.Keys && b.Keys !! d.Keys && c.Keys !! d.Keys
    ensures d + c + b + a == a + b + c + d
  {
    var l, r := d + c + b + a, a + b + c + d;
    assert l.Keys == r.Keys;
    forall k | k in l ensures l[k] == r[k] {
      if k in a {
      } else if k in b {
      } else if k in c {
      } else {
      }
    }
  }

  /** build_feature_vector: start from an empty dictionary and update it with
      each group in turn. The result has all seventeen keys, and every value
      is the one its own group computed. */
  method BuildFeatureVector(raw: RawObservation, root: SquareRoot) returns (features: FeatureMap)
    ensures features == FeatureVector(raw, root)
    ensures |features| == 17
  {
    features := map[];
    ghost var financial := ComputeFinancialFeatures(raw, root);
    features := features + ComputeFinancialFeatures(raw, root);
    UpdateEmpty(financial);
    features := features + ComputeStabilityFeatures(raw, root);
    features := features + ComputeGrowthFeatures(raw, root);
    features := features + ComputeBehaviorFeatures(raw);
    SeventeenKeys();
  }

  /** Since the groups write disjoint keys, the order of the updates does not
      matter: merging them last to first gives the same vector. */
  lemma MergeOrderIrrelevant(raw: RawObservation, root: SquareRoot)
    ensures ComputeBehaviorFeatures(raw) + ComputeGrowthFeatures(raw, root)
            + ComputeStabilityFeatures(raw, root) + ComputeFinancialFeatures(raw, root)
            == FeatureVector(raw, root)
  {
    KeysDisjoint();
    MergeReversed(ComputeFinancialFeatures(raw, root), ComputeStabilityFeatures(raw, root),
                  ComputeGrowthFeatures(raw, root), ComputeBehaviorFeatures(raw));
  }

  /** Every percentage-like feature lies in [0, 100], every flag is 0 or 1,
      and both spreads are non-negative, whatever the input. */
  lemma FeatureVectorBounded(raw: RawObservation, root: SquareRoot)
    ensures var v := FeatureVector(raw, root);
            && 0.0 <= v[SavingsRegularityPct] <= 100.0 && 0.0 <= v[EmiMissRate] <= 100.0
            && 0.0 <= v[AttendanceAvg] <= 100.0 && 0.0 <= v[MemberDropoutRate] <= 100.0
            && 0.0 <= v[SavingsGrowthRate] <= 100.0 && 0.0 <= v[LoanUtilizationScore] <= 100.0
            && 0.0 <= v[LoanToSavingsRatio] <= 100.0 && 0.0 <= v[IncomeStabilityProxy] <= 100.0
            && IsFlag(v[SuddenSavingsJump]) && IsFlag(v[AttendanceDropFlag]) && IsFlag(v[PastDefaultFlag])
            && 0.0 <= v[SavingsStd] && 0.0 <= v[AttendanceStd]
  {
  }

  /** With no field supplied every feature is present and 0, except income
      stability, which is 100 because an absent income series has no
      spread. */
  lemma EmptyObservationVector(root: SquareRoot)
    ensures var v := FeatureVector(EmptyObservation, root);
            && v.Keys == AllKeys
            && v[AvgMonthlySavings] == 0.0 && v[SavingsStd] == 0.0 && v[SavingsRegularityPct] == 0.0
            && v[EmiMissRate] == 0.0 && v[AvgRepaymentDelay] == 0.0
            && v[AttendanceAvg] == 0.0 && v[AttendanceStd] == 0.0 && v[MemberDropoutRate] == 0.0
            && v[MeetingRegularity] == 0.0 && v[LeadershipChanges] == 0.0
            && v[SavingsGrowthRate] == 0.0 && v[LoanUtilizationScore] == 0.0
            && v[LoanToSavingsRatio] == 0.0 && v[IncomeStabilityProxy] == 100.0
            && v[SuddenSavingsJump] == 0.0 && v[AttendanceDropFlag] == 0.0 && v[PastDefaultFlag] == 0.0
  {
    FinancialOfEmptyObservation(root);
    StabilityOfEmptyObservation(root);
    GrowthOfEmptyObservation(root);
  }
}
