/** The seventeen feature names and the four groups in which the scoring
    models consume them. */
module FeatureNames {

  /** The key of one feature in the feature vector. */
  datatype Feature =
    | AvgMonthlySavings | SavingsStd | SavingsRegularityPct | EmiMissRate | AvgRepaymentDelay
    | AttendanceAvg | AttendanceStd | MemberDropoutRate | MeetingRegularity | LeadershipChanges
    | SavingsGrowthRate | LoanUtilizationScore | LoanToSavingsRatio | IncomeStabilityProxy
    | SuddenSavingsJump | AttendanceDropFlag | PastDefaultFlag

  /** The dictionary key under which the extractor stores each feature. */
  function Name(f: Feature): string
  {
    match f
    case AvgMonthlySavings => "AVG_MONTHLY_SAVINGS"
    case SavingsStd => "SAVINGS_STD"
    case SavingsRegularityPct => "SAVINGS_REGULARITY_PCT"
    case EmiMissRate => "EMI_MISS_RATE"
    case AvgRepaymentDelay => "AVG_REPAYMENT_DELAY"
    case AttendanceAvg => "ATTENDANCE_AVG"
    case AttendanceStd => "ATTENDANCE_STD"
    case MemberDropoutRate => "MEMBER_DROPOUT_RATE"
    case MeetingRegularity => "MEETING_REGULARITY"
    case LeadershipChanges => "LEADERSHIP_CHANGES"
    case SavingsGrowthRate => "SAVINGS_GROWTH_RATE"
    case LoanUtilizationScore => "LOAN_UTILIZATION_SCORE"
    case LoanToSavingsRatio => "LOAN_TO_SAVINGS_RATIO"
    case IncomeStabilityProxy => "INCOME_STABILITY_PROXY"
    case SuddenSavingsJump => "SUDDEN_SAVINGS_JUMP"
    case AttendanceDropFlag => "ATTENDANCE_DROP_FLAG"
    case PastDefaultFlag => "PAST_DEFAULT_FLAG"
  }

  /** A feature vector, or the part of one that a feature group produces. */
  type FeatureMap = map<Feature, real>

  /** The keys each extractor writes. */
  const FinancialKeys: set<Feature> := {AvgMonthlySavings, SavingsStd, SavingsRegularityPct, EmiMissRate, AvgRepaymentDelay}
  const StabilityKeys: set<Feature> := {AttendanceAvg, AttendanceStd, MemberDropoutRate, MeetingRegularity, LeadershipChanges}
  const GrowthKeys: set<Feature> := {SavingsGrowthRate, LoanUtilizationScore, LoanToSavingsRatio, IncomeStabilityProxy}
  const BehaviorKeys: set<Feature> := {SuddenSavingsJump, AttendanceDropFlag, PastDefaultFlag}
  const AllKeys: set<Feature> := FinancialKeys + StabilityKeys + GrowthKeys + BehaviorKeys

  /** The dictionary keys of a set of features. */
  function NamesOf(keys: set<Feature>): set<string>
  {
    set f | f in keys :: Name(f)
  }

  /* The input schema of each scoring model, in the order the training
     script lists the columns. Written out as that script spells them, so
     that agreement with the extractors is proved, not assumed. */
  const FinancialGroup: seq<string> := [
    "AVG_MONTHLY_SAVINGS", "SAVINGS_STD", "SAVINGS_REGULARITY_PCT",
    "EMI_MISS_RATE", "AVG_REPAYMENT_DELAY"]

  const StabilityGroup: seq<string> := [
    "ATTENDANCE_AVG", "ATTENDANCE_STD", "MEMBER_DROPOUT_RATE",
    "MEETING_REGULARITY", "LEADERSHIP_CHANGES"]

  const GrowthGroup: seq<string> := [
    "SAVINGS_GROWTH_RATE", "LOAN_UTILIZATION_SCORE", "LOAN_TO_SAVINGS_RATIO",
    "INCOME_STABILITY_PROXY"]

  const BehaviorGroup: seq<string> := [
    "SUDDEN_SAVINGS_JUMP", "ATTENDANCE_DROP_FLAG", "PAST_DEFAULT_FLAG"]

  /** The entries of a list, as a set. */
  function Elements<T>(s: seq<T>): set<T>
  {
    set x | x in s
  }

  /** No entry is listed twice. */
  predicate Distinct<T(==)>(s: seq<T>)
  {
    forall i, j :: 0 <= i < j < |s| ==> s[i] != s[j]
  }

  /** A value that is a 0/1 flag. */
  predicate IsFlag(v: real) { v == 0.0 || v == 1.0 }

  /** Each training-script group lists distinct names, exactly the names of
      the keys its extractor writes. */
  lemma FinancialSchema()
    ensures Distinct(FinancialGroup) && |FinancialGroup| == |FinancialKeys| == 5
    ensures Elements(FinancialGroup) == NamesOf(FinancialKeys)
  {
    assert Elements(FinancialGroup) == {Name(AvgMonthlySavings), Name(SavingsStd), Name(SavingsRegularityPct), Name(EmiMissRate), Name(AvgRepaymentDelay)};
  }

  lemma StabilitySchema()
    ensures Distinct(StabilityGroup) && |StabilityGroup| == |StabilityKeys| == 5
    ensures Elements(StabilityGroup) == NamesOf(StabilityKeys)
  {
    assert Elements(StabilityGroup) == {Name(AttendanceAvg), Name(AttendanceStd), Name(MemberDropoutRate), Name(MeetingRegularity), Name(LeadershipChanges)};
  }

  lemma GrowthSchema()
    ensures Distinct(GrowthGroup) && |GrowthGroup| == |GrowthKeys| == 4
    ensures Elements(GrowthGroup) == NamesOf(GrowthKeys)
  {
    assert Elements(GrowthGroup) == {Name(SavingsGrowthRate), Name(LoanUtilizationScore), Name(LoanToSavingsRatio), Name(IncomeStabilityProxy)};
  }

  lemma BehaviorSchema()
    ensures Distinct(BehaviorGroup) && |BehaviorGroup| == |BehaviorKeys| == 3
    ensures Elements(BehaviorGroup) == NamesOf(BehaviorKeys)
  {
    assert Elements(BehaviorGroup) == {Name(SuddenSavingsJump), Name(AttendanceDropFlag), Name(PastDefaultFlag)};
  }

  /** No two features share a dictionary key. */
  lemma NameInjective(f: Feature, g: Feature)
    ensures Name(f) == Name(g) ==> f == g
  {
  }

  /** The four extractors write pairwise disjoint key sets. */
  lemma KeysDisjoint()
    ensures FinancialKeys !! StabilityKeys && FinancialKeys !! GrowthKeys && FinancialKeys !! BehaviorKeys
    ensures StabilityKeys !! GrowthKeys && StabilityKeys !! BehaviorKeys && GrowthKeys !! BehaviorKeys
  {
  }

  /** A list without repetitions has as many distinct elements as entries. */
  lemma {:induction false} DistinctCount<T>(s: seq<T>)
    requires Distinct(s)
    ensures |Elements(s)| == |s|
  {
    if |s| > 0 {
      DistinctCount(s[1..]);
      assert Elements(s) == {s[0]} + Elements(s[1..]);
      assert s[0] !in Elements(s[1..]);
    }
  }

  /** Sizes add up over a disjoint union. */
  lemma DisjointUnionCount<T>(a: set<T>, b: set<T>)
    requires a !! b
    ensures |a + b| == |a| + |b|
  {
    assert a * b == {};
  }

  /** The key sets have sizes 5, 5, 4 and 3. */
  lemma GroupKeyCounts()
    ensures |FinancialKeys| == 5 && |StabilityKeys| == 5 && |GrowthKeys| == 4 && |BehaviorKeys| == 3
  {
    var financial := [AvgMonthlySavings, SavingsStd, SavingsRegularityPct, EmiMissRate, AvgRepaymentDelay];
    var stability := [AttendanceAvg, AttendanceStd, MemberDropoutRate, MeetingRegularity, LeadershipChanges];
    var growth := [SavingsGrowthRate, LoanUtilizationScore, LoanToSavingsRatio, IncomeStabilityProxy];
    var behavior := [SuddenSavingsJump, AttendanceDropFlag, PastDefaultFlag];
    DistinctCount(financial);
    assert Elements(financial) == FinancialKeys;
    DistinctCount(stability);
    assert Elements(stability) == StabilityKeys;
    DistinctCount(growth);
    assert Elements(growth) == GrowthKeys;
    DistinctCount(behavior);
    assert Elements(behavior) == BehaviorKeys;
  }

  /** Seventeen keys in all. */
  lemma SeventeenKeys()
    ensures |AllKeys| == 17
  {
    GroupKeyCounts();
    KeysDisjoint();
    DisjointUnionCount(FinancialKeys, StabilityKeys);
    DisjointUnionCount(FinancialKeys + StabilityKeys, GrowthKeys);
    DisjointUnionCount(FinancialKeys + StabilityKeys + GrowthKeys, BehaviorKeys);
  }

  /** Every feature is written by some extractor. */
  lemma EveryFeatureWritten(f: Feature)
    ensures f in AllKeys
  {
  }

  /** The names of a union of key sets are the union of their names. */
  lemma NamesOfUnion(a: set<Feature>, b: set<Feature>)
    ensures NamesOf(a + b) == NamesOf(a) + NamesOf(b)
  {
  }

  /** The scoring models' input schemas: the names under which each group's
      features are stored are exactly the columns the model for that group
      reads, each listed once; together they are the names of all seventeen
      features, and no two features share a name. */
  lemma ModelSchemas()
    ensures Elements(FinancialGroup) == NamesOf(FinancialKeys) && Distinct(FinancialGroup)
    ensures Elements(StabilityGroup) == NamesOf(StabilityKeys) && Distinct(StabilityGroup)
    ensures Elements(GrowthGroup) == NamesOf(GrowthKeys) && Distinct(GrowthGroup)
    ensures Elements(BehaviorGroup) == NamesOf(BehaviorKeys) && Distinct(BehaviorGroup)
    ensures NamesOf(AllKeys) == Elements(FinancialGroup) + Elements(StabilityGroup) + Elements(GrowthGroup) + Elements(BehaviorGroup)
    ensures forall f, g :: Name(f) == Name(g) ==> f == g
  {
    FinancialSchema();
    StabilitySchema();
    GrowthSchema();
    BehaviorSchema();
    NamesOfUnion(FinancialKeys, StabilityKeys);
    NamesOfUnion(FinancialKeys + StabilityKeys, GrowthKeys);
    NamesOfUnion(FinancialKeys + StabilityKeys + GrowthKeys, BehaviorKeys);
    forall f, g | Name(f) == Name(g) ensures f == g {
      NameInjective(f, g);
    }
  }
}
