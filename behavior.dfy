/** Behavioural-safety flags, each 0 or 1, read from the last two savings
    and attendance entries and from the default history. */
module Behavior {
  import opened Observation
  import opened FeatureNames

  function ComputeBehaviorFeatures(raw: RawObservation): (r: FeatureMap)
    ensures r.Keys == BehaviorKeys
    ensures forall f :: f in r ==> IsFlag(r[f])
    ensures var s := raw.monthlySavings.GetOr([]);
            r[SuddenSavingsJump] == 1.0 <==> |s| > 1 && s[|s| - 1] > 2.0 * s[|s| - 2]
    ensures var a := raw.attendancePct.GetOr([]);
            r[AttendanceDropFlag] == 1.0 <==> |a| > 1 && a[|a| - 1] < 0.7 * a[|a| - 2]
    ensures r[PastDefaultFlag] == 1.0 <==> raw.pastDefault.GetOr(false)
  {
    var savings := raw.monthlySavings.GetOr([]);
    var attendance := raw.attendancePct.GetOr([]);
    var suddenSavingsJump := if |savings| > 1 && savings[|savings| - 1] > 2.0 * savings[|savings| - 2] then 1.0 else 0.0;
    var attendanceDrop := if |attendance| > 1 && attendance[|attendance| - 1] < 0.7 * attendance[|attendance| - 2] then 1.0 else 0.0;
    var pastDefaultFlag := if raw.pastDefault.GetOr(false) then 1.0 else 0.0;
    map[
      SuddenSavingsJump := suddenSavingsJump,
      AttendanceDropFlag := attendanceDrop,
      PastDefaultFlag := pastDefaultFlag
    ]
  }

  /** Only the last two entries matter: appending two entries to any history
      raises the jump flag exactly when the later more than doubles the
      earlier, and the drop flag exactly when the later is under 70% of the
      earlier. */
  lemma FlagsReadLastTwoEntries(raw: RawObservation, prev: real, last: real)
    ensures var jump := raw.(monthlySavings := Some(raw.monthlySavings.GetOr([]) + [prev, last]));
            ComputeBehaviorFeatures(jump)[SuddenSavingsJump] == (if last > 2.0 * prev then 1.0 else 0.0)
    ensures var drop := raw.(attendancePct := Some(raw.attendancePct.GetOr([]) + [prev, last]));
            ComputeBehaviorFeatures(drop)[AttendanceDropFlag] == (if last < 0.7 * prev then 1.0 else 0.0)
  {
  }
}
