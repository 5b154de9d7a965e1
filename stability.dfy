/** Stability features: attendance, member dropouts and the two counts that
    are passed through as reported. */
module Stability {
  import opened Stats
  import opened Observation
  import opened FeatureNames

  function ComputeStabilityFeatures(raw: RawObservation, root: SquareRoot): (r: FeatureMap)
    ensures r.Keys == StabilityKeys
    ensures 0.0 <= r[AttendanceAvg] <= 100.0
    ensures 0.0 <= r[AttendanceStd]
    ensures 0.0 <= r[MemberDropoutRate] <= 100.0
    ensures r[MeetingRegularity] == raw.meetingFrequency.GetOr(0.0)
    ensures r[LeadershipChanges] == raw.leadershipChanges.GetOr(0.0)
  {
    var attendance := raw.attendancePct.GetOr([]);
    var dropouts := raw.memberDropouts.GetOr(0.0);
    var groupSize := Max(raw.groupSize.GetOr(1.0), 1.0);
    var dropoutRate := dropouts / groupSize;
    map[
      AttendanceAvg := Clamp(Mean(attendance)),
      AttendanceStd := Std(attendance, root),
      MemberDropoutRate := Clamp(dropoutRate * 100.0),
      MeetingRegularity := raw.meetingFrequency.GetOr(0.0),
      LeadershipChanges := raw.leadershipChanges.GetOr(0.0)
    ]
  }

  /** With no attendance data the average and the spread are both 0.
      Attendance figures that are percentages need no clamping: the average
      attendance is then their plain mean. */
  lemma AttendanceAverageIsMean(raw: RawObservation, root: SquareRoot)
    ensures var attendance := raw.attendancePct.GetOr([]);
            var r := ComputeStabilityFeatures(raw, root);
            && (|attendance| == 0 ==> r[AttendanceAvg] == 0.0 && r[AttendanceStd] == 0.0)
            && ((forall i :: 0 <= i < |attendance| ==> 0.0 <= attendance[i] <= 100.0)
                ==> r[AttendanceAvg] == Mean(attendance))
  {
    var attendance := raw.attendancePct.GetOr([]);
    if |attendance| > 0 && forall i :: 0 <= i < |attendance| ==> 0.0 <= attendance[i] <= 100.0 {
      MeanWithin(attendance, 0.0, 100.0);
    }
  }

  /** The dropout rate is dropouts per member, in percent, where the group
      size is floored at 1 (a missing, zero or negative size counts as one
      member), so the division is always defined: 0 without dropouts, 100
      when at least every member dropped out, the unclamped rate otherwise. */
  lemma DropoutRatePerMember(raw: RawObservation, root: SquareRoot)
    ensures var dropouts := raw.memberDropouts.GetOr(0.0);
            var members := Max(raw.groupSize.GetOr(1.0), 1.0);
            var rate := ComputeStabilityFeatures(raw, root)[MemberDropoutRate];
            && 1.0 <= members
            && (raw.groupSize.None? ==> members == 1.0)
            && (dropouts <= 0.0 ==> rate == 0.0)
            && (0.0 <= dropouts <= members ==> rate == (dropouts / members) * 100.0)
            && (members <= dropouts ==> rate == 100.0)
  {
    RatioBounds(raw.memberDropouts.GetOr(0.0), Max(raw.groupSize.GetOr(1.0), 1.0));
  }

  /** Attendance that never varies has spread 0. */
  lemma SteadyAttendanceHasNoSpread(raw: RawObservation, root: SquareRoot, c: real)
    requires forall i :: 0 <= i < |raw.attendancePct.GetOr([])| ==> raw.attendancePct.GetOr([])[i] == c
    ensures ComputeStabilityFeatures(raw, root)[AttendanceStd] == 0.0
  {
    StdOfConstant(raw.attendancePct.GetOr([]), c, root);
  }

  /** With no field supplied every stability feature is 0. */
  lemma StabilityOfEmptyObservation(root: SquareRoot)
    ensures var r := ComputeStabilityFeatures(EmptyObservation, root);
            && r[AttendanceAvg] == 0.0 && r[AttendanceStd] == 0.0 && r[MemberDropoutRate] == 0.0
            && r[MeetingRegularity] == 0.0 && r[LeadershipChanges] == 0.0
  {
    DropoutRatePerMember(EmptyObservation, root);
  }
}
