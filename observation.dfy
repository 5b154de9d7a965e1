/** The raw observation record of one self-help group for one reporting
    period. Every field is optional; each feature group resolves an absent
    field to its own default. */
module Observation {

  datatype Option<T> = None | Some(value: T) {
    /** The value when present, otherwise the default (a dictionary lookup
        with a fallback). */
    function GetOr(default: T): T
    {
      match this
      case Some(v) => v
      case None => default
    }
  }

  datatype RawObservation = RawObservation(
    monthlySavings: Option<seq<real>>,
    emiMissed: Option<real>,
    repaymentDelayDays: Option<seq<real>>,
    attendancePct: Option<seq<real>>,
    memberDropouts: Option<real>,
    groupSize: Option<real>,
    meetingFrequency: Option<real>,
    leadershipChanges: Option<real>,
    totalLoanTaken: Option<real>,
    incomeProxy: Option<seq<real>>,
    pastDefault: Option<bool>)

  /** The record with no field supplied. */
  const EmptyObservation := RawObservation(None, None, None, None, None, None, None, None, None, None, None)
}
