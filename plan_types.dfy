/** Shared vocabulary of the commute planner: configuration records, the
    travel-time oracle, the legs a scan produces and the ways a plan fails.

    Time is measured in minutes since the local midnight of the planned day
    (a `real`, since arrivals add fractional durations); durations are
    `real` minutes as the oracle reports them. */
module PlanTypes {
  import opened Wrappers

  /** A scan step in whole minutes. The source's scan loops never end for a
      step of zero or less, so the model only admits positive steps. */
  type Step = n: int | n > 0 witness 5

  /** A local time of day as the source parses it from "HH:MM". */
  datatype TimeOfDay = TimeOfDay(hour: int, minute: int)
  {
    function Minutes(): int { hour * 60 + minute }
  }

  /** The parameters `plan_halfday_commute` installs before the morning scan
      and the evening sweep: latest arrival, window start, work hours, the
      lunch range and the morning step. */
  datatype PlanConfig = PlanConfig(
    latestArrival: TimeOfDay,
    windowStart: TimeOfDay,
    workHours: real,
    lunchMin: int,
    lunchMax: int,
    lunchStep: int,
    step: Step)

  /** The stay-longer parameters: step, the worse-streak limit, the latest
      local time to leave and the saving that ends the walk early. */
  datatype ExtendConfig = ExtendConfig(
    step: Step,
    worseSteps: int,
    latest: TimeOfDay,
    targetSave: real)

  /** The travel-time oracle: minutes of driving for a departure, or None
      where the routing call raises. */
  type Oracle = real -> Option<real>

  /** One oracle per direction: origin to destination and back. */
  datatype Routes = Routes(toWork: Oracle, toHome: Oracle)

  /** Why a plan could not be made. `oracleFailed` records whether the
      source had a last oracle error message to append. */
  datatype PlanError =
    | ArrivalInPast
    | NoTimelyDeparture(oracleFailed: bool)
    | NoReturnTrip(oracleFailed: bool)
    | ZeroLunchStep

  datatype MorningLeg = MorningLeg(departure: int, arrival: real, duration: real)

  datatype EveningLeg = EveningLeg(lunch: int, departure: real, duration: real, arrival: real)

  /** Python's `int(x)`: truncation toward zero. */
  function Truncate(x: real): (n: int)
    ensures 0.0 <= x ==> 0 <= n && n as real <= x < n as real + 1.0
    ensures x < 0.0 ==> n <= 0 && n as real - 1.0 < x <= n as real
  {
    if x >= 0.0 then x.Floor else -((-x).Floor)
  }

  /** `int(work_hours * 60)`: the whole minutes of work the evening sweep adds. */
  function WorkMinutes(hours: real): int
  {
    Truncate(hours * 60.0)
  }
}
