/** The half-day wrapper (`plan_halfday_commute`) and the configurations
    the weekly planner hands it.

    The source installs its parameters as module globals for the duration
    of the call and restores them afterwards; here they arrive as one
    immutable `PlanConfig`, so the observable behaviour is the morning scan
    followed by the evening sweep from the arrival it found. */
module HalfDay {
  import opened Wrappers
  import opened PlanTypes
  import opened Morning
  import opened Evening

  /** Which half of the day is in the office. The source only asserts that
      the section is one of the two; it does not otherwise use it. */
  datatype Section = AM | PM

  /** The plan the wrapper returns: the outbound and the inbound leg. */
  datatype DayCommute = DayCommute(outbound: MorningLeg, inbound: EveningLeg)
  {
    /** What `compute_full_day_minutes` and `half_minutes` add up. */
    function TravelMinutes(): real
    {
      outbound.duration + inbound.duration
    }
  }

  /** Morning scan, then the evening sweep from its arrival; the first
      failure is the result. */
  function HalfDayPlan(cfg: PlanConfig, now: real, routes: Routes): Result<DayCommute, PlanError>
  {
    match MorningPlan(cfg, now, routes.toWork)
    case Err(e) => Err(e)
    case Ok(m) =>
      match EveningPlan(cfg, m.arrival, routes.toHome)
      case Err(e) => Err(e)
      case Ok(ev) => Ok(DayCommute(m, ev))
  }

  method PlanHalfDay(section: Section, cfg: PlanConfig, now: real, routes: Routes) returns (r: Result<DayCommute, PlanError>)
    ensures r == HalfDayPlan(cfg, now, routes)
  {
    var morning := ScanMorning(cfg, now, routes.toWork);
    if morning.Err? {
      return Err(morning.error);
    }
    var evening := ChooseEvening(cfg, morning.value.arrival, routes.toHome);
    if evening.Err? {
      return Err(evening.error);
    }
    return Ok(DayCommute(morning.value, evening.value));
  }

  /** The commute minutes of a plan, or None where planning raised (the
      `try`/`except Exception: return None` of the cost helpers). */
  function CommuteMinutes(cfg: PlanConfig, now: real, routes: Routes): Option<real>
  {
    match HalfDayPlan(cfg, now, routes)
    case Err(_) => None
    case Ok(c) => Some(c.TravelMinutes())
  }

  /** A plan chains its legs: the outbound leg is the morning scan's pick,
      the inbound leg leaves the work minutes plus an evaluated lunch after
      that arrival, and the plan fails exactly when one of the two scans
      fails. */
  lemma HalfDayChainsLegs(cfg: PlanConfig, now: real, routes: Routes)
    ensures HalfDayPlan(cfg, now, routes).Err? <==>
      MorningPlan(cfg, now, routes.toWork).Err? ||
      EveningPlan(cfg, MorningPlan(cfg, now, routes.toWork).value.arrival, routes.toHome).Err?
    ensures HalfDayPlan(cfg, now, routes).Ok? ==>
      var c := HalfDayPlan(cfg, now, routes).value;
      c.outbound.departure as real > now &&
      c.outbound.arrival <= cfg.latestArrival.Minutes() as real &&
      c.outbound.arrival == c.outbound.departure as real + c.outbound.duration &&
      c.inbound.lunch in LunchLengths(cfg) &&
      c.inbound.departure == c.outbound.arrival + (WorkMinutes(cfg.workHours) + c.inbound.lunch) as real &&
      c.inbound.arrival == c.inbound.departure + c.inbound.duration &&
      routes.toHome(c.inbound.departure) == Some(c.inbound.duration)
  {
    MorningLegIsTimely(cfg, now, routes.toWork);
    var m := MorningPlan(cfg, now, routes.toWork);
    if m.Ok? {
      EveningLegIsShortest(cfg, m.value.arrival, routes.toHome);
      EveningFailures(cfg, m.value.arrival, routes.toHome);
    }
  }

  /** The half-day parameters as `weekly_plan` writes them: four hours of
      work and a lunch range of `lunch_min=0, lunch_max=0, lunch_step=0`.
      The morning half keeps the full day's arrival and window; the
      afternoon half uses the afternoon arrival and window. */
  function HalfConfigAsWritten(full: PlanConfig, section: Section, afternoonArrival: TimeOfDay, afternoonStart: TimeOfDay)
    : PlanConfig
  {
    PlanConfig(
      if section == PM then afternoonArrival else full.latestArrival,
      if section == PM then afternoonStart else full.windowStart,
      4.0, 0, 0, 0, full.step)
  }

  /** The evidently intended half-day parameters: the single lunch length
      zero, which `range(0, 1, 1)` yields. */
  function HalfConfig(full: PlanConfig, section: Section, afternoonArrival: TimeOfDay, afternoonStart: TimeOfDay)
    : PlanConfig
  {
    HalfConfigAsWritten(full, section, afternoonArrival, afternoonStart).(lunchStep := 1)
  }

  /** As written, every half-day plan fails: either the morning scan fails,
      or the evening sweep's `range(0, 1, 0)` raises. So the half-day cost
      helper never yields a value. */
  lemma HalfDayAsWrittenAlwaysFails(full: PlanConfig, section: Section, afternoonArrival: TimeOfDay,
                                    afternoonStart: TimeOfDay, now: real, routes: Routes)
    ensures var cfg := HalfConfigAsWritten(full, section, afternoonArrival, afternoonStart);
      HalfDayPlan(cfg, now, routes).Err? &&
      (MorningPlan(cfg, now, routes.toWork).Ok? ==> HalfDayPlan(cfg, now, routes) == Err(ZeroLunchStep)) &&
      CommuteMinutes(cfg, now, routes).None?
  {
  }

  /** With the corrected parameters a half day takes no lunch: the return
      leg leaves exactly four hours after the arrival, and the plan fails
      only when the morning scan fails or that one return query fails. */
  lemma HalfDayTakesNoLunch(full: PlanConfig, section: Section, afternoonArrival: TimeOfDay,
                            afternoonStart: TimeOfDay, now: real, routes: Routes)
    ensures var cfg := HalfConfig(full, section, afternoonArrival, afternoonStart);
      var m := MorningPlan(cfg, now, routes.toWork);
      (HalfDayPlan(cfg, now, routes).Err? <==> m.Err? || routes.toHome(m.value.arrival + 240.0).None?) &&
      (HalfDayPlan(cfg, now, routes).Ok? ==>
         var c := HalfDayPlan(cfg, now, routes).value;
         c.inbound.lunch == 0 && c.inbound.departure == c.outbound.arrival + 240.0 &&
         CommuteMinutes(cfg, now, routes) == Some(c.outbound.duration + c.inbound.duration))
  {
    var cfg := HalfConfig(full, section, afternoonArrival, afternoonStart);
    assert WorkMinutes(4.0) == 240;
    assert LunchLengths(cfg) == [0];
    var m := MorningPlan(cfg, now, routes.toWork);
    if m.Ok? {
      EveningFailures(cfg, m.value.arrival, routes.toHome);
      EveningLegIsShortest(cfg, m.value.arrival, routes.toHome);
      assert ReturnDeparture(cfg, m.value.arrival, 0) == m.value.arrival + 240.0;
      assert Answered(cfg, m.value.arrival, routes.toHome, 0) <==> routes.toHome(m.value.arrival + 240.0).Some?;
    }
  }
}
