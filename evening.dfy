/** The evening sweep (`choose_best_evening_departure`): one return
    departure per lunch length of `range(lunch_min, lunch_max + 1,
    lunch_step)`, each `arrival + work + L`, keeping the strictly shortest
    drive home. */
module Evening {
  import opened Wrappers
  import opened Selection
  import opened PlanTypes

  function LunchLengths(cfg: PlanConfig): seq<int>
    requires cfg.lunchStep != 0
  {
    PyRange(cfg.lunchMin, cfg.lunchMax + 1, cfg.lunchStep)
  }

  /** Leaving after the whole minutes of work and lunch length `lunch`. */
  function ReturnDeparture(cfg: PlanConfig, arrival: real, lunch: int): real
  {
    arrival + (WorkMinutes(cfg.workHours) + lunch) as real
  }

  function ReturnDurations(cfg: PlanConfig, arrival: real, toHome: Oracle): seq<Option<real>>
    requires cfg.lunchStep != 0
  {
    var ls := LunchLengths(cfg);
    seq(|ls|, k requires 0 <= k < |ls| => toHome(ReturnDeparture(cfg, arrival, ls[k])))
  }

  function ReturnLeg(cfg: PlanConfig, arrival: real, lunch: int, duration: real): EveningLeg
  {
    var dep := ReturnDeparture(cfg, arrival, lunch);
    EveningLeg(lunch, dep, duration, dep + duration)
  }

  /** What the evening sweep returns. A zero lunch step makes Python's
      `range` raise before any oracle call. */
  function EveningPlan(cfg: PlanConfig, arrival: real, toHome: Oracle): Result<EveningLeg, PlanError>
  {
    if cfg.lunchStep == 0 then Err(ZeroLunchStep)
    else
      var ls := LunchLengths(cfg);
      var costs := ReturnDurations(cfg, arrival, toHome);
      match FirstMin(costs)
      case None => Err(NoReturnTrip(|ls| > 0))
      case Some(k) => Ok(ReturnLeg(cfg, arrival, ls[k], costs[k].value))
  }

  /** The sweep loop over the lunch lengths, with the best leg so far. */
  method ChooseEvening(cfg: PlanConfig, arrival: real, toHome: Oracle) returns (r: Result<EveningLeg, PlanError>)
    ensures r == EveningPlan(cfg, arrival, toHome)
  {
    if cfg.lunchStep == 0 {
      return Err(ZeroLunchStep);
    }
    var lengths := PyRange(cfg.lunchMin, cfg.lunchMax + 1, cfg.lunchStep);
    ghost var costs := ReturnDurations(cfg, arrival, toHome);
    var best: Option<EveningLeg> := None;
    var failed := false;
    for i := 0 to |lengths|
      invariant best == match FirstMin(costs[..i])
                        case None => None
                        case Some(k) => Some(ReturnLeg(cfg, arrival, lengths[k], costs[k].value))
      invariant failed <==> exists j :: 0 <= j < i && costs[j].None?
    {
      FirstMinSnoc(costs, i);
      var departure := ReturnDeparture(cfg, arrival, lengths[i]);
      var dur := toHome(departure);
      assert costs[i] == dur;
      if dur.None? {
        failed := true;
      } else if best.None? || dur.value < best.value.duration {
        best := Some(ReturnLeg(cfg, arrival, lengths[i], dur.value));
      }
    }
    assert costs[..|lengths|] == costs;
    if best.None? {
      FirstMinCorrect(costs);
      assert |lengths| > 0 ==> costs[0].None?;
      return Err(NoReturnTrip(failed));
    }
    return Ok(best.value);
  }

  /** With a positive step the sweep evaluates exactly
      `(lunch_max - lunch_min) / lunch_step + 1` lunch lengths (none when the
      range is inverted), the k-th being `lunch_min + k*lunch_step`. */
  lemma LunchLengthsEvaluated(cfg: PlanConfig)
    requires cfg.lunchStep > 0
    ensures |LunchLengths(cfg)| ==
      if cfg.lunchMin <= cfg.lunchMax then (cfg.lunchMax - cfg.lunchMin) / cfg.lunchStep + 1 else 0
    ensures forall k :: 0 <= k < |LunchLengths(cfg)| ==>
      LunchLengths(cfg)[k] == cfg.lunchMin + k * cfg.lunchStep
  {
    PyRangeCount(cfg.lunchMin, cfg.lunchMax, cfg.lunchStep);
    forall k | 0 <= k < |LunchLengths(cfg)|
      ensures LunchLengths(cfg)[k] == cfg.lunchMin + k * cfg.lunchStep
    {
      PyRangeAt(cfg.lunchMin, cfg.lunchMax + 1, cfg.lunchStep, k);
    }
  }

  /** A lunch length the sweep evaluated and the oracle answered. */
  ghost predicate Answered(cfg: PlanConfig, arrival: real, toHome: Oracle, lunch: int)
  {
    cfg.lunchStep != 0 && lunch in LunchLengths(cfg) &&
    toHome(ReturnDeparture(cfg, arrival, lunch)).Some?
  }

  /** A returned leg uses an evaluated lunch length, leaves at
      `arrival + int(work_hours*60) + L`, and its drive is no longer than any
      answered one; with a positive step every shorter lunch drove strictly
      longer, so ties go to the smallest lunch. */
  lemma EveningLegIsShortest(cfg: PlanConfig, arrival: real, toHome: Oracle)
    ensures EveningPlan(cfg, arrival, toHome).Ok? ==>
      var leg := EveningPlan(cfg, arrival, toHome).value;
      Answered(cfg, arrival, toHome, leg.lunch) &&
      leg.departure == arrival + (WorkMinutes(cfg.workHours) + leg.lunch) as real &&
      toHome(leg.departure) == Some(leg.duration) &&
      leg.arrival == leg.departure + leg.duration &&
      (forall l :: Answered(cfg, arrival, toHome, l) ==>
         leg.duration <= toHome(ReturnDeparture(cfg, arrival, l)).value) &&
      (forall l :: Answered(cfg, arrival, toHome, l) && cfg.lunchStep > 0 && l < leg.lunch ==>
         leg.duration < toHome(ReturnDeparture(cfg, arrival, l)).value)
  {
    if EveningPlan(cfg, arrival, toHome).Ok? {
      var ls := LunchLengths(cfg);
      var costs := ReturnDurations(cfg, arrival, toHome);
      FirstMinCorrect(costs);
      var k := FirstMin(costs).value;
      var leg := EveningPlan(cfg, arrival, toHome).value;
      assert ls[k] in ls;
      forall l | Answered(cfg, arrival, toHome, l)
        ensures leg.duration <= toHome(ReturnDeparture(cfg, arrival, l)).value
        ensures cfg.lunchStep > 0 && l < leg.lunch ==> leg.duration < toHome(ReturnDeparture(cfg, arrival, l)).value
      {
        var j :| 0 <= j < |ls| && ls[j] == l;
        assert costs[j] == toHome(ReturnDeparture(cfg, arrival, l));
        if cfg.lunchStep > 0 && l < leg.lunch && k < j {
          PyRangeIncreasing(cfg.lunchMin, cfg.lunchMax + 1, cfg.lunchStep, k, j);
        }
      }
    }
  }

  /** The sweep fails exactly when the step is zero or every evaluated
      lunch length's oracle call failed (vacuously so for an empty range);
      it then reports an oracle error exactly when it asked at least once. */
  lemma EveningFailures(cfg: PlanConfig, arrival: real, toHome: Oracle)
    ensures EveningPlan(cfg, arrival, toHome) == Err(ZeroLunchStep) <==> cfg.lunchStep == 0
    ensures EveningPlan(cfg, arrival, toHome).Err? <==>
      cfg.lunchStep == 0 || forall l :: l in LunchLengths(cfg) ==> !Answered(cfg, arrival, toHome, l)
    ensures cfg.lunchStep != 0 && EveningPlan(cfg, arrival, toHome).Err? ==>
      EveningPlan(cfg, arrival, toHome) == Err(NoReturnTrip(|LunchLengths(cfg)| > 0))
  {
    if cfg.lunchStep != 0 {
      var ls := LunchLengths(cfg);
      var costs := ReturnDurations(cfg, arrival, toHome);
      FirstMinCorrect(costs);
      if FirstMin(costs).None? {
        forall l | l in ls ensures !Answered(cfg, arrival, toHome, l) {
          var j :| 0 <= j < |ls| && ls[j] == l;
          assert costs[j].None?;
        }
      } else {
        var k := FirstMin(costs).value;
        assert ls[k] in ls && Answered(cfg, arrival, toHome, ls[k]);
      }
    }
  }
}
