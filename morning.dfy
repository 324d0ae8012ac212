/** The morning scan (`scan_morning_best_departure`): every departure from
    the window start to the arrival deadline in `step` minutes, skipping
    those at or before now, keeping the on-time departure with the strictly
    shortest drive. */
module Morning {
  import opened Wrappers
  import opened Selection
  import opened PlanTypes

  /** The grid the scan walks: window start, then every `step` minutes, while
      not after the latest arrival. */
  function Departures(cfg: PlanConfig): seq<int>
  {
    PyRange(cfg.windowStart.Minutes(), cfg.latestArrival.Minutes() + 1, cfg.step)
  }

  /** The drive a departure contributes to the minimum: present only when the
      departure is after now, the oracle answers, and the car arrives by the
      deadline. */
  function TimelyDuration(cfg: PlanConfig, now: real, toWork: Oracle, dep: int): Option<real>
  {
    if dep as real <= now then None
    else
      match toWork(dep as real)
      case None => None
      case Some(d) => if dep as real + d <= cfg.latestArrival.Minutes() as real then Some(d) else None
  }

  function Durations(cfg: PlanConfig, now: real, toWork: Oracle): seq<Option<real>>
  {
    var deps := Departures(cfg);
    seq(|deps|, k requires 0 <= k < |deps| => TimelyDuration(cfg, now, toWork, deps[k]))
  }

  /** Whether some departure the scan asked about (one after now) made the
      oracle fail: the source then has a last error message to report. */
  predicate AskedAndFailed(now: real, toWork: Oracle, deps: seq<int>)
  {
    exists k :: 0 <= k < |deps| && now < deps[k] as real && toWork(deps[k] as real).None?
  }

  /** What the morning scan returns, stated over the whole grid. */
  function MorningPlan(cfg: PlanConfig, now: real, toWork: Oracle): Result<MorningLeg, PlanError>
  {
    if cfg.latestArrival.Minutes() as real <= now then Err(ArrivalInPast)
    else
      var deps := Departures(cfg);
      var costs := Durations(cfg, now, toWork);
      match FirstMin(costs)
      case None => Err(NoTimelyDeparture(AskedAndFailed(now, toWork, deps)))
      case Some(k) => Ok(MorningLeg(deps[k], deps[k] as real + costs[k].value, costs[k].value))
  }

  /** The leg a picked grid index stands for. */
  function LegAt(deps: seq<int>, costs: seq<Option<real>>, pick: Option<nat>): Option<MorningLeg>
    requires |deps| == |costs|
    requires pick.Some? ==> pick.value < |costs| && costs[pick.value].Some?
  {
    match pick
    case None => None
    case Some(k) => Some(MorningLeg(deps[k], deps[k] as real + costs[k].value, costs[k].value))
  }

  /** The best leg after a departure whose timely drive is `d`: replaced
      only by a strictly shorter drive. */
  function Keep(best: Option<MorningLeg>, dep: int, d: Option<real>): Option<MorningLeg>
  {
    if d.Some? && (best.None? || d.value < best.value.duration)
    then Some(MorningLeg(dep, dep as real + d.value, d.value)) else best
  }

  /** The error flag after asking about `dep`, when it is after now. */
  predicate NoteFailure(failed: bool, now: real, toWork: Oracle, dep: int)
  {
    failed || (now < dep as real && toWork(dep as real).None?)
  }

  /** One step of the scan: the best leg after departure `i` replaces the one
      before only by a strictly shorter timely drive. */
  lemma ScanStep(cfg: PlanConfig, now: real, toWork: Oracle, i: nat)
    requires i < |Departures(cfg)|
    ensures
      var deps, costs := Departures(cfg), Durations(cfg, now, toWork);
      LegAt(deps, costs, FirstMin(costs[..i + 1])) == Keep(LegAt(deps, costs, FirstMin(costs[..i])), deps[i], costs[i])
    ensures
      var deps := Departures(cfg);
      AskedAndFailed(now, toWork, deps[..i + 1]) == NoteFailure(AskedAndFailed(now, toWork, deps[..i]), now, toWork, deps[i])
  {
    var deps, costs := Departures(cfg), Durations(cfg, now, toWork);
    FirstMinSnoc(costs, i);
    var prefix := deps[..i + 1];
    assert prefix[..i] == deps[..i] && prefix[i] == deps[i];
    if AskedAndFailed(now, toWork, deps[..i]) {
      var j :| 0 <= j < i && now < deps[..i][j] as real && toWork(deps[..i][j] as real).None?;
      assert prefix[j] == deps[..i][j];
    }
    if AskedAndFailed(now, toWork, prefix) {
      var j :| 0 <= j < i + 1 && now < prefix[j] as real && toWork(prefix[j] as real).None?;
      if j < i { assert deps[..i][j] == prefix[j]; }
    }
  }

  /** The source's loop as a recursion on its variables `current`, `best`
      and whether an oracle error was recorded. */
  function Scan(cfg: PlanConfig, now: real, toWork: Oracle, current: int, best: Option<MorningLeg>, failed: bool)
    : (Option<MorningLeg>, bool)
    decreases cfg.latestArrival.Minutes() - current
  {
    var deadline := cfg.latestArrival.Minutes();
    if current > deadline then (best, failed)
    else if current as real <= now then Scan(cfg, now, toWork, current + cfg.step, best, failed)
    else
      match toWork(current as real)
      case None => Scan(cfg, now, toWork, current + cfg.step, best, true)
      case Some(d) =>
        var best' := if current as real + d <= deadline as real && (best.None? || d < best.value.duration)
                     then Some(MorningLeg(current, current as real + d, d)) else best;
        Scan(cfg, now, toWork, current + cfg.step, best', failed)
  }

  /** One unfolding of the recursion at a grid point not after the deadline,
      in terms of the drive the point contributes. */
  lemma ScanUnfold(cfg: PlanConfig, now: real, toWork: Oracle, current: int, best: Option<MorningLeg>, failed: bool)
    requires current <= cfg.latestArrival.Minutes()
    ensures
      Scan(cfg, now, toWork, current, best, failed) ==
        Scan(cfg, now, toWork, current + cfg.step, Keep(best, current, TimelyDuration(cfg, now, toWork, current)),
             NoteFailure(failed, now, toWork, current))
  {
  }

  /** The recursion keeps the first shortest timely departure of the grid
      and records whether an asked departure failed. */
  lemma {:induction false} ScanFollowsGrid(cfg: PlanConfig, now: real, toWork: Oracle, i: nat, current: int)
    requires i <= |Departures(cfg)|
    requires Departures(cfg)[i..] == PyRange(current, cfg.latestArrival.Minutes() + 1, cfg.step)
    ensures
      var deps, costs := Departures(cfg), Durations(cfg, now, toWork);
      Scan(cfg, now, toWork, current, LegAt(deps, costs, FirstMin(costs[..i])), AskedAndFailed(now, toWork, deps[..i]))
        == (LegAt(deps, costs, FirstMin(costs)), AskedAndFailed(now, toWork, deps))
    decreases cfg.latestArrival.Minutes() - current
  {
    var deps, costs := Departures(cfg), Durations(cfg, now, toWork);
    if current > cfg.latestArrival.Minutes() {
      assert deps[i..] == [];
      assert deps[..i] == deps && costs[..i] == costs;
    } else {
      RangeAdvance(deps, i, current, cfg.latestArrival.Minutes() + 1, cfg.step);
      assert costs[i] == TimelyDuration(cfg, now, toWork, current);
      ScanStep(cfg, now, toWork, i);
      ScanUnfold(cfg, now, toWork, current, LegAt(deps, costs, FirstMin(costs[..i])), AskedAndFailed(now, toWork, deps[..i]));
      ScanFollowsGrid(cfg, now, toWork, i + 1, current + cfg.step);
    }
  }

  /** From the window start with nothing found, the recursion yields the
      morning plan. */
  lemma ScanIsPlan(cfg: PlanConfig, now: real, toWork: Oracle)
    requires now < cfg.latestArrival.Minutes() as real
    ensures
      var (best, failed) := Scan(cfg, now, toWork, cfg.windowStart.Minutes(), None, false);
      MorningPlan(cfg, now, toWork) == if best.None? then Err(NoTimelyDeparture(failed)) else Ok(best.value)
  {
    var deps, costs := Departures(cfg), Durations(cfg, now, toWork);
    assert deps[0..] == deps && costs[..0] == [] && deps[..0] == [];
    ScanFollowsGrid(cfg, now, toWork, 0, cfg.windowStart.Minutes());
  }

  /** The scan loop, departure by departure, with the best leg so far. */
  method ScanMorning(cfg: PlanConfig, now: real, toWork: Oracle) returns (r: Result<MorningLeg, PlanError>)
    ensures r == MorningPlan(cfg, now, toWork)
  {
    var start := cfg.windowStart.Minutes();
    var deadline := cfg.latestArrival.Minutes();
    if deadline as real <= now {
      return Err(ArrivalInPast);
    }
    ScanIsPlan(cfg, now, toWork);
    ghost var result := Scan(cfg, now, toWork, start, None, false);
    var best: Option<MorningLeg> := None;
    var failed := false;
    var current := start;
    while current <= deadline
      invariant Scan(cfg, now, toWork, current, best, failed) == result
      decreases deadline - current
    {
      ScanUnfold(cfg, now, toWork, current, best, failed);
      if current as real <= now {
        // only future departures are sent to the oracle
      } else {
        var dur := toWork(current as real);
        if dur.None? {
          failed := true;
        } else {
          var arrival := current as real + dur.value;
          if arrival <= deadline as real {
            if best.None? || dur.value < best.value.duration {
              best := Some(MorningLeg(current, arrival, dur.value));
            }
          }
        }
      }
      current := current + cfg.step;
    }
    if best.None? {
      return Err(NoTimelyDeparture(failed));
    }
    return Ok(best.value);
  }

  /** A departure the scan could pick: on the grid, after now, answered, and
      arriving by the deadline; `d` is its drive. */
  ghost predicate Timely(cfg: PlanConfig, now: real, toWork: Oracle, c: int)
  {
    c in Departures(cfg) && now < c as real && toWork(c as real).Some? &&
    c as real + toWork(c as real).value <= cfg.latestArrival.Minutes() as real
  }

  lemma TimelyIsPresent(cfg: PlanConfig, now: real, toWork: Oracle, k: int)
    requires 0 <= k < |Departures(cfg)|
    ensures Durations(cfg, now, toWork)[k].Some? <==> Timely(cfg, now, toWork, Departures(cfg)[k])
    ensures Durations(cfg, now, toWork)[k].Some? ==>
      Durations(cfg, now, toWork)[k].value == toWork(Departures(cfg)[k] as real).value
  {
  }

  /** A returned leg leaves after now, on the grid `start + k*step` inside
      [start, deadline], with the oracle's drive, and arrives by the deadline. */
  lemma MorningLegIsTimely(cfg: PlanConfig, now: real, toWork: Oracle)
    ensures MorningPlan(cfg, now, toWork).Ok? ==>
      var leg := MorningPlan(cfg, now, toWork).value;
      var start := cfg.windowStart.Minutes();
      var deadline := cfg.latestArrival.Minutes();
      now < leg.departure as real &&
      start <= leg.departure <= deadline && (leg.departure - start) % cfg.step == 0 &&
      toWork(leg.departure as real) == Some(leg.duration) &&
      leg.arrival == leg.departure as real + leg.duration &&
      leg.arrival <= deadline as real
  {
    if MorningPlan(cfg, now, toWork).Ok? {
      var deps := Departures(cfg);
      var k := FirstMin(Durations(cfg, now, toWork)).value;
      TimelyIsPresent(cfg, now, toWork, k);
      PyRangeMembers(cfg.windowStart.Minutes(), cfg.latestArrival.Minutes() + 1, cfg.step, deps[k]);
    }
  }

  /** The returned drive is no longer than any other timely departure's, and
      strictly shorter than every earlier one's: the first minimum wins. */
  lemma MorningLegIsEarliestShortest(cfg: PlanConfig, now: real, toWork: Oracle)
    ensures MorningPlan(cfg, now, toWork).Ok? ==>
      var leg := MorningPlan(cfg, now, toWork).value;
      (forall c :: Timely(cfg, now, toWork, c) ==> leg.duration <= toWork(c as real).value) &&
      (forall c :: Timely(cfg, now, toWork, c) && c < leg.departure ==> leg.duration < toWork(c as real).value)
  {
    if MorningPlan(cfg, now, toWork).Ok? {
      var deps := Departures(cfg);
      var costs := Durations(cfg, now, toWork);
      var start, stop := cfg.windowStart.Minutes(), cfg.latestArrival.Minutes() + 1;
      FirstMinCorrect(costs);
      var k := FirstMin(costs).value;
      var leg := MorningPlan(cfg, now, toWork).value;
      forall c | Timely(cfg, now, toWork, c)
        ensures leg.duration <= toWork(c as real).value
        ensures c < leg.departure ==> leg.duration < toWork(c as real).value
      {
        var j :| 0 <= j < |deps| && deps[j] == c;
        TimelyIsPresent(cfg, now, toWork, j);
        if c < leg.departure {
          if k <= j {
            if k < j { PyRangeIncreasing(start, stop, cfg.step, k, j); }
          }
        }
      }
    }
  }

  /** The scan fails exactly when the deadline is not after now, or when no
      departure on the grid is timely; in the second case it reports an oracle
      failure exactly when a departure it asked about failed. */
  lemma MorningFailures(cfg: PlanConfig, now: real, toWork: Oracle)
    ensures MorningPlan(cfg, now, toWork) == Err(ArrivalInPast) <==>
      cfg.latestArrival.Minutes() as real <= now
    ensures MorningPlan(cfg, now, toWork).Err? <==>
      cfg.latestArrival.Minutes() as real <= now ||
      forall c :: c in Departures(cfg) ==> !Timely(cfg, now, toWork, c)
    ensures MorningPlan(cfg, now, toWork) == Err(NoTimelyDeparture(true)) ==>
      exists c :: c in Departures(cfg) && now < c as real && toWork(c as real).None?
  {
    var deps := Departures(cfg);
    var costs := Durations(cfg, now, toWork);
    FirstMinCorrect(costs);
    if cfg.latestArrival.Minutes() as real > now {
      if FirstMin(costs).None? {
        forall c | c in deps ensures !Timely(cfg, now, toWork, c) {
          var j :| 0 <= j < |deps| && deps[j] == c;
          TimelyIsPresent(cfg, now, toWork, j);
        }
      } else {
        var k := FirstMin(costs).value;
        TimelyIsPresent(cfg, now, toWork, k);
        assert Timely(cfg, now, toWork, deps[k]);
      }
      if AskedAndFailed(now, toWork, deps) {
        var j :| 0 <= j < |deps| && now < deps[j] as real && toWork(deps[j] as real).None?;
        assert deps[j] in deps;
      }
    }
  }

  /** With an oracle that always answers the same drive `d`, the scan takes
      the first grid departure when it is after now and arrives in time (the
      case of a constant 42 minutes from 05:00 with a 09:00 deadline). */
  lemma ConstantDriveTakesWindowStart(cfg: PlanConfig, now: real, toWork: Oracle, d: real)
    requires forall t :: toWork(t) == Some(d)
    requires 0.0 <= d
    requires now < cfg.windowStart.Minutes() as real
    requires cfg.windowStart.Minutes() as real + d <= cfg.latestArrival.Minutes() as real
    ensures MorningPlan(cfg, now, toWork) ==
      Ok(MorningLeg(cfg.windowStart.Minutes(), cfg.windowStart.Minutes() as real + d, d))
  {
    var start := cfg.windowStart.Minutes();
    var deadline := cfg.latestArrival.Minutes();
    var deps := Departures(cfg);
    var costs := Durations(cfg, now, toWork);
    assert deps == [start] + PyRange(start + cfg.step, deadline + 1, cfg.step);
    forall j | 0 <= j < |costs| && costs[j].Some? ensures costs[j].value == d {
      assert toWork(deps[j] as real) == Some(d);
    }
    assert toWork(start as real) == Some(d);
    assert costs[0] == Some(d);
    assert IsFirstMin(costs, 0);
    FirstMinIff(costs, 0);
  }
}
