/** The whole-day re-optimizer (`optimize_day_with_extension`): from the
    baseline morning departure it tries later departures `0, step, ...`
    up to 60 minutes, each followed by the evening plan with the stay-longer
    search, and reports the strictly cheapest total only when it beats the
    baseline total by more than 0.1 minutes. */
module DayOptimizer {
  import opened Wrappers
  import opened Selection
  import opened PlanTypes
  import opened Morning
  import opened Extension

  /** The re-optimized day as the source's result dict has it. */
  datatype ImprovedDay = ImprovedDay(
    morning: MorningLeg,
    lunch: int,
    eveningDeparture: real,
    eveningDuration: real,
    eveningArrival: real,
    extendMinutes: int,
    saveMinutes: real,
    total: real)

  /** What trying one morning departure yields: the oracle failed (the
      source skips it), the car arrives after the deadline (the source
      stops), or a drive and the evening plan from its arrival. */
  datatype Probe = Unanswered | Late | Answered(duration: real, evening: Result<EveningChoice, PlanError>)

  /** The offsets `range(0, 61, step)`. */
  function Offsets(cfg: PlanConfig): seq<int>
  {
    PyRange(0, 61, cfg.step)
  }

  /** The evening planner the loop calls for an arrival: the evening sweep
      with the stay-longer search. */
  type EveningPlanner = real -> Result<EveningChoice, PlanError>

  function EveningFrom(cfg: PlanConfig, ext: ExtendConfig, toHome: Oracle): EveningPlanner
  {
    a => EveningWithExtension(cfg, ext, a, toHome)
  }

  function ProbeAt(cfg: PlanConfig, toWork: Oracle, evening: EveningPlanner, dep: int): Probe
  {
    match toWork(dep as real)
    case None => Unanswered
    case Some(d) =>
      if dep as real + d > cfg.latestArrival.Minutes() as real then Late
      else Answered(d, evening(dep as real + d))
  }

  /** The probes of every offset from the baseline departure `baseDep`. */
  function Probes(cfg: PlanConfig, toWork: Oracle, evening: EveningPlanner, baseDep: int): seq<Probe>
  {
    var offs := Offsets(cfg);
    seq(|offs|, k requires 0 <= k < |offs| => ProbeAt(cfg, toWork, evening, baseDep + offs[k]))
  }

  /** A probe that ends the loop: a late arrival (`break`) or an evening
      plan that raised. */
  predicate Ends(p: Probe)
  {
    p.Late? || (p.Answered? && p.evening.Err?)
  }

  /** The number of probes the loop gets through before one ends it. */
  function Cut(ps: seq<Probe>): (n: nat)
    ensures n <= |ps|
    ensures forall k :: 0 <= k < n ==> !Ends(ps[k])
    ensures n < |ps| ==> Ends(ps[n])
  {
    if |ps| == 0 then 0
    else if Ends(ps[0]) then 0
    else
      var m := Cut(ps[1..]);
      assert forall k :: 1 <= k < m + 1 ==> ps[k] == ps[1..][k - 1];
      m + 1
  }

  /** The total travel time a probe offers, when it has one. */
  function Totals(ps: seq<Probe>): seq<Option<real>>
  {
    seq(|ps|, k requires 0 <= k < |ps| =>
      if ps[k].Answered? && ps[k].evening.Ok? then Some(ps[k].duration + ps[k].evening.value.Duration()) else None)
  }

  /** The day a probe gives: the morning leg and the evening leg that
      counts, the extended one when it is attached. */
  function DayFor(dep: int, d: real, c: EveningChoice): ImprovedDay
  {
    var morning := MorningLeg(dep, dep as real + d, d);
    match c.extended
    case Some(x) => ImprovedDay(morning, x.lunch, x.departure, x.duration, x.arrival, x.extendMinutes, x.save, d + x.duration)
    case None => ImprovedDay(morning, c.base.lunch, c.base.departure, c.base.duration, c.base.arrival, 0, 0.0, d + c.base.duration)
  }

  function DayAt(ps: seq<Probe>, offs: seq<int>, baseDep: int, pick: Option<nat>): Option<ImprovedDay>
    requires |ps| == |offs|
    requires pick.Some? ==> pick.value < |ps| && ps[pick.value].Answered? && ps[pick.value].evening.Ok?
  {
    match pick
    case None => None
    case Some(k) => Some(DayFor(baseDep + offs[k], ps[k].duration, ps[k].evening.value))
  }

  /** The offset loop's outcome: the first error before the first late
      arrival, or the first strictly cheapest day among the probes before
      the loop ends. */
  function BestOffset(cfg: PlanConfig, toWork: Oracle, evening: EveningPlanner, baseDep: int): Result<Option<ImprovedDay>, PlanError>
  {
    var ps := Probes(cfg, toWork, evening, baseDep);
    var n := Cut(ps);
    if n < |ps| && ps[n].Answered? then Err(ps[n].evening.error)
    else
      var totals := Totals(ps);
      var pick := FirstMin(totals[..n]);
      assert pick.Some? ==> totals[pick.value].Some?;
      Ok(DayAt(ps, Offsets(cfg), baseDep, pick))
  }

  /** The improvement step after the baseline morning leg `morning`: the
      errors of the baseline morning, of the baseline evening plan or of an
      evening plan tried before the first late arrival propagate; otherwise
      the best day, only when it beats the baseline total (the baseline
      morning drive plus the baseline evening drive, without its extension)
      by more than 0.1 minutes. */
  function Improve(cfg: PlanConfig, toWork: Oracle, evening: EveningPlanner, morning: Result<MorningLeg, PlanError>)
    : Result<Option<ImprovedDay>, PlanError>
  {
    match morning
    case Err(e) => Err(e)
    case Ok(m) =>
      match evening(m.arrival)
      case Err(e) => Err(e)
      case Ok(b) =>
        match BestOffset(cfg, toWork, evening, m.departure)
        case Err(e) => Err(e)
        case Ok(best) =>
          if best.Some? && best.value.total + 0.1 < m.duration + b.base.duration then Ok(best) else Ok(None)
  }

  /** What the re-optimizer returns: the improvement step after the
      morning scan, with the evening plan that includes the stay-longer
      search. */
  function DayPlan(cfg: PlanConfig, ext: ExtendConfig, now: real, routes: Routes): Result<Option<ImprovedDay>, PlanError>
  {
    Improve(cfg, routes.toWork, EveningFrom(cfg, ext, routes.toHome), MorningPlan(cfg, now, routes.toWork))
  }

  /** The best day after a probe offering `cand`: replaced only by a
      strictly smaller total. */
  function KeepDay(best: Option<ImprovedDay>, cand: ImprovedDay): Option<ImprovedDay>
  {
    if best.None? || cand.total < best.value.total then Some(cand) else best
  }

  /** The source's offset loop as a recursion on `plus` and `best`. */
  function Sweep(cfg: PlanConfig, toWork: Oracle, evening: EveningPlanner, baseDep: int, plus: int, best: Option<ImprovedDay>)
    : Result<Option<ImprovedDay>, PlanError>
    decreases 61 - plus
  {
    if plus >= 61 then Ok(best)
    else
      match ProbeAt(cfg, toWork, evening, baseDep + plus)
      case Unanswered => Sweep(cfg, toWork, evening, baseDep, plus + cfg.step, best)
      case Late => Ok(best)
      case Answered(d, eve) =>
        if eve.Err? then Err(eve.error)
        else Sweep(cfg, toWork, evening, baseDep, plus + cfg.step, KeepDay(best, DayFor(baseDep + plus, d, eve.value)))
  }

  /** One unfolding of the recursion, in terms of the probe at `plus`. */
  lemma SweepStep(cfg: PlanConfig, toWork: Oracle, evening: EveningPlanner, baseDep: int, plus: int, best: Option<ImprovedDay>)
    requires plus < 61
    ensures
      var p := ProbeAt(cfg, toWork, evening, baseDep + plus);
      Sweep(cfg, toWork, evening, baseDep, plus, best) ==
        if p.Unanswered? then Sweep(cfg, toWork, evening, baseDep, plus + cfg.step, best)
        else if p.Late? then Ok(best)
        else if p.evening.Err? then Err(p.evening.error)
        else Sweep(cfg, toWork, evening, baseDep, plus + cfg.step, KeepDay(best, DayFor(baseDep + plus, p.duration, p.evening.value)))
  {
  }

  /** The four ways the loop body can go, one unfolding of the recursion
      each: an unanswered drive is skipped, a late arrival stops, a failing
      evening plan ends with its error, and otherwise the day is kept when
      it is strictly cheaper. */
  lemma SweepSkips(cfg: PlanConfig, toWork: Oracle, evening: EveningPlanner, baseDep: int, plus: int, best: Option<ImprovedDay>)
    requires plus < 61 && toWork((baseDep + plus) as real).None?
    ensures Sweep(cfg, toWork, evening, baseDep, plus, best) == Sweep(cfg, toWork, evening, baseDep, plus + cfg.step, best)
  {
  }

  lemma SweepStops(cfg: PlanConfig, toWork: Oracle, evening: EveningPlanner, baseDep: int, plus: int, best: Option<ImprovedDay>, d: real)
    requires plus < 61 && toWork((baseDep + plus) as real) == Some(d)
    requires (baseDep + plus) as real + d > cfg.latestArrival.Minutes() as real
    ensures Sweep(cfg, toWork, evening, baseDep, plus, best) == Ok(best)
  {
  }

  lemma SweepFails(cfg: PlanConfig, toWork: Oracle, evening: EveningPlanner, baseDep: int, plus: int, best: Option<ImprovedDay>, d: real)
    requires plus < 61 && toWork((baseDep + plus) as real) == Some(d)
    requires (baseDep + plus) as real + d <= cfg.latestArrival.Minutes() as real
    requires evening((baseDep + plus) as real + d).Err?
    ensures Sweep(cfg, toWork, evening, baseDep, plus, best) == Err(evening((baseDep + plus) as real + d).error)
  {
  }

  lemma SweepKeeps(cfg: PlanConfig, toWork: Oracle, evening: EveningPlanner, baseDep: int, plus: int, best: Option<ImprovedDay>,
                   d: real, c: EveningChoice)
    requires plus < 61 && toWork((baseDep + plus) as real) == Some(d)
    requires (baseDep + plus) as real + d <= cfg.latestArrival.Minutes() as real
    requires evening((baseDep + plus) as real + d) == Ok(c)
    ensures Sweep(cfg, toWork, evening, baseDep, plus, best) ==
      Sweep(cfg, toWork, evening, baseDep, plus + cfg.step, KeepDay(best, DayFor(baseDep + plus, d, c)))
  {
  }

  /** The loop's best day after the first `i` probes, as a recursion on
      `i`. */
  function Upto(ps: seq<Probe>, offs: seq<int>, baseDep: int, i: nat): Option<ImprovedDay>
    requires |ps| == |offs| && i <= |ps|
  {
    if i == 0 then None
    else
      var prev := Upto(ps, offs, baseDep, i - 1);
      var p := ps[i - 1];
      if p.Answered? && p.evening.Ok? then KeepDay(prev, DayFor(baseDep + offs[i - 1], p.duration, p.evening.value))
      else prev
  }

  /** The recursion keeps the day of the first strictly smallest total. */
  lemma {:induction false} UptoIsPick(ps: seq<Probe>, offs: seq<int>, baseDep: int, i: nat)
    requires |ps| == |offs| && i <= |ps|
    ensures Upto(ps, offs, baseDep, i) == DayAt(ps, offs, baseDep, FirstMin(Totals(ps)[..i]))
  {
    if i > 0 {
      UptoIsPick(ps, offs, baseDep, i - 1);
      FirstMinSnoc(Totals(ps), i - 1);
    }
  }

  /** The recursion from position `i` of the offsets, with the best day of
      the probes before it, reaches the loop's outcome at the cut. */
  lemma {:induction false} SweepFollowsProbes(cfg: PlanConfig, toWork: Oracle, evening: EveningPlanner, baseDep: int,
                                              ps: seq<Probe>, offs: seq<int>, i: nat, plus: int)
    requires offs == Offsets(cfg) && ps == Probes(cfg, toWork, evening, baseDep)
    requires i <= Cut(ps) && offs[i..] == PyRange(plus, 61, cfg.step)
    ensures
      var n := Cut(ps);
      Sweep(cfg, toWork, evening, baseDep, plus, Upto(ps, offs, baseDep, i)) ==
        if n < |ps| && ps[n].Answered? then Err(ps[n].evening.error) else Ok(Upto(ps, offs, baseDep, n))
    decreases 61 - plus
  {
    if plus >= 61 {
      assert offs[i..] == [];
    } else {
      RangeAdvance(offs, i, plus, 61, cfg.step);
      assert ps[i] == ProbeAt(cfg, toWork, evening, baseDep + plus);
      SweepStep(cfg, toWork, evening, baseDep, plus, Upto(ps, offs, baseDep, i));
      if i < Cut(ps) {
        SweepFollowsProbes(cfg, toWork, evening, baseDep, ps, offs, i + 1, plus + cfg.step);
      }
    }
  }

  lemma SweepIsBestOffset(cfg: PlanConfig, toWork: Oracle, evening: EveningPlanner, baseDep: int)
    ensures Sweep(cfg, toWork, evening, baseDep, 0, None) == BestOffset(cfg, toWork, evening, baseDep)
  {
    var ps := Probes(cfg, toWork, evening, baseDep);
    var offs := Offsets(cfg);
    assert offs[0..] == offs;
    SweepFollowsProbes(cfg, toWork, evening, baseDep, ps, offs, 0, 0);
    UptoIsPick(ps, offs, baseDep, Cut(ps));
  }

  /** The source's offset loop, from the baseline departure `baseDep`; by
      `SweepIsBestOffset` its outcome is `BestOffset`. */
  method TryOffsets(cfg: PlanConfig, toWork: Oracle, evening: EveningPlanner, baseDep: int)
    returns (r: Result<Option<ImprovedDay>, PlanError>)
    ensures r == Sweep(cfg, toWork, evening, baseDep, 0, None)
  {
    var deadline := cfg.latestArrival.Minutes();
    ghost var result := Sweep(cfg, toWork, evening, baseDep, 0, None);
    var best: Option<ImprovedDay> := None;
    var plus := 0;
    while plus < 61
      invariant Sweep(cfg, toWork, evening, baseDep, plus, best) == result
      decreases 61 - plus
    {
      var candDep := baseDep + plus;
      var dur := toWork(candDep as real);
      if dur.None? {
        SweepSkips(cfg, toWork, evening, baseDep, plus, best);
      } else {
        var candArr := candDep as real + dur.value;
        if candArr > deadline as real {
          SweepStops(cfg, toWork, evening, baseDep, plus, best, dur.value);
          break;
        }
        var eve := evening(candArr);
        if eve.Err? {
          SweepFails(cfg, toWork, evening, baseDep, plus, best, dur.value);
          return Err(eve.error);
        }
        SweepKeeps(cfg, toWork, evening, baseDep, plus, best, dur.value, eve.value);
        var day := DayFor(candDep, dur.value, eve.value);
        if best.None? || day.total < best.value.total {
          best := Some(day);
        }
      }
      plus := plus + cfg.step;
    }
    return Ok(best);
  }

  /** The source's function: the baseline plans, the offset loop, and the
      0.1-minute improvement test. */
  method OptimizeDay(cfg: PlanConfig, ext: ExtendConfig, now: real, routes: Routes)
    returns (r: Result<Option<ImprovedDay>, PlanError>)
    ensures r == DayPlan(cfg, ext, now, routes)
  {
    var baseMorning := ScanMorning(cfg, now, routes.toWork);
    if baseMorning.Err? {
      return Err(baseMorning.error);
    }
    var m := baseMorning.value;
    var baseEvening := ChooseEveningWithExtension(cfg, ext, m.arrival, routes.toHome);
    if baseEvening.Err? {
      return Err(baseEvening.error);
    }
    var baseTotal := m.duration + baseEvening.value.base.duration;
    SweepIsBestOffset(cfg, routes.toWork, EveningFrom(cfg, ext, routes.toHome), m.departure);
    var best := TryOffsets(cfg, routes.toWork, EveningFrom(cfg, ext, routes.toHome), m.departure);
    if best.Err? {
      return Err(best.error);
    }
    if best.value.Some? && best.value.value.total + 0.1 < baseTotal {
      return Ok(best.value);
    }
    return Ok(None);
  }

  /** The offset loop fails exactly when an evening plan raises before any
      late arrival, and then with that plan's error. */
  lemma BestOffsetFails(cfg: PlanConfig, toWork: Oracle, evening: EveningPlanner, baseDep: int)
    ensures
      var ps := Probes(cfg, toWork, evening, baseDep);
      var r := BestOffset(cfg, toWork, evening, baseDep);
      (r.Err? <==> exists k :: 0 <= k < |ps| && (forall j :: 0 <= j < k ==> !Ends(ps[j])) &&
                              ps[k].Answered? && ps[k].evening.Err?) &&
      (r.Err? ==> exists k :: 0 <= k < |ps| && (forall j :: 0 <= j < k ==> !ps[j].Late?) &&
                              ps[k].Answered? && ps[k].evening == Err(r.error))
  {
    var ps := Probes(cfg, toWork, evening, baseDep);
    var n := Cut(ps);
    if k :| 0 <= k < |ps| && (forall j :: 0 <= j < k ==> !Ends(ps[j])) && ps[k].Answered? && ps[k].evening.Err? {
      assert n == k;
    }
  }

  /** The pick among the probes before the cut is nothing exactly when none
      of them got an answer, and otherwise the earliest of those with the
      smallest total. */
  lemma PickIsCheapest(ps: seq<Probe>)
    ensures
      var n := Cut(ps);
      var pick := FirstMin(Totals(ps)[..n]);
      (pick.None? <==> forall j :: 0 <= j < n ==> !ps[j].Answered?) &&
      (pick.Some? ==>
         var k := pick.value;
         k < n && ps[k].Answered? && ps[k].evening.Ok? &&
         (forall j :: 0 <= j < n && ps[j].Answered? && ps[j].evening.Ok? ==>
            ps[k].duration + ps[k].evening.value.Duration() <= ps[j].duration + ps[j].evening.value.Duration()) &&
         (forall j :: 0 <= j < k && ps[j].Answered? && ps[j].evening.Ok? ==>
            ps[k].duration + ps[k].evening.value.Duration() < ps[j].duration + ps[j].evening.value.Duration()))
  {
    var n := Cut(ps);
    var totals := Totals(ps);
    var prefix := totals[..n];
    FirstMinCorrect(prefix);
    if FirstMin(prefix).None? {
      forall j | 0 <= j < n
        ensures !ps[j].Answered?
      {
        assert prefix[j] == totals[j];
      }
    } else {
      var k := FirstMin(prefix).value;
      assert IsFirstMin(prefix, k);
      assert prefix[k] == Some(ps[k].duration + ps[k].evening.value.Duration());
      forall j | 0 <= j < n && ps[j].Answered? && ps[j].evening.Ok?
        ensures prefix[k].value <= ps[j].duration + ps[j].evening.value.Duration()
      {
        assert prefix[j] == Some(ps[j].duration + ps[j].evening.value.Duration());
      }
      forall j | 0 <= j < k && ps[j].Answered? && ps[j].evening.Ok?
        ensures prefix[k].value < ps[j].duration + ps[j].evening.value.Duration()
      {
        assert prefix[j] == Some(ps[j].duration + ps[j].evening.value.Duration());
      }
    }
  }

  /** A day `d` that the probe loop from `baseDep` can report: it leaves on
      the offset grid within an hour after `baseDep`, drives as the oracle
      says, arrives by the deadline, and adds the evening drive that counts
      from that arrival. */
  predicate Feasible(cfg: PlanConfig, toWork: Oracle, evening: EveningPlanner, baseDep: int, d: ImprovedDay)
  {
    var off := d.morning.departure - baseDep;
    0 <= off <= 60 && off % cfg.step == 0 &&
    toWork(d.morning.departure as real) == Some(d.morning.duration) &&
    d.morning.arrival == d.morning.departure as real + d.morning.duration &&
    d.morning.arrival <= cfg.latestArrival.Minutes() as real &&
    evening(d.morning.arrival).Ok? &&
    var c := evening(d.morning.arrival).value;
    d.eveningDuration == c.Duration() &&
    d.total == d.morning.duration + c.Duration() &&
    d.extendMinutes == (if c.extended.Some? then c.extended.value.extendMinutes else 0)
  }

  /** The day of an answered probe at a grid offset is feasible. */
  lemma ProbeDayFeasible(cfg: PlanConfig, toWork: Oracle, evening: EveningPlanner, baseDep: int, off: int, d: real, c: EveningChoice)
    requires 0 <= off <= 60 && off % cfg.step == 0
    requires ProbeAt(cfg, toWork, evening, baseDep + off) == Answered(d, Ok(c))
    ensures Feasible(cfg, toWork, evening, baseDep, DayFor(baseDep + off, d, c))
  {
  }

  /** A day the offset loop reports is feasible, and no answered probe
      before the loop ends offers a smaller total. */
  lemma BestOffsetIsCheapest(cfg: PlanConfig, toWork: Oracle, evening: EveningPlanner, baseDep: int)
    ensures
      var r := BestOffset(cfg, toWork, evening, baseDep);
      var ps := Probes(cfg, toWork, evening, baseDep);
      r.Ok? && r.value.Some? ==>
        Feasible(cfg, toWork, evening, baseDep, r.value.value) &&
        forall j :: 0 <= j < Cut(ps) && ps[j].Answered? && ps[j].evening.Ok? ==>
          r.value.value.total <= ps[j].duration + ps[j].evening.value.Duration()
  {
    var r := BestOffset(cfg, toWork, evening, baseDep);
    var ps := Probes(cfg, toWork, evening, baseDep);
    var offs := Offsets(cfg);
    if r.Ok? && r.value.Some? {
      PickIsCheapest(ps);
      var k := FirstMin(Totals(ps)[..Cut(ps)]).value;
      PyRangeMembers(0, 61, cfg.step, offs[k]);
      assert ps[k] == ProbeAt(cfg, toWork, evening, baseDep + offs[k]);
      ProbeDayFeasible(cfg, toWork, evening, baseDep, offs[k], ps[k].duration, ps[k].evening.value);
    }
  }

  /** A day the improvement step reports is feasible from the baseline
      departure and beats the baseline total by more than 0.1 minutes. */
  lemma ImproveBeatsBaseline(cfg: PlanConfig, toWork: Oracle, evening: EveningPlanner, morning: Result<MorningLeg, PlanError>)
    ensures
      var r := Improve(cfg, toWork, evening, morning);
      r.Ok? && r.value.Some? ==>
        morning.Ok? && evening(morning.value.arrival).Ok? &&
        Feasible(cfg, toWork, evening, morning.value.departure, r.value.value) &&
        r.value.value.total + 0.1 < morning.value.duration + evening(morning.value.arrival).value.base.duration
  {
    if morning.Ok? {
      BestOffsetIsCheapest(cfg, toWork, evening, morning.value.departure);
    }
  }

  /** A reported day beats the baseline total by more than 0.1 minutes and
      is feasible from the baseline departure: on the offset grid within an
      hour after it (so after now), with the oracle's drive, by the
      deadline, followed by the evening plan with the stay-longer search
      from its arrival. */
  lemma DayPlanImproves(cfg: PlanConfig, ext: ExtendConfig, now: real, routes: Routes)
    ensures
      var r := DayPlan(cfg, ext, now, routes);
      var evening := EveningFrom(cfg, ext, routes.toHome);
      r.Ok? && r.value.Some? ==>
        MorningPlan(cfg, now, routes.toWork).Ok? &&
        var m := MorningPlan(cfg, now, routes.toWork).value;
        EveningWithExtension(cfg, ext, m.arrival, routes.toHome).Ok? &&
        r.value.value.total + 0.1 < m.duration + EveningWithExtension(cfg, ext, m.arrival, routes.toHome).value.base.duration &&
        now < r.value.value.morning.departure as real &&
        Feasible(cfg, routes.toWork, evening, m.departure, r.value.value)
  {
    MorningLegIsTimely(cfg, now, routes.toWork);
    ImproveBeatsBaseline(cfg, routes.toWork, EveningFrom(cfg, ext, routes.toHome), MorningPlan(cfg, now, routes.toWork));
  }

  /** Offset 0 is `baseDep` itself: when its drive arrives in time and its
      evening plan succeeds, a successful offset loop reports a day that
      costs no more than that first probe. */
  lemma FirstProbeIsCandidate(cfg: PlanConfig, toWork: Oracle, evening: EveningPlanner, baseDep: int, d: real, c: EveningChoice)
    requires toWork(baseDep as real) == Some(d)
    requires baseDep as real + d <= cfg.latestArrival.Minutes() as real
    requires evening(baseDep as real + d) == Ok(c)
    ensures
      var r := BestOffset(cfg, toWork, evening, baseDep);
      r.Ok? ==> r.value.Some? && r.value.value.total <= d + c.Duration()
  {
    var ps := Probes(cfg, toWork, evening, baseDep);
    assert Offsets(cfg)[0] == 0;
    assert ps[0] == ProbeAt(cfg, toWork, evening, baseDep);
    assert ps[0] == Answered(d, Ok(c));
    PickIsCheapest(ps);
    assert 0 < Cut(ps);
  }

  /** The baseline departure is offset 0 and its probe is answered by the
      baseline plans, so whenever the offset loop succeeds it reports a day,
      and that day costs no more than the baseline's own total with the
      baseline's extension. */
  lemma BaselineIsCandidate(cfg: PlanConfig, ext: ExtendConfig, now: real, routes: Routes)
    ensures
      MorningPlan(cfg, now, routes.toWork).Ok? ==>
        var m := MorningPlan(cfg, now, routes.toWork).value;
        var r := BestOffset(cfg, routes.toWork, EveningFrom(cfg, ext, routes.toHome), m.departure);
        EveningWithExtension(cfg, ext, m.arrival, routes.toHome).Ok? && r.Ok? ==>
          r.value.Some? &&
          r.value.value.total <= m.duration + EveningWithExtension(cfg, ext, m.arrival, routes.toHome).value.Duration()
  {
    MorningLegIsTimely(cfg, now, routes.toWork);
    var p := MorningPlan(cfg, now, routes.toWork);
    if p.Ok? && EveningWithExtension(cfg, ext, p.value.arrival, routes.toHome).Ok? {
      var m := p.value;
      FirstProbeIsCandidate(cfg, routes.toWork, EveningFrom(cfg, ext, routes.toHome), m.departure, m.duration,
                            EveningWithExtension(cfg, ext, m.arrival, routes.toHome).value);
    }
  }

  /** The re-optimizer reports no day exactly when the best day does not
      beat the baseline total by more than 0.1 minutes; so a baseline whose
      extension saves more than 0.1 minutes always yields a reported day. */
  lemma DayPlanNoImprovement(cfg: PlanConfig, ext: ExtendConfig, now: real, routes: Routes)
    ensures
      var r := DayPlan(cfg, ext, now, routes);
      MorningPlan(cfg, now, routes.toWork).Ok? ==>
        var m := MorningPlan(cfg, now, routes.toWork).value;
        var best := BestOffset(cfg, routes.toWork, EveningFrom(cfg, ext, routes.toHome), m.departure);
        EveningWithExtension(cfg, ext, m.arrival, routes.toHome).Ok? && best.Ok? ==>
          var b := EveningWithExtension(cfg, ext, m.arrival, routes.toHome).value;
          (r == Ok(None) <==> best.value.Some? && best.value.value.total + 0.1 >= m.duration + b.base.duration) &&
          (b.extended.Some? && ext.targetSave > 0.1 ==> r.Ok? && r.value.Some?)
  {
    BaselineIsCandidate(cfg, ext, now, routes);
    if MorningPlan(cfg, now, routes.toWork).Ok? {
      var m := MorningPlan(cfg, now, routes.toWork).value;
      ExtendedOnlyAtTarget(cfg, ext, m.arrival, routes.toHome);
    }
  }
}
