/** `weekly_plan`: the block passes of `WeeklyPasses` fed with the commute
    costs of the half-day wrapper, then one entry per weekday.

    The week starts at the local midnight of its first day; `now` is the
    current time in minutes since that midnight, so day `i` sees it as
    `now - 1440 i`, and the routes of day `i` are `routes(i)`. The half-day
    parameters come in two forms: as written (`lunch_step=0`) and corrected
    (`HalfConfig`); `corrected` chooses between them. */
module Weekly {
  import opened Wrappers
  import opened PlanTypes
  import opened Ranking
  import opened Morning
  import opened HalfDay
  import opened WeeklyPasses

  /** The parameters `weekly_plan` works with: the full-day configuration
      (`latest_arrival_local`, `work_hours`, `lunch_*`, `step_minutes` from
      the config or the defaults), the afternoon arrival and window start
      for HO-AM days, the current time and the routes of each weekday. */
  datatype WeekSetup = WeekSetup(
    full: PlanConfig,
    afternoonArrival: TimeOfDay,
    afternoonStart: TimeOfDay,
    now: real,
    routes: int -> Routes)

  /** The current time as day `i` of the week sees it. */
  function DayNow(now: real, i: int): real
  {
    now - 1440.0 * i as real
  }

  /** The index of today's date: days before it are past. */
  function Today(now: real): int
  {
    now.Floor / 1440
  }

  /** The half-day parameters for a section, as written or corrected. */
  function HalfSetting(setup: WeekSetup, section: Section, corrected: bool): PlanConfig
  {
    if corrected then HalfConfig(setup.full, section, setup.afternoonArrival, setup.afternoonStart)
    else HalfConfigAsWritten(setup.full, section, setup.afternoonArrival, setup.afternoonStart)
  }

  /** The section the planner plans a block's office half for: the
      afternoon for HO-AM, the morning otherwise. */
  function OfficeSection(b: Block): Section
  {
    if b == HomeAm then PM else AM
  }

  /** The parameters a block's day is planned with: the half-day ones for
      HO-AM and HO-PM, the full-day ones for every other block. */
  function DaySetting(setup: WeekSetup, b: Block, corrected: bool): PlanConfig
  {
    if b == HomeAm || b == HomePm then HalfSetting(setup, OfficeSection(b), corrected) else setup.full
  }

  /** `compute_full_day_minutes` for day `i`. */
  function FullMinutes(setup: WeekSetup, i: int): Option<real>
  {
    CommuteMinutes(setup.full, DayNow(setup.now, i), setup.routes(i))
  }

  function FullCost(setup: WeekSetup): int -> Option<real>
  {
    i => FullMinutes(setup, i)
  }

  /** `half_minutes` for day `i` and a section. */
  function HalfMinutes(setup: WeekSetup, corrected: bool, i: int, s: Section): Option<real>
  {
    CommuteMinutes(HalfSetting(setup, s, corrected), DayNow(setup.now, i), setup.routes(i))
  }

  function HalfCost(setup: WeekSetup, corrected: bool): (int, Section) -> Option<real>
  {
    (i, s) => HalfMinutes(setup, corrected, i, s)
  }

  /** One result entry: the weekday index, the mode string, the plan, and
      the error of a day whose planning raised. */
  datatype Entry = Entry(day: int, mode: string, plan: Option<DayCommute>, error: Option<PlanError>)

  /** The entry of weekday `i` with block `b`: a past day is `PAST-<block>`
      without a plan; HO and OFF have no plan; HO-AM and HO-PM are planned
      as half days under their own name; every other block is planned as a
      full office day, `OFFICE`; a plan that fails is `ERROR-<block>`. */
  function RenderDay(setup: WeekSetup, corrected: bool, i: int, b: Block): Entry
  {
    if i < Today(setup.now) then Entry(i, "PAST-" + b.Name(), None, None)
    else if b == Home || b == Off then Entry(i, b.Name(), None, None)
    else
      match HalfDayPlan(DaySetting(setup, b, corrected), DayNow(setup.now, i), setup.routes(i))
      case Ok(c) => Entry(i, if b == HomeAm || b == HomePm then b.Name() else "OFFICE", Some(c), None)
      case Err(e) => Entry(i, "ERROR-" + b.Name(), None, Some(e))
  }

  /** The five entries of a week of blocks. */
  function Rendered(setup: WeekSetup, corrected: bool, blocks: seq<Block>): seq<Entry>
    requires |blocks| >= 5
  {
    seq(5, i requires 0 <= i < 5 => RenderDay(setup, corrected, i, blocks[i]))
  }

  /** The blocks after padding, the conversion pass and the cap pass. */
  function WeekBlocks(given: Option<seq<string>>, percent: int, setup: WeekSetup, corrected: bool): (r: seq<Block>)
    ensures |r| >= 5
  {
    var target := HoTarget(percent);
    var converted := Converted(Padded(given), target, FullCost(setup));
    Capped(converted, target, FullCost(setup), HalfCost(setup, corrected)).0
  }

  /** `weekly_plan`. */
  function WeekPlan(given: Option<seq<string>>, percent: int, setup: WeekSetup, corrected: bool): seq<Entry>
  {
    Rendered(setup, corrected, WeekBlocks(given, percent, setup, corrected))
  }

  /** The loop planning the five entries, calling the half-day wrapper for
      each day that is neither past, HO nor OFF. */
  method RenderWeek(setup: WeekSetup, corrected: bool, blocks: seq<Block>) returns (entries: seq<Entry>)
    requires |blocks| >= 5
    ensures entries == Rendered(setup, corrected, blocks)
  {
    entries := [];
    var today := Today(setup.now);
    var i := 0;
    while i < 5
      invariant 0 <= i <= 5 && |entries| == i
      invariant forall j :: 0 <= j < i ==> entries[j] == RenderDay(setup, corrected, j, blocks[j])
    {
      var slot := blocks[i];
      var entry;
      if i < today {
        entry := Entry(i, "PAST-" + slot.Name(), None, None);
      } else if slot == Home || slot == Off {
        entry := Entry(i, slot.Name(), None, None);
      } else {
        var cfg := DaySetting(setup, slot, corrected);
        var plan := PlanHalfDay(OfficeSection(slot), cfg, DayNow(setup.now, i), setup.routes(i));
        if plan.Ok? {
          var mode := if slot == HomeAm || slot == HomePm then slot.Name() else "OFFICE";
          entry := Entry(i, mode, Some(plan.value), None);
        } else {
          entry := Entry(i, "ERROR-" + slot.Name(), None, Some(plan.error));
        }
      }
      entries := entries + [entry];
      i := i + 1;
    }
  }

  /** The whole weekly planner, pass by pass. */
  method WeeklyPlan(given: Option<seq<string>>, percent: int, setup: WeekSetup, corrected: bool)
    returns (entries: seq<Entry>)
    ensures entries == WeekPlan(given, percent, setup, corrected)
  {
    var target := HoTarget(percent);
    var blocks := PadBlocks(given);
    blocks := ConvertOpenDays(blocks, target, FullCost(setup));
    var hours;
    blocks, hours := CapHomeHours(blocks, target, FullCost(setup), HalfCost(setup, corrected));
    entries := RenderWeek(setup, corrected, blocks);
  }

  /** A week has five entries, one per weekday in order, each made from
      that day's block alone, so a failing day does not affect the others;
      a past day, an HO
      day and an OFF day carry no plan and no error; a day with a plan is
      a day from today on whose block is neither HO nor OFF, and a day
      with an error is one too. */
  lemma WeekEntries(given: Option<seq<string>>, percent: int, setup: WeekSetup, corrected: bool)
    ensures |WeekPlan(given, percent, setup, corrected)| == 5
    ensures forall i :: 0 <= i < 5 ==>
      var e := WeekPlan(given, percent, setup, corrected)[i];
      var b := WeekBlocks(given, percent, setup, corrected)[i];
      e.day == i && e == RenderDay(setup, corrected, i, b) &&
      (i < Today(setup.now) ==> e.mode == "PAST-" + b.Name() && e.plan.None? && e.error.None?) &&
      (i >= Today(setup.now) && (b == Home || b == Off) ==> e.mode == b.Name() && e.plan.None? && e.error.None?) &&
      (e.plan.Some? || e.error.Some? ==> i >= Today(setup.now) && b != Home && b != Off) &&
      !(e.plan.Some? && e.error.Some?)
  {
  }

  /** A day from today on whose block is neither a home nor a half day
      (OPEN, OFFICE or an unknown name) is planned as a full office day:
      it is `OFFICE` with a plan exactly when the full-day plan succeeds,
      and `ERROR-<block>` with that plan's error otherwise. */
  lemma OfficeDayModes(setup: WeekSetup, corrected: bool, i: int, b: Block)
    requires i >= Today(setup.now) && b != Home && b != Off && b != HomeAm && b != HomePm
    ensures var e := RenderDay(setup, corrected, i, b);
      var p := HalfDayPlan(setup.full, DayNow(setup.now, i), setup.routes(i));
      (p.Ok? ==> e.mode == "OFFICE" && e.plan == Some(p.value) && e.error.None?) &&
      (p.Err? ==> e.mode == "ERROR-" + b.Name() && e.plan.None? && e.error == Some(p.error))
  {
  }

  /** A day with a plan arrives in time: the outbound leg leaves after the
      day's current time and arrives by the latest arrival of its block's
      parameters (the afternoon arrival for HO-AM), and the return leg
      leaves after the block's work time and lunch. A full office day is
      labelled OFFICE, also when its block was OPEN or an unknown name. */
  lemma PlannedDaysAreTimely(setup: WeekSetup, corrected: bool, i: int, b: Block)
    ensures var e := RenderDay(setup, corrected, i, b);
      var cfg := DaySetting(setup, b, corrected);
      e.plan.Some? ==>
        e.plan.value.outbound.departure as real > DayNow(setup.now, i) &&
        e.plan.value.outbound.arrival <= cfg.latestArrival.Minutes() as real &&
        e.plan.value.inbound.departure ==
          e.plan.value.outbound.arrival + (WorkMinutes(cfg.workHours) + e.plan.value.inbound.lunch) as real &&
        (b == HomeAm ==> cfg.latestArrival == setup.afternoonArrival) &&
        (b != HomeAm && b != HomePm ==> cfg == setup.full && e.mode == "OFFICE")
  {
    HalfDayChainsLegs(DaySetting(setup, b, corrected), DayNow(setup.now, i), setup.routes(i));
  }

  /** As written, the half-day cost of day `i` for section `s` is
      unknown. */
  lemma HalfCostAsWrittenUnknown(setup: WeekSetup, i: int, s: Section)
    ensures HalfCost(setup, false)(i, s).None?
  {
    var cfg := HalfConfigAsWritten(setup.full, s, setup.afternoonArrival, setup.afternoonStart);
    HalfDayAsWrittenAlwaysFails(setup.full, s, setup.afternoonArrival, setup.afternoonStart,
                                DayNow(setup.now, i), setup.routes(i));
    assert HalfMinutes(setup, false, i, s) == CommuteMinutes(cfg, DayNow(setup.now, i), setup.routes(i));
    assert HalfCost(setup, false)(i, s) == HalfMinutes(setup, false, i, s);
  }

  /** As written, every half-day cost is unknown. */
  lemma HalfCostsAsWrittenUnknown(setup: WeekSetup)
    ensures forall i, s :: HalfCost(setup, false)(i, s).None?
  {
    forall i, s
      ensures HalfCost(setup, false)(i, s).None?
    {
      HalfCostAsWrittenUnknown(setup, i, s);
    }
  }

  /** As written, the cap pass never turns an HO-AM or HO-PM day back
      into an office day, whatever the target. */
  lemma CapAsWrittenKeepsHalfDays(blocks: seq<Block>, target: int, setup: WeekSetup)
    requires |blocks| >= 5
    ensures forall i :: 0 <= i < 5 && (blocks[i] == HomeAm || blocks[i] == HomePm) ==>
      Capped(blocks, target, FullCost(setup), HalfCost(setup, false)).0[i] == blocks[i]
  {
    HalfCostsAsWrittenUnknown(setup);
    CapKeepsHalfDaysWithoutHalfCosts(blocks, target, FullCost(setup), HalfCost(setup, false));
  }

  /** As written, an HO-AM or HO-PM day from today on never gets a plan:
      it is rendered `ERROR-HO-AM` or `ERROR-HO-PM`. */
  lemma HalfDaysAsWrittenFail(setup: WeekSetup, i: int, b: Block)
    requires i >= Today(setup.now) && (b == HomeAm || b == HomePm)
    ensures RenderDay(setup, false, i, b).mode == "ERROR-" + b.Name()
    ensures RenderDay(setup, false, i, b).plan.None?
    ensures RenderDay(setup, false, i, b).error.Some?
  {
    HalfDayAsWrittenAlwaysFails(setup.full, OfficeSection(b), setup.afternoonArrival, setup.afternoonStart,
                                DayNow(setup.now, i), setup.routes(i));
  }

  /** With the corrected parameters an HO-AM or HO-PM day that gets a plan
      takes no lunch: the return leg leaves four hours after the arrival,
      and the plan is missing only when the outbound scan fails or that
      one return query has no answer. */
  lemma HalfDaysCorrectedTakeNoLunch(setup: WeekSetup, i: int, b: Block)
    requires i >= Today(setup.now) && (b == HomeAm || b == HomePm)
    ensures var e := RenderDay(setup, true, i, b);
      var cfg := HalfSetting(setup, OfficeSection(b), true);
      var m := MorningPlan(cfg, DayNow(setup.now, i), setup.routes(i).toWork);
      (e.plan.None? <==> m.Err? || setup.routes(i).toHome(m.value.arrival + 240.0).None?) &&
      (e.plan.Some? ==>
         e.mode == b.Name() && e.plan.value.inbound.lunch == 0 &&
         e.plan.value.inbound.departure == e.plan.value.outbound.arrival + 240.0)
  {
    HalfDayTakesNoLunch(setup.full, OfficeSection(b), setup.afternoonArrival, setup.afternoonStart,
                        DayNow(setup.now, i), setup.routes(i));
  }

  /** The planned week keeps to the home-office target unless the cap pass
      ran out of candidates: either its home hours are within the target,
      or every day the cap pass could flip is an office day. The home hours
      are computed over the first five blocks, as the source does. */
  lemma WeekMeetsTarget(given: Option<seq<string>>, percent: int, setup: WeekSetup, corrected: bool)
    ensures var target := HoTarget(percent);
      var converted := Converted(Padded(given), target, FullCost(setup));
      var week := WeekBlocks(given, percent, setup, corrected);
      HomeHours(week, 5) <= target ||
      forall i :: 0 <= i < 5 && HasDay(CapCandidates(converted, FullCost(setup), HalfCost(setup, corrected), 5), i) ==>
        week[i] == Office
  {
    var target := HoTarget(percent);
    var converted := Converted(Padded(given), target, FullCost(setup));
    CappedHoursAreHomeHours(converted, target, FullCost(setup), HalfCost(setup, corrected));
    CapFlipsOnlyHomeDays(converted, target, FullCost(setup), HalfCost(setup, corrected));
  }
}
