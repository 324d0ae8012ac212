# Commute planner (pendelplaner) in Dafny

This project models the planning core of `pendelplaner.py`, a commute planner. The planner asks a routing service for drive times and picks departures:

- **Morning scan.** It walks a grid of departure times between the morning window start and the latest arrival. It keeps the on-time departure with the shortest drive.
- **Evening sweep.** It tries the lunch lengths of a configured range and keeps the return departure with the shortest drive home.
- **Stay-longer search.** It walks later return departures. It keeps the largest saving and stops at a cutoff time, at a target saving, or after a streak of worse answers.
- **Whole-day re-optimizer.** It shifts the morning departure by up to an hour and re-plans the evening. It keeps the cheapest total, and reports it only when it beats the baseline.
- **Half-day wrapper.** It runs the morning scan and then the evening sweep under one set of parameters.
- **Weekly planner.** It pads the five weekday blocks. It converts the costliest office days to home-office days up to the home-office target. It flips the cheapest home days back while the target is exceeded. It then plans each day, or marks it as past, home, off or failed.
- **Slot mapping.** It turns the per-half-day settings `MO_AM` … `FR_PM` into the five weekday blocks.
- **Small helpers.** `parse_bool` and the duration formatter `fmt_dur_hm`.

**Oracle.** The routing service is a parameter: an `Oracle` is a function from a departure (in minutes since the day's local midnight) to `Option<real>` drive minutes. `None` stands for a routing call that raises.

**Time.** The current time is a parameter too. The week starts at the local midnight of its first day, and day `i` sees the current time as `now - 1440*i`. Durations are exact `real` minutes.

**Specifications and loops.** Each search is specified twice:
- a function over the whole grid (`MorningPlan`, `EveningPlan`, `ExtensionPlan`, `DayPlan`, `WeekPlan`);
- a method with the source's loop (`ScanMorning`, `ChooseEvening`, `SuggestExtension`, `OptimizeDay`, `WeeklyPlan`), proved equal to that function.

The lemmas then state what the source promises about each function.

Modules, in dependency order:

| Module | Contents |
|---|---|
| `Wrappers` | `Option` and `Result` |
| `Text` | `strip`, ASCII case mapping, `parse_bool`, `fmt_dur_hm` |
| `PlanTypes` | Configurations, the oracle, legs, errors |
| `Selection` | Python `range` and the first-minimum selection the scans share |
| `Morning` | The morning scan |
| `Evening` | The evening sweep |
| `Extension` | The stay-longer search |
| `DayOptimizer` | The whole-day re-optimizer |
| `HalfDay` | The half-day wrapper |
| `Slots` | The slot mapping |
| `Ranking` | The stable sort behind both weekly passes |
| `WeeklyPasses` | Padding, the conversion pass and the cap pass |
| `Weekly` | The weekly planner |

## Model

| member | source | states |
|---|---|---|
| Text.ParseBoolReading | pendelplaner.py:113-117 | Any true word, in any ASCII letter case and padded with white space (the full `str.isspace` set, U+00A0 and U+3000 included), reads as true. A present value never falls back to the default. |
| Text.ParseBoolTrueWord | pendelplaner.py:113-117 | Conversely, a present value reads as true only if it is a true word in some ASCII letter case between white space on both sides; together with `ParseBoolReading` this is an if-and-only-if. |
| Text.NoBreakSpaceTrue | pendelplaner.py:116-117 | `"\u00a0true"` reads as true: a no-break space is stripped like any other white space. |
| Text.StripPadded | pendelplaner.py:116 | `strip` removes exactly the white space around a middle that has no white space at its ends, white space being every character `str.isspace` accepts (ASCII and Unicode). |
| Text.StripParts | pendelplaner.py:116 | Every string is its stripped middle between two runs of white space. |
| Text.SplitHm | pendelplaner.py:144-150 | For `m == h*60 + r` with `0 <= r < 60`, the text shown is `"{h}h {r}min"` when `h > 0` and `"{r}min"` otherwise. |
| Text.FmtDurHmRoundTrip | pendelplaner.py:144-150 | The text `"{h}h {r}min"` / `"{r}min"` for a non-negative duration reads back as the same minutes. |
| Text.FmtDurHmNegative | pendelplaner.py:144-150 | A negative duration is shown as its non-negative remainder modulo 60 only. |
| Text.DecimalRoundTrip | pendelplaner.py:148-150 | The decimal rendering of a natural number reads back as that number. |
| PlanTypes.Truncate | pendelplaner.py:615 | Python's `int(x)`: rounds toward zero, staying within one of `x`. |
| Selection.PyRangeMembers | pendelplaner.py:630 | A value is in `range(start, stop, step)` iff it is `start + k*step` for some `k >= 0` and lies before `stop`. |
| Selection.PyRangeCount | pendelplaner.py:630 | `range(start, last+1, step)` has `(last-start)//step + 1` values when `start <= last`, and none otherwise. |
| Selection.FirstMinCorrect | pendelplaner.py:573-577 | The strict-less running minimum is absent iff no candidate is present. Otherwise it is present, no greater than every present candidate, and strictly less than every earlier one. |
| Morning.ScanMorning | pendelplaner.py:518-602 | The scan loop returns exactly the grid-wide morning plan. |
| Morning.MorningLegIsTimely | pendelplaner.py:556-585 | A returned departure is strictly after now and equals `start + k*step` within `[start, deadline]`. Its drive is the oracle's answer for it, and it arrives by the deadline. |
| Morning.MorningLegIsEarliestShortest | pendelplaner.py:573-577 | The returned drive is no longer than that of any timely grid departure. Every earlier timely departure has a strictly longer drive. |
| Morning.MorningFailures | pendelplaner.py:542-594 | The scan fails with "arrival in the past" iff the deadline is at or before now. It fails at all iff that happens or no grid departure is timely. A reported oracle error means some asked departure was unanswered. |
| Morning.ConstantDriveTakesWindowStart | pendelplaner.py:556-577 | With the same drive for every departure and a future, timely window start, the scan picks the window start; later equal drives never replace it. |
| Evening.ChooseEvening | pendelplaner.py:604-657 | The sweep loop returns exactly the evening plan. |
| Evening.LunchLengthsEvaluated | pendelplaner.py:630-631 | For a positive step, the sweep evaluates `(lunch_max-lunch_min)//lunch_step + 1` lunch lengths (none when `lunch_min > lunch_max`), the k-th being `lunch_min + k*lunch_step`. |
| Evening.EveningLegIsShortest | pendelplaner.py:615-642 | A returned leg has a lunch length from the range and leaves at `arrival + int(work_hours*60) + L`. Its drive is the oracle's answer and no longer than any answered lunch length. For a positive step, every smaller answered lunch length is strictly longer. |
| Evening.EveningFailures | pendelplaner.py:630-648 | A zero lunch step fails before any call. Otherwise the sweep fails iff every evaluated lunch length was unanswered. It reports an oracle error iff the range was non-empty. |
| Extension.SuggestExtension | pendelplaner.py:152-198 | The stay-longer loop returns exactly the suggestion of the walk. |
| Extension.WalkGrid | pendelplaner.py:163-171 | Walking from extension `e`, the k-th evaluated extension is `e + k*step` (the search starts at `e = step`). No evaluated departure is past the latest local time. |
| Extension.WalkNoEarlyStop | pendelplaner.py:172-197 | Before its last step the walk is below the target saving, and its worse streak is below the limit. |
| Extension.WalkEnd | pendelplaner.py:166-197 | The walk ends at the cutoff, at a saving reaching the target, or when the worse streak reaches its limit. Failures and non-improvements add one to the streak; an improvement resets it. |
| Extension.ExtensionNoneIffNoImprovement | pendelplaner.py:180-198 | There is no suggestion iff no evaluated departure saves more than half a minute. |
| Extension.ExtensionIsBestImprovement | pendelplaner.py:180-190 | A suggestion saves more than 0.5 minutes. Its `extend_minutes` is `k*step` with `k >= 1`, it leaves at baseline plus that, and it is not past the cutoff. Its saving is the largest among evaluated departures, and no earlier one saves as much. |
| Extension.GreedyStopEndsWalk | pendelplaner.py:191-192 | Once a saving reaches the target, no later departure is evaluated. |
| Extension.ChooseEveningWithExtension | pendelplaner.py:659-684 | The wrapper returns exactly the evening plan with the suggestion attached. |
| Extension.ExtendedOnlyAtTarget | pendelplaner.py:675-683 | An extended option is attached iff the suggestion exists with `save >= target`. It then keeps the base lunch and leaves `extend_minutes` after the base departure, the last extension walked. It saves more than 0.5 minutes and exactly `base - extended` drive minutes. |
| DayOptimizer.TryOffsets | pendelplaner.py:705-730 | The offset loop returns exactly the best-offset choice over the probes. |
| DayOptimizer.OptimizeDay | pendelplaner.py:686-733 | The optimizer method returns exactly the specified day plan. |
| DayOptimizer.BestOffsetFails | pendelplaner.py:705-716 | The offset loop raises iff some answered offset before any late arrival has an evening plan that raises. The error is that plan's error. |
| DayOptimizer.BestOffsetIsCheapest | pendelplaner.py:705-730 | The chosen day is feasible: its offset is on the grid `0..60` in steps, its drive is the oracle's, it arrives by the deadline, and it adds the evening drive that counts. Its total is no greater than that of any answered offset before the loop stops. |
| DayOptimizer.ImproveBeatsBaseline | pendelplaner.py:731-733 | A reported improvement has a total more than 0.1 minutes below the baseline total. |
| DayOptimizer.DayPlanImproves | pendelplaner.py:686-733 | A reported day follows a successful baseline morning and evening, and totals more than 0.1 minutes below the baseline. It leaves after now, and it is feasible from the baseline departure. |
| DayOptimizer.DayPlanNoImprovement | pendelplaner.py:698-733 | Once the baseline and the offset loop succeed, there is no result iff the best total does not beat the baseline by more than 0.1. The baseline itself is always a candidate, so an attached extension with a target above 0.1 always gives a result. |
| HalfDay.PlanHalfDay | pendelplaner.py:242-293 | The wrapper is the morning scan with the given configuration, then the evening sweep from its arrival. The first failure is the result. |
| HalfDay.HalfDayChainsLegs | pendelplaner.py:282-284 | The wrapper fails iff the morning scan or the evening sweep from its arrival fails. Its outbound leg leaves after now and arrives by the deadline. Its return takes a lunch from the range, leaves at arrival plus work and lunch, and drives as the oracle says. |
| HalfDay.HalfDayAsWrittenAlwaysFails | pendelplaner.py:359-371 | With the weekly half-day parameters as written (`lunch_step=0`), every half-day plan fails. |
| HalfDay.HalfDayTakesNoLunch | pendelplaner.py:359-371 | With lunch step 1, a half-day plan takes no lunch: its return leaves four hours after the arrival. |
| Slots.BuildBlocksShape | pendelplaner.py:482-516 | The result is empty iff no slot key holds a recognised value. Otherwise it has 5 blocks from {OFFICE, HO-PM, HO-AM, HO, OFF}, each made from that day's two settings. |
| Slots.CombineSlotsCases | pendelplaner.py:497-507 | Off with off, home or unset gives OFF. Office in both halves gives OFFICE. Office in one half only gives the half-day block with the office in that half. |
| Slots.CombineSlotsRespectsHalves | pendelplaner.py:497-515 | With the fix, a half set to office is in the office and a half set to home or off is not. Swapping the halves mirrors the block. |
| Slots.CombineSlotsDiffers | pendelplaner.py:507-511 | The corrected mapping differs from the one as written exactly for home plus unset. |
| Slots.CombineSlotsAsWrittenMisplacesHome | pendelplaner.py:507-511 | As written, a home half next to an unset half is planned in the office. |
| Slots.HomeMorningSlots | pendelplaner.py:470-480 | `MO_AM=home` with `MO_PM` unset normalises to a home morning and an unset afternoon. |
| Slots.BlockOfDay | pendelplaner.py:490-516 | Once any slot of the week is set, every weekday's block is the mapping of that day's two slots, and a weekday with neither slot set is `HO` (the default at lines 514-515). |
| Ranking.RankedIsStableSort | pendelplaner.py:340 | The ranking is a permutation of the candidates with no pair out of order, equal costs keeping day order. It is the only such arrangement, so it is Python's stable `sort`. |
| Ranking.RankedSorted | pendelplaner.py:401 | The ranked costs are non-increasing with `reverse=True` and non-decreasing otherwise. |
| WeeklyPasses.PadBlocks | pendelplaner.py:305-308 | The padding loop returns the padded blocks. |
| WeeklyPasses.PaddedShape | pendelplaner.py:305-308 | The padded blocks have the given length, or five when fewer. Each given block is kept after normalising, and each padding block is OPEN. With no blocks given, the week is five OPEN days. |
| WeeklyPasses.MissingBlocksAreOpen | pendelplaner.py:305-308 | No blocks at all, or an empty list, gives five OPEN days. |
| WeeklyPasses.BlockNameRoundTrip | pendelplaner.py:335 | Every block's name reads back as the same block, where an unknown name is kept verbatim. |
| WeeklyPasses.RoundedHours | pendelplaner.py:330 | The hours target is within half an hour of `percent/100*40`. |
| WeeklyPasses.HoTarget | pendelplaner.py:330-331 | The target is clamped to `0..16`. |
| WeeklyPasses.ConversionCandidates | pendelplaner.py:333-339 | Candidates come in day order. Each is an OPEN or OFFICE day with a known cost, and every such day is a candidate. |
| WeeklyPasses.ConversionRankingFacts | pendelplaner.py:340 | The ranked candidates are convertible days with distinct days and non-increasing costs. |
| WeeklyPasses.ConvertOpenDays | pendelplaner.py:332-349 | The conversion loop returns the converted blocks. |
| WeeklyPasses.ConversionPicksCostliest | pendelplaner.py:341-349 | The first `target//8` ranked days become HO. The next one becomes HO-AM when `target%8 >= 4`. Every other day is unchanged. |
| WeeklyPasses.ConversionChangesOnlyOpenDays | pendelplaner.py:332-349 | The conversion pass keeps the length. It changes only OPEN or OFFICE days among the first five with a known cost, and only to HO or HO-AM. A zero target changes nothing. |
| WeeklyPasses.HomeHoursUpdate | pendelplaner.py:376-381 | The home hours count 8 per HO day and 4 per HO-AM or HO-PM day, so changing one day's block changes them by the difference of the two blocks' hours. |
| WeeklyPasses.CountHomeHours | pendelplaner.py:376-381 | The counting loop returns the home hours. |
| WeeklyPasses.CapCandidateOf | pendelplaner.py:385-400 | A day's candidate is an HO, HO-AM or HO-PM day carrying that block's hours, with a known full cost and, for a half day, a known cost of its office half. A day without one is not such a day or lacks one of these costs. |
| WeeklyPasses.CapHomeHours | pendelplaner.py:353-409 | The cap loop returns the capped blocks and hours. |
| WeeklyPasses.CapFlipsOnlyHomeDays | pendelplaner.py:382-409 | Within target nothing changes. Otherwise the pass flips only HO-family days, to OFFICE. If the hours stay over target, every candidate day is OFFICE. |
| WeeklyPasses.CapChangesOnlyHomeDays | pendelplaner.py:403-408 | A day the cap pass changes is an HO, HO-AM or HO-PM day among the first five, and it becomes OFFICE. |
| WeeklyPasses.CapOverTargetFlipsAll | pendelplaner.py:403-408 | A cap pass that ends over the target has made every candidate day OFFICE. |
| WeeklyPasses.CapFlipsCheapestFirst | pendelplaner.py:401-408 | Exactly a prefix of the ranked candidates is flipped, each while the hours were still over target. No flipped day costs more than an unflipped one. The hours drop by exactly the flipped hours. |
| WeeklyPasses.CappedHoursAreHomeHours | pendelplaner.py:376-408 | The hours the cap pass ends with are the home hours of the blocks it returns. |
| WeeklyPasses.CapKeepsHalfDaysWithoutHalfCosts | pendelplaner.py:391-400 | When no half-day cost is known, HO-AM and HO-PM days are never flipped. |
| Weekly.RenderWeek | pendelplaner.py:411-468 | The render loop returns the five specified entries. |
| Weekly.WeeklyPlan | pendelplaner.py:295-468 | The padding, conversion, cap and render steps return the specified week. |
| Weekly.WeekEntries | pendelplaner.py:411-468 | The week has five entries in day order, each made from its own day's block, so a failing day does not stop later days. Past days are `PAST-<block>`. HO and OFF days are their name, with no plan and no error. No entry has both a plan and an error. |
| Weekly.OfficeDayModes | pendelplaner.py:451-467 | A non-past OPEN, OFFICE or unknown block is `OFFICE` with the full-day plan iff that plan succeeds, and otherwise `ERROR-<block>` with its error. |
| Weekly.PlannedDaysAreTimely | pendelplaner.py:420-464 | A planned day leaves after its current time and arrives by its block's latest arrival (the afternoon arrival for HO-AM). It returns after work and lunch. Full office days use the full configuration. |
| Weekly.HalfCostsAsWrittenUnknown | pendelplaner.py:359-374 | As written, every half-day cost is unknown. |
| Weekly.CapAsWrittenKeepsHalfDays | pendelplaner.py:391-400 | As written, the cap pass never flips an HO-AM or HO-PM day. |
| Weekly.HalfDaysAsWrittenFail | pendelplaner.py:423-450 | As written, every non-past HO-AM or HO-PM day is rendered `ERROR-<block>` with an error and no plan. |
| Weekly.HalfDaysCorrectedTakeNoLunch | pendelplaner.py:423-450 | With lunch step 1, a half day is planned iff its morning scan succeeds and the one return query four hours after arrival is answered. It is then labelled with its block and takes no lunch. |
| Weekly.WeekMeetsTarget | pendelplaner.py:376-409 | The planned week's home hours are within the target, unless every day the cap pass could flip is already OFFICE. |

## Left out

- The routing call (`compute_drive_duration_minutes`, `requests.post`, the URL and headers) is network I/O. It is the `Oracle` parameter; a raised exception is `None`.
- `parse_duration_to_minutes` is not part of this model; the oracle yields minutes directly.
- Configuration loading is environment plumbing and is not modelled: the `.env` file, the module-level `int(...)`/`float(...)` parsing with fallbacks, and `ensure_api_key_configured`. Configurations arrive as `PlanConfig`/`ExtendConfig` values, and the slot settings as a `map<string, string>`.
- Logging and all `logger` calls are not modelled.
- `main`, the printed report, `fmt_hhmm`, `to_rfc3339_local` and the `fmt` closures are terminal output only and are not modelled. `fmt_minutes` rounds floats, so only the integer part of `fmt_dur_hm` is modelled (`Text.FmtDurHm` takes the already rounded minutes).
- Text.Lower, Text.Upper: the case mapping is ASCII only, while Python's `lower`/`upper` map every Unicode letter (the Kelvin sign U+212A lowers to `k`, the ligature `ﬀ` uppers to `FF`). White space, by contrast, is Python's full `str.isspace` set.
- Text.ParseBool: reads through the ASCII case mapping. A value whose true word needs a non-ASCII case mapping would differ. However, the only non-ASCII character Python lowers to an ASCII letter is the Kelvin sign (to `k`), and no true word contains a `k`, so the words read as true are the same.
- Slots.NormalizeSlot: likewise, a setting such as `"WOR\u212A"` is `office` in the source and unset here.
- WeeklyPasses.NormalizeBlock: likewise, a block such as `"oﬀ"` uppercases to `OFF` in the source and stays an unknown block (planned as an office day) here.
- Time zones, daylight saving and `datetime.now` are not modelled. Times are minutes since the first day's local midnight, "now" is a parameter, and days are 1440 minutes.
- Extension.PastLatest: the cutoff compares the departure's hour and minute. The model counts minutes from midnight without wrapping, so a walk past midnight is stopped here, whereas the source would let it run on.
- Oracle error messages are reduced to whether one occurred: `PlanError.NoTimelyDeparture(oracleFailed)` and `NoReturnTrip(oracleFailed)`. The exception text becomes the `PlanError` value in a weekly entry.
- The morning scan's step is a positive `Step`. For a step of zero or less the source's `while` loop at lines 556-585 never ends, and the re-optimizer's `range(0, 61, step)` would reject a zero step.
- Extension.SuggestExtension: the extension step is a positive `Step`. For a step of 0 the source's walk does end: it asks the baseline departure again and again, each answer saves 0 minutes, so the worse streak reaches its limit and the result is `None`. A negative step walks to earlier departures. Neither case is modelled.
- `plan_halfday_commute` saves and restores module globals. This is modelled as passing one immutable `PlanConfig`. Its `section` argument is only checked, so it is unused.
- Python floats are modelled as exact `real` values, so float rounding error is not modelled. The home-office percent is a whole number, and `round(percent/100*40)` never meets a tie for whole percents, so `WeeklyPasses.RoundedHours` is the nearest integer.
- Blocks past the fifth are padded and kept but never read, as in the source.

Where the code and its documentation disagree, the model follows the code:
- OFFICE days are conversion candidates as well as OPEN days.
- The test at line 349 that keeps an HO day HO cannot fire after line 345, because the half day taken is never among the full days.
- `ho_hours_target >= 0` at line 354 always holds after the clamp, so the cap pass always runs.
- The whole-day re-optimizer's baseline total uses the evening leg before extension.
- The re-optimizer does not skip offsets in the past or before the window start.
- The source has no route cache, call budget or timebank search, and neither does the model.

## Findings

| source | as written | input that shows it | evidently intended | confidence | as-written member | corrected member |
|---|---|---|---|---|---|---|
| pendelplaner.py:359-375 | The HO-AM/HO-PM cost helper and the renderer (lines 423-450) call `plan_halfday_commute` with `lunch_min=0, lunch_max=0, lunch_step=0`, so the evening sweep's `range(0, 1, 0)` raises. | Any week with an HO-AM or HO-PM day, e.g. `ho_percent=10` (target 4 hours) with five OPEN days: the costliest day becomes HO-AM and is rendered `ERROR-HO-AM`. The cap pass can never flip a half day. | A half day with no lunch: `range(0, 1, 1)`, i.e. one return query four hours after arrival. | not executed | HalfDay.HalfDayAsWrittenAlwaysFails, Weekly.HalfDaysAsWrittenFail, Weekly.CapAsWrittenKeepsHalfDays | HalfDay.HalfDayTakesNoLunch, Weekly.HalfDaysCorrectedTakeNoLunch |
| pendelplaner.py:507-511 | A home half next to an unset half maps to the block of the other half: home morning gives `HO-PM` (office in the morning), and home afternoon gives `HO-AM`. | `MO_AM=home` with `MO_PM` unset: Monday is planned with the office in the morning. | Home morning is `HO-AM` and home afternoon is `HO-PM`, as the comments at lines 503 and 505 and the office-in-one-half branches say. | not executed | Slots.CombineSlotsAsWrittenMisplacesHome, Slots.HomeMorningSlots | Slots.CombineSlotsRespectsHalves |
