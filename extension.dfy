/** The stay-longer search (`suggest_evening_extension`) and the evening
    plan that attaches its result (`choose_best_evening_departure_with_extension`).

    The walk leaves `step`, `2*step`, ... minutes after the baseline return,
    stops once a departure is past the latest local time, once a saving
    reaches the target (greedy), or once the worse streak reaches its
    limit, and keeps the first largest saving above half a minute. */
module Extension {
  import opened Wrappers
  import opened Selection
  import opened PlanTypes
  import opened Evening

  /** The source's `hour > h or (hour == h and minute > m)` on the
      departure's time of day; without wrap-around past midnight. */
  predicate PastLatest(t: real, latest: TimeOfDay)
  {
    var f := t.Floor;
    f / 60 > latest.hour || (f / 60 == latest.hour && f % 60 > latest.minute)
  }

  lemma NotPastBelowHorizon(t: real, latest: TimeOfDay)
    ensures !PastLatest(t, latest) ==> t.Floor < (latest.hour + 1) * 60
  {
    var f := t.Floor;
    assert f == 60 * (f / 60) + f % 60;
  }

  lemma FloorShift(t: real, n: int)
    ensures (t + n as real).Floor == t.Floor + n
  {
  }

  /** A bound on how many minutes the walk can still add before the cutoff. */
  function Horizon(baseDep: real, latest: TimeOfDay): int
  {
    (latest.hour + 1) * 60 - baseDep.Floor
  }

  /** The drive home `extra` minutes after the baseline, when it saves more
      than half a minute over the baseline drive. */
  function ImprovingDuration(baseDep: real, baseDur: real, toHome: Oracle, extra: int): Option<real>
  {
    var d := toHome(baseDep + extra as real);
    if d.Some? && baseDur - d.value > 0.5 then d else None
  }

  /** Whether the walk stops right after evaluating `extra`, the worse streak
      then being `streak`: a saving at the target, or a streak at its limit. */
  predicate StopsAfter(baseDep: real, baseDur: real, cfg: ExtendConfig, toHome: Oracle, extra: int, streak: int)
  {
    var imp := ImprovingDuration(baseDep, baseDur, toHome, extra);
    if imp.Some? then baseDur - imp.value >= cfg.targetSave else streak >= cfg.worseSteps
  }

  /** The worse streak after evaluating `extras` from `streak`: every failed
      or non-improving call adds one, an improvement resets it to zero. */
  function Streak(baseDep: real, baseDur: real, toHome: Oracle, streak: int, extras: seq<int>): int
    decreases |extras|
  {
    if extras == [] then streak
    else
      var next := if ImprovingDuration(baseDep, baseDur, toHome, extras[0]).Some? then 0 else streak + 1;
      Streak(baseDep, baseDur, toHome, next, extras[1..])
  }

  /** The extra minutes the walk evaluates, from `extra` with the worse
      streak at `streak`. */
  function Walk(baseDep: real, baseDur: real, cfg: ExtendConfig, toHome: Oracle, extra: int, streak: int): seq<int>
    decreases Horizon(baseDep, cfg.latest) - extra
  {
    var depart := baseDep + extra as real;
    if PastLatest(depart, cfg.latest) then []
    else
      NotPastBelowHorizon(depart, cfg.latest);
      FloorShift(baseDep, extra);
      var next := if ImprovingDuration(baseDep, baseDur, toHome, extra).Some? then 0 else streak + 1;
      if StopsAfter(baseDep, baseDur, cfg, toHome, extra, next) then [extra]
      else [extra] + Walk(baseDep, baseDur, cfg, toHome, extra + cfg.step, next)
  }

  /** The streak after evaluating `extra` from `streak`. */
  function NextStreak(baseDep: real, baseDur: real, toHome: Oracle, extra: int, streak: int): int
  {
    if ImprovingDuration(baseDep, baseDur, toHome, extra).Some? then 0 else streak + 1
  }

  lemma WalkStep(baseDep: real, baseDur: real, cfg: ExtendConfig, toHome: Oracle, extra: int, streak: int)
    ensures PastLatest(baseDep + extra as real, cfg.latest) ==> Walk(baseDep, baseDur, cfg, toHome, extra, streak) == []
    ensures !PastLatest(baseDep + extra as real, cfg.latest) ==>
      var w := Walk(baseDep, baseDur, cfg, toHome, extra, streak);
      var next := NextStreak(baseDep, baseDur, toHome, extra, streak);
      |w| > 0 && w[0] == extra &&
      (StopsAfter(baseDep, baseDur, cfg, toHome, extra, next) ==> |w| == 1) &&
      (!StopsAfter(baseDep, baseDur, cfg, toHome, extra, next) ==>
         w[1..] == Walk(baseDep, baseDur, cfg, toHome, extra + cfg.step, next))
  {
  }

  function WalkCosts(baseDep: real, baseDur: real, toHome: Oracle, walk: seq<int>): seq<Option<real>>
  {
    seq(|walk|, k requires 0 <= k < |walk| => ImprovingDuration(baseDep, baseDur, toHome, walk[k]))
  }

  datatype Suggestion = Suggestion(departure: real, duration: real, save: real, arrival: real, extendMinutes: int)

  function SuggestionFor(baseDep: real, baseDur: real, extra: int, dur: real): Suggestion
  {
    var dep := baseDep + extra as real;
    Suggestion(dep, dur, baseDur - dur, dep + dur, extra)
  }

  /** The walk from the first step, with the first largest saving kept. */
  function ExtensionPlan(baseDep: real, baseDur: real, cfg: ExtendConfig, toHome: Oracle): Option<Suggestion>
  {
    var walk := Walk(baseDep, baseDur, cfg, toHome, cfg.step, 0);
    var costs := WalkCosts(baseDep, baseDur, toHome, walk);
    match FirstMin(costs)
    case None => None
    case Some(k) => Some(SuggestionFor(baseDep, baseDur, walk[k], costs[k].value))
  }

  function SuggestionAt(baseDep: real, baseDur: real, walk: seq<int>, costs: seq<Option<real>>, pick: Option<nat>): Option<Suggestion>
    requires |walk| == |costs|
    requires pick.Some? ==> pick.value < |costs| && costs[pick.value].Some?
  {
    match pick
    case None => None
    case Some(k) => Some(SuggestionFor(baseDep, baseDur, walk[k], costs[k].value))
  }

  /** One evaluation: the best suggestion is replaced only by a strictly
      larger improving saving. */
  lemma SuggestStep(baseDep: real, baseDur: real, walk: seq<int>, costs: seq<Option<real>>, i: nat)
    requires |walk| == |costs| && i < |costs|
    ensures
      var best := SuggestionAt(baseDep, baseDur, walk, costs, FirstMin(costs[..i]));
      SuggestionAt(baseDep, baseDur, walk, costs, FirstMin(costs[..i + 1])) ==
        if costs[i].Some? && (best.None? || baseDur - costs[i].value > best.value.save)
        then Some(SuggestionFor(baseDep, baseDur, walk[i], costs[i].value))
        else best
  {
    FirstMinSnoc(costs, i);
  }

  /** One step of the walk as the loop sees it: the departure at position
      `i` is `extra`, and the rest of the walk continues from the next
      departure unless this one stops it. */
  lemma WalkAdvance(baseDep: real, baseDur: real, cfg: ExtendConfig, toHome: Oracle, walk: seq<int>, i: nat, extra: int, streak: int)
    requires i <= |walk| && walk[i..] == Walk(baseDep, baseDur, cfg, toHome, extra, streak)
    requires !PastLatest(baseDep + extra as real, cfg.latest)
    ensures i < |walk| && walk[i] == extra
    ensures WalkCosts(baseDep, baseDur, toHome, walk)[i] == ImprovingDuration(baseDep, baseDur, toHome, extra)
    ensures
      var next := NextStreak(baseDep, baseDur, toHome, extra, streak);
      if StopsAfter(baseDep, baseDur, cfg, toHome, extra, next) then i + 1 == |walk|
      else walk[i + 1..] == Walk(baseDep, baseDur, cfg, toHome, extra + cfg.step, next) &&
           Horizon(baseDep, cfg.latest) - (extra + cfg.step) < Horizon(baseDep, cfg.latest) - extra
  {
    WalkStep(baseDep, baseDur, cfg, toHome, extra, streak);
    NotPastBelowHorizon(baseDep + extra as real, cfg.latest);
    FloorShift(baseDep, extra);
    assert walk[i] == walk[i..][0];
    var next := NextStreak(baseDep, baseDur, toHome, extra, streak);
    if !StopsAfter(baseDep, baseDur, cfg, toHome, extra, next) {
      assert walk[i + 1..] == walk[i..][1..];
    }
  }

  /** The source's loop as a recursion on its variables `extra`,
      `worse_streak` and `best`. */
  function Search(baseDep: real, baseDur: real, cfg: ExtendConfig, toHome: Oracle, extra: int, streak: int,
                  best: Option<Suggestion>): Option<Suggestion>
    decreases Horizon(baseDep, cfg.latest) - extra
  {
    var depart := baseDep + extra as real;
    if PastLatest(depart, cfg.latest) then best
    else
      NotPastBelowHorizon(depart, cfg.latest);
      FloorShift(baseDep, extra);
      var d := toHome(depart);
      var improving := d.Some? && baseDur - d.value > 0.5;
      var best' := if improving && (best.None? || baseDur - d.value > best.value.save)
                   then Some(Suggestion(depart, d.value, baseDur - d.value, depart + d.value, extra)) else best;
      var next := if improving then 0 else streak + 1;
      if (improving && baseDur - d.value >= cfg.targetSave) || (!improving && next >= cfg.worseSteps) then best'
      else Search(baseDep, baseDur, cfg, toHome, extra + cfg.step, next, best')
  }

  /** One unfolding of the recursion, in the walk's terms. */
  lemma SearchStep(baseDep: real, baseDur: real, cfg: ExtendConfig, toHome: Oracle, extra: int, streak: int,
                   best: Option<Suggestion>)
    requires !PastLatest(baseDep + extra as real, cfg.latest)
    ensures
      var imp := ImprovingDuration(baseDep, baseDur, toHome, extra);
      var best' := if imp.Some? && (best.None? || baseDur - imp.value > best.value.save)
                   then Some(SuggestionFor(baseDep, baseDur, extra, imp.value)) else best;
      var next := NextStreak(baseDep, baseDur, toHome, extra, streak);
      Search(baseDep, baseDur, cfg, toHome, extra, streak, best) ==
        if StopsAfter(baseDep, baseDur, cfg, toHome, extra, next) then best'
        else Search(baseDep, baseDur, cfg, toHome, extra + cfg.step, next, best')
  {
  }

  /** The recursion above keeps the first largest saving along the walk. */
  lemma {:induction false} SearchFollowsWalk(baseDep: real, baseDur: real, cfg: ExtendConfig, toHome: Oracle,
                                             walk: seq<int>, i: nat, extra: int, streak: int)
    requires i <= |walk| && walk[i..] == Walk(baseDep, baseDur, cfg, toHome, extra, streak)
    ensures
      var costs := WalkCosts(baseDep, baseDur, toHome, walk);
      Search(baseDep, baseDur, cfg, toHome, extra, streak, SuggestionAt(baseDep, baseDur, walk, costs, FirstMin(costs[..i])))
        == SuggestionAt(baseDep, baseDur, walk, costs, FirstMin(costs))
    decreases Horizon(baseDep, cfg.latest) - extra
  {
    var costs := WalkCosts(baseDep, baseDur, toHome, walk);
    if PastLatest(baseDep + extra as real, cfg.latest) {
      WalkStep(baseDep, baseDur, cfg, toHome, extra, streak);
      assert costs[..i] == costs;
    } else {
      WalkAdvance(baseDep, baseDur, cfg, toHome, walk, i, extra, streak);
      SuggestStep(baseDep, baseDur, walk, costs, i);
      SearchStep(baseDep, baseDur, cfg, toHome, extra, streak, SuggestionAt(baseDep, baseDur, walk, costs, FirstMin(costs[..i])));
      var next := NextStreak(baseDep, baseDur, toHome, extra, streak);
      if StopsAfter(baseDep, baseDur, cfg, toHome, extra, next) {
        assert costs[..i + 1] == costs;
      } else {
        SearchFollowsWalk(baseDep, baseDur, cfg, toHome, walk, i + 1, extra + cfg.step, next);
      }
    }
  }

  lemma SearchIsPlan(baseDep: real, baseDur: real, cfg: ExtendConfig, toHome: Oracle)
    ensures Search(baseDep, baseDur, cfg, toHome, cfg.step, 0, None) == ExtensionPlan(baseDep, baseDur, cfg, toHome)
  {
    var walk := Walk(baseDep, baseDur, cfg, toHome, cfg.step, 0);
    SearchFollowsWalk(baseDep, baseDur, cfg, toHome, walk, 0, cfg.step, 0);
  }

  /** The source's `while True` walk with `extra`, `worse_streak` and `best`. */
  method SuggestExtension(baseDep: real, baseDur: real, cfg: ExtendConfig, toHome: Oracle) returns (best: Option<Suggestion>)
    ensures best == ExtensionPlan(baseDep, baseDur, cfg, toHome)
  {
    SearchIsPlan(baseDep, baseDur, cfg, toHome);
    ghost var result := Search(baseDep, baseDur, cfg, toHome, cfg.step, 0, None);
    best := None;
    var worseStreak := 0;
    var extra: int := cfg.step;
    while true
      invariant Search(baseDep, baseDur, cfg, toHome, extra, worseStreak, best) == result
      decreases Horizon(baseDep, cfg.latest) - extra
    {
      var depart := baseDep + extra as real;
      if PastLatest(depart, cfg.latest) {
        break;
      }
      NotPastBelowHorizon(depart, cfg.latest);
      FloorShift(baseDep, extra);
      SearchStep(baseDep, baseDur, cfg, toHome, extra, worseStreak, best);
      var dur := toHome(depart);
      if dur.None? {
        worseStreak := worseStreak + 1;
        if worseStreak >= cfg.worseSteps {
          break;
        }
      } else {
        var save := baseDur - dur.value;
        if save > 0.5 {
          worseStreak := 0;
          if best.None? || save > best.value.save {
            best := Some(Suggestion(depart, dur.value, save, depart + dur.value, extra));
          }
          if save >= cfg.targetSave {
            break;
          }
        } else {
          worseStreak := worseStreak + 1;
          if worseStreak >= cfg.worseSteps {
            break;
          }
        }
      }
      extra := extra + cfg.step;
    }
  }

  /** The walk visits `extra, extra + step, ...` in order, none of them
      past the cutoff. */
  lemma {:induction false} WalkGrid(baseDep: real, baseDur: real, cfg: ExtendConfig, toHome: Oracle, extra: int, streak: int)
    ensures var w := Walk(baseDep, baseDur, cfg, toHome, extra, streak);
      forall k :: 0 <= k < |w| ==> w[k] == extra + k * cfg.step && !PastLatest(baseDep + w[k] as real, cfg.latest)
    decreases Horizon(baseDep, cfg.latest) - extra
  {
    WalkStep(baseDep, baseDur, cfg, toHome, extra, streak);
    var w := Walk(baseDep, baseDur, cfg, toHome, extra, streak);
    var next := NextStreak(baseDep, baseDur, toHome, extra, streak);
    if !PastLatest(baseDep + extra as real, cfg.latest) && !StopsAfter(baseDep, baseDur, cfg, toHome, extra, next) {
      NotPastBelowHorizon(baseDep + extra as real, cfg.latest);
      FloorShift(baseDep, extra);
      var rest := Walk(baseDep, baseDur, cfg, toHome, extra + cfg.step, next);
      WalkGrid(baseDep, baseDur, cfg, toHome, extra + cfg.step, next);
      forall k | 0 < k < |w|
        ensures w[k] == extra + k * cfg.step
      {
        assert w[k] == rest[k - 1];
        assert (k - 1) * cfg.step + cfg.step == k * cfg.step;
      }
    }
  }

  /** The walk never stops before its last departure. */
  lemma {:induction false} WalkNoEarlyStop(baseDep: real, baseDur: real, cfg: ExtendConfig, toHome: Oracle, extra: int, streak: int)
    ensures var w := Walk(baseDep, baseDur, cfg, toHome, extra, streak);
      forall k :: 0 <= k < |w| - 1 ==>
        !StopsAfter(baseDep, baseDur, cfg, toHome, w[k], Streak(baseDep, baseDur, toHome, streak, w[..k + 1]))
    decreases Horizon(baseDep, cfg.latest) - extra
  {
    WalkStep(baseDep, baseDur, cfg, toHome, extra, streak);
    var w := Walk(baseDep, baseDur, cfg, toHome, extra, streak);
    var next := NextStreak(baseDep, baseDur, toHome, extra, streak);
    if !PastLatest(baseDep + extra as real, cfg.latest) && !StopsAfter(baseDep, baseDur, cfg, toHome, extra, next) {
      NotPastBelowHorizon(baseDep + extra as real, cfg.latest);
      FloorShift(baseDep, extra);
      var rest := Walk(baseDep, baseDur, cfg, toHome, extra + cfg.step, next);
      WalkNoEarlyStop(baseDep, baseDur, cfg, toHome, extra + cfg.step, next);
      forall k | 0 <= k < |w| - 1
        ensures !StopsAfter(baseDep, baseDur, cfg, toHome, w[k], Streak(baseDep, baseDur, toHome, streak, w[..k + 1]))
      {
        assert Streak(baseDep, baseDur, toHome, streak, [extra]) == next;
        if k > 0 {
          assert w[..k + 1] == [extra] + rest[..k];
          assert w[k] == rest[k - 1];
        }
      }
    }
  }

  /** Why a walk `w` from `extra` with the streak at `streak` ended: its next
      departure is past the cutoff, or its last departure reached the target
      or brought the streak to its limit. */
  predicate Ended(baseDep: real, baseDur: real, cfg: ExtendConfig, toHome: Oracle, extra: int, streak: int, w: seq<int>)
  {
    if |w| == 0 then PastLatest(baseDep + extra as real, cfg.latest)
    else StopsAfter(baseDep, baseDur, cfg, toHome, w[|w| - 1], Streak(baseDep, baseDur, toHome, streak, w)) ||
         PastLatest(baseDep + (extra + |w| * cfg.step) as real, cfg.latest)
  }

  /** The end reason carries over to a walk one departure longer in front. */
  lemma EndedCons(baseDep: real, baseDur: real, cfg: ExtendConfig, toHome: Oracle, extra: int, streak: int, rest: seq<int>)
    requires !PastLatest(baseDep + extra as real, cfg.latest)
    requires Ended(baseDep, baseDur, cfg, toHome, extra + cfg.step, NextStreak(baseDep, baseDur, toHome, extra, streak), rest)
    ensures Ended(baseDep, baseDur, cfg, toHome, extra, streak, [extra] + rest)
  {
    var w := [extra] + rest;
    var next := NextStreak(baseDep, baseDur, toHome, extra, streak);
    assert w[1..] == rest;
    assert Streak(baseDep, baseDur, toHome, streak, w) == Streak(baseDep, baseDur, toHome, next, rest);
    MulSucc(|rest|, cfg.step);
    if |rest| > 0 { assert w[|w| - 1] == rest[|rest| - 1]; }
  }

  lemma {:induction false} WalkEnd(baseDep: real, baseDur: real, cfg: ExtendConfig, toHome: Oracle, extra: int, streak: int)
    ensures Ended(baseDep, baseDur, cfg, toHome, extra, streak, Walk(baseDep, baseDur, cfg, toHome, extra, streak))
    decreases Horizon(baseDep, cfg.latest) - extra
  {
    WalkStep(baseDep, baseDur, cfg, toHome, extra, streak);
    var next := NextStreak(baseDep, baseDur, toHome, extra, streak);
    if !PastLatest(baseDep + extra as real, cfg.latest) {
      if StopsAfter(baseDep, baseDur, cfg, toHome, extra, next) {
        assert Streak(baseDep, baseDur, toHome, streak, [extra]) == next;
      } else {
        NotPastBelowHorizon(baseDep + extra as real, cfg.latest);
        FloorShift(baseDep, extra);
        var rest := Walk(baseDep, baseDur, cfg, toHome, extra + cfg.step, next);
        WalkEnd(baseDep, baseDur, cfg, toHome, extra + cfg.step, next);
        EndedCons(baseDep, baseDur, cfg, toHome, extra, streak, rest);
      }
    }
  }

  /** A departure earlier in time comes earlier in the walk. */
  lemma WalkIndexOrder(baseDep: real, baseDur: real, cfg: ExtendConfig, toHome: Oracle, j: int, k: int)
    requires var w := Walk(baseDep, baseDur, cfg, toHome, cfg.step, 0);
      0 <= j < |w| && 0 <= k < |w| && w[j] < w[k]
    ensures j < k
  {
    WalkGrid(baseDep, baseDur, cfg, toHome, cfg.step, 0);
    MulMono(k, j, cfg.step);
  }

  /** The picked position's drive is no longer than any other improving
      one, and strictly shorter than those earlier in time. */
  lemma WalkPickDominates(baseDep: real, baseDur: real, cfg: ExtendConfig, toHome: Oracle, k: int, j: int)
    requires var walk := Walk(baseDep, baseDur, cfg, toHome, cfg.step, 0);
      IsFirstMin(WalkCosts(baseDep, baseDur, toHome, walk), k) && 0 <= j < |walk|
    ensures var walk := Walk(baseDep, baseDur, cfg, toHome, cfg.step, 0);
      var costs := WalkCosts(baseDep, baseDur, toHome, walk);
      costs[j] == ImprovingDuration(baseDep, baseDur, toHome, walk[j]) &&
      (costs[j].Some? ==> costs[k].value <= costs[j].value) &&
      (costs[j].Some? && walk[j] < walk[k] ==> costs[k].value < costs[j].value)
  {
    var walk := Walk(baseDep, baseDur, cfg, toHome, cfg.step, 0);
    if walk[j] < walk[k] {
      WalkIndexOrder(baseDep, baseDur, cfg, toHome, j, k);
    }
  }

  /** There is no suggestion exactly when no departure the walk evaluated
      improved on the baseline by more than half a minute. */
  lemma ExtensionNoneIffNoImprovement(baseDep: real, baseDur: real, cfg: ExtendConfig, toHome: Oracle)
    ensures var walk := Walk(baseDep, baseDur, cfg, toHome, cfg.step, 0);
      ExtensionPlan(baseDep, baseDur, cfg, toHome).None? <==>
        forall e :: e in walk ==> ImprovingDuration(baseDep, baseDur, toHome, e).None?
  {
    var walk := Walk(baseDep, baseDur, cfg, toHome, cfg.step, 0);
    var costs := WalkCosts(baseDep, baseDur, toHome, walk);
    FirstMinCorrect(costs);
    if forall e :: e in walk ==> ImprovingDuration(baseDep, baseDur, toHome, e).None? {
      forall j | 0 <= j < |costs| ensures costs[j].None? {
        assert walk[j] in walk;
      }
    } else {
      var e :| e in walk && ImprovingDuration(baseDep, baseDur, toHome, e).Some?;
      var j :| 0 <= j < |walk| && walk[j] == e;
      assert costs[j].Some?;
    }
  }

  /** Any suggestion saves more than half a minute, leaves `k*step` minutes
      after the baseline for some k >= 1 within the cutoff, and has a saving
      no smaller than any improving departure the walk evaluated, strictly
      larger than every earlier one's. */
  lemma ExtensionIsBestImprovement(baseDep: real, baseDur: real, cfg: ExtendConfig, toHome: Oracle)
    ensures var walk := Walk(baseDep, baseDur, cfg, toHome, cfg.step, 0);
      ExtensionPlan(baseDep, baseDur, cfg, toHome).Some? ==>
        var s := ExtensionPlan(baseDep, baseDur, cfg, toHome).value;
        s.save > 0.5 &&
        s.extendMinutes in walk &&
        s.extendMinutes >= cfg.step && s.extendMinutes % cfg.step == 0 &&
        s.departure == baseDep + s.extendMinutes as real &&
        !PastLatest(s.departure, cfg.latest) &&
        toHome(s.departure) == Some(s.duration) &&
        s.save == baseDur - s.duration &&
        s.arrival == s.departure + s.duration &&
        (forall e :: e in walk && ImprovingDuration(baseDep, baseDur, toHome, e).Some? ==>
           baseDur - ImprovingDuration(baseDep, baseDur, toHome, e).value <= s.save) &&
        (forall e :: e in walk && e < s.extendMinutes && ImprovingDuration(baseDep, baseDur, toHome, e).Some? ==>
           baseDur - ImprovingDuration(baseDep, baseDur, toHome, e).value < s.save)
  {
    var walk := Walk(baseDep, baseDur, cfg, toHome, cfg.step, 0);
    var costs := WalkCosts(baseDep, baseDur, toHome, walk);
    FirstMinCorrect(costs);
    if FirstMin(costs).Some? {
      var k := FirstMin(costs).value;
      WalkGrid(baseDep, baseDur, cfg, toHome, cfg.step, 0);
      var s := SuggestionFor(baseDep, baseDur, walk[k], costs[k].value);
      NextMultiple(k, cfg.step);
      assert walk[k] in walk;
      forall e | e in walk && ImprovingDuration(baseDep, baseDur, toHome, e).Some?
        ensures baseDur - ImprovingDuration(baseDep, baseDur, toHome, e).value <= s.save
        ensures e < s.extendMinutes ==> baseDur - ImprovingDuration(baseDep, baseDur, toHome, e).value < s.save
      {
        var j :| 0 <= j < |walk| && walk[j] == e;
        WalkPickDominates(baseDep, baseDur, cfg, toHome, k, j);
      }
    }
  }

  /** Greedy stop: a departure whose saving reaches the target ends the
      walk, so no departure after it is ever evaluated. */
  lemma GreedyStopEndsWalk(baseDep: real, baseDur: real, cfg: ExtendConfig, toHome: Oracle, k: int)
    requires var w := Walk(baseDep, baseDur, cfg, toHome, cfg.step, 0);
      0 <= k < |w| &&
      ImprovingDuration(baseDep, baseDur, toHome, w[k]).Some? &&
      baseDur - ImprovingDuration(baseDep, baseDur, toHome, w[k]).value >= cfg.targetSave
    ensures k == |Walk(baseDep, baseDur, cfg, toHome, cfg.step, 0)| - 1
  {
    WalkNoEarlyStop(baseDep, baseDur, cfg, toHome, cfg.step, 0);
  }

  datatype ExtendedLeg = ExtendedLeg(lunch: int, departure: real, duration: real, arrival: real, extendMinutes: int, save: real)

  /** The baseline evening leg, and the extended one when it is attached. */
  datatype EveningChoice = EveningChoice(base: EveningLeg, extended: Option<ExtendedLeg>)
  {
    /** The return drive that counts: the extended one when present. */
    function Duration(): real
    {
      if extended.Some? then extended.value.duration else base.duration
    }
  }

  /** The evening sweep, then the walk from its departure; the extension is
      attached only when its saving reaches the target. */
  function EveningWithExtension(cfg: PlanConfig, ext: ExtendConfig, arrival: real, toHome: Oracle): Result<EveningChoice, PlanError>
  {
    match EveningPlan(cfg, arrival, toHome)
    case Err(e) => Err(e)
    case Ok(base) =>
      var s := ExtensionPlan(base.departure, base.duration, ext, toHome);
      if s.Some? && s.value.save >= ext.targetSave then
        Ok(EveningChoice(base, Some(ExtendedLeg(base.lunch, s.value.departure, s.value.duration,
                                                s.value.arrival, s.value.extendMinutes, s.value.save))))
      else Ok(EveningChoice(base, None))
  }

  method ChooseEveningWithExtension(cfg: PlanConfig, ext: ExtendConfig, arrival: real, toHome: Oracle)
    returns (r: Result<EveningChoice, PlanError>)
    ensures r == EveningWithExtension(cfg, ext, arrival, toHome)
  {
    var base := ChooseEvening(cfg, arrival, toHome);
    if base.Err? {
      return Err(base.error);
    }
    var b := base.value;
    var s := SuggestExtension(b.departure, b.duration, ext, toHome);
    if s.Some? && s.value.save >= ext.targetSave {
      var x := s.value;
      return Ok(EveningChoice(b, Some(ExtendedLeg(b.lunch, x.departure, x.duration, x.arrival, x.extendMinutes, x.save))));
    }
    return Ok(EveningChoice(b, None));
  }

  /** An attached extension keeps the baseline lunch, saves at least the
      target and more than half a minute, and is the last departure of the
      walk from the baseline return; it is missing exactly when the walk
      found no saving at the target. */
  lemma ExtendedOnlyAtTarget(cfg: PlanConfig, ext: ExtendConfig, arrival: real, toHome: Oracle)
    ensures EveningWithExtension(cfg, ext, arrival, toHome).Ok? ==>
      var c := EveningWithExtension(cfg, ext, arrival, toHome).value;
      var s := ExtensionPlan(c.base.departure, c.base.duration, ext, toHome);
      var w := Walk(c.base.departure, c.base.duration, ext, toHome, ext.step, 0);
      (c.extended.Some? <==> s.Some? && s.value.save >= ext.targetSave) &&
      (c.extended.Some? ==>
         var x := c.extended.value;
         x.lunch == c.base.lunch && x.save >= ext.targetSave && x.save > 0.5 &&
         x.save == c.base.duration - x.duration &&
         x.departure == c.base.departure + x.extendMinutes as real &&
         |w| > 0 && x.extendMinutes == w[|w| - 1])
  {
    if EveningWithExtension(cfg, ext, arrival, toHome).Ok? {
      var c := EveningWithExtension(cfg, ext, arrival, toHome).value;
      var bd, bu := c.base.departure, c.base.duration;
      ExtensionIsBestImprovement(bd, bu, ext, toHome);
      if c.extended.Some? {
        var w := Walk(bd, bu, ext, toHome, ext.step, 0);
        var x := c.extended.value;
        var j :| 0 <= j < |w| && w[j] == x.extendMinutes;
        assert ImprovingDuration(bd, bu, toHome, w[j]) == Some(x.duration);
        GreedyStopEndsWalk(bd, bu, ext, toHome, j);
      }
    }
  }
}
