/** The block passes of `weekly_plan`: padding the configured blocks to a
    week, the home-office target, the conversion pass that turns the
    costliest office days into home days, and the cap pass that turns home
    days back into office days until the target holds.

    The block list is a local that the passes update in place, here a
    `seq` the methods reassign, and each method is proved equal to the
    function that specifies its pass. The per-day commute costs are the
    functions `full` (`compute_full_day_minutes` of day `i`) and `half`
    (`half_minutes` of day `i` and a section). */
module WeeklyPasses {
  import opened Wrappers
  import opened Text
  import opened Ranking
  import opened HalfDay

  /** A day's block. The source keeps blocks as strings; the six names
      it knows are constructors here and any other string is kept as
      `Other`, so that the passes compare constructors where the source
      compares strings. */
  datatype Block = Open | Office | Home | HomeAm | HomePm | Off | Other(name: string)
  {
    /** The block's string in the source. */
    function Name(): string
    {
      match this
      case Open => "OPEN"
      case Office => "OFFICE"
      case Home => "HO"
      case HomeAm => "HO-AM"
      case HomePm => "HO-PM"
      case Off => "OFF"
      case Other(s) => s
    }
  }

  predicate KnownName(s: string)
  {
    s == "OPEN" || s == "OFFICE" || s == "HO" || s == "HO-AM" || s == "HO-PM" || s == "OFF"
  }

  /** A block string as the passes read it. */
  function ParseBlock(s: string): (b: Block)
    ensures b.Name() == s
    ensures b.Other? <==> !KnownName(s)
  {
    if s == "OPEN" then Open
    else if s == "OFFICE" then Office
    else if s == "HO" then Home
    else if s == "HO-AM" then HomeAm
    else if s == "HO-PM" then HomePm
    else if s == "OFF" then Off
    else Other(s)
  }

  /** Reading back a block's name gives the block, for every block whose
      `Other` name is none of the six known ones. */
  lemma BlockNameRoundTrip(b: Block)
    requires b.Other? ==> !KnownName(b.name)
    ensures ParseBlock(b.Name()) == b
  {
  }

  /** A configured block: stripped and upper-cased. */
  function NormalizeBlock(b: string): Block
  {
    ParseBlock(Upper(Strip(b)))
  }

  const AllOpen: seq<string> := ["OPEN", "OPEN", "OPEN", "OPEN", "OPEN"]

  /** The configured blocks (five OPEN when the key is missing), each
      stripped and upper-cased, then padded with OPEN to five. */
  function Padded(given: Option<seq<string>>): (r: seq<Block>)
    ensures |r| >= 5
  {
    var src := if given.Some? then given.value else AllOpen;
    var n := seq(|src|, k requires 0 <= k < |src| => NormalizeBlock(src[k]));
    if |n| >= 5 then n else n + seq(5 - |n|, _ => Open)
  }

  method PadBlocks(given: Option<seq<string>>) returns (blocks: seq<Block>)
    ensures blocks == Padded(given)
  {
    var src := if given.Some? then given.value else AllOpen;
    blocks := seq(|src|, k requires 0 <= k < |src| => NormalizeBlock(src[k]));
    ghost var n := blocks;
    while |blocks| < 5
      invariant |n| <= |blocks| && (|n| < 5 ==> |blocks| <= 5)
      invariant blocks == n + seq(|blocks| - |n|, _ => Open)
      invariant |n| >= 5 ==> blocks == n
      decreases 5 - |blocks|
    {
      blocks := blocks + [Open];
    }
  }

  /** The padded week has at least five blocks: the normalised configured
      ones first, then OPEN. */
  lemma PaddedShape(given: Option<seq<string>>)
    ensures var src := if given.Some? then given.value else AllOpen;
      var r := Padded(given);
      |r| == (if |src| >= 5 then |src| else 5) &&
      (forall k :: 0 <= k < |src| ==> r[k] == NormalizeBlock(src[k])) &&
      (forall k :: |src| <= k < |r| ==> r[k] == Open)
  {
  }

  lemma OpenIsNormal()
    ensures NormalizeBlock("OPEN") == Open
  {
    StripPadded([], "OPEN", []);
    assert [] + "OPEN" + [] == "OPEN";
    var u := Upper("OPEN");
    assert u[0] == 'O' && u[1] == 'P' && u[2] == 'E' && u[3] == 'N';
    assert u == "OPEN";
  }

  /** A missing blocks key and an empty list both give a week of OPEN
      days. */
  lemma MissingBlocksAreOpen()
    ensures Padded(None) == [Open, Open, Open, Open, Open]
    ensures Padded(Some([])) == [Open, Open, Open, Open, Open]
  {
    OpenIsNormal();
    assert Padded(None) == [Open, Open, Open, Open, Open];
  }

  /** Python's `round(percent / 100 * 40)`. For a whole percent the value
      0.4·percent is never halfway between two integers, so the tie rule of
      `round` never applies and the result is the nearest integer. */
  function RoundedHours(percent: int): (r: int)
    ensures -0.5 < (percent as real) / 100.0 * 40.0 - r as real < 0.5
  {
    var r := (4 * percent + 5) / 10;
    assert 10 * r <= 4 * percent + 5 < 10 * r + 10;
    assert 4 * percent - 10 * r != -5;
    r
  }

  /** The home-office target in hours, clamped to 0..16. */
  function HoTarget(percent: int): (t: int)
    ensures 0 <= t <= 16
    ensures 0 <= RoundedHours(percent) <= 16 ==> t == RoundedHours(percent)
    ensures RoundedHours(percent) < 0 ==> t == 0
    ensures RoundedHours(percent) > 16 ==> t == 16
  {
    var r := RoundedHours(percent);
    if r < 0 then 0 else if r > 16 then 16 else r
  }

  // ---------------------------------------------------------------- conversion

  /** Days the conversion pass may turn into home days. */
  predicate Convertible(b: Block)
  {
    b.Open? || b.Office?
  }

  /** What makes `c` a conversion candidate of `blocks`. */
  predicate ConversionCandidate(blocks: seq<Block>, full: int -> Option<real>, c: Candidate)
  {
    0 <= c.day < 5 <= |blocks| && Convertible(blocks[c.day]) && full(c.day) == Some(c.cost) && c.hours == 8
  }

  /** The conversion candidates among days `0..n-1`, in day order: each
      OPEN or OFFICE day whose full-day commute cost is known. */
  function ConversionCandidates(blocks: seq<Block>, full: int -> Option<real>, n: nat): (cs: seq<Candidate>)
    requires n <= 5 <= |blocks|
    ensures DaysIncrease(cs) && DaysBelow(cs, n)
    ensures forall k :: 0 <= k < |cs| ==> ConversionCandidate(blocks, full, cs[k])
    ensures forall i :: 0 <= i < n && Convertible(blocks[i]) && full(i).Some? ==> HasDay(cs, i)
  {
    if n == 0 then []
    else
      var cs := ConversionCandidates(blocks, full, n - 1);
      var i := n - 1;
      if Convertible(blocks[i]) && full(i).Some? then
        var c := Candidate(i, 8, full(i).value);
        var r := cs + [c];
        assert r[|cs|] == c;
        assert forall j :: 0 <= j < n - 1 && HasDay(cs, j) ==> HasDay(r, j) by {
          forall j | 0 <= j < n - 1 && HasDay(cs, j)
            ensures HasDay(r, j)
          {
            var k :| 0 <= k < |cs| && cs[k].day == j;
            assert r[k] == cs[k];
          }
        }
        r
      else cs
  }

  /** `blocks` with the day of every candidate in `cs` set to `v`. */
  function SetDays(blocks: seq<Block>, cs: seq<Candidate>, v: Block): (r: seq<Block>)
    requires DaysBelow(cs, |blocks|)
    ensures |r| == |blocks|
    ensures forall i :: 0 <= i < |blocks| ==> r[i] == if HasDay(cs, i) then v else blocks[i]
  {
    if |cs| == 0 then blocks
    else
      var init := cs[..|cs| - 1];
      var c := cs[|cs| - 1];
      var r := SetDays(blocks, init, v)[c.day := v];
      assert forall i :: HasDay(cs, i) <==> HasDay(init, i) || i == c.day by {
        forall i
          ensures HasDay(cs, i) <==> HasDay(init, i) || i == c.day
        {
          if HasDay(cs, i) {
            var k :| 0 <= k < |cs| && cs[k].day == i;
            if k < |cs| - 1 {
              assert init[k] == cs[k];
            }
          }
          if HasDay(init, i) {
            var k :| 0 <= k < |init| && init[k].day == i;
            assert cs[k] == init[k];
          }
        }
      }
      r
  }

  function Min(a: int, b: int): int
  {
    if a <= b then a else b
  }

  /** The half-day block the conversion pass gives the next candidate:
      HO-AM, unless the day already is HO. */
  function HalfDayBlock(b: Block): Block
  {
    if b != Home then HomeAm else Home
  }

  /** Marking along a ranking: the first `fullDays` become HO and, when
      `half` holds, the next one gets its half-day block. */
  function Marked(blocks: seq<Block>, ranked: seq<Candidate>, fullDays: nat, half: bool): (r: seq<Block>)
    requires DaysBelow(ranked, |blocks|)
    ensures |r| == |blocks|
  {
    var marked := SetDays(blocks, ranked[..Min(fullDays, |ranked|)], Home);
    if half && |ranked| > fullDays then
      var idx := ranked[fullDays].day;
      marked[idx := HalfDayBlock(marked[idx])]
    else marked
  }

  /** The conversion pass: with a positive target, the candidates ranked
      costliest first; the first `target / 8` become HO, and when the
      remainder is at least four hours the next one becomes HO-AM (HO if
      it already were HO). */
  function Converted(blocks: seq<Block>, target: int, full: int -> Option<real>): (r: seq<Block>)
    requires |blocks| >= 5
    ensures |r| == |blocks|
  {
    if target <= 0 then blocks
    else
      Marked(blocks, ConversionRanking(blocks, full), target / 8, target % 8 >= 4)
  }

  /** The loop marking the first `|top|` ranked days as HO. */
  method MarkHome(blocks: seq<Block>, top: seq<Candidate>) returns (out: seq<Block>)
    requires DaysBelow(top, |blocks|)
    ensures out == SetDays(blocks, top, Home)
  {
    out := blocks;
    var k := 0;
    while k < |top|
      invariant 0 <= k <= |top|
      invariant out == SetDays(blocks, top[..k], Home)
    {
      assert top[..k + 1][..k] == top[..k];
      out := out[top[k].day := Home];
      k := k + 1;
    }
    assert top[..k] == top;
  }

  /** The loop collecting the conversion candidates. */
  method CollectConversionCandidates(blocks: seq<Block>, full: int -> Option<real>) returns (cands: seq<Candidate>)
    requires |blocks| >= 5
    ensures cands == ConversionCandidates(blocks, full, 5)
  {
    cands := [];
    var i := 0;
    while i < 5
      invariant 0 <= i <= 5 && cands == ConversionCandidates(blocks, full, i)
    {
      if Convertible(blocks[i]) {
        var minutes := full(i);
        if minutes.Some? {
          cands := cands + [Candidate(i, 8, minutes.value)];
        }
      }
      i := i + 1;
    }
  }

  method ConvertOpenDays(blocks: seq<Block>, target: int, full: int -> Option<real>) returns (out: seq<Block>)
    requires |blocks| >= 5
    ensures out == Converted(blocks, target, full)
  {
    out := blocks;
    if target > 0 {
      var cands := CollectConversionCandidates(blocks, full);
      var ranked := Ranked(cands, true);
      assert ranked == ConversionRanking(blocks, full);
      out := MarkRanked(blocks, ranked, target / 8, target % 8 >= 4);
    }
  }

  /** The marking step of the conversion pass. */
  method MarkRanked(blocks: seq<Block>, ranked: seq<Candidate>, fullDays: nat, halfDay: bool) returns (out: seq<Block>)
    requires DaysBelow(ranked, |blocks|)
    ensures out == Marked(blocks, ranked, fullDays, halfDay)
  {
    var top := ranked[..Min(fullDays, |ranked|)];
    assert DaysBelow(top, |blocks|) by {
      forall k | 0 <= k < |top|
        ensures 0 <= top[k].day < |blocks|
      {
        assert top[k] == ranked[k];
      }
    }
    out := MarkHome(blocks, top);
    if halfDay && |ranked| > fullDays {
      var idx := ranked[fullDays].day;
      out := out[idx := HalfDayBlock(out[idx])];
    }
  }

  /** Setting the days of the first `m` of a ranking of distinct days:
      the `k`-th ranked day gets `v` exactly when `k < m`, and a day of no
      candidate keeps its block. */
  lemma SetDaysPrefix(blocks: seq<Block>, ranked: seq<Candidate>, m: nat, v: Block)
    requires m <= |ranked| && DaysBelow(ranked, |blocks|)
    requires forall i, j :: 0 <= i < j < |ranked| ==> ranked[i].day != ranked[j].day
    ensures DaysBelow(ranked[..m], |blocks|)
    ensures forall k :: 0 <= k < |ranked| ==>
      SetDays(blocks, ranked[..m], v)[ranked[k].day] == if k < m then v else blocks[ranked[k].day]
    ensures forall i :: 0 <= i < |blocks| && !HasDay(ranked, i) ==> SetDays(blocks, ranked[..m], v)[i] == blocks[i]
  {
    var top := ranked[..m];
    assert DaysBelow(top, |blocks|) by {
      forall k | 0 <= k < |top|
        ensures 0 <= top[k].day < |blocks|
      {
        assert top[k] == ranked[k];
      }
    }
    PrefixHasDay(ranked, m);
  }


  /** The conversion candidates ranked costliest first. */
  function ConversionRanking(blocks: seq<Block>, full: int -> Option<real>): (ranked: seq<Candidate>)
    requires |blocks| >= 5
    ensures DaysBelow(ranked, 5)
  {
    RankedDaysBelow(ConversionCandidates(blocks, full, 5), true, 5);
    Ranked(ConversionCandidates(blocks, full, 5), true)
  }

  /** The conversion ranking holds candidates of distinct days, in
      non-increasing cost. */
  lemma ConversionRankingFacts(blocks: seq<Block>, full: int -> Option<real>)
    requires |blocks| >= 5
    ensures forall k :: 0 <= k < |ConversionRanking(blocks, full)| ==>
      ConversionCandidate(blocks, full, ConversionRanking(blocks, full)[k])
    ensures forall i, j :: 0 <= i < j < |ConversionRanking(blocks, full)| ==>
      ConversionRanking(blocks, full)[i].day != ConversionRanking(blocks, full)[j].day
    ensures forall k, j :: 0 <= k < j < |ConversionRanking(blocks, full)| ==>
      ConversionRanking(blocks, full)[k].cost >= ConversionRanking(blocks, full)[j].cost
  {
    var cs := ConversionCandidates(blocks, full, 5);
    var ranked := Ranked(cs, true);
    RankedDaysDistinct(cs, true);
    RankedSorted(cs, true);
    forall k | 0 <= k < |ranked|
      ensures ConversionCandidate(blocks, full, ranked[k])
    {
      RankedFrom(cs, true, k);
    }
  }

  /** Marking along a ranking of distinct days that has no HO day at
      position `fullDays`: the `k`-th ranked day becomes HO for
      `k < fullDays`, HO-AM for `k == fullDays` when `half` holds, and
      keeps its block otherwise; a day of no candidate keeps its block. */
  lemma MarkedShape(blocks: seq<Block>, ranked: seq<Candidate>, fullDays: nat, half: bool)
    requires DaysBelow(ranked, |blocks|)
    requires forall i, j :: 0 <= i < j < |ranked| ==> ranked[i].day != ranked[j].day
    requires fullDays < |ranked| ==> blocks[ranked[fullDays].day] != Home
    ensures forall k :: 0 <= k < |ranked| ==>
      Marked(blocks, ranked, fullDays, half)[ranked[k].day] ==
        if k < fullDays then Home
        else if k == fullDays && half then HomeAm
        else blocks[ranked[k].day]
    ensures forall i :: 0 <= i < |blocks| && !HasDay(ranked, i) ==> Marked(blocks, ranked, fullDays, half)[i] == blocks[i]
  {
    SetDaysPrefix(blocks, ranked, Min(fullDays, |ranked|), Home);
  }

  /** Which days the conversion pass converts: ranking the candidates
      costliest first (`ConversionRankingFacts`), the `k`-th becomes HO for
      `k < target / 8`, the next one HO-AM when the remainder is at least
      four hours (never HO: the guard against an HO day there cannot fire),
      and every other day keeps its block. */
  lemma ConversionPicksCostliest(blocks: seq<Block>, target: int, full: int -> Option<real>)
    requires |blocks| >= 5 && target > 0
    ensures |Converted(blocks, target, full)| == |blocks|
    ensures forall k :: 0 <= k < |ConversionRanking(blocks, full)| ==>
      Converted(blocks, target, full)[ConversionRanking(blocks, full)[k].day] ==
        if k < target / 8 then Home
        else if k == target / 8 && target % 8 >= 4 then HomeAm
        else blocks[ConversionRanking(blocks, full)[k].day]
    ensures forall i :: 0 <= i < |blocks| && !HasDay(ConversionRanking(blocks, full), i) ==>
      Converted(blocks, target, full)[i] == blocks[i]
  {
    var ranked := ConversionRanking(blocks, full);
    ConversionRankingFacts(blocks, full);
    if target / 8 < |ranked| {
      assert ConversionCandidate(blocks, full, ranked[target / 8]);
    }
    MarkedShape(blocks, ranked, target / 8, target % 8 >= 4);
  }

  /** The conversion pass changes only OPEN and OFFICE days whose full-day
      cost is known, into HO or HO-AM, and nothing without a positive
      target. */
  lemma ConversionChangesOnlyOpenDays(blocks: seq<Block>, target: int, full: int -> Option<real>)
    requires |blocks| >= 5
    ensures |Converted(blocks, target, full)| == |blocks|
    ensures target <= 0 ==> Converted(blocks, target, full) == blocks
    ensures forall i :: 0 <= i < |blocks| && Converted(blocks, target, full)[i] != blocks[i] ==>
      i < 5 && Convertible(blocks[i]) && full(i).Some? &&
      (Converted(blocks, target, full)[i] == Home || Converted(blocks, target, full)[i] == HomeAm)
  {
    if target > 0 {
      ConversionPicksCostliest(blocks, target, full);
      ConversionRankingFacts(blocks, full);
      var ranked := ConversionRanking(blocks, full);
      var out := Converted(blocks, target, full);
      forall i | 0 <= i < |blocks| && out[i] != blocks[i]
        ensures i < 5 && Convertible(blocks[i]) && full(i).Some? && (out[i] == Home || out[i] == HomeAm)
      {
        var k :| 0 <= k < |ranked| && ranked[k].day == i;
        assert ConversionCandidate(blocks, full, ranked[k]);
      }
    }
  }

  // ---------------------------------------------------------------- cap

  /** The home hours a block stands for. */
  function HoursOf(b: Block): int
  {
    if b == Home then 8 else if b == HomeAm || b == HomePm then 4 else 0
  }

  /** The blocks the cap pass may turn back into office days. */
  predicate HomeFamily(b: Block)
  {
    b == Home || b == HomeAm || b == HomePm
  }

  /** The home hours of days `0..n-1`. */
  function HomeHours(blocks: seq<Block>, n: nat): (h: int)
    requires n <= |blocks|
    ensures h >= 0
  {
    if n == 0 then 0 else HomeHours(blocks, n - 1) + HoursOf(blocks[n - 1])
  }

  /** Changing one block changes the home hours by the difference of the
      two blocks' hours. */
  lemma {:induction false} HomeHoursUpdate(blocks: seq<Block>, d: int, v: Block, n: nat)
    requires n <= |blocks| && 0 <= d < |blocks|
    ensures HomeHours(blocks[d := v], n) ==
      HomeHours(blocks, n) + (if d < n then HoursOf(v) - HoursOf(blocks[d]) else 0)
  {
    if n > 0 {
      HomeHoursUpdate(blocks, d, v, n - 1);
    }
  }

  function Max0(x: real): real
  {
    if x > 0.0 then x else 0.0
  }

  /** The section whose half-day cost a half home day is weighed against:
      the afternoon for HO-AM, the morning for HO-PM. */
  function OfficeHalf(b: Block): Section
  {
    if b == HomeAm then PM else AM
  }

  /** What makes `c` a cap candidate of `blocks`. */
  predicate CapCandidate(blocks: seq<Block>, full: int -> Option<real>, half: (int, Section) -> Option<real>, c: Candidate)
  {
    0 <= c.day < 5 <= |blocks| && HomeFamily(blocks[c.day]) && c.hours == HoursOf(blocks[c.day]) &&
    full(c.day).Some? && (blocks[c.day] != Home ==> half(c.day, OfficeHalf(blocks[c.day])).Some?)
  }

  /** The cap candidate of day `i`, if any: an HO day saves eight hours at
      its full-day cost; an HO-AM (HO-PM) day saves four hours at the
      full-day cost less the afternoon (morning) half-day cost, but not
      below zero; a day whose costs are not all known is none. */
  function CapCandidateOf(blocks: seq<Block>, full: int -> Option<real>, half: (int, Section) -> Option<real>, i: nat)
    : (c: Option<Candidate>)
    requires i < 5 <= |blocks|
    ensures c.Some? ==> c.value.day == i && CapCandidate(blocks, full, half, c.value)
    ensures c.None? ==>
      !HomeFamily(blocks[i]) || full(i).None? || (blocks[i] != Home && half(i, OfficeHalf(blocks[i])).None?)
  {
    var b := blocks[i];
    var fullm := full(i);
    if b == Home && fullm.Some? then Some(Candidate(i, 8, fullm.value))
    else if b == HomeAm && fullm.Some? && half(i, PM).Some? then
      Some(Candidate(i, 4, Max0(fullm.value - half(i, PM).value)))
    else if b == HomePm && fullm.Some? && half(i, AM).Some? then
      Some(Candidate(i, 4, Max0(fullm.value - half(i, AM).value)))
    else None
  }

  /** The cap candidates among days `0..n-1`, in day order. */
  function CapCandidates(blocks: seq<Block>, full: int -> Option<real>, half: (int, Section) -> Option<real>, n: nat)
    : (cs: seq<Candidate>)
    requires n <= 5 <= |blocks|
    ensures DaysIncrease(cs) && DaysBelow(cs, n)
    ensures forall k :: 0 <= k < |cs| ==> CapCandidate(blocks, full, half, cs[k])
  {
    if n == 0 then []
    else
      var cs := CapCandidates(blocks, full, half, n - 1);
      var c := CapCandidateOf(blocks, full, half, n - 1);
      if c.Some? then
        assert (cs + [c.value])[|cs|] == c.value;
        cs + [c.value]
      else cs
  }

  /** The flip loop over the ranked candidates: stop once the hours are
      within the target, otherwise set the day to OFFICE and subtract its
      hours. */
  function CapFlip(blocks: seq<Block>, hours: int, target: int, cs: seq<Candidate>): (r: (seq<Block>, int))
    requires DaysBelow(cs, |blocks|)
    ensures |r.0| == |blocks|
    decreases |cs|
  {
    if |cs| == 0 || hours <= target then (blocks, hours)
    else CapFlip(blocks[cs[0].day := Office], hours - cs[0].hours, target, cs[1..])
  }

  /** The cap pass: when the home hours exceed the target, the candidates
      ranked cheapest first are flipped. Also yields the final hours. */
  function Capped(blocks: seq<Block>, target: int, full: int -> Option<real>, half: (int, Section) -> Option<real>)
    : (r: (seq<Block>, int))
    requires |blocks| >= 5
    ensures |r.0| == |blocks|
  {
    var hours := HomeHours(blocks, 5);
    if hours > target then
      CapFlip(blocks, hours, target, CapRanking(blocks, full, half))
    else (blocks, hours)
  }

  /** The loop summing the home hours of the week. */
  method CountHomeHours(blocks: seq<Block>) returns (hours: int)
    requires |blocks| >= 5
    ensures hours == HomeHours(blocks, 5)
  {
    hours := 0;
    var i := 0;
    while i < 5
      invariant 0 <= i <= 5 && hours == HomeHours(blocks, i)
    {
      if blocks[i] == Home {
        hours := hours + 8;
      } else if blocks[i] == HomeAm || blocks[i] == HomePm {
        hours := hours + 4;
      }
      i := i + 1;
    }
  }

  /** The loop collecting the cap candidates. */
  method CollectCapCandidates(blocks: seq<Block>, full: int -> Option<real>, half: (int, Section) -> Option<real>)
    returns (cands: seq<Candidate>)
    requires |blocks| >= 5
    ensures cands == CapCandidates(blocks, full, half, 5)
  {
    cands := [];
    var i := 0;
    while i < 5
      invariant 0 <= i <= 5 && cands == CapCandidates(blocks, full, half, i)
    {
      var fullm := full(i);
      if blocks[i] == Home {
        if fullm.Some? {
          cands := cands + [Candidate(i, 8, fullm.value)];
        }
      } else if blocks[i] == HomeAm {
        var pm := half(i, PM);
        if fullm.Some? && pm.Some? {
          cands := cands + [Candidate(i, 4, Max0(fullm.value - pm.value))];
        }
      } else if blocks[i] == HomePm {
        var am := half(i, AM);
        if fullm.Some? && am.Some? {
          cands := cands + [Candidate(i, 4, Max0(fullm.value - am.value))];
        }
      }
      i := i + 1;
    }
  }

  /** The loop flipping ranked candidates to OFFICE until the hours are
      within the target. */
  method FlipToOffice(blocks: seq<Block>, hours: int, target: int, ranked: seq<Candidate>)
    returns (out: seq<Block>, left: int)
    requires DaysBelow(ranked, |blocks|)
    ensures (out, left) == CapFlip(blocks, hours, target, ranked)
  {
    out, left := blocks, hours;
    var k := 0;
    while k < |ranked|
      invariant 0 <= k <= |ranked| && |out| == |blocks|
      invariant CapFlip(out, left, target, ranked[k..]) == CapFlip(blocks, hours, target, ranked)
    {
      if left <= target {
        break;
      }
      assert ranked[k..][1..] == ranked[k + 1..];
      out := out[ranked[k].day := Office];
      left := left - ranked[k].hours;
      k := k + 1;
    }
  }

  method CapHomeHours(blocks: seq<Block>, target: int, full: int -> Option<real>, half: (int, Section) -> Option<real>)
    returns (out: seq<Block>, hours: int)
    requires |blocks| >= 5
    ensures (out, hours) == Capped(blocks, target, full, half)
  {
    hours := CountHomeHours(blocks);
    out := blocks;
    if hours > target {
      var cands := CollectCapCandidates(blocks, full, half);
      RankedDaysBelow(cands, false, 5);
      out, hours := FlipToOffice(blocks, hours, target, Ranked(cands, false));
    }
  }

  /** The hours of a sequence of candidates. */
  function SumHours(cs: seq<Candidate>): int
  {
    if |cs| == 0 then 0 else cs[0].hours + SumHours(cs[1..])
  }

  /** How many candidates the flip loop flips. */
  function FlipCount(hours: int, target: int, cs: seq<Candidate>): (m: nat)
    ensures m <= |cs|
    decreases |cs|
  {
    if |cs| == 0 || hours <= target then 0 else 1 + FlipCount(hours - cs[0].hours, target, cs[1..])
  }

  lemma HasDayCons(cs: seq<Candidate>, m: nat, i: int)
    requires 0 < m <= |cs|
    ensures HasDay(cs[..m], i) <==> cs[0].day == i || HasDay(cs[1..][..m - 1], i)
  {
    if HasDay(cs[..m], i) {
      var k :| 0 <= k < m && cs[..m][k].day == i;
      if k > 0 {
        assert cs[1..][..m - 1][k - 1] == cs[k];
      }
    }
    if HasDay(cs[1..][..m - 1], i) {
      var k :| 0 <= k < m - 1 && cs[1..][..m - 1][k].day == i;
      assert cs[..m][k + 1] == cs[1..][..m - 1][k];
    }
    if cs[0].day == i {
      assert cs[..m][0].day == i;
    }
  }

  lemma SumHoursCons(cs: seq<Candidate>, k: nat)
    requires 0 < k <= |cs|
    ensures SumHours(cs[..k]) == cs[0].hours + SumHours(cs[1..][..k - 1])
  {
    assert cs[..k][1..] == cs[1..][..k - 1];
  }

  /** The flip loop flips a prefix of the ranking: the first `m` candidates
      are set to OFFICE and their hours subtracted; each of them was
      flipped while the hours still exceeded the target; and the loop ends
      within the target unless it ran out of candidates. */
  lemma {:induction false} CapFlipPrefix(blocks: seq<Block>, hours: int, target: int, cs: seq<Candidate>)
    requires DaysBelow(cs, |blocks|)
    ensures var m := FlipCount(hours, target, cs);
      var r := CapFlip(blocks, hours, target, cs);
      r.1 == hours - SumHours(cs[..m]) &&
      (forall i :: 0 <= i < |blocks| ==> r.0[i] == if HasDay(cs[..m], i) then Office else blocks[i]) &&
      (forall k :: 0 <= k < m ==> hours - SumHours(cs[..k]) > target) &&
      (m < |cs| ==> r.1 <= target)
    decreases |cs|
  {
    var m := FlipCount(hours, target, cs);
    if |cs| == 0 || hours <= target {
      assert cs[..m] == [];
    } else {
      var rest := cs[1..];
      var b2 := blocks[cs[0].day := Office];
      var h2 := hours - cs[0].hours;
      CapFlipPrefix(b2, h2, target, rest);
      SumHoursCons(cs, m);
      forall i | 0 <= i < |blocks|
        ensures CapFlip(blocks, hours, target, cs).0[i] == if HasDay(cs[..m], i) then Office else blocks[i]
      {
        HasDayCons(cs, m, i);
      }
      forall k | 0 <= k < m
        ensures hours - SumHours(cs[..k]) > target
      {
        if k > 0 {
          SumHoursCons(cs, k);
        } else {
          assert cs[..k] == [];
        }
      }
    }
  }

  /** Flipping candidates of distinct days whose hours are those of their
      blocks keeps the returned hours equal to the home hours of the
      returned blocks. */
  lemma {:induction false} CapFlipKeepsHours(blocks: seq<Block>, hours: int, target: int, cs: seq<Candidate>)
    requires |blocks| >= 5 && DaysBelow(cs, 5)
    requires forall k :: 0 <= k < |cs| ==> cs[k].hours == HoursOf(blocks[cs[k].day])
    requires forall i, j :: 0 <= i < j < |cs| ==> cs[i].day != cs[j].day
    requires hours == HomeHours(blocks, 5)
    ensures CapFlip(blocks, hours, target, cs).1 == HomeHours(CapFlip(blocks, hours, target, cs).0, 5)
    decreases |cs|
  {
    if |cs| > 0 && hours > target {
      var d := cs[0].day;
      var b2 := blocks[d := Office];
      HomeHoursUpdate(blocks, d, Office, 5);
      var rest := cs[1..];
      forall k | 0 <= k < |rest|
        ensures rest[k].hours == HoursOf(b2[rest[k].day])
      {
        assert rest[k] == cs[k + 1];
      }
      CapFlipKeepsHours(b2, hours - cs[0].hours, target, rest);
    }
  }

  /** The cap candidates ranked cheapest first. */
  function CapRanking(blocks: seq<Block>, full: int -> Option<real>, half: (int, Section) -> Option<real>)
    : (ranked: seq<Candidate>)
    requires |blocks| >= 5
    ensures DaysBelow(ranked, 5)
  {
    RankedDaysBelow(CapCandidates(blocks, full, half, 5), false, 5);
    Ranked(CapCandidates(blocks, full, half, 5), false)
  }

  /** The cap ranking holds candidates of distinct days, in non-decreasing
      cost, and every candidate's day. */
  lemma CapRankingFacts(blocks: seq<Block>, full: int -> Option<real>, half: (int, Section) -> Option<real>)
    requires |blocks| >= 5
    ensures forall k :: 0 <= k < |CapRanking(blocks, full, half)| ==>
      CapCandidate(blocks, full, half, CapRanking(blocks, full, half)[k])
    ensures forall i, j :: 0 <= i < j < |CapRanking(blocks, full, half)| ==>
      CapRanking(blocks, full, half)[i].day != CapRanking(blocks, full, half)[j].day
    ensures forall k, j :: 0 <= k < j < |CapRanking(blocks, full, half)| ==>
      CapRanking(blocks, full, half)[k].cost <= CapRanking(blocks, full, half)[j].cost
    ensures forall i :: HasDay(CapCandidates(blocks, full, half, 5), i) ==> HasDay(CapRanking(blocks, full, half), i)
  {
    var cs := CapCandidates(blocks, full, half, 5);
    var ranked := Ranked(cs, false);
    RankedDaysDistinct(cs, false);
    RankedSorted(cs, false);
    forall k | 0 <= k < |ranked|
      ensures CapCandidate(blocks, full, half, ranked[k])
    {
      RankedFrom(cs, false, k);
    }
    forall i | HasDay(cs, i)
      ensures HasDay(ranked, i)
    {
      RankedHasDay(cs, false, i);
    }
  }

  /** The cap pass changes a day only by turning an HO, HO-AM or HO-PM day
      into OFFICE. */
  lemma CapChangesOnlyHomeDays(blocks: seq<Block>, target: int, full: int -> Option<real>, half: (int, Section) -> Option<real>)
    requires |blocks| >= 5
    ensures forall i :: 0 <= i < |blocks| && Capped(blocks, target, full, half).0[i] != blocks[i] ==>
      i < 5 && HomeFamily(blocks[i]) && Capped(blocks, target, full, half).0[i] == Office
  {
    var hours := HomeHours(blocks, 5);
    if hours > target {
      var ranked := CapRanking(blocks, full, half);
      CapRankingFacts(blocks, full, half);
      CapFlipPrefix(blocks, hours, target, ranked);
      var m := FlipCount(hours, target, ranked);
      var r := CapFlip(blocks, hours, target, ranked);
      forall i | 0 <= i < |blocks| && r.0[i] != blocks[i]
        ensures i < 5 && HomeFamily(blocks[i]) && r.0[i] == Office
      {
        var k :| 0 <= k < m && ranked[..m][k].day == i;
        assert CapCandidate(blocks, full, half, ranked[k]);
      }
    }
  }

  /** A cap pass that ends over the target has flipped every candidate. */
  lemma CapOverTargetFlipsAll(blocks: seq<Block>, target: int, full: int -> Option<real>, half: (int, Section) -> Option<real>)
    requires |blocks| >= 5
    ensures Capped(blocks, target, full, half).1 > target ==>
      forall i :: 0 <= i < 5 && HasDay(CapCandidates(blocks, full, half, 5), i) ==>
        Capped(blocks, target, full, half).0[i] == Office
  {
    var hours := HomeHours(blocks, 5);
    if hours > target {
      var ranked := CapRanking(blocks, full, half);
      CapRankingFacts(blocks, full, half);
      CapFlipPrefix(blocks, hours, target, ranked);
      var m := FlipCount(hours, target, ranked);
      if CapFlip(blocks, hours, target, ranked).1 > target {
        assert ranked[..m] == ranked;
      }
    }
  }

  /** The cap pass flips only HO, HO-AM and HO-PM days, and only to OFFICE;
      it leaves the week alone when the hours are within the target; and
      it ends within the target unless every candidate was flipped. */
  lemma CapFlipsOnlyHomeDays(blocks: seq<Block>, target: int, full: int -> Option<real>, half: (int, Section) -> Option<real>)
    requires |blocks| >= 5
    ensures HomeHours(blocks, 5) <= target ==> Capped(blocks, target, full, half).0 == blocks
    ensures forall i :: 0 <= i < |blocks| && Capped(blocks, target, full, half).0[i] != blocks[i] ==>
      i < 5 && HomeFamily(blocks[i]) && Capped(blocks, target, full, half).0[i] == Office
    ensures Capped(blocks, target, full, half).1 > target ==>
      forall i :: 0 <= i < 5 && HasDay(CapCandidates(blocks, full, half, 5), i) ==>
        Capped(blocks, target, full, half).0[i] == Office
  {
    CapChangesOnlyHomeDays(blocks, target, full, half);
    CapOverTargetFlipsAll(blocks, target, full, half);
  }

  /** The hours the cap pass returns are the home hours of the week it
      returns. */
  lemma CappedHoursAreHomeHours(blocks: seq<Block>, target: int, full: int -> Option<real>, half: (int, Section) -> Option<real>)
    requires |blocks| >= 5
    ensures Capped(blocks, target, full, half).1 == HomeHours(Capped(blocks, target, full, half).0, 5)
  {
    var hours := HomeHours(blocks, 5);
    if hours > target {
      var ranked := CapRanking(blocks, full, half);
      CapRankingFacts(blocks, full, half);
      forall k | 0 <= k < |ranked|
        ensures ranked[k].hours == HoursOf(blocks[ranked[k].day])
      {
        assert CapCandidate(blocks, full, half, ranked[k]);
      }
      CapFlipKeepsHours(blocks, hours, target, ranked);
    }
  }

  /** The cap pass flips the cheapest candidates: the flipped ones are the
      first `m` of the ranking, which is in ascending cost
      (`CapRankingFacts`), so no flipped day costs more than a candidate left
      as a home day; each was flipped while the hours still exceeded the
      target; and the final hours are the start hours less the flipped
      ones. */
  lemma CapFlipsCheapestFirst(blocks: seq<Block>, target: int, full: int -> Option<real>, half: (int, Section) -> Option<real>)
    requires |blocks| >= 5 && HomeHours(blocks, 5) > target
    ensures var ranked := CapRanking(blocks, full, half);
      var m := FlipCount(HomeHours(blocks, 5), target, ranked);
      forall k :: 0 <= k < |ranked| ==>
        Capped(blocks, target, full, half).0[ranked[k].day] == if k < m then Office else blocks[ranked[k].day]
    ensures var ranked := CapRanking(blocks, full, half);
      var m := FlipCount(HomeHours(blocks, 5), target, ranked);
      forall k, j :: 0 <= k < m <= j < |ranked| ==> ranked[k].cost <= ranked[j].cost
    ensures var ranked := CapRanking(blocks, full, half);
      var m := FlipCount(HomeHours(blocks, 5), target, ranked);
      forall k :: 0 <= k < m ==> HomeHours(blocks, 5) - SumHours(ranked[..k]) > target
    ensures var ranked := CapRanking(blocks, full, half);
      var m := FlipCount(HomeHours(blocks, 5), target, ranked);
      Capped(blocks, target, full, half).1 == HomeHours(blocks, 5) - SumHours(ranked[..m])
  {
    var ranked := CapRanking(blocks, full, half);
    var hours := HomeHours(blocks, 5);
    CapRankingFacts(blocks, full, half);
    CapFlipPrefix(blocks, hours, target, ranked);
    PrefixHasDay(ranked, FlipCount(hours, target, ranked));
  }

  /** Without any half-day cost, HO-AM and HO-PM days are no cap
      candidates, so the cap pass keeps them. */
  lemma CapKeepsHalfDaysWithoutHalfCosts(blocks: seq<Block>, target: int, full: int -> Option<real>, half: (int, Section) -> Option<real>)
    requires |blocks| >= 5
    requires forall i, s :: half(i, s).None?
    ensures forall i :: 0 <= i < 5 && (blocks[i] == HomeAm || blocks[i] == HomePm) ==>
      Capped(blocks, target, full, half).0[i] == blocks[i]
  {
    var hours := HomeHours(blocks, 5);
    if hours > target {
      var ranked := CapRanking(blocks, full, half);
      CapRankingFacts(blocks, full, half);
      CapFlipPrefix(blocks, hours, target, ranked);
      var m := FlipCount(hours, target, ranked);
      forall i | 0 <= i < 5 && (blocks[i] == HomeAm || blocks[i] == HomePm)
        ensures !HasDay(ranked[..m], i)
      {
        forall k | 0 <= k < m
          ensures ranked[..m][k].day != i
        {
          assert CapCandidate(blocks, full, half, ranked[k]);
        }
      }
    }
  }
}
