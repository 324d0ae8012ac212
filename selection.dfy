/** The two search primitives every scanner of the planner is built from:
    Python's `range(start, stop, step)` and the "keep the best so far, replace
    only on a strictly smaller value" selection. */
module Selection {
  import opened Wrappers

  /** The values of Python's `range(start, stop, step)`; a zero step raises
      in Python, so it is excluded here and handled by the callers. */
  function PyRange(start: int, stop: int, step: int): seq<int>
    requires step != 0
    decreases if step > 0 then stop - start else start - stop
  {
    if (step > 0 && start < stop) || (step < 0 && start > stop)
    then [start] + PyRange(start + step, stop, step)
    else []
  }

  /** A loop walking a range: the value at position `i` is `current`, and the
      rest of the range starts one step later. */
  lemma RangeAdvance(vals: seq<int>, i: nat, current: int, stop: int, step: int)
    requires step > 0 && current < stop
    requires i <= |vals| && vals[i..] == PyRange(current, stop, step)
    ensures i < |vals| && vals[i] == current
    ensures vals[i + 1..] == PyRange(current + step, stop, step)
  {
    assert vals[i..][0] == vals[i];
    assert vals[i + 1..] == vals[i..][1..];
  }

  lemma MulNonNeg(a: int, b: int)
    ensures a >= 0 && b >= 0 ==> a * b >= 0
  {
  }

  lemma MulMono(a: int, b: int, s: int)
    ensures s > 0 && a < b ==> a * s < b * s
  {
    MulNonNeg(b - a - 1, s);
    assert (b - a - 1) * s + s == b * s - a * s;
  }

  lemma MulSucc(n: int, s: int)
    ensures (n + 1) * s == s + n * s
  {
  }

  /** Euclidean division is unique. */
  lemma DivModUnique(a: int, s: int, q: int, r: int)
    requires s > 0 && 0 <= r < s && a == q * s + r
    ensures a / s == q && a % s == r
  {
    var d := a / s - q;
    assert d * s == r - a % s;
    MulNonNeg(d - 1, s);
    MulNonNeg(-d - 1, s);
    assert (d - 1) * s == d * s - s;
    assert (-d - 1) * s == -(d * s) - s;
  }

  lemma ModStep(x: int, s: int)
    requires s > 0
    ensures (x + s) % s == x % s && (x + s) / s == x / s + 1
  {
    DivModUnique(x + s, s, x / s + 1, x % s);
  }

  /** The `k`-th positive multiple of `s`, counted from zero. */
  lemma NextMultiple(k: int, s: int)
    requires s > 0 && k >= 0
    ensures s + k * s >= s && (s + k * s) % s == 0
  {
    MulNonNeg(k, s);
    DivModUnique(s + k * s, s, k + 1, 0);
  }

  lemma ModSmall(x: int, s: int)
    requires s > 0
    ensures 0 <= x < s ==> x % s == x && x / s == 0
  {
    if 0 <= x < s { DivModUnique(x, s, 0, x); }
  }

  /** The k-th value of a range is `start + k*step`. */
  lemma {:induction false} PyRangeAt(start: int, stop: int, step: int, k: int)
    requires step != 0
    requires 0 <= k < |PyRange(start, stop, step)|
    ensures PyRange(start, stop, step)[k] == start + k * step
    decreases if step > 0 then stop - start else start - stop
  {
    if k > 0 {
      PyRangeAt(start + step, stop, step, k - 1);
    }
  }

  /** With a positive step, a range holds exactly the values of the
      arithmetic grid `start + k*step` below `stop`. */
  lemma {:induction false} PyRangeMembers(start: int, stop: int, step: int, c: int)
    requires step > 0
    ensures c in PyRange(start, stop, step) <==> start <= c < stop && (c - start) % step == 0
    decreases stop - start
  {
    if start < stop {
      PyRangeMembers(start + step, stop, step, c);
      ModStep(c - start - step, step);
      ModSmall(c - start, step);
    }
  }

  /** A range with a positive step and `start <= last` evaluates exactly
      `(last - start) / step + 1` values when its stop is `last + 1`. */
  lemma {:induction false} PyRangeCount(start: int, last: int, step: int)
    requires step > 0
    ensures |PyRange(start, last + 1, step)| == if start <= last then (last - start) / step + 1 else 0
    decreases last - start
  {
    if start <= last {
      PyRangeCount(start + step, last, step);
      ModStep(last - start - step, step);
      ModSmall(last - start, step);
    }
  }

  /** A range with a positive step is strictly increasing. */
  lemma {:induction false} PyRangeIncreasing(start: int, stop: int, step: int, i: int, j: int)
    requires step > 0
    requires 0 <= i < j < |PyRange(start, stop, step)|
    ensures PyRange(start, stop, step)[i] < PyRange(start, stop, step)[j]
  {
    PyRangeAt(start, stop, step, i);
    PyRangeAt(start, stop, step, j);
    assert (j - i) * step > 0;
  }

  /** Index of the first strictly smallest present value: the fold that
      keeps the first candidate seen and replaces it only by a strictly
      smaller one. */
  function FirstMin(costs: seq<Option<real>>): (r: Option<nat>)
    ensures r.Some? ==> r.value < |costs| && costs[r.value].Some?
    decreases |costs|
  {
    if |costs| == 0 then None
    else
      var prev := FirstMin(costs[..|costs| - 1]);
      var last := costs[|costs| - 1];
      if last.Some? && (prev.None? || last.value < costs[prev.value].value) then Some(|costs| - 1)
      else prev
  }

  /** `k` holds a smallest present value, and every present value before it is larger. */
  ghost predicate IsFirstMin(costs: seq<Option<real>>, k: int)
  {
    0 <= k < |costs| && costs[k].Some? &&
    (forall j :: 0 <= j < |costs| && costs[j].Some? ==> costs[k].value <= costs[j].value) &&
    (forall j :: 0 <= j < k && costs[j].Some? ==> costs[k].value < costs[j].value)
  }

  ghost predicate NonePresent(costs: seq<Option<real>>)
  {
    forall j :: 0 <= j < |costs| ==> costs[j].None?
  }

  /** The fold finds nothing exactly when nothing is present, and otherwise
      finds the earliest minimum. */
  lemma {:induction false} FirstMinCorrect(costs: seq<Option<real>>)
    ensures FirstMin(costs).None? <==> NonePresent(costs)
    ensures FirstMin(costs).Some? ==> IsFirstMin(costs, FirstMin(costs).value)
    decreases |costs|
  {
    if |costs| > 0 {
      var init := costs[..|costs| - 1];
      FirstMinCorrect(init);
      assert forall j :: 0 <= j < |init| ==> init[j] == costs[j];
    }
  }

  /** The earliest minimum is unique, so the fold is characterised by it. */
  lemma FirstMinIff(costs: seq<Option<real>>, k: int)
    ensures FirstMin(costs) == Some(k) <==> IsFirstMin(costs, k)
  {
    FirstMinCorrect(costs);
    if IsFirstMin(costs, k) {
      var f := FirstMin(costs).value;
      assert costs[f].value == costs[k].value;
    }
  }

  /** One more value extends the fold the way the scanners' loop bodies do. */
  lemma FirstMinSnoc(costs: seq<Option<real>>, n: nat)
    requires 0 <= n < |costs|
    ensures FirstMin(costs[..n + 1]) ==
      var prev := FirstMin(costs[..n]);
      if costs[n].Some? && (prev.None? || costs[n].value < costs[prev.value].value) then Some(n) else prev
  {
    assert costs[..n + 1][..n] == costs[..n];
  }
}
