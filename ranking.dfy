/** The ranking of weekdays that both passes of `weekly_plan` sort:
    `candidates.sort(key=cost, reverse=True)` for the conversion pass and
    `candidates.sort(key=cost)` for the cap pass.

    Python's sort is stable, also with `reverse=True`: candidates of equal
    cost keep the order they were collected in, which is ascending weekday.
    `Ranked` is such a stable sort (an insertion sort taking the candidates
    left to right), and `RankedIsStableSort` shows that it is the only
    permutation ordered by cost with ties broken by weekday. */
module Ranking {

  /** A candidate weekday, the home hours it stands for and its cost in
      minutes. */
  datatype Candidate = Candidate(day: int, hours: int, cost: real)

  /** `a` strictly ahead of `b` by cost alone. */
  predicate Precedes(a: Candidate, b: Candidate, highestFirst: bool)
  {
    if highestFirst then a.cost > b.cost else a.cost < b.cost
  }

  /** The order a stable sort leaves candidates in: by cost, and for equal
      cost by weekday. */
  predicate Before(a: Candidate, b: Candidate, highestFirst: bool)
  {
    Precedes(a, b, highestFirst) || (a.cost == b.cost && a.day < b.day)
  }

  predicate Ordered(s: seq<Candidate>, highestFirst: bool)
  {
    forall i, j :: 0 <= i < j < |s| ==> Before(s[i], s[j], highestFirst)
  }

  /** Candidates in the order they were collected: ascending weekday. */
  predicate DaysIncrease(s: seq<Candidate>)
  {
    forall i, j :: 0 <= i < j < |s| ==> s[i].day < s[j].day
  }

  /** `c` placed before the first candidate it strictly precedes, so after
      every candidate of equal cost. */
  function Insert(c: Candidate, s: seq<Candidate>, highestFirst: bool): (r: seq<Candidate>)
    ensures |r| == |s| + 1 && multiset(r) == multiset(s) + multiset{c}
  {
    if |s| == 0 then [c]
    else if Precedes(c, s[0], highestFirst) then [c] + s
    else
      assert s == [s[0]] + s[1..];
      [s[0]] + Insert(c, s[1..], highestFirst)
  }

  /** The stable sort of `s`. */
  function Ranked(s: seq<Candidate>, highestFirst: bool): (r: seq<Candidate>)
    ensures |r| == |s| && multiset(r) == multiset(s)
  {
    if |s| == 0 then []
    else
      assert s == s[..|s| - 1] + [s[|s| - 1]];
      Insert(s[|s| - 1], Ranked(s[..|s| - 1], highestFirst), highestFirst)
  }

  lemma BeforeTransitive(a: Candidate, b: Candidate, c: Candidate, highestFirst: bool)
    requires Before(a, b, highestFirst) && Before(b, c, highestFirst)
    ensures Before(a, c, highestFirst)
  {
  }

  lemma OrderedCons(x: Candidate, t: seq<Candidate>, highestFirst: bool)
    requires Ordered(t, highestFirst)
    requires forall y :: y in t ==> Before(x, y, highestFirst)
    ensures Ordered([x] + t, highestFirst)
  {
    var r := [x] + t;
    forall i, j | 0 <= i < j < |r|
      ensures Before(r[i], r[j], highestFirst)
    {
      assert r[j] == t[j - 1];
      if i > 0 {
        assert r[i] == t[i - 1];
      }
    }
  }

  lemma {:induction false} InsertOrdered(c: Candidate, s: seq<Candidate>, highestFirst: bool)
    requires Ordered(s, highestFirst)
    requires forall k :: 0 <= k < |s| ==> s[k].day < c.day
    ensures Ordered(Insert(c, s, highestFirst), highestFirst)
  {
    if |s| == 0 {
    } else if Precedes(c, s[0], highestFirst) {
      forall y | y in s
        ensures Before(c, y, highestFirst)
      {
        var k :| 0 <= k < |s| && s[k] == y;
        if k > 0 {
          assert Before(s[0], s[k], highestFirst);
        }
      }
      OrderedCons(c, s, highestFirst);
    } else {
      var t := s[1..];
      assert Ordered(t, highestFirst);
      InsertOrdered(c, t, highestFirst);
      var rt := Insert(c, t, highestFirst);
      assert Before(s[0], c, highestFirst);
      forall y | y in rt
        ensures Before(s[0], y, highestFirst)
      {
        assert y in multiset(rt);
        if y != c {
          assert y in multiset(t);
          var k :| 0 <= k < |t| && t[k] == y;
          assert s[k + 1] == y;
        }
      }
      OrderedCons(s[0], rt, highestFirst);
    }
  }

  /** Collected in weekday order and then ranked, the candidates are in
      cost order with ties by weekday. */
  lemma {:induction false} RankedOrdered(s: seq<Candidate>, highestFirst: bool)
    requires DaysIncrease(s)
    ensures Ordered(Ranked(s, highestFirst), highestFirst)
  {
    if |s| > 0 {
      var init := s[..|s| - 1];
      var c := s[|s| - 1];
      RankedOrdered(init, highestFirst);
      var r := Ranked(init, highestFirst);
      forall k | 0 <= k < |r|
        ensures r[k].day < c.day
      {
        assert r[k] in multiset(init);
        var m :| 0 <= m < |init| && init[m] == r[k];
      }
      InsertOrdered(c, r, highestFirst);
    }
  }

  /** Both orderings start with the same candidate: the head of each is
      ahead of every other element, so it is the head of the other too. */
  lemma HeadsAgree(a: seq<Candidate>, b: seq<Candidate>, highestFirst: bool)
    requires |a| > 0 && multiset(a) == multiset(b)
    requires Ordered(a, highestFirst) && Ordered(b, highestFirst)
    ensures |b| > 0 && a[0] == b[0]
  {
    assert a[0] in multiset(b);
    var k :| 0 <= k < |b| && b[k] == a[0];
    assert b[0] in multiset(a);
    var m :| 0 <= m < |a| && a[m] == b[0];
    forall j | 0 < j < |b|
      ensures b[j] != a[0]
    {
      assert Before(b[0], b[j], highestFirst);
      if m > 0 {
        assert Before(a[0], a[m], highestFirst);
      }
    }
  }

  lemma TailMultiset(a: seq<Candidate>)
    requires |a| > 0
    ensures multiset(a[1..]) == multiset(a) - multiset{a[0]}
  {
    assert a == [a[0]] + a[1..];
  }

  lemma OrderedTail(a: seq<Candidate>, highestFirst: bool)
    requires |a| > 0 && Ordered(a, highestFirst)
    ensures Ordered(a[1..], highestFirst)
  {
  }

  /** Every ranked candidate is one of the input. */
  lemma RankedFrom(s: seq<Candidate>, highestFirst: bool, j: int)
    requires 0 <= j < |Ranked(s, highestFirst)|
    ensures Ranked(s, highestFirst)[j] in s
  {
    assert Ranked(s, highestFirst)[j] in multiset(Ranked(s, highestFirst));
  }

  /** The days of the candidates lie in `0..n-1`. */
  predicate DaysBelow(s: seq<Candidate>, n: int)
  {
    forall k :: 0 <= k < |s| ==> 0 <= s[k].day < n
  }

  lemma RankedDaysBelow(s: seq<Candidate>, highestFirst: bool, n: int)
    requires DaysBelow(s, n)
    ensures DaysBelow(Ranked(s, highestFirst), n)
  {
    var r := Ranked(s, highestFirst);
    forall k | 0 <= k < |r|
      ensures 0 <= r[k].day < n
    {
      RankedFrom(s, highestFirst, k);
    }
  }

  /** Some candidate is for weekday `i`. */
  predicate HasDay(s: seq<Candidate>, i: int)
  {
    exists k :: 0 <= k < |s| && s[k].day == i
  }

  /** In a sequence of distinct weekdays, the `k`-th weekday is among the
      first `m` exactly when `k < m`. */
  lemma PrefixHasDay(s: seq<Candidate>, m: nat)
    requires m <= |s|
    requires forall i, j :: 0 <= i < j < |s| ==> s[i].day != s[j].day
    ensures forall k :: 0 <= k < |s| ==> (HasDay(s[..m], s[k].day) <==> k < m)
    ensures forall i :: HasDay(s[..m], i) ==> HasDay(s, i)
  {
    var top := s[..m];
    forall k | 0 <= k < |s|
      ensures HasDay(top, s[k].day) <==> k < m
    {
      if k < m {
        assert top[k] == s[k];
      }
      if HasDay(top, s[k].day) {
        var j :| 0 <= j < |top| && top[j].day == s[k].day;
        assert top[j] == s[j];
      }
    }
    forall i | HasDay(top, i)
      ensures HasDay(s, i)
    {
      var j :| 0 <= j < |top| && top[j].day == i;
      assert top[j] == s[j];
    }
  }

  /** Ranking candidates of distinct weekdays keeps their weekdays
      distinct. */
  lemma RankedDaysDistinct(s: seq<Candidate>, highestFirst: bool)
    requires DaysIncrease(s)
    ensures forall i, j :: 0 <= i < j < |Ranked(s, highestFirst)| ==>
      Ranked(s, highestFirst)[i].day != Ranked(s, highestFirst)[j].day
  {
    var r := Ranked(s, highestFirst);
    RankedOrdered(s, highestFirst);
    forall i, j | 0 <= i < j < |r|
      ensures r[i].day != r[j].day
    {
      assert Before(r[i], r[j], highestFirst);
      RankedFrom(s, highestFirst, i);
      RankedFrom(s, highestFirst, j);
      var a :| 0 <= a < |s| && s[a] == r[i];
      var b :| 0 <= b < |s| && s[b] == r[j];
      if a < b {
        assert s[a].day < s[b].day;
      } else if b < a {
        assert s[b].day < s[a].day;
      }
    }
  }

  /** The ranking is by cost: non-increasing when `highestFirst`,
      non-decreasing otherwise. */
  lemma RankedSorted(s: seq<Candidate>, highestFirst: bool)
    requires DaysIncrease(s)
    ensures forall k, j :: 0 <= k < j < |Ranked(s, highestFirst)| ==>
      if highestFirst then Ranked(s, highestFirst)[k].cost >= Ranked(s, highestFirst)[j].cost
      else Ranked(s, highestFirst)[k].cost <= Ranked(s, highestFirst)[j].cost
  {
    var r := Ranked(s, highestFirst);
    RankedOrdered(s, highestFirst);
    forall k, j | 0 <= k < j < |r|
      ensures if highestFirst then r[k].cost >= r[j].cost else r[k].cost <= r[j].cost
    {
      assert Before(r[k], r[j], highestFirst);
    }
  }

  /** Ranking loses no weekday. */
  lemma RankedHasDay(s: seq<Candidate>, highestFirst: bool, i: int)
    requires HasDay(s, i)
    ensures HasDay(Ranked(s, highestFirst), i)
  {
    var r := Ranked(s, highestFirst);
    var k :| 0 <= k < |s| && s[k].day == i;
    assert s[k] in multiset(r);
    var j :| 0 <= j < |r| && r[j] == s[k];
  }

  /** Two orderings of the same candidates that are both in stable-sort
      order are the same sequence. */
  lemma {:induction false} OrderedUnique(a: seq<Candidate>, b: seq<Candidate>, highestFirst: bool)
    requires multiset(a) == multiset(b)
    requires Ordered(a, highestFirst) && Ordered(b, highestFirst)
    ensures a == b
    decreases |a|
  {
    assert |a| == |multiset(a)| == |b|;
    if |a| > 0 {
      HeadsAgree(a, b, highestFirst);
      TailMultiset(a);
      TailMultiset(b);
      OrderedTail(a, highestFirst);
      OrderedTail(b, highestFirst);
      OrderedUnique(a[1..], b[1..], highestFirst);
      assert a == [a[0]] + a[1..] && b == [b[0]] + b[1..];
    }
  }

  /** `Ranked` is the stable sort by cost: a permutation of its input in
      cost order with equal costs in collection order, and any
      permutation with that property is `Ranked`. */
  lemma RankedIsStableSort(s: seq<Candidate>, highestFirst: bool, t: seq<Candidate>)
    requires DaysIncrease(s)
    ensures multiset(Ranked(s, highestFirst)) == multiset(s)
    ensures forall i, j :: 0 <= i < j < |s| ==>
      !Precedes(Ranked(s, highestFirst)[j], Ranked(s, highestFirst)[i], highestFirst)
    ensures multiset(t) == multiset(s) && Ordered(t, highestFirst) ==> t == Ranked(s, highestFirst)
  {
    RankedOrdered(s, highestFirst);
    if multiset(t) == multiset(s) && Ordered(t, highestFirst) {
      OrderedUnique(t, Ranked(s, highestFirst), highestFirst);
    }
  }
}
