/**
 * Smooth weighted round-robin over one fixed tier: every call adds each route's weight to its counter, picks
 * the first route with the largest counter, and takes the total weight back from it.
 */
module WeightedFairness {

  function Sum(s: seq<int>): int {
    if s == [] then 0 else s[0] + Sum(s[1..])
  }

  /** The first index of a largest element, as a left-to-right maximum keeps it. */
  function FirstMax(s: seq<int>): (k: nat)
    requires s != []
    ensures k < |s|
    ensures forall j :: 0 <= j < |s| ==> s[j] <= s[k]
    ensures forall j :: 0 <= j < k ==> s[j] < s[k]
  {
    if |s| == 1 then 0
    else
      var last := |s| - 1;
      var before := FirstMax(s[..last]);
      assert forall j :: 0 <= j < last ==> s[..last][j] == s[j];
      if s[last] > s[before] then last else before
  }

  function Bumped(weights: seq<int>, counters: seq<int>): (b: seq<int>)
    requires |weights| == |counters|
    ensures |b| == |weights|
  {
    seq(|weights|, i requires 0 <= i < |weights| => counters[i] + weights[i])
  }

  function Pick(weights: seq<int>, counters: seq<int>): (k: nat)
    requires |weights| == |counters| && weights != []
    ensures k < |weights|
  {
    FirstMax(Bumped(weights, counters))
  }

  function Tick(weights: seq<int>, counters: seq<int>): (c: seq<int>)
    requires |weights| == |counters| && weights != []
    ensures |c| == |weights|
  {
    var b := Bumped(weights, counters);
    var k := Pick(weights, counters);
    b[k := b[k] - Sum(weights)]
  }

  // ---- Runs of calls from an empty state ----

  predicate IsTier(weights: seq<int>) {
    weights != [] && (forall i :: 0 <= i < |weights| ==> 0 <= weights[i]) && Sum(weights) > 0
  }

  function Counters(weights: seq<int>, n: nat): (c: seq<int>)
    requires weights != []
    ensures |c| == |weights|
  {
    if n == 0 then seq(|weights|, _ => 0) else Tick(weights, Counters(weights, n - 1))
  }

  /** The route that call number n picks, counting calls from 0. */
  function Chosen(weights: seq<int>, n: nat): (k: nat)
    requires weights != []
    ensures k < |weights|
  {
    Pick(weights, Counters(weights, n))
  }

  /** How often route i is picked by the calls from number `first` up to but not including number `last`. */
  function Count(weights: seq<int>, i: nat, first: nat, last: nat): nat
    requires weights != [] && first <= last
    decreases last
  {
    if first == last then 0
    else Count(weights, i, first, last - 1) + if Chosen(weights, last - 1) == i then 1 else 0
  }

  // ---- Sums ----

  lemma {:induction false} SumBumped(weights: seq<int>, counters: seq<int>)
    requires |weights| == |counters|
    ensures Sum(Bumped(weights, counters)) == Sum(weights) + Sum(counters)
  {
    if weights != [] {
      SumBumped(weights[1..], counters[1..]);
      assert Bumped(weights, counters)[1..] == Bumped(weights[1..], counters[1..]);
    }
  }

  lemma {:induction false} SumUpdated(s: seq<int>, k: nat, x: int)
    requires k < |s|
    ensures Sum(s[k := x]) == Sum(s) - s[k] + x
  {
    if k > 0 {
      SumUpdated(s[1..], k - 1, x);
      assert s[k := x][1..] == s[1..][k - 1 := x];
    } else {
      assert s[k := x][1..] == s[1..];
    }
  }

  lemma {:induction false} SumBelow(s: seq<int>, bound: int)
    requires forall j :: 0 <= j < |s| ==> s[j] <= bound
    ensures Sum(s) <= |s| * bound
  {
    if s != [] {
      SumBelow(s[1..], bound);
    }
  }

  lemma {:induction false} SumAbove(s: seq<int>, bound: int)
    requires forall j :: 0 <= j < |s| ==> s[j] >= bound
    ensures Sum(s) >= |s| * bound
  {
    if s != [] {
      SumAbove(s[1..], bound);
    }
  }

  /** One element is at most the sum less the least the others can add up to. */
  lemma ElementFromSum(s: seq<int>, i: nat, bound: int)
    requires i < |s| && forall j :: 0 <= j < |s| ==> s[j] >= bound
    ensures s[i] <= Sum(s) - (|s| - 1) * bound
  {
    SumUpdated(s, i, bound);
    SumAbove(s[i := bound], bound);
  }

  lemma {:induction false} EqualFromSum(s: seq<int>, t: seq<int>, i: nat)
    requires |s| == |t| && Sum(s) == Sum(t) && i < |s|
    requires forall j :: 0 <= j < |s| ==> s[j] <= t[j]
    ensures s[i] == t[i]
  {
    var difference := seq(|s|, j requires 0 <= j < |s| => t[j] - s[j]);
    assert t == Bumped(s, difference);
    SumBumped(s, difference);
    ElementFromSum(difference, i, 0);
  }

  // ---- The invariant of a call ----

  /** A picked counter was positive, so taking the total back leaves it above minus the total. */
  lemma TickKeepsBalance(weights: seq<int>, counters: seq<int>)
    requires IsTier(weights) && |counters| == |weights| && Sum(counters) == 0
    requires forall i :: 0 <= i < |counters| ==> counters[i] > -Sum(weights)
    ensures Sum(Tick(weights, counters)) == 0
    ensures forall i :: 0 <= i < |weights| ==> Tick(weights, counters)[i] > -Sum(weights)
  {
    hide Sum;
    var b, k := Bumped(weights, counters), Pick(weights, counters);
    SumBumped(weights, counters);
    SumUpdated(b, k, b[k] - Sum(weights));
    if b[k] <= 0 {
      SumBelow(b, 0);
    }
  }

  lemma {:induction false} Balance(weights: seq<int>, n: nat)
    requires IsTier(weights)
    ensures Sum(Counters(weights, n)) == 0
    ensures forall i :: 0 <= i < |weights| ==> Counters(weights, n)[i] > -Sum(weights)
  {
    if n == 0 {
      SumAbove(Counters(weights, 0), 0);
      SumBelow(Counters(weights, 0), 0);
    } else {
      Balance(weights, n - 1);
      TickKeepsBalance(weights, Counters(weights, n - 1));
    }
  }

  lemma TickMoves(weights: seq<int>, counters: seq<int>, i: nat)
    requires |weights| == |counters| && i < |weights|
    ensures Tick(weights, counters)[i]
         == counters[i] + weights[i] - if Pick(weights, counters) == i then Sum(weights) else 0
  {
  }

  lemma TimesOneMore(a: int, b: int)
    ensures (a + 1) * b == a * b + b
  {
  }

  /** Between two calls a counter moves by what the route was due less what it was given. */
  lemma {:induction false} CounterIsDueLessGiven(weights: seq<int>, i: nat, first: nat, last: nat)
    requires weights != [] && i < |weights| && first <= last
    ensures Counters(weights, last)[i]
         == Counters(weights, first)[i] + (last - first) * weights[i] - Count(weights, i, first, last) * Sum(weights)
    decreases last
  {
    hide Tick, Pick, Sum;
    if first < last {
      CounterIsDueLessGiven(weights, i, first, last - 1);
      TickMoves(weights, Counters(weights, last - 1), i);
      TimesOneMore(last - 1 - first, weights[i]);
      TimesOneMore(Count(weights, i, first, last - 1), Sum(weights));
    }
  }

  // ---- Fairness ----

  /** After n calls no route is ahead of its due share by a whole pick, nor behind it by |routes| - 1 picks. */
  lemma {:induction false} NoRouteRunsAhead(weights: seq<int>, i: nat, n: nat)
    requires IsTier(weights) && i < |weights|
    ensures Count(weights, i, 0, n) * Sum(weights) < n * weights[i] + Sum(weights)
    ensures Count(weights, i, 0, n) * Sum(weights) >= n * weights[i] - (|weights| - 1) * (Sum(weights) - 1)
  {
    hide Sum, Count, Tick;
    Balance(weights, n);
    CounterIsDueLessGiven(weights, i, 0, n);
    assert Counters(weights, 0)[i] == 0;
    hide Counters;
    assert Counters(weights, n)[i] > -Sum(weights);
    ElementFromSum(Counters(weights, n), i, 1 - Sum(weights));
    Negated(|weights| - 1, Sum(weights) - 1);
  }

  lemma Negated(a: int, b: int)
    ensures a * -b == -(a * b)
  {
  }

  lemma {:induction false} CountsAddUp(weights: seq<int>, n: nat, counts: seq<int>)
    requires weights != [] && counts == seq(|weights|, i requires 0 <= i < |weights| => Count(weights, i, 0, n))
    ensures Sum(counts) == n
  {
    if n == 0 {
      SumAbove(counts, 0);
      SumBelow(counts, 0);
    } else {
      var before := seq(|weights|, i requires 0 <= i < |weights| => Count(weights, i, 0, n - 1));
      CountsAddUp(weights, n - 1, before);
      var k := Chosen(weights, n - 1);
      assert counts == before[k := before[k] + 1];
      SumUpdated(before, k, before[k] + 1);
    }
  }

  lemma TimesGrows(a: int, b: int, total: int)
    requires total > 0 && a > b
    ensures a * total >= b * total + total
  {
    assert (a - b - 1) * total >= 0;
    assert (a - b - 1) * total == a * total - b * total - total;
  }

  lemma LessThanOneMore(a: int, b: int, total: int)
    requires total > 0 && a * total < b * total + total
    ensures a <= b
  {
    if a > b {
      TimesGrows(a, b, total);
    }
  }

  /** The first total calls pick every route exactly as often as its weight, and clear every counter. */
  lemma {:induction false} FirstRoundIsExact(weights: seq<int>, i: nat)
    requires IsTier(weights) && i < |weights|
    ensures Count(weights, i, 0, Sum(weights)) == weights[i]
    ensures Counters(weights, Sum(weights))[i] == 0
  {
    var total := Sum(weights);
    var counts := seq(|weights|, j requires 0 <= j < |weights| => Count(weights, j, 0, total));
    CountsAddUp(weights, total, counts);
    forall j | 0 <= j < |weights| ensures counts[j] <= weights[j] {
      NoRouteRunsAhead(weights, j, total);
      assert total * weights[j] == weights[j] * total;
      LessThanOneMore(counts[j], weights[j], total);
    }
    EqualFromSum(counts, weights, i);
    CounterIsDueLessGiven(weights, i, 0, total);
    assert total * weights[i] == weights[i] * total;
  }

  lemma NextCounters(weights: seq<int>, n: int)
    requires weights != [] && n > 0
    ensures Counters(weights, n) == Tick(weights, Counters(weights, n - 1))
  {
  }

  /** From wherever two moments agree on the counters, everything after them agrees. */
  lemma {:induction false} SameFromThere(weights: seq<int>, a: nat, b: nat, n: nat)
    requires weights != [] && Counters(weights, a) == Counters(weights, b)
    ensures Counters(weights, a + n) == Counters(weights, b + n)
  {
    hide *;
    if n > 0 {
      SameFromThere(weights, a, b, n - 1);
      NextCounters(weights, a + n);
      NextCounters(weights, b + n);
    }
  }

  lemma RoundsRepeat(weights: seq<int>, n: nat)
    requires IsTier(weights)
    ensures Counters(weights, Sum(weights) + n) == Counters(weights, n)
  {
    var total := Sum(weights);
    forall i | 0 <= i < |weights| ensures Counters(weights, total)[i] == Counters(weights, 0)[i] {
      FirstRoundIsExact(weights, i);
    }
    SameFromThere(weights, total, 0, n);
  }

  /** Any total calls in a row, wherever they start, pick every route exactly as often as its weight. */
  lemma {:induction false} EveryWindowIsExact(weights: seq<int>, i: nat, n: nat)
    requires IsTier(weights) && i < |weights|
    ensures Count(weights, i, n, n + Sum(weights)) == weights[i]
  {
    var total := Sum(weights);
    RoundsRepeat(weights, n);
    CounterIsDueLessGiven(weights, i, n, n + total);
    var count := Count(weights, i, n, n + total);
    assert count * total == weights[i] * total;
    LessThanOneMore(count, weights[i], total);
    LessThanOneMore(weights[i], count, total);
  }
}
