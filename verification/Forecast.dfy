/**
  Cost forecasts: interpolated percentiles of past task costs, a heuristic when
  there are none, and the rescaling of a forecast that was overspent.  Money is
  a real number; a quotient by zero, which IEEE arithmetic carries on as an
  infinity, is None.
 */
module Forecast {
  import opened Wrappers

  datatype CostForecast = CostForecast(min: real, expected: real, max: real, confidence: real, basisTaskCount: nat)
  {
    predicate Ordered() { min <= expected <= max }
  }

  // ---- Percentiles ----

  ghost predicate Sorted(s: seq<real>) {
    forall i, j :: 0 <= i <= j < |s| ==> s[i] <= s[j]
  }

  function Ceil(x: real): int {
    if x == x.Floor as real then x.Floor else x.Floor + 1
  }

  function Blend(lo: real, hi: real, f: real): real { lo * (1.0 - f) + hi * f }

  function Interpolate(sorted: seq<real>, rank: real): real
    requires 0.0 <= rank <= (|sorted| - 1) as real
  {
    var lower, upper := rank.Floor, Ceil(rank);
    if lower == upper then sorted[lower]
    else
      var fraction := rank - lower as real;
      Blend(sorted[lower], sorted[upper], fraction)
  }

  lemma TimesIsMonotone(a: real, b: real, k: real)
    requires a <= b && 0.0 <= k
    ensures a * k <= b * k
  {
  }

  lemma ShareOf(p: real, k: real)
    requires 0.0 <= p <= 1.0 && 0.0 <= k
    ensures 0.0 <= p * k <= k
  {
  }

  /** Where percentile p falls among n values, counted from 0. */
  function Rank(n: nat, p: real): (r: real)
    requires n >= 1 && 0.0 <= p <= 1.0
    ensures 0.0 <= r <= (n - 1) as real
  {
    var last := (n - 1) as real;
    ShareOf(p, last);
    p * last
  }

  lemma RankIsMonotone(n: nat, p: real, q: real)
    requires n >= 1 && 0.0 <= p <= q <= 1.0
    ensures Rank(n, p) <= Rank(n, q)
  {
    TimesIsMonotone(p, q, (n - 1) as real);
  }

  function Percentile(sorted: seq<real>, p: real): real {
    if |sorted| == 0 then 0.0
    else if |sorted| == 1 then sorted[0]
    else if p <= 0.0 then sorted[0]
    else if p >= 1.0 then sorted[|sorted| - 1]
    else Interpolate(sorted, Rank(|sorted|, p))
  }

  lemma BlendIsMonotone(lo: real, hi: real, f: real, g: real)
    requires lo <= hi && f <= g
    ensures Blend(lo, hi, f) <= Blend(lo, hi, g)
  {
    TimesIsMonotone(f, g, hi - lo);
    BlendFromLow(lo, hi, f);
    BlendFromLow(lo, hi, g);
  }

  lemma BlendFromLow(lo: real, hi: real, f: real)
    ensures Blend(lo, hi, f) == lo + f * (hi - lo)
  {
  }

  /** Between two neighbours the interpolated value stays between them. */
  lemma BetweenNeighbours(s: seq<real>, rank: real)
    requires Sorted(s) && 0.0 <= rank <= (|s| - 1) as real
    ensures s[rank.Floor] <= Interpolate(s, rank) <= s[Ceil(rank)]
  {
    var lower, upper := rank.Floor, Ceil(rank);
    if lower != upper {
      var lo, hi, f := s[lower], s[upper], rank - lower as real;
      BlendIsMonotone(lo, hi, 0.0, f);
      BlendIsMonotone(lo, hi, f, 1.0);
      BlendFromLow(lo, hi, 0.0);
      BlendFromLow(lo, hi, 1.0);
      assert Interpolate(s, rank) == Blend(lo, hi, f);
    }
  }

  lemma InterpolateIsMonotone(s: seq<real>, r1: real, r2: real)
    requires Sorted(s) && 0.0 <= r1 <= r2 <= (|s| - 1) as real
    ensures Interpolate(s, r1) <= Interpolate(s, r2)
  {
    BetweenNeighbours(s, r1);
    BetweenNeighbours(s, r2);
    if r1.Floor == r2.Floor && Ceil(r1) == Ceil(r2) && r1.Floor != Ceil(r1) {
      var lo, hi := s[r1.Floor], s[Ceil(r1)];
      BlendIsMonotone(lo, hi, r1 - r1.Floor as real, r2 - r2.Floor as real);
      assert Interpolate(s, r1) == Blend(lo, hi, r1 - r1.Floor as real);
      assert Interpolate(s, r2) == Blend(lo, hi, r2 - r2.Floor as real);
    } else if r1.Floor != r2.Floor {
      assert Ceil(r1) <= r2.Floor;
    }
  }

  /** Percentiles grow with p and never leave the range of the data. */
  lemma PercentileIsMonotone(s: seq<real>, p: real, q: real)
    requires Sorted(s) && |s| > 0 && p <= q
    ensures s[0] <= Percentile(s, p) <= Percentile(s, q) <= s[|s| - 1]
  {
    PercentileInRange(s, p);
    PercentileInRange(s, q);
    if |s| > 1 && 0.0 < p && q < 1.0 {
      RankIsMonotone(|s|, p, q);
      InterpolateIsMonotone(s, Rank(|s|, p), Rank(|s|, q));
    }
  }

  lemma PercentileInRange(s: seq<real>, p: real)
    requires Sorted(s) && |s| > 0
    ensures s[0] <= Percentile(s, p) <= s[|s| - 1]
  {
    if |s| > 1 && 0.0 < p < 1.0 {
      BetweenNeighbours(s, Rank(|s|, p));
    }
  }

  lemma Regroup(a: real, b: real, c: real)
    ensures (a * b) * c == a * (c * b)
  {
  }

  lemma StretchComparison(a: real, b: real, k: real, ak: real, bk: real)
    requires k > 0.0 && ak == a * k && bk == b * k
    ensures ak <= bk <==> a <= b
  {
    if a <= b {
      TimesIsMonotone(a, b, k);
    } else {
      assert (a - b) * k > 0.0;
      assert (a - b) * k == a * k - b * k;
    }
  }

  /** A share of n is not positive, or the whole, exactly when the part is. */
  lemma Share(k: real, n: real, p: real)
    requires n > 0.0 && p == k / n
    ensures p * n == k && (p <= 0.0 <==> k <= 0.0) && (p >= 1.0 <==> k >= n)
  {
    assert p * n == k;
    StretchComparison(1.0, p, n, n, k);
    StretchComparison(p, 0.0, n, k, 0.0);
  }

  /** At rank k / (n - 1) the percentile is the k-th value itself. */
  lemma PercentileHitsEveryValue(s: seq<real>, k: nat)
    requires |s| > 1 && k < |s|
    ensures Percentile(s, k as real / (|s| - 1) as real) == s[k]
  {
    var n := (|s| - 1) as real;
    var p := k as real / n;
    Share(k as real, n, p);
    if 0 < k < |s| - 1 {
      var r := k as real;
      assert Rank(|s|, p) == r && r.Floor == k;
    }
  }

  /** Between two data points it is linear. */
  lemma PercentileIsLinear(s: seq<real>, p: real, k: nat, rank: real)
    requires 0.0 <= p <= 1.0 && k + 1 < |s| && rank == p * (|s| - 1) as real && k as real <= rank <= (k + 1) as real
    ensures Percentile(s, p) == s[k] + (rank - k as real) * (s[k + 1] - s[k])
  {
    var last := (|s| - 1) as real;
    if p == 0.0 {
      assert rank == 0.0 && k == 0;
    } else if p == 1.0 {
      assert rank == last && k + 1 == |s| - 1;
    } else {
      assert Rank(|s|, p) == rank;
      InterpolateIsLinear(s, rank, k);
    }
  }

  lemma InterpolateIsLinear(s: seq<real>, rank: real, k: nat)
    requires k + 1 < |s| && k as real <= rank <= (k + 1) as real
    ensures Interpolate(s, rank) == s[k] + (rank - k as real) * (s[k + 1] - s[k])
  {
    if rank == k as real {
      assert rank.Floor == k;
    } else if rank == (k + 1) as real {
      assert rank.Floor == k + 1;
    } else {
      assert rank.Floor == k && Ceil(rank) == k + 1;
      BlendFromLow(s[k], s[k + 1], rank - k as real);
    }
  }

  // ---- Sorting the history ----

  function Insert(x: real, s: seq<real>): (r: seq<real>)
    ensures multiset(r) == multiset(s) + multiset{x}
    ensures Sorted(s) ==> Sorted(r)
  {
    if s == [] then [x]
    else if x <= s[0] then [x] + s
    else
      assert s == [s[0]] + s[1..];
      var rest := Insert(x, s[1..]);
      assert Sorted(s) ==> Sorted([s[0]] + rest) by {
        if Sorted(s) {
          assert Sorted(s[1..]);
          PrependKeepsSorted(s, x, rest);
        }
      }
      [s[0]] + rest
  }

  lemma PrependKeepsSorted(s: seq<real>, x: real, rest: seq<real>)
    requires s != [] && Sorted(s) && s[0] <= x
    requires Sorted(rest) && multiset(rest) == multiset(s[1..]) + multiset{x}
    ensures Sorted([s[0]] + rest)
  {
    forall i | 0 <= i < |rest| ensures s[0] <= rest[i] {
      assert rest[i] in multiset(rest);
      assert rest[i] == x || rest[i] in s[1..];
    }
  }

  /** What the library sort leaves in the slice. */
  function SortFloats(s: seq<real>): (r: seq<real>)
    ensures Sorted(r) && multiset(r) == multiset(s)
  {
    if s == [] then []
    else
      assert s == [s[0]] + s[1..];
      Insert(s[0], SortFloats(s[1..]))
  }

  lemma TailMultiset(a: seq<real>)
    requires a != []
    ensures multiset(a[1..]) == multiset(a) - multiset{a[0]}
  {
    assert a == [a[0]] + a[1..];
  }

  lemma SmallestFirst(a: seq<real>, b: seq<real>)
    requires Sorted(a) && Sorted(b) && multiset(a) == multiset(b) && a != [] && b != []
    ensures a[0] == b[0]
  {
    assert a[0] in multiset(b) && b[0] in multiset(a);
    assert a[0] in b && b[0] in a;
  }

  lemma {:induction false} SortedIsUnique(a: seq<real>, b: seq<real>)
    requires Sorted(a) && Sorted(b) && multiset(a) == multiset(b)
    ensures a == b
  {
    assert |a| == |multiset(a)| == |multiset(b)| == |b|;
    if a != [] {
      SmallestFirst(a, b);
      TailMultiset(a);
      TailMultiset(b);
      var a', b' := a[1..], b[1..];
      SortedIsUnique(a', b');
      assert a == [a[0]] + a' && b == [b[0]] + b';
    }
  }

  // ---- Forecasts ----

  datatype Heuristic = Heuristic(baseCostPerFile: real, minMultiplier: real, maxMultiplier: real)

  function HeuristicFor(complexity: string): Heuristic {
    if complexity == "routine" then Heuristic(0.01, 0.5, 2.0)
    else if complexity == "complex" then Heuristic(0.15, 0.3, 3.0)
    else if complexity == "critical" then Heuristic(0.40, 0.3, 4.0)
    else Heuristic(0.05, 0.4, 2.5)
  }

  function HeuristicForecast(complexity: string, targetFiles: int): CostForecast {
    var h := HeuristicFor(complexity);
    var files := if targetFiles < 1 then 1 else targetFiles;
    var expected := h.baseCostPerFile * files as real;
    CostForecast(expected * h.minMultiplier, expected, expected * h.maxMultiplier, 0.0, 0)
  }

  function Confidence(basis: nat): real {
    if basis as real / 20.0 <= 1.0 then basis as real / 20.0 else 1.0
  }

  function ForecastFrom(taskCosts: seq<real>, complexity: string, targetFiles: int): CostForecast {
    if |taskCosts| == 0 then HeuristicForecast(complexity, targetFiles)
    else
      var s := SortFloats(taskCosts);
      CostForecast(Percentile(s, 0.10), Percentile(s, 0.50), Percentile(s, 0.90), Confidence(|s|), |s|)
  }

  /** Every forecast is ordered, whatever the history, the tier and the file count. */
  lemma ForecastIsOrdered(taskCosts: seq<real>, complexity: string, targetFiles: int)
    ensures ForecastFrom(taskCosts, complexity, targetFiles).Ordered()
    ensures 0.0 <= ForecastFrom(taskCosts, complexity, targetFiles).confidence <= 1.0
    ensures (forall c :: c in taskCosts ==> c > 0.0) ==> ForecastFrom(taskCosts, complexity, targetFiles).min > 0.0
  {
    if |taskCosts| > 0 {
      var s := SortFloats(taskCosts);
      assert |s| == |multiset(s)| == |multiset(taskCosts)|;
      PercentileIsMonotone(s, 0.10, 0.50);
      PercentileIsMonotone(s, 0.50, 0.90);
      assert s[0] in multiset(taskCosts) && s[0] in taskCosts;
    } else {
      var h := HeuristicFor(complexity);
      var files := if targetFiles < 1 then 1 else targetFiles;
      var e := h.baseCostPerFile * files as real;
      TimesIsMonotone(1.0, files as real, h.baseCostPerFile);
      assert e >= h.baseCostPerFile > 0.0;
    }
  }

  /** The value a forecast gives for one of its three percentiles. */
  function At(f: CostForecast, p: real): real { if p == 0.10 then f.min else if p == 0.50 then f.expected else f.max }

  /** Its values lie at a tenth, a half and nine tenths of the sorted history, between the two costs around that place. */
  lemma ForecastReadsHistory(taskCosts: seq<real>, sorted: seq<real>, complexity: string, targetFiles: int,
                             p: real, k: nat, rank: real)
    requires Sorted(sorted) && multiset(sorted) == multiset(taskCosts) && (p == 0.10 || p == 0.50 || p == 0.90)
    requires k + 1 < |sorted| && rank == p * (|sorted| - 1) as real && k as real <= rank <= (k + 1) as real
    ensures At(ForecastFrom(taskCosts, complexity, targetFiles), p) == sorted[k] + (rank - k as real) * (sorted[k + 1] - sorted[k])
  {
    assert |sorted| == |multiset(sorted)| == |multiset(taskCosts)| == |taskCosts|;
    SortedIsUnique(SortFloats(taskCosts), sorted);
    PercentileIsLinear(sorted, p, k, rank);
  }

  /** It says how many tasks it rests on, and is sure from twenty on. */
  lemma ForecastCountsHistory(taskCosts: seq<real>, complexity: string, targetFiles: int)
    requires taskCosts != []
    ensures var f := ForecastFrom(taskCosts, complexity, targetFiles);
            && f.basisTaskCount == |taskCosts|
            && (f.confidence == 1.0 <==> |taskCosts| >= 20)
            && (|taskCosts| <= 20 ==> f.confidence * 20.0 == |taskCosts| as real)
            && (|taskCosts| == 1 ==> f.min == f.expected == f.max == taskCosts[0])
  {
    var s := SortFloats(taskCosts);
    assert |s| == |multiset(s)| == |multiset(taskCosts)| == |taskCosts|;
    if |s| == 1 { assert s[0] in multiset(taskCosts) && s[0] in taskCosts; }
  }

  /** Without a history the tier decides, per file; an unknown one counts as moderate, and fewer than one file as one. */
  lemma TiersWithoutHistory(complexity: string, targetFiles: int, files: real)
    requires files == if targetFiles < 1 then 1.0 else targetFiles as real
    ensures var f := ForecastFrom([], complexity, targetFiles);
            && f.confidence == 0.0 && f.basisTaskCount == 0
            && if complexity == "routine" then f.min == 0.005 * files && f.expected == 0.01 * files && f.max == 0.02 * files
               else if complexity == "complex" then f.min == 0.045 * files && f.expected == 0.15 * files && f.max == 0.45 * files
               else if complexity == "critical" then f.min == 0.12 * files && f.expected == 0.4 * files && f.max == 1.6 * files
               else f.min == 0.02 * files && f.expected == 0.05 * files && f.max == 0.125 * files
  {
  }

  /** The order in which the database returns the task costs does not matter. */
  lemma ForecastIgnoresOrder(a: seq<real>, b: seq<real>, complexity: string, targetFiles: int)
    requires multiset(a) == multiset(b)
    ensures ForecastFrom(a, complexity, targetFiles) == ForecastFrom(b, complexity, targetFiles)
  {
    assert |a| == |multiset(a)| == |multiset(b)| == |b|;
    SortedIsUnique(SortFloats(a), SortFloats(b));
  }

  method Forecast(taskCosts: array<real>, complexity: string, targetFiles: int) returns (f: CostForecast)
    modifies taskCosts
    ensures f == ForecastFrom(old(taskCosts[..]), complexity, targetFiles)
    ensures Sorted(taskCosts[..]) && multiset(taskCosts[..]) == multiset(old(taskCosts[..]))
  {
    if taskCosts.Length == 0 {
      return HeuristicForecast(complexity, targetFiles);
    }
    var sorted := SortFloats(taskCosts[..]);
    assert |sorted| == |multiset(sorted)| == |multiset(taskCosts[..])|;
    forall i | 0 <= i < taskCosts.Length {
      taskCosts[i] := sorted[i];
    }
    assert taskCosts[..] == sorted;
    var basisCount := taskCosts.Length;
    var minCost := Percentile(taskCosts[..], 0.10);
    var expectedCost := Percentile(taskCosts[..], 0.50);
    var maxCost := Percentile(taskCosts[..], 0.90);
    return CostForecast(minCost, expectedCost, maxCost, Confidence(basisCount), basisCount);
  }

  function Updated(base: CostForecast, spend: real): Option<CostForecast> {
    if spend > base.expected then
      if base.expected == 0.0 then None
      else
        var scale := spend / base.expected;
        Some(CostForecast(spend, spend * (1.0 + 0.2 * scale), base.max * scale, base.confidence * 0.8, base.basisTaskCount))
    else Some(base)
  }

  /**
    An overspent forecast keeps its minimum lowest, but its expected value stays
    below its maximum exactly when the old max : expected ratio was wide enough.
   */
  lemma OverspendOrder(base: CostForecast, spend: real)
    requires base.Ordered() && base.expected > 0.0 && spend > base.expected
    ensures var u := Updated(base, spend).value;
            && u.min <= u.expected && u.min <= u.max
            && (u.Ordered() <==> base.max / base.expected >= 1.0 + 0.2 * (spend / base.expected))
  {
    var scale := spend / base.expected;
    OverspendAlgebra(base.expected, base.max, spend, scale, 1.0 + 0.2 * scale, base.max / base.expected);
  }

  lemma OverspendAlgebra(e: real, max: real, spend: real, scale: real, k: real, ratio: real)
    requires 0.0 < e <= max && e < spend && scale * e == spend && ratio * e == max && k == 1.0 + 0.2 * scale
    ensures spend <= spend * k && spend <= max * scale
    ensures spend * k <= max * scale <==> k <= ratio
  {
    StretchComparison(1.0, scale, e, e, spend);
    TimesIsMonotone(e, max, scale);
    TimesIsMonotone(1.0, k, spend);
    var a, b := spend * k, max * scale;
    assert a == k * spend;
    assert b == ratio * spend by { Regroup(ratio, e, scale); }
    StretchComparison(k, ratio, spend, a, b);
  }

  /** Within the forecast nothing changes; past it the maximum keeps its ratio to what is spent, and a fifth of the confidence goes. */
  lemma OverspendRescales(base: CostForecast, spend: real)
    requires base.expected != 0.0
    ensures spend <= base.expected ==> Updated(base, spend) == Some(base)
    ensures spend > base.expected ==>
              var u := Updated(base, spend);
              && u.Some? && u.value.min == spend && u.value.basisTaskCount == base.basisTaskCount
              && u.value.max * base.expected == base.max * spend
              && u.value.expected * base.expected == spend * (base.expected + 0.2 * spend)
              && 5.0 * u.value.confidence == 4.0 * base.confidence
  {
    if spend > base.expected {
      var scale, e := spend / base.expected, base.expected;
      assert scale * e == spend;
      Regroup(base.max, scale, e);
      Regroup(spend, 1.0 + 0.2 * scale, e);
      assert e * (1.0 + 0.2 * scale) == e + 0.2 * spend;
    }
  }

  /** When every past task cost the same, so does the forecast. */
  lemma FlatHistory(costs: seq<real>, cost: real, complexity: string, targetFiles: int)
    requires costs != [] && forall i :: 0 <= i < |costs| ==> costs[i] == cost
    ensures var f := ForecastFrom(costs, complexity, targetFiles); f.min == f.expected == f.max == cost
  {
    SortedIsUnique(SortFloats(costs), costs);
    PercentileInRange(costs, 0.10);
    PercentileInRange(costs, 0.50);
    PercentileInRange(costs, 0.90);
  }

  /** Equal past tasks and a spend of twice their cost: expected passes max. */
  lemma OverspendWitness()
    ensures var base := ForecastFrom([1.0], "routine", 1);
            Updated(base, 2.0).Some? && !Updated(base, 2.0).value.Ordered()
  {
    FlatHistory([1.0], 1.0, "routine", 1);
    OverspentFlat(ForecastFrom([1.0], "routine", 1));
  }

  lemma OverspentFlat(base: CostForecast)
    requires base.expected == base.max == 1.0
    ensures Updated(base, 2.0).Some? && !Updated(base, 2.0).value.Ordered()
  {
  }
}
