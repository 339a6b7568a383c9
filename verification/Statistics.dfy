/** Means, interpolated percentiles and the paired bootstrap, over exact reals. */
module Statistics {
  import opened Prelude

  datatype StatisticsError = NoValues | BadQuantile | LengthMismatch | NoResamples

  predicate RealLe(a: real, b: real) { a <= b }

  function Sum(s: seq<real>): real {
    if s == [] then 0.0 else Sum(s[..|s| - 1]) + s[|s| - 1]
  }

  function Mean(s: seq<real>): Result<real, StatisticsError> {
    if s == [] then Err(NoValues) else Ok(Sum(s) / |s| as real)
  }

  /** The number that this many values of this total are on average. */
  predicate IsMean(mean: real, total: real, count: nat) {
    count > 0 && mean * count as real == total
  }

  lemma MeanOfValues(s: seq<real>)
    requires s != []
    ensures IsMean(Mean(s).value, Sum(s), |s|)
  {
    Quotient(Sum(s), |s| as real);
  }

  lemma Quotient(total: real, n: real)
    requires n != 0.0
    ensures (total / n) * n == total
  {}

  /** One value is its own mean, and each further value adds itself to the mean times the number of values. */
  lemma MeanOneMore(s: seq<real>, x: real)
    ensures Mean([x]) == Ok(x)
    ensures s != [] ==> IsMean(Mean(s + [x]).value, Mean(s).value * |s| as real + x, |s| + 1)
  {
    assert (s + [x])[..|s|] == s && [x][..0] == [];
    assert Sum([x]) == x && Sum(s + [x]) == Sum(s) + x;
    MeanOfValues(s + [x]);
    if s != [] { MeanOfValues(s); }
  }

  lemma {:induction false} SumWithout(s: seq<real>, i: nat)
    requires i < |s|
    ensures Sum(s) == Sum(Without(s, i)) + s[i]
  {
    var last := |s| - 1;
    if i == last {
      assert Without(s, i) == s[..last];
    } else {
      SumWithout(s[..last], i);
      assert Without(s, i)[..last - 1] == Without(s[..last], i);
    }
  }

  /** A sum does not depend on the order of its values. */
  lemma {:induction false} SumIgnoresOrder(a: seq<real>, b: seq<real>)
    requires multiset(a) == multiset(b)
    ensures Sum(a) == Sum(b) && |a| == |b|
    decreases |a|
  {
    assert |multiset(a)| == |a| && |multiset(b)| == |b|;
    if a != [] {
      var i := PositionOfHead(a, b);
      WithoutMultiset(a, 0);
      WithoutMultiset(b, i);
      SumIgnoresOrder(Without(a, 0), Without(b, i));
      SumWithout(a, 0);
      SumWithout(b, i);
    }
  }

  /** Value at a fractional position of an ordered list. */
  function Interpolated(ordered: seq<real>, position: real): real
    requires ordered != [] && 0.0 <= position <= (|ordered| - 1) as real
  {
    var lower := position.Floor;
    var upper := if lower + 1 <= |ordered| - 1 then lower + 1 else |ordered| - 1;
    var weight := position - lower as real;
    ordered[lower] * (1.0 - weight) + ordered[upper] * weight
  }

  function Position(count: nat, quantile: real): (r: real)
    requires count > 0 && 0.0 <= quantile <= 1.0
    ensures 0.0 <= r <= (count - 1) as real
  {
    Scaled((count - 1) as real, quantile);
    (count - 1) as real * quantile
  }

  lemma Scaled(size: real, part: real)
    requires size >= 0.0 && 0.0 <= part <= 1.0
    ensures 0.0 <= size * part <= size
  {
    assert size * part >= 0.0 && size * (1.0 - part) >= 0.0;
    assert size * (1.0 - part) == size - size * part;
  }

  function OrderedPercentile(ordered: seq<real>, quantile: real): real
    requires ordered != [] && 0.0 <= quantile <= 1.0
  {
    Interpolated(ordered, Position(|ordered|, quantile))
  }

  function Percentile(values: seq<real>, quantile: real): Result<real, StatisticsError> {
    if values == [] then Err(NoValues)
    else if !(0.0 <= quantile <= 1.0) then Err(BadQuantile)
    else Ok(OrderedPercentile(Sort(values, RealLe), quantile))
  }

  // ---- Percentiles ----

  lemma Between(a: real, b: real, weight: real)
    requires a <= b && 0.0 <= weight <= 1.0
    ensures a <= a * (1.0 - weight) + b * weight <= b
  {
    var value := a * (1.0 - weight) + b * weight;
    Product(b - a, weight);
    Product(b - a, 1.0 - weight);
    assert value - a == (b - a) * weight;
    assert b - value == (b - a) * (1.0 - weight);
  }

  lemma Product(x: real, y: real)
    requires x >= 0.0 && y >= 0.0
    ensures x * y >= 0.0
  {}

  lemma InterpolatedBracket(ordered: seq<real>, position: real)
    requires ordered != [] && Sorted(ordered, RealLe) && 0.0 <= position <= (|ordered| - 1) as real
    ensures var lower := position.Floor;
            var upper := if lower + 1 <= |ordered| - 1 then lower + 1 else |ordered| - 1;
            ordered[lower] <= Interpolated(ordered, position) <= ordered[upper]
  {
    var lower := position.Floor;
    var upper := if lower + 1 <= |ordered| - 1 then lower + 1 else |ordered| - 1;
    assert lower < upper ==> RealLe(ordered[lower], ordered[upper]);
    Between(ordered[lower], ordered[upper], position - lower as real);
  }

  lemma InterpolatedMonotone(ordered: seq<real>, p: real, q: real)
    requires ordered != [] && Sorted(ordered, RealLe) && 0.0 <= p <= q <= (|ordered| - 1) as real
    ensures Interpolated(ordered, p) <= Interpolated(ordered, q)
  {
    InterpolatedBracket(ordered, p);
    InterpolatedBracket(ordered, q);
    var i, j := p.Floor, q.Floor;
    if i == j {
      var upper := if i + 1 <= |ordered| - 1 then i + 1 else |ordered| - 1;
      assert i < upper ==> RealLe(ordered[i], ordered[upper]);
      Slope(ordered[i], ordered[upper], p - i as real, q - i as real);
    } else {
      assert i + 1 < j ==> RealLe(ordered[i + 1], ordered[j]);
    }
  }

  lemma Slope(a: real, b: real, v: real, w: real)
    requires a <= b && v <= w
    ensures a * (1.0 - v) + b * v <= a * (1.0 - w) + b * w
  {
    Product(b - a, w - v);
    assert (b - a) * (w - v) == b * w - b * v - a * w + a * v;
    assert a * (1.0 - w) == a - a * w && a * (1.0 - v) == a - a * v;
  }

  ghost predicate Within(values: seq<real>, low: real, high: real) {
    forall i :: 0 <= i < |values| ==> low <= values[i] <= high
  }

  lemma SortedWithin(values: seq<real>, low: real, high: real)
    requires Within(values, low, high)
    ensures Sorted(Sort(values, RealLe), RealLe) && Within(Sort(values, RealLe), low, high)
  {
    var ordered := Sort(values, RealLe);
    SortSorts(values, RealLe);
    SortMembers(values, RealLe);
    forall i | 0 <= i < |ordered| ensures low <= ordered[i] <= high {
      assert ordered[i] in values;
    }
  }

  /** A percentile lies between any bounds of its values. */
  lemma PercentileWithin(values: seq<real>, quantile: real, low: real, high: real)
    requires values != [] && 0.0 <= quantile <= 1.0 && Within(values, low, high)
    ensures low <= Percentile(values, quantile).value <= high
  {
    SortedWithin(values, low, high);
    InterpolatedBracket(Sort(values, RealLe), Position(|values|, quantile));
  }

  /** Raising the quantile never lowers the percentile. */
  lemma PercentileMonotone(values: seq<real>, p: real, q: real)
    requires values != [] && 0.0 <= p <= q <= 1.0
    ensures Percentile(values, p).value <= Percentile(values, q).value
  {
    SortSorts(values, RealLe);
    PositionMonotone(|values|, p, q);
    InterpolatedMonotone(Sort(values, RealLe), Position(|values|, p), Position(|values|, q));
  }

  lemma PositionMonotone(count: nat, p: real, q: real)
    requires count > 0 && 0.0 <= p <= q <= 1.0
    ensures Position(count, p) <= Position(count, q)
  {
    assert (count - 1) as real * q - (count - 1) as real * p == (count - 1) as real * (q - p);
    assert (count - 1) as real * (q - p) >= 0.0;
  }

  lemma PositionMirror(count: nat, q: real)
    requires count > 0 && 0.0 <= q <= 1.0
    ensures Position(count, 1.0 - q) == (count - 1) as real - Position(count, q)
  {}

  /** Percentiles depend on the values, not on their order. */
  lemma PercentileIgnoresOrder(a: seq<real>, b: seq<real>, quantile: real)
    requires multiset(a) == multiset(b)
    ensures Percentile(a, quantile) == Percentile(b, quantile)
  {
    SortIgnoresOrder(a, b, RealLe);
    assert |multiset(a)| == |a| && |multiset(b)| == |b|;
  }

  lemma Quotients(x: real, n: real)
    requires n > 0.0 && 0.0 <= x <= n
    ensures n * (x / n) == x && 0.0 <= x / n <= 1.0
  {
    var q := x / n;
    assert q * n == x;
    assert q < 0.0 ==> q * n < 0.0;
    assert q > 1.0 ==> (q - 1.0) * n > 0.0;
  }

  lemma StraightLine(a: real, b: real, w: real)
    ensures a * (1.0 - w) + b * w == a + w * (b - a)
  {}

  lemma RealLeIsTotal()
    ensures TotalPreorder(RealLe)
  {}

  lemma InterpolatedOnLine(ordered: seq<real>, i: nat, w: real)
    requires i + 1 < |ordered| && 0.0 <= w < 1.0
    ensures Interpolated(ordered, i as real + w) == ordered[i] + w * (ordered[i + 1] - ordered[i])
  {
    var x := i as real + w;
    assert x.Floor == i;
    assert x - i as real == w;
    assert Interpolated(ordered, x) == ordered[i] * (1.0 - w) + ordered[i + 1] * w;
    StraightLine(ordered[i], ordered[i + 1], w);
  }

  lemma PercentileAtPosition(ordered: seq<real>, quantile: real, x: real)
    requires Sorted(ordered, RealLe) && ordered != [] && 0.0 <= quantile <= 1.0
    requires Position(|ordered|, quantile) == x
    ensures Percentile(ordered, quantile) == Ok(Interpolated(ordered, x))
  {
    RealLeIsTotal();
    SortOfSorted(ordered, RealLe);
  }

  lemma PositionOfFraction(count: nat, x: real)
    requires count > 1 && 0.0 <= x <= (count - 1) as real
    ensures 0.0 <= x / (count - 1) as real <= 1.0 && Position(count, x / (count - 1) as real) == x
  {
    Quotients(x, (count - 1) as real);
  }

  lemma InterpolatedUpTo(ordered: seq<real>, i: nat, w: real)
    requires i + 1 < |ordered| && 0.0 <= w <= 1.0
    ensures Interpolated(ordered, i as real + w) == ordered[i] + w * (ordered[i + 1] - ordered[i])
  {
    if w == 1.0 {
      assert i as real + w == (i + 1) as real;
      InterpolatedAtRank(ordered, i + 1);
    } else {
      InterpolatedOnLine(ordered, i, w);
    }
  }

  /** Between two neighbouring ranks the percentile runs along the straight line from one value to the next. */
  lemma PercentileBetweenRanks(values: seq<real>, i: nat, w: real)
    requires Sorted(values, RealLe) && i + 1 < |values| && 0.0 <= w <= 1.0
    ensures Percentile(values, (i as real + w) / (|values| - 1) as real)
         == Ok(values[i] + w * (values[i + 1] - values[i]))
  {
    PositionOfFraction(|values|, i as real + w);
    PercentileAtPosition(values, (i as real + w) / (|values| - 1) as real, i as real + w);
    InterpolatedUpTo(values, i, w);
  }

  function Counting(n: nat): (r: seq<real>)
    ensures |r| == n && forall i :: 0 <= i < n ==> r[i] == i as real
  {
    seq(n, i requires 0 <= i < n => i as real)
  }

  lemma InterpolatedCounting(n: nat, x: real)
    requires n > 0 && 0.0 <= x <= (n - 1) as real
    ensures Interpolated(Counting(n), x) == x
  {
    var i := x.Floor;
    if i == n - 1 {
      InterpolatedAtRank(Counting(n), i);
    } else {
      InterpolatedOnLine(Counting(n), i, x - i as real);
      assert Counting(n)[i + 1] - Counting(n)[i] == 1.0;
    }
  }

  /** In particular the percentile of the numbers from 0 to n - 1 is that fraction of n - 1. */
  lemma PercentileOfCounting(n: nat, q: real)
    requires n > 0 && 0.0 <= q <= 1.0
    ensures Percentile(Counting(n), q) == Ok((n - 1) as real * q)
  {
    RealLeIsTotal();
    SortOfSorted(Counting(n), RealLe);
    InterpolatedCounting(n, Position(n, q));
  }

  function Negated(values: seq<real>): (r: seq<real>)
    ensures |r| == |values| && forall i :: 0 <= i < |r| ==> r[i] == -values[i]
  {
    seq(|values|, i requires 0 <= i < |values| => -values[i])
  }

  function Reversed(values: seq<real>): (r: seq<real>)
    ensures |r| == |values| && forall i :: 0 <= i < |r| ==> r[i] == values[|values| - 1 - i]
  {
    seq(|values|, i requires 0 <= i < |values| => values[|values| - 1 - i])
  }

  lemma {:induction false} ReversedMultiset(values: seq<real>)
    ensures multiset(Reversed(values)) == multiset(values)
  {
    if values != [] {
      ReversedMultiset(values[1..]);
      assert Reversed(values) == Reversed(values[1..]) + [values[0]];
      assert values == [values[0]] + values[1..];
    }
  }

  lemma MirroredSorted(ordered: seq<real>)
    requires Sorted(ordered, RealLe)
    ensures Sorted(Negated(Reversed(ordered)), RealLe)
  {
    var mirrored := Negated(Reversed(ordered));
    forall i, j | 0 <= i < j < |mirrored| ensures RealLe(mirrored[i], mirrored[j]) {
      assert RealLe(ordered[|ordered| - 1 - j], ordered[|ordered| - 1 - i]);
    }
  }

  lemma NegatedMultiset(a: seq<real>, b: seq<real>)
    requires multiset(a) == multiset(b)
    ensures multiset(Negated(a)) == multiset(Negated(b))
  {
    var negate := (x: real) => -x;
    MappedMultiset(a, b, negate);
    assert Mapped(a, negate) == Negated(a) && Mapped(b, negate) == Negated(b);
  }

  lemma SortOfNegated(values: seq<real>)
    ensures Sort(Negated(values), RealLe) == Negated(Reversed(Sort(values, RealLe)))
  {
    var ordered := Sort(values, RealLe);
    SortSorts(values, RealLe);
    SortSorts(Negated(values), RealLe);
    MirroredSorted(ordered);
    ReversedMultiset(ordered);
    NegatedMultiset(Reversed(ordered), values);
    SortedUnique(Negated(Reversed(ordered)), Sort(Negated(values), RealLe), RealLe);
  }

  lemma InterpolatedAtRank(ordered: seq<real>, rank: nat)
    requires rank < |ordered|
    ensures Interpolated(ordered, rank as real) == ordered[rank]
  {
    assert (rank as real).Floor == rank;
  }

  lemma InterpolatedMirror(ordered: seq<real>, position: real)
    requires ordered != [] && 0.0 <= position <= (|ordered| - 1) as real
    ensures Interpolated(Negated(Reversed(ordered)), (|ordered| - 1) as real - position)
         == -Interpolated(ordered, position)
  {
    var mirrored := Negated(Reversed(ordered));
    var lower := position.Floor;
    var last := |ordered| - 1;
    var other := last as real - position;
    if position == lower as real {
      assert other == (last - lower) as real && other.Floor == last - lower;
      assert mirrored[last - lower] == -ordered[lower];
      InterpolatedAtRank(ordered, lower);
      InterpolatedAtRank(mirrored, last - lower);
    } else {
      assert (last - lower - 1) as real < other < (last - lower) as real;
      assert other.Floor == last - lower - 1;
      var weight := position - lower as real;
      assert mirrored[last - lower - 1] == -ordered[lower + 1] && mirrored[last - lower] == -ordered[lower];
      assert other - (last - lower - 1) as real == 1.0 - weight;
      assert -ordered[lower + 1] * (1.0 - (1.0 - weight)) + -ordered[lower] * (1.0 - weight)
          == -(ordered[lower] * (1.0 - weight) + ordered[lower + 1] * weight);
    }
  }

  lemma OrderedMirror(ordered: seq<real>, quantile: real)
    requires ordered != [] && 0.0 <= quantile <= 1.0
    ensures OrderedPercentile(Negated(Reversed(ordered)), 1.0 - quantile) == -OrderedPercentile(ordered, quantile)
  {
    PositionMirror(|ordered|, quantile);
    InterpolatedMirror(ordered, Position(|ordered|, quantile));
  }

  /** Negating the values mirrors the quantile. */
  lemma PercentileMirror(values: seq<real>, quantile: real)
    requires values != [] && 0.0 <= quantile <= 1.0
    ensures Percentile(Negated(values), 1.0 - quantile).value == -Percentile(values, quantile).value
  {
    SortOfNegated(values);
    OrderedMirror(Sort(values, RealLe), quantile);
  }

  // ---- The paired bootstrap over an arbitrary draw stream ----

  /** `draws(resample, index)` is the position drawn by the generator. */
  type Draws = (nat, nat) -> nat

  ghost predicate ValidDraws(draws: Draws, count: nat) {
    forall resample, index :: draws(resample, index) < count
  }

  function Drawn(values: seq<real>, draws: Draws, resample: nat): (r: seq<real>)
    requires values != [] && ValidDraws(draws, |values|)
    ensures |r| == |values| && forall i :: 0 <= i < |r| ==> r[i] == values[draws(resample, i)]
  {
    seq(|values|, i requires 0 <= i < |values| => values[draws(resample, i)])
  }

  function ResampledMeans(values: seq<real>, draws: Draws, resamples: nat): (r: seq<real>)
    requires values != [] && ValidDraws(draws, |values|)
    ensures |r| == resamples
    ensures forall k :: 0 <= k < resamples ==> r[k] == Mean(Drawn(values, draws, k)).value
  {
    seq(resamples, k requires 0 <= k < resamples => Mean(Drawn(values, draws, k)).value)
  }

  const LOW_QUANTILE: real := 0.025
  const HIGH_QUANTILE: real := 0.975

  datatype Interval = Interval(low: real, high: real) {
    /** The reported significance: the interval excludes zero. */
    predicate Significant() { low > 0.0 || high < 0.0 }
  }

  /** The interval read off a list of resampled means. */
  function CentralInterval(means: seq<real>): Interval
    requires means != []
  {
    Interval(Percentile(means, LOW_QUANTILE).value, Percentile(means, HIGH_QUANTILE).value)
  }

  function MeanInterval(values: seq<real>, draws: Draws, resamples: int): Result<Interval, StatisticsError>
    requires values != [] ==> ValidDraws(draws, |values|)
  {
    if resamples <= 0 then Err(NoResamples)
    else if |values| == 1 then Ok(Interval(values[0], values[0]))
    else if values == [] then Err(NoValues)
    else Ok(CentralInterval(Sort(ResampledMeans(values, draws, resamples), RealLe)))
  }

  function Differences(a: seq<real>, b: seq<real>): (r: seq<real>)
    requires |a| == |b|
    ensures |r| == |a| && forall i :: 0 <= i < |r| ==> r[i] == a[i] - b[i]
  {
    seq(|a|, i requires 0 <= i < |a| => a[i] - b[i])
  }

  function PairedBootstrap(a: seq<real>, b: seq<real>, draws: Draws, resamples: int): Result<Interval, StatisticsError>
    requires |a| == |b| && a != [] ==> ValidDraws(draws, |a|)
  {
    if |a| != |b| then Err(LengthMismatch) else MeanInterval(Differences(a, b), draws, resamples)
  }

  lemma {:induction false} SumWithin(s: seq<real>, low: real, high: real)
    requires Within(s, low, high)
    ensures |s| as real * low <= Sum(s) <= |s| as real * high
  {
    if s != [] {
      var last := |s| - 1;
      SumWithin(s[..last], low, high);
      assert |s| as real * low == last as real * low + low;
      assert |s| as real * high == last as real * high + high;
    }
  }

  lemma QuotientWithin(total: real, n: real, low: real, high: real)
    requires n > 0.0 && n * low <= total <= n * high
    ensures low <= total / n <= high
  {
    assert total / n - low == (total - n * low) / n;
    assert high - total / n == (n * high - total) / n;
  }

  lemma MeanWithin(s: seq<real>, low: real, high: real)
    requires s != [] && Within(s, low, high)
    ensures low <= Mean(s).value <= high
  {
    SumWithin(s, low, high);
    QuotientWithin(Sum(s), |s| as real, low, high);
  }

  lemma MeansWithin(values: seq<real>, draws: Draws, resamples: nat, low: real, high: real)
    requires values != [] && ValidDraws(draws, |values|) && Within(values, low, high)
    ensures Within(ResampledMeans(values, draws, resamples), low, high)
  {
    forall k | 0 <= k < resamples ensures low <= ResampledMeans(values, draws, resamples)[k] <= high {
      MeanWithin(Drawn(values, draws, k), low, high);
    }
  }

  /** The interval is ordered and stays inside any bounds of the values, for every draw stream. */
  lemma IntervalWithin(values: seq<real>, draws: Draws, resamples: int, low: real, high: real)
    requires values != [] && ValidDraws(draws, |values|) && resamples > 0 && Within(values, low, high)
    ensures var r := MeanInterval(values, draws, resamples);
            r.Ok? && low <= r.value.low <= r.value.high <= high
  {
    if |values| > 1 {
      var raw := ResampledMeans(values, draws, resamples);
      MeansWithin(values, draws, resamples, low, high);
      SortedWithin(raw, low, high);
      var means := Sort(raw, RealLe);
      PercentileWithin(means, LOW_QUANTILE, low, high);
      PercentileWithin(means, HIGH_QUANTILE, low, high);
      PercentileMonotone(means, LOW_QUANTILE, HIGH_QUANTILE);
    }
  }

  /** The means of the resamples, each over as many draws as there are values. */
  function SortedMeans(values: seq<real>, draws: Draws, resamples: nat): seq<real>
    requires values != [] && ValidDraws(draws, |values|)
  {
    Sort(ResampledMeans(values, draws, resamples), RealLe)
  }

  /** The interval cuts off one resampled mean in forty at either end. */
  lemma IntervalCutsOffOneInForty(values: seq<real>, draws: Draws, cut: nat)
    requires |values| > 1 && ValidDraws(draws, |values|)
    ensures var means := SortedMeans(values, draws, 40 * cut + 1);
            MeanInterval(values, draws, 40 * cut + 1) == Ok(Interval(means[cut], means[39 * cut]))
  {
    var means := SortedMeans(values, draws, 40 * cut + 1);
    RealLeIsTotal();
    SortSorts(ResampledMeans(values, draws, 40 * cut + 1), RealLe);
    SortOfSorted(means, RealLe);
    InterpolatedAtRank(means, cut);
    InterpolatedAtRank(means, 39 * cut);
    assert Position(|means|, LOW_QUANTILE) == cut as real;
    assert Position(|means|, HIGH_QUANTILE) == (39 * cut) as real;
  }

  lemma {:induction false} LowestAndHighest(values: seq<real>) returns (low: real, high: real)
    requires values != []
    ensures low in values && high in values && Within(values, low, high)
  {
    var last := |values| - 1;
    if last == 0 {
      low, high := values[0], values[0];
    } else {
      low, high := LowestAndHighest(values[..last]);
      assert forall i :: 0 <= i < last ==> values[..last][i] == values[i];
      if values[last] < low { low := values[last]; }
      if values[last] > high { high := values[last]; }
    }
  }

  /** When one variant wins every query, the comparison is significant in its favour. */
  lemma UnanimousWinIsSignificant(a: seq<real>, b: seq<real>, draws: Draws, resamples: int)
    requires |a| == |b| && a != [] && ValidDraws(draws, |a|) && resamples > 0
    ensures (forall i :: 0 <= i < |a| ==> a[i] > b[i]) ==> PairedBootstrap(a, b, draws, resamples).value.low > 0.0
    ensures (forall i :: 0 <= i < |a| ==> a[i] < b[i]) ==> PairedBootstrap(a, b, draws, resamples).value.high < 0.0
    ensures (forall i :: 0 <= i < |a| ==> a[i] > b[i]) || (forall i :: 0 <= i < |a| ==> a[i] < b[i])
            ==> PairedBootstrap(a, b, draws, resamples).value.Significant()
  {
    var differences := Differences(a, b);
    var low, high := LowestAndHighest(differences);
    IntervalWithin(differences, draws, resamples, low, high);
  }

  /** Equal scores on every query give the point interval [0, 0], never significant. */
  lemma TieIsNotSignificant(a: seq<real>, draws: Draws, resamples: int)
    requires a != [] && ValidDraws(draws, |a|) && resamples > 0
    ensures PairedBootstrap(a, a, draws, resamples) == Ok(Interval(0.0, 0.0))
    ensures !PairedBootstrap(a, a, draws, resamples).value.Significant()
  {
    PointInterval(Differences(a, a), draws, resamples, 0.0);
  }

  lemma PointOnly(interval: Interval, point: real)
    requires point <= interval.low <= interval.high <= point
    ensures interval == Interval(point, point)
  {}

  lemma PointInterval(values: seq<real>, draws: Draws, resamples: int, point: real)
    requires values != [] && ValidDraws(draws, |values|) && resamples > 0 && Within(values, point, point)
    ensures MeanInterval(values, draws, resamples) == Ok(Interval(point, point))
  {
    IntervalWithin(values, draws, resamples, point, point);
    PointOnly(MeanInterval(values, draws, resamples).value, point);
  }

  lemma {:induction false} SumNegated(s: seq<real>)
    ensures Sum(Negated(s)) == -Sum(s)
  {
    if s != [] {
      SumNegated(s[..|s| - 1]);
      assert Negated(s)[..|s| - 1] == Negated(s[..|s| - 1]);
    }
  }

  lemma MeanNegated(s: seq<real>)
    requires s != []
    ensures Mean(Negated(s)).value == -Mean(s).value
  {
    SumNegated(s);
    assert (-Sum(s)) / |s| as real == -(Sum(s) / |s| as real);
  }

  lemma MeansNegated(values: seq<real>, draws: Draws, resamples: nat)
    requires values != [] && ValidDraws(draws, |values|)
    ensures ResampledMeans(Negated(values), draws, resamples) == Negated(ResampledMeans(values, draws, resamples))
  {
    forall k | 0 <= k < resamples
      ensures Mean(Drawn(Negated(values), draws, k)).value == -Mean(Drawn(values, draws, k)).value
    {
      assert Drawn(Negated(values), draws, k) == Negated(Drawn(values, draws, k));
      MeanNegated(Drawn(values, draws, k));
    }
  }

  /** Exchanging the variants mirrors the interval and keeps its significance. */
  lemma ComparisonIsAntisymmetric(a: seq<real>, b: seq<real>, draws: Draws, resamples: int)
    requires |a| == |b| && a != [] && ValidDraws(draws, |a|) && resamples > 0
    ensures var forward := PairedBootstrap(a, b, draws, resamples);
            var backward := PairedBootstrap(b, a, draws, resamples);
            && forward.Ok? && backward.Ok?
            && backward.value == Opposite(forward.value)
            && (forward.value.Significant() <==> backward.value.Significant())
  {
    assert Differences(b, a) == Negated(Differences(a, b));
    IntervalMirror(Differences(a, b), draws, resamples);
  }

  lemma IntervalMirror(values: seq<real>, draws: Draws, resamples: int)
    requires values != [] && ValidDraws(draws, |values|) && resamples > 0
    ensures MeanInterval(values, draws, resamples).Ok?
    ensures MeanInterval(Negated(values), draws, resamples)
         == Ok(Opposite(MeanInterval(values, draws, resamples).value))
  {
    if |values| > 1 {
      MeansNegated(values, draws, resamples);
      var raw := ResampledMeans(values, draws, resamples);
      SortSorts(raw, RealLe);
      SortOfNegated(raw);
      CentralMirror(Sort(raw, RealLe));
    }
  }

  function Opposite(interval: Interval): Interval {
    Interval(-interval.high, -interval.low)
  }

  lemma CentralOfSorted(s: seq<real>)
    requires s != [] && Sorted(s, RealLe)
    ensures CentralInterval(s) == Interval(OrderedPercentile(s, LOW_QUANTILE), OrderedPercentile(s, HIGH_QUANTILE))
  {
    SortOfSorted(s, RealLe);
  }

  lemma CentralMirror(s: seq<real>)
    requires s != [] && Sorted(s, RealLe)
    ensures CentralInterval(Negated(Reversed(s))) == Opposite(CentralInterval(s))
  {
    MirroredSorted(s);
    CentralOfSorted(s);
    CentralOfSorted(Negated(Reversed(s)));
    MirroredEnds(s);
  }

  lemma MirroredEnds(s: seq<real>)
    requires s != []
    ensures OrderedPercentile(Negated(Reversed(s)), LOW_QUANTILE) == -OrderedPercentile(s, HIGH_QUANTILE)
    ensures OrderedPercentile(Negated(Reversed(s)), HIGH_QUANTILE) == -OrderedPercentile(s, LOW_QUANTILE)
  {
    OrderedMirror(s, HIGH_QUANTILE);
    OrderedMirror(s, LOW_QUANTILE);
    assert 1.0 - LOW_QUANTILE == HIGH_QUANTILE && 1.0 - HIGH_QUANTILE == LOW_QUANTILE;
  }
}
