/**
 * The report's loops over variants and metrics. They look values up by two names, hand them to a rule, and stop at the
 * first rule that raises, so they are written for any types of names and any rules.
 */
module Aggregation {
  import opened Prelude
  import opened Statistics

  datatype MetricSummary<V, M> = MetricSummary(metric: M, variant: V, mean: real, interval: Interval, count: nat)

  datatype LatencySummary<V, M> = LatencySummary(variant: V, stage: M, p50: real, p95: real, count: nat)

  datatype Comparison<V, M> = Comparison(
    metric: M, variantA: V, variantB: V, difference: real, interval: Interval, significant: bool)

  datatype Report<V, M> = Report(
    metrics: seq<MetricSummary<V, M>>, latencies: seq<LatencySummary<V, M>>, comparisons: seq<Comparison<V, M>>)

  datatype ReportError =
    NotCompleted | NoResults | CountMismatch | WrongRun | UnexpectedVariant | MissingMetric | DuplicateResult |
    WrongVariantCount | QueriesDiffer | UnknownLabel | BadLabels | BadStatistics(error: StatisticsError)

  // ---- Outcomes ----

  type Outcome<T> = Result<T, ReportError>

  predicate AllOk<T>(outcomes: seq<Outcome<T>>) {
    forall i :: 0 <= i < |outcomes| ==> outcomes[i].Ok?
  }

  /** The values of all outcomes, or the first error. */
  function Collected<T>(outcomes: seq<Outcome<T>>): Outcome<seq<T>> {
    if outcomes == [] then Ok([])
    else
      var before, last := Collected(outcomes[..|outcomes| - 1]), outcomes[|outcomes| - 1];
      if before.Err? then before
      else if last.Err? then Err(last.error)
      else Ok(before.value + [last.value])
  }

  lemma {:induction false} CollectedMeaning<T>(outcomes: seq<Outcome<T>>)
    ensures Collected(outcomes).Ok? <==> AllOk(outcomes)
    ensures Collected(outcomes).Ok? ==>
              && |Collected(outcomes).value| == |outcomes|
              && forall i :: 0 <= i < |outcomes| ==> outcomes[i] == Ok(Collected(outcomes).value[i])
  {
    if outcomes != [] {
      var last := |outcomes| - 1;
      CollectedMeaning(outcomes[..last]);
      assert outcomes == outcomes[..last] + [outcomes[last]];
    }
  }

  function Joined<T>(first: Outcome<seq<T>>, second: Outcome<seq<T>>): Outcome<seq<T>> {
    if first.Err? then first else if second.Err? then second else Ok(first.value + second.value)
  }

  lemma JoinedUnits<T>(outcome: Outcome<seq<T>>)
    ensures Joined(Ok([]), outcome) == outcome == Joined(outcome, Ok([]))
  {
    if outcome.Ok? { assert [] + outcome.value == outcome.value == outcome.value + []; }
  }

  lemma JoinedAssociates<T>(a: Outcome<seq<T>>, b: Outcome<seq<T>>, c: Outcome<seq<T>>)
    ensures Joined(a, Joined(b, c)) == Joined(Joined(a, b), c)
  {
    if a.Ok? && b.Ok? && c.Ok? { assert a.value + (b.value + c.value) == (a.value + b.value) + c.value; }
  }

  lemma {:induction false} CollectedAppend<T>(a: seq<Outcome<T>>, b: seq<Outcome<T>>)
    ensures Collected(a + b) == Joined(Collected(a), Collected(b))
  {
    if b == [] {
      assert a + b == a;
      JoinedUnits(Collected(a));
    } else {
      var last := |b| - 1;
      CollectedAppend(a, b[..last]);
      assert (a + b)[..|a + b| - 1] == a + b[..last] && (a + b)[|a + b| - 1] == b[last];
      if Collected(a).Ok? && Collected(b).Ok? {
        assert Collected(a).value + (Collected(b[..last]).value + [b[last].value])
            == (Collected(a).value + Collected(b[..last]).value) + [b[last].value];
      }
    }
  }

  // ---- One rule for every name ----

  /** What the rule makes of each name in turn. */
  function Made<K(!new), M(!new), X(!new), T(!new)>(inputs: (K, M) -> X, key: K, names: seq<M>,
                                                    rule: (K, M, X) -> Outcome<T>): (r: seq<Outcome<T>>)
    ensures |r| == |names| && forall i :: 0 <= i < |r| ==> r[i] == rule(key, names[i], inputs(key, names[i]))
  {
    seq(|names|, i requires 0 <= i < |names| => rule(key, names[i], inputs(key, names[i])))
  }

  lemma MadeOneMore<K(!new), M(!new), X(!new), T(!new)>(inputs: (K, M) -> X, key: K, names: seq<M>,
                                                        rule: (K, M, X) -> Outcome<T>, n: nat)
    requires n < |names|
    ensures Made(inputs, key, names[..n + 1], rule)
         == Made(inputs, key, names[..n], rule) + [rule(key, names[n], inputs(key, names[n]))]
  {}

  method MakeEach<K(!new), M(!new), X(!new), T(!new)>(inputs: (K, M) -> X, key: K, names: seq<M>,
                                                      rule: (K, M, X) -> Outcome<T>)
    returns (r: Outcome<seq<T>>)
    ensures r == Collected(Made(inputs, key, names, rule))
  {
    var values: seq<T> := [];
    for n := 0 to |names|
      invariant Collected(Made(inputs, key, names[..n], rule)) == Ok(values)
    {
      var outcome := rule(key, names[n], inputs(key, names[n]));
      MadeOneMore(inputs, key, names, rule, n);
      CollectedAppend(Made(inputs, key, names[..n], rule), [outcome]);
      assert Collected([outcome][..0]) == Ok([]);
      if outcome.Err? {
        ErrorStays(inputs, key, names, rule, n + 1);
        return Err(outcome.error);
      }
      values := values + [outcome.value];
    }
    assert names[..|names|] == names;
    return Ok(values);
  }

  lemma ErrorStays<K(!new), M(!new), X(!new), T(!new)>(inputs: (K, M) -> X, key: K, names: seq<M>,
                                                       rule: (K, M, X) -> Outcome<T>, n: nat)
    requires n <= |names| && Collected(Made(inputs, key, names[..n], rule)).Err?
    ensures Collected(Made(inputs, key, names, rule)) == Collected(Made(inputs, key, names[..n], rule))
  {
    var head, tail := Made(inputs, key, names[..n], rule), Made(inputs, key, names[n..], rule);
    assert Made(inputs, key, names, rule) == head + tail;
    CollectedAppend(head, tail);
  }

  // ---- One part for every variant ----

  /** The parts of all keys, one after the other. */
  function ForEach<K(!new), T(!new)>(keys: seq<K>, part: K -> seq<Outcome<T>>): seq<Outcome<T>> {
    if keys == [] then [] else ForEach(keys[..|keys| - 1], part) + part(keys[|keys| - 1])
  }

  lemma {:induction false} ForEachSplits<K(!new), T(!new)>(keys: seq<K>, part: K -> seq<Outcome<T>>, n: nat)
    requires n <= |keys|
    ensures ForEach(keys, part) == ForEach(keys[..n], part) + ForEach(keys[n..], part)
  {
    if n == |keys| {
      assert keys[..n] == keys;
    } else {
      var last := |keys| - 1;
      ForEachSplits(keys[..last], part, n);
      assert keys[..last][..n] == keys[..n] && keys[..last][n..] == keys[n..][..last - n];
      assert keys[n..][..|keys[n..]| - 1] == keys[n..][..last - n];
    }
  }

  lemma {:induction false} AllPartsOk<K(!new), T(!new)>(keys: seq<K>, part: K -> seq<Outcome<T>>)
    ensures AllOk(ForEach(keys, part)) <==> forall k <- keys :: AllOk(part(k))
  {
    if keys != [] {
      var last := |keys| - 1;
      AllPartsOk(keys[..last], part);
      AllOkAppend(ForEach(keys[..last], part), part(keys[last]));
      assert keys == keys[..last] + [keys[last]];
    }
  }

  lemma AllOkAppend<T>(a: seq<Outcome<T>>, b: seq<Outcome<T>>)
    ensures AllOk(a + b) <==> AllOk(a) && AllOk(b)
  {
    assert forall i :: 0 <= i < |a| ==> (a + b)[i] == a[i];
    assert forall i :: 0 <= i < |b| ==> (a + b)[|a| + i] == b[i];
  }

  lemma {:induction false} SameParts<K(!new), T(!new)>(keys: seq<K>, f: K -> seq<Outcome<T>>, g: K -> seq<Outcome<T>>)
    requires forall k <- keys :: f(k) == g(k)
    ensures ForEach(keys, f) == ForEach(keys, g)
  {
    if keys != [] {
      var last := |keys| - 1;
      assert forall k <- keys[..last] :: k in keys;
      SameParts(keys[..last], f, g);
      assert keys[last] in keys;
    }
  }

  /** Every outcome of every part is among the outcomes of all of them. */
  lemma {:induction false} PartIsThere<K(!new), T(!new)>(keys: seq<K>, part: K -> seq<Outcome<T>>, key: K,
                                                         outcome: Outcome<T>)
    requires key in keys && outcome in part(key)
    ensures outcome in ForEach(keys, part)
  {
    var last := |keys| - 1;
    if keys[last] != key {
      assert keys == keys[..last] + [keys[last]];
      PartIsThere(keys[..last], part, key, outcome);
    }
  }

  lemma ForEachAppend<K(!new), T(!new)>(a: seq<K>, b: seq<K>, part: K -> seq<Outcome<T>>)
    ensures ForEach(a + b, part) == ForEach(a, part) + ForEach(b, part)
  {
    ForEachSplits(a + b, part, |a|);
    assert (a + b)[..|a|] == a && (a + b)[|a|..] == b;
  }

  // ---- The report ----

  /** A score kept against its query. */
  datatype Scored = Scored(queryId: string, value: real)

  function Ids(scored: seq<Scored>): (r: seq<string>)
    ensures |r| == |scored| && forall i :: 0 <= i < |r| ==> r[i] == scored[i].queryId
  {
    seq(|scored|, i requires 0 <= i < |scored| => scored[i].queryId)
  }

  /** What is reported on: values and paired scores by metric, durations by stage, and which further names there are. */
  datatype Data<!V, !M> = Data(
    values: (V, M) -> seq<real>, scores: (V, M) -> seq<Scored>, durations: (V, M) -> seq<real>,
    extras: V -> seq<M>, stages: V -> seq<M>)

  type Pair<V> = (V, V)

  type PairedScores = (seq<Scored>, seq<Scored>)

  /** How summaries and comparisons are made, or why they cannot be. */
  datatype Rules<!V, !M> = Rules(
    summarize: (V, M, seq<real>) -> Outcome<MetricSummary<V, M>>,
    summarizeExtra: (V, M, seq<real>) -> Outcome<MetricSummary<V, M>>,
    overall: V -> seq<Outcome<MetricSummary<V, M>>>,
    summarizeLatency: (V, M, seq<real>) -> Outcome<LatencySummary<V, M>>,
    compare: (Pair<V>, M, PairedScores) -> Outcome<Comparison<V, M>>)

  /** A variant's summaries: the required metrics, the further ones, and those over all its rows. */
  function MetricsOf<V(!new), M(!new)>(data: Data<V, M>, names: seq<M>, rules: Rules<V, M>)
    : V -> seq<Outcome<MetricSummary<V, M>>>
  {
    v => Made(data.values, v, names, rules.summarize) + Made(data.values, v, data.extras(v), rules.summarizeExtra)
         + rules.overall(v)
  }

  function LatenciesOf<V(!new), M(!new)>(data: Data<V, M>, rules: Rules<V, M>): V -> seq<Outcome<LatencySummary<V, M>>>
  {
    v => Made(data.durations, v, data.stages(v), rules.summarizeLatency)
  }

  function ScoresOfPair<V(!new), M(!new)>(data: Data<V, M>): (Pair<V>, M) -> PairedScores {
    (pair: Pair<V>, m: M) => (data.scores(pair.0, m), data.scores(pair.1, m))
  }

  function ComparisonsOf<V(!new), M(!new)>(data: Data<V, M>, names: seq<M>, rules: Rules<V, M>)
    : Pair<V> -> seq<Outcome<Comparison<V, M>>>
  {
    pair => Made(ScoresOfPair(data), pair, names, rules.compare)
  }

  function PairsWith<V>(first: V, others: seq<V>): (r: seq<Pair<V>>)
    ensures |r| == |others| && forall i :: 0 <= i < |r| ==> r[i] == (first, others[i])
  {
    seq(|others|, i requires 0 <= i < |others| => (first, others[i]))
  }

  /** Every pair of variants, the earlier one first. */
  function Pairs<V>(variants: seq<V>): seq<Pair<V>> {
    if variants == [] then [] else PairsWith(variants[0], variants[1..]) + Pairs(variants[1..])
  }

  lemma {:induction false} PairIsThere<V>(variants: seq<V>, i: nat, j: nat)
    requires i < j < |variants|
    ensures (variants[i], variants[j]) in Pairs(variants)
  {
    if i == 0 {
      assert PairsWith(variants[0], variants[1..])[j - 1] == (variants[0], variants[j]);
    } else {
      PairIsThere(variants[1..], i - 1, j - 1);
    }
  }

  lemma {:induction false} PairsAreOfVariants<V>(variants: seq<V>)
    ensures forall pair <- Pairs(variants) :: pair.0 in variants && pair.1 in variants
  {
    if variants != [] {
      PairsAreOfVariants(variants[1..]);
      assert variants == [variants[0]] + variants[1..];
    }
  }

  function Assembled<V, M>(metrics: Outcome<seq<MetricSummary<V, M>>>, latencies: Outcome<seq<LatencySummary<V, M>>>,
                           comparisons: Outcome<seq<Comparison<V, M>>>): Outcome<Report<V, M>>
  {
    if metrics.Err? then Err(metrics.error)
    else if latencies.Err? then Err(latencies.error)
    else if comparisons.Err? then Err(comparisons.error)
    else Ok(Report(metrics.value, latencies.value, comparisons.value))
  }

  /** The report over these variants, or the first error on the way to it. */
  function ReportOutcome<V(!new), M(!new)>(variants: seq<V>, names: seq<M>, data: Data<V, M>, rules: Rules<V, M>)
    : Outcome<Report<V, M>>
  {
    Assembled(Collected(ForEach(variants, MetricsOf(data, names, rules))),
              Collected(ForEach(variants, LatenciesOf(data, rules))),
              Collected(ForEach(Pairs(variants), ComparisonsOf(data, names, rules))))
  }

  lemma Regrouped<T>(a: seq<Outcome<T>>, b: seq<Outcome<T>>, rest: seq<Outcome<T>>)
    ensures Collected(a + b) == Joined(Collected(a), Collected(b))
    ensures Collected(a + b + rest) == Joined(Joined(Collected(a), Collected(b)), Collected(rest))
  {
    CollectedAppend(a, b);
    CollectedAppend(a + b, rest);
  }

  method SummarizeVariant<V(!new), M(!new)>(v: V, names: seq<M>, data: Data<V, M>, rules: Rules<V, M>)
    returns (r: Outcome<seq<MetricSummary<V, M>>>)
    ensures r == Collected(MetricsOf(data, names, rules)(v))
  {
    Regrouped(Made(data.values, v, names, rules.summarize),
              Made(data.values, v, data.extras(v), rules.summarizeExtra), rules.overall(v));
    var required := MakeEach(data.values, v, names, rules.summarize);
    if required.Err? { return required; }
    var extra := MakeEach(data.values, v, data.extras(v), rules.summarizeExtra);
    if extra.Err? { return extra; }
    var overall := Collected(rules.overall(v));
    return if overall.Err? then overall else Ok(required.value + extra.value + overall.value);
  }

  /** What comes after the first n keys decides about the rest only if those were fine. */
  lemma NextPart<K(!new), T(!new)>(keys: seq<K>, part: K -> seq<Outcome<T>>, n: nat)
    requires n < |keys|
    ensures Collected(ForEach(keys[..n + 1], part))
         == Joined(Collected(ForEach(keys[..n], part)), Collected(part(keys[n])))
    ensures Collected(ForEach(keys[..n + 1], part)).Err? ==>
              Collected(ForEach(keys, part)) == Collected(ForEach(keys[..n + 1], part))
  {
    assert keys[..n + 1][..n] == keys[..n];
    CollectedAppend(ForEach(keys[..n], part), part(keys[n]));
    ForEachSplits(keys, part, n + 1);
    CollectedAppend(ForEach(keys[..n + 1], part), ForEach(keys[n + 1..], part));
  }

  method SummarizeAll<V(!new), M(!new)>(variants: seq<V>, names: seq<M>, data: Data<V, M>, rules: Rules<V, M>)
    returns (r: Outcome<seq<MetricSummary<V, M>>>)
    ensures r == Collected(ForEach(variants, MetricsOf(data, names, rules)))
  {
    var metrics: seq<MetricSummary<V, M>> := [];
    for i := 0 to |variants|
      invariant Collected(ForEach(variants[..i], MetricsOf(data, names, rules))) == Ok(metrics)
    {
      NextPart(variants, MetricsOf(data, names, rules), i);
      var summaries := SummarizeVariant(variants[i], names, data, rules);
      if summaries.Err? { return summaries; }
      metrics := metrics + summaries.value;
    }
    assert variants[..|variants|] == variants;
    return Ok(metrics);
  }

  method SummarizeLatencies<V(!new), M(!new)>(variants: seq<V>, data: Data<V, M>, rules: Rules<V, M>)
    returns (r: Outcome<seq<LatencySummary<V, M>>>)
    ensures r == Collected(ForEach(variants, LatenciesOf(data, rules)))
  {
    var latencies: seq<LatencySummary<V, M>> := [];
    for i := 0 to |variants|
      invariant Collected(ForEach(variants[..i], LatenciesOf(data, rules))) == Ok(latencies)
    {
      NextPart(variants, LatenciesOf(data, rules), i);
      var summaries := MakeEach(data.durations, variants[i], data.stages(variants[i]), rules.summarizeLatency);
      if summaries.Err? { return summaries; }
      latencies := latencies + summaries.value;
    }
    assert variants[..|variants|] == variants;
    return Ok(latencies);
  }

  method CompareWithRest<V(!new), M(!new)>(first: V, others: seq<V>, names: seq<M>, data: Data<V, M>,
                                           rules: Rules<V, M>)
    returns (r: Outcome<seq<Comparison<V, M>>>)
    ensures r == Collected(ForEach(PairsWith(first, others), ComparisonsOf(data, names, rules)))
  {
    var comparisons: seq<Comparison<V, M>> := [];
    ghost var pairs := PairsWith(first, others);
    for j := 0 to |others|
      invariant Collected(ForEach(pairs[..j], ComparisonsOf(data, names, rules))) == Ok(comparisons)
    {
      NextPart(pairs, ComparisonsOf(data, names, rules), j);
      var pair := MakeEach(ScoresOfPair(data), (first, others[j]), names, rules.compare);
      if pair.Err? { return pair; }
      comparisons := comparisons + pair.value;
    }
    assert pairs[..|pairs|] == pairs;
    return Ok(comparisons);
  }

  method BuildVariantComparisons<V(!new), M(!new)>(variants: seq<V>, names: seq<M>, data: Data<V, M>,
                                                   rules: Rules<V, M>)
    returns (r: Outcome<seq<Comparison<V, M>>>)
    ensures r == Collected(ForEach(Pairs(variants), ComparisonsOf(data, names, rules)))
  {
    var comparisons: seq<Comparison<V, M>> := [];
    ghost var part := ComparisonsOf(data, names, rules);
    JoinedUnits(Collected(ForEach(Pairs(variants), part)));
    assert variants[0..] == variants;
    for i := 0 to |variants|
      invariant Collected(ForEach(Pairs(variants), part))
             == Joined(Ok(comparisons), Collected(ForEach(Pairs(variants[i..]), part)))
    {
      var rest := CompareWithRest(variants[i], variants[i + 1..], names, data, rules);
      assert variants[i..][1..] == variants[i + 1..];
      ForEachAppend(PairsWith(variants[i], variants[i + 1..]), Pairs(variants[i + 1..]), part);
      CollectedAppend(ForEach(PairsWith(variants[i], variants[i + 1..]), part),
                      ForEach(Pairs(variants[i + 1..]), part));
      JoinedAssociates(Ok(comparisons), rest, Collected(ForEach(Pairs(variants[i + 1..]), part)));
      if rest.Err? { return rest; }
      comparisons := comparisons + rest.value;
    }
    assert Pairs(variants[|variants|..]) == [];
    JoinedUnits(Ok(comparisons));
    return Ok(comparisons);
  }

  method Aggregate<V(!new), M(!new)>(variants: seq<V>, names: seq<M>, data: Data<V, M>, rules: Rules<V, M>)
    returns (r: Outcome<Report<V, M>>)
    ensures r == ReportOutcome(variants, names, data, rules)
  {
    var metrics := SummarizeAll(variants, names, data, rules);
    if metrics.Err? { return Err(metrics.error); }
    var latencies := SummarizeLatencies(variants, data, rules);
    if latencies.Err? { return Err(latencies.error); }
    if |variants| <= 1 {
      assert Pairs(variants) == [];
      return Ok(Report(metrics.value, latencies.value, []));
    }
    var comparisons := BuildVariantComparisons(variants, names, data, rules);
    if comparisons.Err? { return Err(comparisons.error); }
    return Ok(Report(metrics.value, latencies.value, comparisons.value));
  }

  // ---- Reports depend on nothing but the looked-up data ----

  ghost predicate Agree<V(!new), M(!new)>(variants: seq<V>, f: Data<V, M>, g: Data<V, M>) {
    forall v <- variants ::
      && (forall m :: f.values(v, m) == g.values(v, m))
      && (forall m :: f.scores(v, m) == g.scores(v, m))
      && (forall m :: f.durations(v, m) == g.durations(v, m))
      && f.extras(v) == g.extras(v) && f.stages(v) == g.stages(v)
  }

  lemma SameReport<V(!new), M(!new)>(variants: seq<V>, names: seq<M>, f: Data<V, M>, g: Data<V, M>,
                                     rules: Rules<V, M>)
    requires Agree(variants, f, g)
    ensures ReportOutcome(variants, names, f, rules) == ReportOutcome(variants, names, g, rules)
  {
    forall v | v in variants
      ensures MetricsOf(f, names, rules)(v) == MetricsOf(g, names, rules)(v)
      ensures LatenciesOf(f, rules)(v) == LatenciesOf(g, rules)(v)
    {}
    PairsAreOfVariants(variants);
    forall pair | pair in Pairs(variants)
      ensures ComparisonsOf(f, names, rules)(pair) == ComparisonsOf(g, names, rules)(pair)
    {
      forall m ensures ScoresOfPair(f)(pair, m) == ScoresOfPair(g)(pair, m) {
        assert f.scores(pair.0, m) == g.scores(pair.0, m) && f.scores(pair.1, m) == g.scores(pair.1, m);
      }
    }
    SameParts(variants, MetricsOf(f, names, rules), MetricsOf(g, names, rules));
    SameParts(variants, LatenciesOf(f, rules), LatenciesOf(g, rules));
    SameParts(Pairs(variants), ComparisonsOf(f, names, rules), ComparisonsOf(g, names, rules));
  }

  /** A report is built exactly if every one of its parts is. */
  lemma ReportExactly<V(!new), M(!new)>(variants: seq<V>, names: seq<M>, data: Data<V, M>, rules: Rules<V, M>)
    ensures ReportOutcome(variants, names, data, rules).Ok?
       <==> && (forall v <- variants :: AllOk(MetricsOf(data, names, rules)(v)))
            && (forall v <- variants :: AllOk(LatenciesOf(data, rules)(v)))
            && (forall pair <- Pairs(variants) :: AllOk(ComparisonsOf(data, names, rules)(pair)))
  {
    AllPartsOk(variants, MetricsOf(data, names, rules));
    AllPartsOk(variants, LatenciesOf(data, rules));
    AllPartsOk(Pairs(variants), ComparisonsOf(data, names, rules));
    CollectedMeaning(ForEach(variants, MetricsOf(data, names, rules)));
    CollectedMeaning(ForEach(variants, LatenciesOf(data, rules)));
    CollectedMeaning(ForEach(Pairs(variants), ComparisonsOf(data, names, rules)));
  }

  /** A report compares every earlier variant with every later one on every metric. */
  lemma ReportComparesAllPairs<V(!new), M(!new)>(variants: seq<V>, names: seq<M>, data: Data<V, M>,
                                                 rules: Rules<V, M>, i: nat, j: nat, m: M)
    requires ReportOutcome(variants, names, data, rules).Ok? && i < j < |variants| && m in names
    ensures var pair := (variants[i], variants[j]);
            var outcome := rules.compare(pair, m, ScoresOfPair(data)(pair, m));
            outcome.Ok? && outcome.value in ReportOutcome(variants, names, data, rules).value.comparisons
  {
    var pair, part := (variants[i], variants[j]), ComparisonsOf(data, names, rules);
    var all := ForEach(Pairs(variants), part);
    PairIsThere(variants, i, j);
    var k :| 0 <= k < |names| && names[k] == m;
    var outcome := part(pair)[k];
    PartIsThere(Pairs(variants), part, pair, outcome);
    CollectedMeaning(all);
    var n :| 0 <= n < |all| && all[n] == outcome;
  }

  /** Every required metric of every variant is summarized. */
  lemma ReportSummarizesAll<V(!new), M(!new)>(variants: seq<V>, names: seq<M>, data: Data<V, M>, rules: Rules<V, M>,
                                              v: V, m: M)
    requires ReportOutcome(variants, names, data, rules).Ok? && v in variants && m in names
    ensures var outcome := rules.summarize(v, m, data.values(v, m));
            outcome.Ok? && outcome.value in ReportOutcome(variants, names, data, rules).value.metrics
  {
    var part := MetricsOf(data, names, rules);
    var all := ForEach(variants, part);
    var k :| 0 <= k < |names| && names[k] == m;
    var outcome := part(v)[k];
    PartIsThere(variants, part, v, outcome);
    CollectedMeaning(all);
    var n :| 0 <= n < |all| && all[n] == outcome;
  }
}
