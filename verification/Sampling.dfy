/** Seeded selection of the queries an evaluation run works on. */
module Sampling {
  import opened Prelude

  type QueryId = nat

  datatype EvaluationQuery = EvaluationQuery(id: QueryId, externalId: string)

  datatype SampleError = SampleTooLarge

  /** The digest of "seed:externalId", read as one big-endian number. */
  type Digest = (int, string) -> int

  predicate ByExternalId(a: EvaluationQuery, b: EvaluationQuery) {
    StringLe(a.externalId, b.externalId)
  }

  predicate SampleLe(seed: int, digest: Digest, a: EvaluationQuery, b: EvaluationQuery) {
    || digest(seed, a.externalId) < digest(seed, b.externalId)
    || (digest(seed, a.externalId) == digest(seed, b.externalId) && StringLe(a.externalId, b.externalId))
  }

  function SampleOrder(seed: int, digest: Digest): (EvaluationQuery, EvaluationQuery) -> bool {
    (a, b) => SampleLe(seed, digest, a, b)
  }

  function SelectEvaluationQueries(queries: seq<EvaluationQuery>, sampleSize: Option<nat>, seed: int, digest: Digest)
    : Result<seq<EvaluationQuery>, SampleError>
  {
    var ordered := Sort(queries, ByExternalId);
    if sampleSize.None? then Ok(ordered)
    else if sampleSize.value > |ordered| then Err(SampleTooLarge)
    else Ok(Sort(Sort(ordered, SampleOrder(seed, digest))[..sampleSize.value], ByExternalId))
  }

  /** The dataset's uniqueness constraint: an external identifier names one query. */
  ghost predicate UniqueExternalIds(queries: seq<EvaluationQuery>) {
    forall x, y :: x in queries && y in queries && x.externalId == y.externalId ==> x == y
  }

  lemma OrdersAreTotal(seed: int, digest: Digest)
    ensures TotalPreorder(ByExternalId) && TotalPreorder(SampleOrder(seed, digest))
  {
    StringOrder();
  }

  lemma NoSampleTies(queries: seq<EvaluationQuery>, seed: int, digest: Digest)
    requires UniqueExternalIds(queries)
    ensures NoTies(queries, ByExternalId) && NoTies(queries, SampleOrder(seed, digest))
  {
    StringOrder();
  }

  /** The sampled queries before they are put back in identifier order. */
  function Drawn(queries: seq<EvaluationQuery>, size: nat, seed: int, digest: Digest): (r: seq<EvaluationQuery>)
    requires size <= |queries|
    ensures |r| == size
  {
    Sort(Sort(queries, ByExternalId), SampleOrder(seed, digest))[..size]
  }

  lemma DrawnFacts(queries: seq<EvaluationQuery>, size: nat, seed: int, digest: Digest)
    requires size <= |queries|
    ensures Sorted(Drawn(queries, size, seed, digest), SampleOrder(seed, digest))
    ensures forall q :: q in Drawn(queries, size, seed, digest) ==> q in queries
  {
    var order := SampleOrder(seed, digest);
    var ordered := Sort(queries, ByExternalId);
    OrdersAreTotal(seed, digest);
    SortSorts(ordered, order);
    SortMembers(ordered, order);
    SortMembers(queries, ByExternalId);
  }

  /** Size, membership and order of a selection; and it fails only when too many are asked for. */
  lemma SelectionMeaning(queries: seq<EvaluationQuery>, sampleSize: Option<nat>, seed: int, digest: Digest)
    ensures var r := SelectEvaluationQueries(queries, sampleSize, seed, digest);
            && (r.Ok? <==> sampleSize.None? || sampleSize.value <= |queries|)
            && (r.Ok? ==>
                && |r.value| == (if sampleSize.None? then |queries| else sampleSize.value)
                && Sorted(r.value, ByExternalId)
                && (forall q :: q in r.value ==> q in queries)
                && (Distinct(queries) ==> Distinct(r.value)))
  {
    OrdersAreTotal(seed, digest);
    SortSorts(queries, ByExternalId);
    SortMembers(queries, ByExternalId);
    if Distinct(queries) { DistinctByMultiset(queries, Sort(queries, ByExternalId)); }
    if sampleSize.Some? && sampleSize.value <= |queries| {
      DrawnSorted(queries, sampleSize.value, seed, digest);
    }
  }

  lemma DrawnSorted(queries: seq<EvaluationQuery>, size: nat, seed: int, digest: Digest)
    requires size <= |queries|
    ensures var r := Sort(Drawn(queries, size, seed, digest), ByExternalId);
            && Sorted(r, ByExternalId)
            && (forall q :: q in r ==> q in queries)
            && (Distinct(queries) ==> Distinct(r))
  {
    var drawn := Drawn(queries, size, seed, digest);
    OrdersAreTotal(seed, digest);
    SortSorts(drawn, ByExternalId);
    SortMembers(drawn, ByExternalId);
    DrawnFacts(queries, size, seed, digest);
    if Distinct(queries) {
      var all := Sort(Sort(queries, ByExternalId), SampleOrder(seed, digest));
      DistinctByMultiset(queries, all);
      DistinctByMultiset(all[..size], Sort(drawn, ByExternalId));
    }
  }

  /** No unselected query has a smaller sample key than a selected one. */
  lemma SelectionTakesSmallestKeys(queries: seq<EvaluationQuery>, size: nat, seed: int, digest: Digest,
                                   chosen: EvaluationQuery, other: EvaluationQuery)
    requires size <= |queries|
    requires chosen in SelectEvaluationQueries(queries, Some(size), seed, digest).value
    requires other in queries && other !in SelectEvaluationQueries(queries, Some(size), seed, digest).value
    ensures SampleLe(seed, digest, chosen, other)
  {
    var order := SampleOrder(seed, digest);
    var all := Sort(Sort(queries, ByExternalId), order);
    OrdersAreTotal(seed, digest);
    SortSorts(Sort(queries, ByExternalId), order);
    SortMembers(queries, ByExternalId);
    SortMembers(Sort(queries, ByExternalId), order);
    SortMembers(all[..size], ByExternalId);
    SplitIsOrdered(all, size, order, chosen, other);
  }

  lemma SplitIsOrdered<T(!new)>(s: seq<T>, size: nat, le: (T, T) -> bool, early: T, late: T)
    requires size <= |s| && Sorted(s, le)
    requires early in s[..size] && late in s && late !in s[..size]
    ensures le(early, late)
  {
    assert s == s[..size] + s[size..];
    var i :| 0 <= i < size && s[i] == early;
    var j :| 0 <= j < |s[size..]| && s[size..][j] == late;
    assert le(s[i], s[size + j]);
  }

  /**
   * What a selection is, without saying how it is made: as many members of the population as asked for, or all of them,
   * and no other member has a lower digest, or the same digest and an earlier identifier.
   */
  ghost predicate IsSample(sample: set<EvaluationQuery>, population: set<EvaluationQuery>, size: Option<nat>, seed: int,
                           digest: Digest)
  {
    && sample <= population
    && |sample| == (if size.None? then |population| else size.value)
    && forall q <- sample, other <- population - sample ::
         && digest(seed, q.externalId) <= digest(seed, other.externalId)
         && (digest(seed, q.externalId) == digest(seed, other.externalId) ==> StringLe(q.externalId, other.externalId))
  }

  lemma SelectedComeFirst(queries: seq<EvaluationQuery>, size: Option<nat>, seed: int, digest: Digest,
                          q: EvaluationQuery, other: EvaluationQuery)
    requires SelectEvaluationQueries(queries, size, seed, digest).Ok?
    requires q in SelectEvaluationQueries(queries, size, seed, digest).value
    requires other in queries && other !in SelectEvaluationQueries(queries, size, seed, digest).value
    ensures digest(seed, q.externalId) <= digest(seed, other.externalId)
    ensures digest(seed, q.externalId) == digest(seed, other.externalId) ==> StringLe(q.externalId, other.externalId)
  {
    if size.Some? {
      SelectionTakesSmallestKeys(queries, size.value, seed, digest, q, other);
    } else {
      SortMembers(queries, ByExternalId);
    }
  }

  lemma SelectedCount(queries: seq<EvaluationQuery>, size: Option<nat>, seed: int, digest: Digest)
    requires Distinct(queries) && SelectEvaluationQueries(queries, size, seed, digest).Ok?
    ensures var r := SelectEvaluationQueries(queries, size, seed, digest).value;
            && ToSet(r) <= ToSet(queries) && Distinct(r)
            && |ToSet(r)| == (if size.None? then |ToSet(queries)| else size.value)
  {
    SelectionMeaning(queries, size, seed, digest);
    DistinctCardinality(SelectEvaluationQueries(queries, size, seed, digest).value);
    DistinctCardinality(queries);
  }

  /** The selection of distinct queries is such a sample. */
  lemma SelectionIsSample(queries: seq<EvaluationQuery>, size: Option<nat>, seed: int, digest: Digest)
    requires Distinct(queries) && SelectEvaluationQueries(queries, size, seed, digest).Ok?
    ensures IsSample(ToSet(SelectEvaluationQueries(queries, size, seed, digest).value), ToSet(queries), size, seed,
                     digest)
  {
    var r := SelectEvaluationQueries(queries, size, seed, digest).value;
    SelectedCount(queries, size, seed, digest);
    forall q, other | q in ToSet(r) && other in ToSet(queries) - ToSet(r)
      ensures digest(seed, q.externalId) <= digest(seed, other.externalId)
      ensures digest(seed, q.externalId) == digest(seed, other.externalId) ==> StringLe(q.externalId, other.externalId)
    {
      SelectedComeFirst(queries, size, seed, digest, q, other);
    }
  }

  /** And it is listed in the order of the identifiers. */
  lemma SelectionIsListedInOrder(queries: seq<EvaluationQuery>, size: Option<nat>, seed: int, digest: Digest, i: nat,
                                 j: nat)
    requires SelectEvaluationQueries(queries, size, seed, digest).Ok?
    requires i < j < |SelectEvaluationQueries(queries, size, seed, digest).value|
    ensures var r := SelectEvaluationQueries(queries, size, seed, digest).value;
            StringLe(r[i].externalId, r[j].externalId)
  {
    var r := SelectEvaluationQueries(queries, size, seed, digest).value;
    SelectionMeaning(queries, size, seed, digest);
    assert ByExternalId(r[i], r[j]);
  }

  /** The selection does not depend on the order in which queries arrive. */
  lemma SelectionIgnoresOrder(a: seq<EvaluationQuery>, b: seq<EvaluationQuery>,
                              sampleSize: Option<nat>, seed: int, digest: Digest)
    requires multiset(a) == multiset(b) && UniqueExternalIds(a)
    ensures SelectEvaluationQueries(a, sampleSize, seed, digest) == SelectEvaluationQueries(b, sampleSize, seed, digest)
  {
    OrdersAreTotal(seed, digest);
    NoSampleTies(a, seed, digest);
    SortIgnoresOrder(a, b, ByExternalId);
  }

  /** Re-sampling a sample draws it in the same order. */
  lemma RedrawnInOrder(queries: seq<EvaluationQuery>, outer: nat, seed: int, digest: Digest)
    requires outer <= |queries| && UniqueExternalIds(queries)
    ensures Sort(Sort(Sort(Drawn(queries, outer, seed, digest), ByExternalId), ByExternalId), SampleOrder(seed, digest))
         == Drawn(queries, outer, seed, digest)
  {
    var order := SampleOrder(seed, digest);
    var drawn := Drawn(queries, outer, seed, digest);
    var ordered := Sort(Sort(drawn, ByExternalId), ByExternalId);
    OrdersAreTotal(seed, digest);
    DrawnFacts(queries, outer, seed, digest);
    NoSampleTies(drawn, seed, digest);
    SortSorts(ordered, order);
    SortedUnique(drawn, Sort(ordered, order), order);
  }

  /** Sampling from a sample equals sampling directly: smaller selections nest in larger ones. */
  lemma SelectionNests(queries: seq<EvaluationQuery>, outer: nat, inner: nat, seed: int, digest: Digest)
    requires inner <= outer <= |queries| && UniqueExternalIds(queries)
    ensures SelectEvaluationQueries(SelectEvaluationQueries(queries, Some(outer), seed, digest).value,
                                    Some(inner), seed, digest)
         == SelectEvaluationQueries(queries, Some(inner), seed, digest)
  {
    RedrawnInOrder(queries, outer, seed, digest);
    PrefixOfPrefix(Sort(Sort(queries, ByExternalId), SampleOrder(seed, digest)), outer, inner);
  }

  lemma PrefixOfPrefix<T>(s: seq<T>, outer: nat, inner: nat)
    requires inner <= outer <= |s|
    ensures s[..outer][..inner] == s[..inner]
  {}

  /** Every query of the generation phase was already part of the retrieval phase. */
  lemma GenerationQueriesWereRetrieved(queries: seq<EvaluationQuery>, sampleSize: Option<nat>,
                                       generationSize: Option<nat>, seed: int, digest: Digest)
    requires SelectEvaluationQueries(queries, sampleSize, seed, digest).Ok?
    ensures var retrieved := SelectEvaluationQueries(queries, sampleSize, seed, digest).value;
            var generated := SelectEvaluationQueries(retrieved, generationSize, seed, digest);
            && (generationSize.None? ==> generated == Ok(retrieved))
            && (generated.Ok? ==> forall q :: q in generated.value ==> q in retrieved)
  {
    SelectionMeaning(queries, sampleSize, seed, digest);
    var retrieved := SelectEvaluationQueries(queries, sampleSize, seed, digest).value;
    SelectionMeaning(retrieved, generationSize, seed, digest);
    OrdersAreTotal(seed, digest);
    SortOfSorted(retrieved, ByExternalId);
  }
}
