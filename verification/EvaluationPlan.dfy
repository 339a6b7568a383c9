/** The order in which a runner visits its work: queries outermost, variants within. */
module EvaluationPlan {
  import opened Prelude
  import opened EvaluationContract
  import opened EvaluationStore
  import opened Sampling

  type Queries = seq<EvaluationQuery>

  /** One instruction of the retrieval loop: look for a cancellation, or search one item. */
  datatype Item = CheckCancelled | Search(work: Work)

  function SearchItems(query: EvaluationQuery, variants: seq<Variant>): (items: seq<Item>)
    ensures |items| == |variants|
    ensures forall i :: 0 <= i < |items| ==> items[i] == Search(Work(query.externalId, variants[i]))
  {
    seq(|variants|, i requires 0 <= i < |variants| => Search(Work(query.externalId, variants[i])))
  }

  /** The retrieval loop, flattened. */
  function Program(queries: Queries, variants: seq<Variant>): seq<Item> {
    if queries == [] then []
    else [CheckCancelled] + SearchItems(queries[0], variants) + Program(queries[1..], variants)
  }

  function WorkItems(query: EvaluationQuery, variants: seq<Variant>): (items: seq<Work>)
    ensures |items| == |variants|
    ensures forall i :: 0 <= i < |items| ==> items[i] == Work(query.externalId, variants[i])
  {
    seq(|variants|, i requires 0 <= i < |variants| => Work(query.externalId, variants[i]))
  }

  /** The generation and judging loops, flattened. */
  function WorkList(queries: Queries, variants: seq<Variant>): seq<Work> {
    if queries == [] then []
    else WorkItems(queries[0], variants) + WorkList(queries[1..], variants)
  }

  /** Query by query: the loop looks for a cancellation and then searches the query under one variant after another. */
  lemma {:induction false} ProgramAt(queries: Queries, variants: seq<Variant>, i: nat)
    requires i < |queries|
    ensures Program(queries, variants)
         == Program(queries[..i], variants)
            + ([CheckCancelled] + seq(|variants|, j requires 0 <= j < |variants| =>
                                                    Search(Work(queries[i].externalId, variants[j]))))
            + Program(queries[i + 1..], variants)
    ensures |Program(queries[..i], variants)| == i * (|variants| + 1)
  {
    ProgramSize(queries[..i], variants);
    assert seq(|variants|, j requires 0 <= j < |variants| => Search(Work(queries[i].externalId, variants[j])))
        == SearchItems(queries[i], variants);
    if i > 0 {
      var block := [CheckCancelled] + SearchItems(queries[0], variants);
      ProgramAt(queries[1..], variants, i - 1);
      assert queries[..i][1..] == queries[1..][..i - 1] && queries[1..][i..] == queries[i + 1..];
      ThreeParts(block, Program(queries[1..][..i - 1], variants), [CheckCancelled] + SearchItems(queries[i], variants),
                 Program(queries[i + 1..], variants));
    }
  }

  lemma ThreeParts<T>(a: seq<T>, b: seq<T>, c: seq<T>, d: seq<T>)
    ensures a + (b + c + d) == (a + b) + c + d
  {}

  lemma {:induction false} ProgramSize(queries: Queries, variants: seq<Variant>)
    ensures |Program(queries, variants)| == |queries| * (|variants| + 1)
  {
    if queries != [] { ProgramSize(queries[1..], variants); }
  }

  /** The generation and judging loops go query by query too, and variant by variant within each. */
  lemma {:induction false} WorkListAt(queries: Queries, variants: seq<Variant>, i: nat)
    requires i < |queries|
    ensures WorkList(queries, variants)
         == WorkList(queries[..i], variants)
            + seq(|variants|, j requires 0 <= j < |variants| => Work(queries[i].externalId, variants[j]))
            + WorkList(queries[i + 1..], variants)
    ensures |WorkList(queries[..i], variants)| == i * |variants|
  {
    WorkListSize(queries[..i], variants);
    assert seq(|variants|, j requires 0 <= j < |variants| => Work(queries[i].externalId, variants[j]))
        == WorkItems(queries[i], variants);
    if i > 0 {
      WorkListAt(queries[1..], variants, i - 1);
      assert queries[..i][1..] == queries[1..][..i - 1] && queries[1..][i..] == queries[i + 1..];
      ThreeParts(WorkItems(queries[0], variants), WorkList(queries[1..][..i - 1], variants),
                 WorkItems(queries[i], variants), WorkList(queries[i + 1..], variants));
    }
  }

  lemma {:induction false} WorkListSize(queries: Queries, variants: seq<Variant>)
    ensures |WorkList(queries, variants)| == |queries| * |variants|
  {
    if queries != [] { WorkListSize(queries[1..], variants); }
  }

  predicate InPlan(work: Work, queries: Queries, variants: seq<Variant>) {
    work.variant in variants && exists q :: q in queries && q.externalId == work.query
  }

  function WorkSet(queries: Queries, variants: seq<Variant>): set<Work> {
    set q <- queries, v <- variants :: Work(q.externalId, v)
  }

  predicate IsSuffix<T(==)>(rest: seq<T>, whole: seq<T>) {
    |rest| <= |whole| && rest == whole[|whole| - |rest|..]
  }

  lemma SuffixTail<T>(rest: seq<T>, whole: seq<T>)
    requires IsSuffix(rest, whole) && rest != []
    ensures IsSuffix(rest[1..], whole)
  {}

  lemma SuffixMember<T>(rest: seq<T>, whole: seq<T>, x: T)
    requires IsSuffix(rest, whole) && x in rest
    ensures x in whole
  {}

  // ---- Membership and size ----

  lemma WorkSetMeaning(queries: Queries, variants: seq<Variant>, work: Work)
    ensures work in WorkSet(queries, variants) <==> InPlan(work, queries, variants)
  {
    if InPlan(work, queries, variants) {
      var q :| q in queries && q.externalId == work.query;
      assert Work(q.externalId, work.variant) in WorkSet(queries, variants);
    }
  }

  lemma {:induction false} ProgramMembers(queries: Queries, variants: seq<Variant>, work: Work)
    ensures Search(work) in Program(queries, variants) <==> InPlan(work, queries, variants)
  {
    if queries != [] {
      ProgramMembers(queries[1..], variants, work);
      var items := SearchItems(queries[0], variants);
      assert queries == [queries[0]] + queries[1..];
      if work.query == queries[0].externalId && work.variant in variants {
        var i :| 0 <= i < |variants| && variants[i] == work.variant;
        assert items[i] == Search(work);
      }
    }
  }

  lemma {:induction false} WorkListMembers(queries: Queries, variants: seq<Variant>, work: Work)
    ensures work in WorkList(queries, variants) <==> InPlan(work, queries, variants)
  {
    if queries != [] {
      WorkListMembers(queries[1..], variants, work);
      var items := WorkItems(queries[0], variants);
      assert queries == [queries[0]] + queries[1..];
      if work.query == queries[0].externalId && work.variant in variants {
        var i :| 0 <= i < |variants| && variants[i] == work.variant;
        assert items[i] == work;
      }
    }
  }

  lemma WorkListIsWorkSet(queries: Queries, variants: seq<Variant>)
    ensures ToSet(WorkList(queries, variants)) == WorkSet(queries, variants)
  {
    forall w ensures w in ToSet(WorkList(queries, variants)) <==> w in WorkSet(queries, variants) {
      WorkListMembers(queries, variants, w);
      WorkSetMeaning(queries, variants, w);
    }
  }

  predicate DistinctIds(queries: Queries) {
    forall i, j :: 0 <= i < j < |queries| ==> queries[i].externalId != queries[j].externalId
  }

  lemma DistinctIdsOf(queries: Queries)
    requires Distinct(queries) && UniqueExternalIds(queries)
    ensures DistinctIds(queries)
  {
    forall i, j | 0 <= i < j < |queries| ensures queries[i].externalId != queries[j].externalId {
      assert queries[i] in queries && queries[j] in queries;
    }
  }

  lemma {:induction false} WorkListDistinct(queries: Queries, variants: seq<Variant>)
    requires DistinctIds(queries) && Distinct(variants)
    ensures Distinct(WorkList(queries, variants))
    ensures |WorkList(queries, variants)| == |queries| * |variants|
  {
    if queries != [] {
      var head, rest := WorkItems(queries[0], variants), WorkList(queries[1..], variants);
      WorkListDistinct(queries[1..], variants);
      HeadApart(queries, variants);
      DistinctAppend(head, rest);
    }
  }

  lemma HeadApart(queries: Queries, variants: seq<Variant>)
    requires queries != [] && DistinctIds(queries)
    ensures ToSet(WorkItems(queries[0], variants)) !! ToSet(WorkList(queries[1..], variants))
  {
    forall w | w in WorkList(queries[1..], variants) ensures w.query != queries[0].externalId {
      WorkListMembers(queries[1..], variants, w);
      var q :| q in queries[1..] && q.externalId == w.query;
      var i :| 0 <= i < |queries[1..]| && queries[1..][i] == q;
      assert queries[i + 1] == q;
    }
  }

  /** There are exactly as many work items as queries times variants. */
  lemma WorkSetSize(queries: Queries, variants: seq<Variant>)
    requires DistinctIds(queries) && Distinct(variants)
    ensures |WorkSet(queries, variants)| == |queries| * |variants|
  {
    WorkListDistinct(queries, variants);
    WorkListIsWorkSet(queries, variants);
    DistinctCardinality(WorkList(queries, variants));
  }

  /** No item of the retrieval loop is searched twice. */
  lemma {:induction false} ProgramSearchesOnce(queries: Queries, variants: seq<Variant>, i: nat, j: nat)
    requires DistinctIds(queries) && Distinct(variants)
    requires i < j < |Program(queries, variants)|
    requires Program(queries, variants)[i].Search?
    ensures Program(queries, variants)[i] != Program(queries, variants)[j]
  {
    var items, rest := SearchItems(queries[0], variants), Program(queries[1..], variants);
    var whole := Program(queries, variants);
    assert whole == [CheckCancelled] + items + rest;
    var n := |items| + 1;
    if n <= i {
      ProgramSearchesOnce(queries[1..], variants, i - n, j - n);
    } else if n <= j {
      assert whole[i] == items[i - 1];
      if rest[j - n] == whole[i] {
        RestApart(queries, variants, whole[i].work);
      }
    } else {
      assert whole[i] == items[i - 1] && whole[j] == items[j - 1];
    }
  }

  lemma RestApart(queries: Queries, variants: seq<Variant>, work: Work)
    requires queries != [] && DistinctIds(queries) && Search(work) in Program(queries[1..], variants)
    ensures work.query != queries[0].externalId
  {
    ProgramMembers(queries[1..], variants, work);
    var q :| q in queries[1..] && q.externalId == work.query;
    var i :| 0 <= i < |queries[1..]| && queries[1..][i] == q;
    assert queries[i + 1] == q;
  }

  // ---- How soon a cancellation is noticed ----

  /** How many searches come before the loop next looks for a cancellation. */
  function SearchesBeforeCheck(todo: seq<Item>): nat {
    if todo == [] || todo[0].CheckCancelled? then 0 else 1 + SearchesBeforeCheck(todo[1..])
  }

  lemma SuffixOfRest<T>(todo: seq<T>, head: seq<T>, rest: seq<T>)
    requires IsSuffix(todo, head + rest) && |todo| <= |rest|
    ensures IsSuffix(todo, rest)
  {
    assert rest[|rest| - |todo|..] == (head + rest)[|head + rest| - |todo|..];
  }

  lemma SuffixBeyondRest<T>(todo: seq<T>, head: seq<T>, rest: seq<T>)
    requires IsSuffix(todo, head + rest) && |todo| >= |rest|
    ensures todo == head[|head| + |rest| - |todo|..] + rest
  {}

  /** From any point of the loop, at most one query's variants are searched before the next look. */
  lemma {:induction false} CheckIsNear(queries: Queries, variants: seq<Variant>, todo: seq<Item>)
    requires IsSuffix(todo, Program(queries, variants))
    ensures SearchesBeforeCheck(todo) <= |variants|
  {
    if queries != [] {
      var items, rest := SearchItems(queries[0], variants), Program(queries[1..], variants);
      ProgramStart(queries[1..], variants);
      assert [CheckCancelled] + items + rest == [CheckCancelled] + (items + rest);
      if |todo| <= |rest| {
        SuffixOfRest(todo, [CheckCancelled] + items, rest);
        CheckIsNear(queries[1..], variants, todo);
      } else {
        NearInFirstQuery(todo, items, rest);
      }
    }
  }

  lemma ProgramStart(queries: Queries, variants: seq<Variant>)
    ensures Program(queries, variants) == [] || Program(queries, variants)[0] == CheckCancelled
  {}

  lemma NearInFirstQuery(todo: seq<Item>, items: seq<Item>, rest: seq<Item>)
    requires IsSuffix(todo, [CheckCancelled] + (items + rest)) && |todo| > |rest|
    requires rest == [] || rest[0] == CheckCancelled
    ensures SearchesBeforeCheck(todo) <= |items|
  {
    if |todo| <= |items + rest| {
      SuffixOfRest(todo, [CheckCancelled], items + rest);
      SuffixBeyondRest(todo, items, rest);
      WithinOneQuery(items[|items| + |rest| - |todo|..], rest);
    } else {
      assert todo[0] == CheckCancelled;
    }
  }

  lemma {:induction false} WithinOneQuery(items: seq<Item>, rest: seq<Item>)
    requires rest == [] || rest[0].CheckCancelled?
    ensures SearchesBeforeCheck(items + rest) <= |items|
  {
    if items != [] && items[0].Search? {
      assert (items + rest)[1..] == items[1..] + rest;
      WithinOneQuery(items[1..], rest);
    } else if items == [] {
      assert items + rest == rest;
    }
  }
}
