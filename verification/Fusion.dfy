/** Reciprocal rank fusion of several ranked lists. */
module Fusion {
  import opened Prelude
  import opened RetrievalMetrics

  datatype StageHit = StageHit(document: DocumentId, score: real)

  datatype FusionError = NonPositiveK

  function DocumentsOf(hits: seq<StageHit>): (r: seq<DocumentId>)
    ensures |r| == |hits|
    ensures forall i :: 0 <= i < |hits| ==> r[i] == hits[i].document
  {
    seq(|hits|, i requires 0 <= i < |hits| => hits[i].document)
  }

  lemma DocumentsAppend(a: seq<StageHit>, b: seq<StageHit>)
    ensures DocumentsOf(a + b) == DocumentsOf(a) + DocumentsOf(b)
  {}

  // ---- Specification: a sum of reciprocals over every occurrence ----

  /** The reciprocal weight of a position, counting positions from 0. */
  function Weight(k: nat, position: nat): real
    requires k > 0
  {
    1.0 / (k + position + 1) as real
  }

  function Contribution(ranking: seq<StageHit>, document: DocumentId, k: nat): real
    requires k > 0
  {
    if ranking == [] then 0.0
    else
      var last := |ranking| - 1;
      Contribution(ranking[..last], document, k)
      + if ranking[last].document == document then Weight(k, last) else 0.0
  }

  function FusedScore(rankings: seq<seq<StageHit>>, document: DocumentId, k: nat): real
    requires k > 0
  {
    if rankings == [] then 0.0
    else FusedScore(rankings[..|rankings| - 1], document, k) + Contribution(rankings[|rankings| - 1], document, k)
  }

  ghost predicate Mentioned(rankings: seq<seq<StageHit>>, document: DocumentId) {
    exists r :: 0 <= r < |rankings| && document in DocumentsOf(rankings[r])
  }

  /** Higher scores first; equal scores by document identifier. */
  predicate FusionOrder(a: StageHit, b: StageHit) {
    a.score > b.score || (a.score == b.score && StringLe(a.document, b.document))
  }

  /** The one list that fusing `rankings` may produce. */
  ghost predicate IsFusion(hits: seq<StageHit>, rankings: seq<seq<StageHit>>, k: nat)
    requires k > 0
  {
    && Distinct(DocumentsOf(hits))
    && (forall document :: document in DocumentsOf(hits) <==> Mentioned(rankings, document))
    && (forall i :: 0 <= i < |hits| ==> hits[i].score == FusedScore(rankings, hits[i].document, k))
    && Sorted(hits, FusionOrder)
  }

  // ---- The accumulating loops ----

  function ScoreOf(scores: map<DocumentId, real>, document: DocumentId): real {
    if document in scores then scores[document] else 0.0
  }

  function HitFor(scores: map<DocumentId, real>, document: DocumentId): StageHit {
    StageHit(document, ScoreOf(scores, document))
  }

  /** Adds one ranked list to the score dictionary; `order` is the dictionary's insertion order. */
  method Accumulate(ranking: seq<StageHit>, k: nat, scores: map<DocumentId, real>, order: seq<DocumentId>)
    returns (scores': map<DocumentId, real>, order': seq<DocumentId>)
    requires k > 0 && Distinct(order) && ToSet(order) == scores.Keys
    ensures Distinct(order') && ToSet(order') == scores'.Keys
    ensures scores'.Keys == scores.Keys + ToSet(DocumentsOf(ranking))
    ensures forall d :: ScoreOf(scores', d) == ScoreOf(scores, d) + Contribution(ranking, d, k)
  {
    scores', order' := scores, order;
    assert ranking[..0] == [];
    for i := 0 to |ranking|
      invariant Distinct(order') && ToSet(order') == scores'.Keys
      invariant scores'.Keys == scores.Keys + ToSet(DocumentsOf(ranking[..i]))
      invariant forall d :: ScoreOf(scores', d) == ScoreOf(scores, d) + Contribution(ranking[..i], d, k)
    {
      var document := ranking[i].document;
      OneMoreHit(ranking, i, k);
      if document !in scores' { order' := order' + [document]; }
      scores' := scores'[document := ScoreOf(scores', document) + 1.0 / (k + i + 1) as real];
    }
    assert ranking[..|ranking|] == ranking;
  }

  lemma OneMoreDocument(hits: seq<StageHit>, i: nat)
    requires i < |hits|
    ensures ToSet(DocumentsOf(hits[..i + 1])) == ToSet(DocumentsOf(hits[..i])) + {hits[i].document}
  {
    assert DocumentsOf(hits[..i + 1]) == DocumentsOf(hits[..i]) + [hits[i].document];
  }

  lemma OneMoreHit(ranking: seq<StageHit>, i: nat, k: nat)
    requires k > 0 && i < |ranking|
    ensures ToSet(DocumentsOf(ranking[..i + 1])) == ToSet(DocumentsOf(ranking[..i])) + {ranking[i].document}
    ensures forall d :: Contribution(ranking[..i + 1], d, k)
                     == Contribution(ranking[..i], d, k) + if ranking[i].document == d then Weight(k, i) else 0.0
  {
    assert ranking[..i + 1][..i] == ranking[..i];
    OneMoreDocument(ranking, i);
  }

  method ReciprocalRankFusion(rankings: seq<seq<StageHit>>, k: int)
    returns (r: Result<seq<StageHit>, FusionError>)
    ensures r.Ok? <==> k > 0
    ensures r.Ok? ==> IsFusion(r.value, rankings, k)
  {
    if k <= 0 { return Err(NonPositiveK); }
    var scores: map<DocumentId, real>, order: seq<DocumentId> := map[], [];
    for n := 0 to |rankings|
      invariant Distinct(order) && ToSet(order) == scores.Keys
      invariant forall d :: d in scores <==> Mentioned(rankings[..n], d)
      invariant forall d :: ScoreOf(scores, d) == FusedScore(rankings[..n], d, k)
    {
      ghost var before := scores;
      scores, order := Accumulate(rankings[n], k, scores, order);
      assert rankings[..n + 1][..n] == rankings[..n];
      forall d ensures d in scores <==> Mentioned(rankings[..n + 1], d) {
        MentionedOneMore(rankings, n, d);
      }
    }
    assert rankings[..|rankings|] == rankings;
    var hits := seq(|order|, i requires 0 <= i < |order| => HitFor(scores, order[i]));
    SortedHitsAreFusion(hits, order, rankings, k);
    r := Ok(Sort(hits, FusionOrder));
  }

  lemma MentionedOneMore(rankings: seq<seq<StageHit>>, n: nat, document: DocumentId)
    requires n < |rankings|
    ensures Mentioned(rankings[..n + 1], document)
       <==> Mentioned(rankings[..n], document) || document in DocumentsOf(rankings[n])
  {
    assert forall r :: 0 <= r < n ==> rankings[..n + 1][r] == rankings[..n][r];
    assert rankings[..n + 1][n] == rankings[n];
  }

  lemma FusionOrderIsTotal()
    ensures TotalPreorder(FusionOrder)
    ensures forall a, b :: FusionOrder(a, b) && FusionOrder(b, a) ==> a == b
  {
    StringOrder();
  }

  lemma DocumentsAsMultiset(a: seq<StageHit>, b: seq<StageHit>)
    requires multiset(a) == multiset(b)
    ensures multiset(DocumentsOf(a)) == multiset(DocumentsOf(b))
  {
    var document := (hit: StageHit) => hit.document;
    MappedMultiset(a, b, document);
    assert DocumentsOf(a) == Mapped(a, document) && DocumentsOf(b) == Mapped(b, document);
  }

  lemma SortedHitsAreFusion(hits: seq<StageHit>, order: seq<DocumentId>, rankings: seq<seq<StageHit>>, k: nat)
    requires k > 0 && |hits| == |order| && Distinct(order)
    requires forall i :: 0 <= i < |order| ==> hits[i] == StageHit(order[i], FusedScore(rankings, order[i], k))
    requires forall d :: d in order <==> Mentioned(rankings, d)
    ensures IsFusion(Sort(hits, FusionOrder), rankings, k)
  {
    var sorted := Sort(hits, FusionOrder);
    FusionOrderIsTotal();
    SortSorts(hits, FusionOrder);
    SortMembers(hits, FusionOrder);
    assert DocumentsOf(hits) == order;
    DocumentsAsMultiset(hits, sorted);
    DistinctByMultiset(order, DocumentsOf(sorted));
    SameMembers(DocumentsOf(sorted), order);
    forall i | 0 <= i < |sorted| ensures sorted[i].score == FusedScore(rankings, sorted[i].document, k) {
      assert sorted[i] in hits;
    }
  }

  // ---- What the result means ----

  /** The specification leaves no freedom: fusion is a function of its input. */
  lemma FusionIsUnique(a: seq<StageHit>, b: seq<StageHit>, rankings: seq<seq<StageHit>>, k: nat)
    requires k > 0 && IsFusion(a, rankings, k) && IsFusion(b, rankings, k)
    ensures a == b
  {
    FusionOrderIsTotal();
    FusionMembers(a, b, rankings, k);
    FusionMembers(b, a, rankings, k);
    DistinctHits(a);
    DistinctHits(b);
    assert ToSet(a) == ToSet(b);
    DistinctMultiset(a, b);
    SortedUnique(a, b, FusionOrder);
  }

  lemma DistinctHits(hits: seq<StageHit>)
    requires Distinct(DocumentsOf(hits))
    ensures Distinct(hits)
  {
    forall i, j | 0 <= i < j < |hits| ensures hits[i] != hits[j] {
      assert DocumentsOf(hits)[i] != DocumentsOf(hits)[j];
    }
  }

  lemma FusionMembers(a: seq<StageHit>, b: seq<StageHit>, rankings: seq<seq<StageHit>>, k: nat)
    requires k > 0 && IsFusion(a, rankings, k) && IsFusion(b, rankings, k)
    ensures forall hit :: hit in a ==> hit in b
  {
    forall hit | hit in a ensures hit in b {
      var i :| 0 <= i < |a| && a[i] == hit;
      assert DocumentsOf(a)[i] == hit.document;
      assert Mentioned(rankings, hit.document);
      var j :| 0 <= j < |b| && DocumentsOf(b)[j] == hit.document;
      assert b[j] == hit;
    }
  }

  lemma {:induction false} ScoreWithout(rankings: seq<seq<StageHit>>, i: nat, document: DocumentId, k: nat)
    requires k > 0 && i < |rankings|
    ensures FusedScore(rankings, document, k)
         == Contribution(rankings[i], document, k) + FusedScore(Without(rankings, i), document, k)
    decreases |rankings|
  {
    var last := |rankings| - 1;
    if i == last {
      assert Without(rankings, i) == rankings[..last];
    } else {
      ScoreWithout(rankings[..last], i, document, k);
      var less := Without(rankings, i);
      assert less[..|less| - 1] == Without(rankings[..last], i) && less[|less| - 1] == rankings[last];
    }
  }

  lemma {:induction false} ScoreIgnoresOrder(a: seq<seq<StageHit>>, b: seq<seq<StageHit>>, document: DocumentId, k: nat)
    requires k > 0 && multiset(a) == multiset(b)
    ensures FusedScore(a, document, k) == FusedScore(b, document, k)
    decreases |a|
  {
    assert |multiset(a)| == |a| && |multiset(b)| == |b|;
    if a != [] {
      assert a[0] in b by { SameMembers(a, b); }
      var i :| 0 <= i < |b| && b[i] == a[0];
      WithoutMultiset(a, 0);
      WithoutMultiset(b, i);
      ScoreIgnoresOrder(Without(a, 0), Without(b, i), document, k);
      ScoreWithout(a, 0, document, k);
      ScoreWithout(b, i, document, k);
    }
  }

  /** Fusion does not depend on the order in which the ranked lists are given. */
  lemma FusionIgnoresListOrder(hits: seq<StageHit>, a: seq<seq<StageHit>>, b: seq<seq<StageHit>>, k: nat)
    requires k > 0 && multiset(a) == multiset(b)
    ensures IsFusion(hits, a, k) <==> IsFusion(hits, b, k)
  {
    forall document ensures FusedScore(a, document, k) == FusedScore(b, document, k)
                            && (Mentioned(a, document) <==> Mentioned(b, document)) {
      ScoreIgnoresOrder(a, b, document, k);
      MentionIgnoresOrder(a, b, document);
      MentionIgnoresOrder(b, a, document);
    }
  }

  lemma MentionIgnoresOrder(a: seq<seq<StageHit>>, b: seq<seq<StageHit>>, document: DocumentId)
    requires multiset(a) == multiset(b)
    ensures Mentioned(a, document) ==> Mentioned(b, document)
  {
    if r :| 0 <= r < |a| && document in DocumentsOf(a[r]) {
      assert a[r] in b by { SameMembers(a, b); }
      var s :| 0 <= s < |b| && b[s] == a[r];
    }
  }

  /** `winner` stands above `loser` in this list, or `loser` is not in it. */
  ghost predicate AtLeastAsHigh(ranking: seq<StageHit>, winner: DocumentId, loser: DocumentId) {
    forall j :: 0 <= j < |ranking| && ranking[j].document == loser
                ==> exists i :: 0 <= i < j && ranking[i].document == winner
  }

  lemma {:induction false} ContributionAt(ranking: seq<StageHit>, i: nat, k: nat)
    requires k > 0 && Distinct(DocumentsOf(ranking)) && i < |ranking|
    ensures Contribution(ranking, ranking[i].document, k) == Weight(k, i)
  {
    var last := |ranking| - 1;
    var document := ranking[i].document;
    assert DocumentsOf(ranking)[i] == document && DocumentsOf(ranking)[last] == ranking[last].document;
    assert DocumentsOf(ranking[..last]) == DocumentsOf(ranking)[..last];
    if i == last {
      ContributionOutside(ranking[..last], document, k);
    } else {
      ContributionAt(ranking[..last], i, k);
    }
  }

  lemma {:induction false} ContributionOutside(ranking: seq<StageHit>, document: DocumentId, k: nat)
    requires k > 0 && document !in DocumentsOf(ranking)
    ensures Contribution(ranking, document, k) == 0.0
  {
    if ranking != [] {
      var last := |ranking| - 1;
      assert DocumentsOf(ranking)[last] != document;
      assert forall j :: 0 <= j < last ==> DocumentsOf(ranking[..last])[j] == DocumentsOf(ranking)[j];
      ContributionOutside(ranking[..last], document, k);
    }
  }

  lemma ContributionOrder(ranking: seq<StageHit>, winner: DocumentId, loser: DocumentId, k: nat)
    requires k > 0 && Distinct(DocumentsOf(ranking)) && AtLeastAsHigh(ranking, winner, loser)
    ensures Contribution(ranking, winner, k) >= Contribution(ranking, loser, k)
    ensures winner in DocumentsOf(ranking) ==> Contribution(ranking, winner, k) > Contribution(ranking, loser, k)
  {
    if loser in DocumentsOf(ranking) {
      var j :| 0 <= j < |ranking| && DocumentsOf(ranking)[j] == loser;
      assert ranking[j].document == loser;
      var i :| 0 <= i < j && ranking[i].document == winner;
      ContributionAt(ranking, i, k);
      ContributionAt(ranking, j, k);
      WeightDecreases(k, i, j);
    } else {
      ContributionOutside(ranking, loser, k);
      if winner in DocumentsOf(ranking) {
        var i :| 0 <= i < |ranking| && DocumentsOf(ranking)[i] == winner;
        ContributionAt(ranking, i, k);
        WeightDecreases(k, i, i + 1);
      } else {
        ContributionOutside(ranking, winner, k);
      }
    }
  }

  lemma WeightDecreases(k: nat, i: nat, j: nat)
    requires k > 0 && i < j
    ensures Weight(k, i) > Weight(k, j) > 0.0
  {
    var a, b := (k + i + 1) as real, (k + j + 1) as real;
    assert a * b > 0.0;
    assert 1.0 / a - 1.0 / b == (b - a) / (a * b);
  }

  lemma {:induction false} DominatedScore(rankings: seq<seq<StageHit>>, winner: DocumentId, loser: DocumentId, k: nat)
    requires k > 0
    requires forall ranking :: ranking in rankings ==>
               Distinct(DocumentsOf(ranking)) && AtLeastAsHigh(ranking, winner, loser)
    ensures FusedScore(rankings, winner, k) >= FusedScore(rankings, loser, k)
    ensures Mentioned(rankings, winner) ==> FusedScore(rankings, winner, k) > FusedScore(rankings, loser, k)
  {
    if rankings != [] {
      var last := |rankings| - 1;
      DominatedScore(rankings[..last], winner, loser, k);
      ContributionOrder(rankings[last], winner, loser, k);
      MentionedOneMore(rankings, last, winner);
      assert rankings[..last + 1] == rankings;
    }
  }

  /** A document that every list places above another comes out above it. */
  lemma DominanceIsRespected(hits: seq<StageHit>, rankings: seq<seq<StageHit>>, k: nat, i: nat, j: nat)
    requires k > 0 && IsFusion(hits, rankings, k) && i < |hits| && j < |hits|
    requires forall ranking :: ranking in rankings ==>
               Distinct(DocumentsOf(ranking)) && AtLeastAsHigh(ranking, hits[i].document, hits[j].document)
    ensures i < j
  {
    assert DocumentsOf(hits)[i] == hits[i].document;
    DominatedScore(rankings, hits[i].document, hits[j].document, k);
    assert j < i ==> FusionOrder(hits[j], hits[i]);
  }

  // ---- The scores over 1-based ranks ----

  lemma {:induction false} AbsentAddsNothing(ranking: seq<StageHit>, document: DocumentId, k: nat)
    requires k > 0 && document !in DocumentsOf(ranking)
    ensures Contribution(ranking, document, k) == 0.0
  {
    if ranking != [] {
      var last := |ranking| - 1;
      assert DocumentsOf(ranking[..last]) == DocumentsOf(ranking)[..last];
      assert DocumentsOf(ranking)[last] == ranking[last].document;
      AbsentAddsNothing(ranking[..last], document, k);
    }
  }

  /** In a list without repetitions the document at index i, the (i + 1)-th, adds the reciprocal of k + i + 1. */
  lemma {:induction false} RankAddsItsReciprocal(ranking: seq<StageHit>, k: nat, i: nat)
    requires k > 0 && Distinct(DocumentsOf(ranking)) && i < |ranking|
    ensures Contribution(ranking, ranking[i].document, k) == 1.0 / (k + i + 1) as real
  {
    var last := |ranking| - 1;
    var init := ranking[..last];
    assert DocumentsOf(init) == DocumentsOf(ranking)[..last];
    if i < last {
      RankAddsItsReciprocal(init, k, i);
      assert DocumentsOf(ranking)[i] != DocumentsOf(ranking)[last];
    } else {
      assert forall j :: 0 <= j < last ==> DocumentsOf(ranking)[j] != DocumentsOf(ranking)[last];
      AbsentAddsNothing(init, ranking[i].document, k);
    }
  }

  /** Fusing one list scores each hit by its rank and keeps the order. */
  lemma FusionOfOneList(hits: seq<StageHit>, ranking: seq<StageHit>, k: nat)
    requires k > 0 && Distinct(DocumentsOf(ranking)) && IsFusion(hits, [ranking], k)
    ensures hits == seq(|ranking|, i requires 0 <= i < |ranking| =>
                      StageHit(ranking[i].document, 1.0 / (k + i + 1) as real))
  {
    var ranked := seq(|ranking|, i requires 0 <= i < |ranking| =>
                    StageHit(ranking[i].document, 1.0 / (k + i + 1) as real));
    assert DocumentsOf(ranked) == DocumentsOf(ranking);
    forall i | 0 <= i < |ranked| ensures ranked[i].score == FusedScore([ranking], ranked[i].document, k) {
      RankAddsItsReciprocal(ranking, k, i);
      assert [ranking][..0] == [];
    }
    forall d ensures d in DocumentsOf(ranked) <==> Mentioned([ranking], d) {
      if d in DocumentsOf(ranked) { assert d in DocumentsOf([ranking][0]); }
    }
    forall i, j | 0 <= i < j < |ranked| ensures FusionOrder(ranked[i], ranked[j]) {
      LaterRanksAddLess(k + i + 1, k + j + 1);
    }
    FusionIsUnique(ranked, hits, [ranking], k);
  }

  lemma LaterRanksAddLess(a: nat, b: nat)
    requires 0 < a < b
    ensures 1.0 / a as real > 1.0 / b as real
  {
    var x, y := 1.0 / a as real, 1.0 / b as real;
    assert x * a as real == 1.0 && y * b as real == 1.0;
  }

  /** What a document's rank in one list is worth, written out. */
  ghost predicate Earns(ranking: seq<StageHit>, document: DocumentId, k: nat, worth: real)
    requires k > 0
  {
    && (document !in DocumentsOf(ranking) ==> worth == 0.0)
    && (forall p :: 0 <= p < |ranking| && ranking[p].document == document ==> worth == 1.0 / (k + p + 1) as real)
  }

  lemma ContributionEarns(ranking: seq<StageHit>, document: DocumentId, k: nat)
    requires k > 0 && Distinct(DocumentsOf(ranking))
    ensures Earns(ranking, document, k, Contribution(ranking, document, k))
  {
    if document !in DocumentsOf(ranking) {
      AbsentAddsNothing(ranking, document, k);
    }
    forall p | 0 <= p < |ranking| && ranking[p].document == document
      ensures Contribution(ranking, document, k) == 1.0 / (k + p + 1) as real
    {
      RankAddsItsReciprocal(ranking, k, p);
    }
  }

  /** Fusing two lists gives every document what its ranks in both are worth. */
  lemma FusionOfTwoLists(hits: seq<StageHit>, a: seq<StageHit>, b: seq<StageHit>, k: nat, i: nat)
    requires k > 0 && Distinct(DocumentsOf(a)) && Distinct(DocumentsOf(b))
    requires IsFusion(hits, [a, b], k) && i < |hits|
    ensures exists x: real, y: real ::
              Earns(a, hits[i].document, k, x) && Earns(b, hits[i].document, k, y) && hits[i].score == x + y
  {
    var d := hits[i].document;
    var x, y := Contribution(a, d, k), Contribution(b, d, k);
    ContributionEarns(a, d, k);
    ContributionEarns(b, d, k);
    ScoreOfTwoLists(a, b, d, k);
    assert Earns(a, d, k, x) && Earns(b, d, k, y) && hits[i].score == x + y;
  }

  lemma ScoreOfTwoLists(a: seq<StageHit>, b: seq<StageHit>, d: DocumentId, k: nat)
    requires k > 0
    ensures FusedScore([a, b], d, k) == Contribution(a, d, k) + Contribution(b, d, k)
  {
    var one, two := [a], [a, b];
    assert one[..|one| - 1] == [] && two[..|two| - 1] == one;
    assert FusedScore([], d, k) == 0.0;
    assert FusedScore(one, d, k) == Contribution(a, d, k);
  }

  /** Higher scores come first; equal scores are in the order of their documents. */
  lemma FusionIsOrdered(hits: seq<StageHit>, rankings: seq<seq<StageHit>>, k: nat, i: nat, j: nat)
    requires k > 0 && IsFusion(hits, rankings, k) && i < j < |hits|
    ensures hits[i].score >= hits[j].score
    ensures hits[i].score == hits[j].score ==> StringLe(hits[i].document, hits[j].document)
  {
    assert FusionOrder(hits[i], hits[j]);
  }
}
