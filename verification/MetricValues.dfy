/** The retrieval metrics written out: one relevant document at any rank, and two ranked against their grades. */
module MetricValues {
  import opened Prelude
  import opened RetrievalMetrics

  lemma {:induction false} TotalOfOne(s: seq<real>, i: nat)
    requires i < |s| && forall j :: 0 <= j < |s| && j != i ==> s[j] == 0.0
    ensures Total(s) == s[i]
  {
    var last := |s| - 1;
    if i == last {
      TotalOfNone(s[..last]);
    } else {
      TotalOfOne(s[..last], i);
    }
  }

  lemma {:induction false} TotalOfNone(s: seq<real>)
    requires forall j :: 0 <= j < |s| ==> s[j] == 0.0
    ensures Total(s) == 0.0
  {
    if s != [] { TotalOfNone(s[..|s| - 1]); }
  }

  /** The gain of a list with one grade is that grade times the discount of its rank. */
  lemma GainOfOne(grades: seq<int>, i: nat, discount: nat -> real)
    requires i < |grades| && forall j :: 0 <= j < |grades| && j != i ==> grades[j] == 0
    ensures Dcg(grades, discount) == grades[i] as real * discount(i)
  {
    forall j | 0 <= j < |grades| && j != i ensures Gains(grades, discount)[j] == 0.0 {
      assert grades[j] as real * discount(j) == 0.0;
    }
    TotalOfOne(Gains(grades, discount), i);
  }

  lemma GainOfNone(grades: seq<int>, discount: nat -> real)
    requires forall j :: 0 <= j < |grades| ==> grades[j] == 0
    ensures Dcg(grades, discount) == 0.0
  {
    forall j | 0 <= j < |grades| ensures Gains(grades, discount)[j] == 0.0 {
      assert grades[j] as real * discount(j) == 0.0;
    }
    TotalOfNone(Gains(grades, discount));
  }

  lemma OneJudgement(document: DocumentId, grade: int)
    requires grade > 0
    ensures forall d :: Grade(d, [Qrel(document, grade)]) == if d == document then grade else 0
    ensures Relevant([Qrel(document, grade)]) == {document}
    ensures forall cutoff: nat :: cutoff > 0 ==> IdealGrades([Qrel(document, grade)], cutoff) == [grade]
  {
    var qrels: Qrels := [Qrel(document, grade)];
    assert qrels[1..] == [];
    assert qrels[0].document in Relevant(qrels);
    assert Values(qrels) == [grade] && [grade][1..] == [];
    assert Positives([]) == [] && Positives([grade]) == [grade];
    assert Sort([grade], Descending) == [grade];
  }

  lemma Cancelled(grade: int, a: real, b: real, gain: real, ideal: real)
    requires grade > 0 && b > 0.0 && gain == grade as real * a && ideal == grade as real * b
    ensures ideal > 0.0 && gain / ideal == a / b
  {
    var g, q := grade as real, a / b;
    assert q * b == a;
    assert q * ideal == gain by { assert q * (g * b) == g * (q * b); }
  }

  lemma NdcgFrom(ranking: seq<DocumentId>, qrels: Qrels, cutoff: nat, discount: nat -> real, gain: real, ideal: real)
    requires Dcg(IdealGrades(qrels, cutoff), discount) == ideal > 0.0
    requires Dcg(ObservedGrades(ranking, qrels, cutoff), discount) == gain
    ensures NdcgAt(ranking, qrels, cutoff, discount) == gain / ideal
  {}

  lemma NdcgScaled(ranking: seq<DocumentId>, qrels: Qrels, cutoff: nat, discount: nat -> real, grade: int, share: real)
    requires grade > 0 && discount(0) > 0.0
    requires Dcg(IdealGrades(qrels, cutoff), discount) == grade as real * discount(0)
    requires Dcg(ObservedGrades(ranking, qrels, cutoff), discount) == grade as real * share
    ensures NdcgAt(ranking, qrels, cutoff, discount) == share / discount(0)
  {
    var gain, ideal := Dcg(ObservedGrades(ranking, qrels, cutoff), discount), Dcg(IdealGrades(qrels, cutoff), discount);
    Cancelled(grade, share, discount(0), gain, ideal);
    NdcgFrom(ranking, qrels, cutoff, discount, gain, ideal);
  }

  lemma ObservedGainOfOne(ranking: seq<DocumentId>, i: nat, grade: int, cutoff: nat, discount: nat -> real)
    requires Distinct(ranking) && i < |ranking| && grade > 0
    ensures Dcg(ObservedGrades(ranking, [Qrel(ranking[i], grade)], cutoff), discount)
         == grade as real * if i < cutoff then discount(i) else 0.0
  {
    var observed := ObservedGrades(ranking, [Qrel(ranking[i], grade)], cutoff);
    OneJudgement(ranking[i], grade);
    assert forall j :: 0 <= j < |observed| ==> observed[j] == if j == i then grade else 0;
    if i < cutoff {
      GainOfOne(observed, i, discount);
    } else {
      GainOfNone(observed, discount);
    }
  }

  lemma NothingShared(x: real)
    requires x > 0.0
    ensures 0.0 / x == 0.0
  {}

  lemma NdcgOfOne(ranking: seq<DocumentId>, i: nat, grade: int, cutoff: nat, discount: nat -> real)
    requires Distinct(ranking) && i < |ranking| && grade > 0 && cutoff > 0 && IsDiscount(discount)
    ensures NdcgAt(ranking, [Qrel(ranking[i], grade)], cutoff, discount)
         == if i < cutoff then discount(i) / discount(0) else 0.0
  {
    OneJudgement(ranking[i], grade);
    GainOfOne([grade], 0, discount);
    ObservedGainOfOne(ranking, i, grade, cutoff, discount);
    NothingShared(discount(0));
    NdcgScaled(ranking, [Qrel(ranking[i], grade)], cutoff, discount, grade, if i < cutoff then discount(i) else 0.0);
  }

  lemma RecallOfOne(ranking: seq<DocumentId>, i: nat, grade: int, cutoff: nat)
    requires Distinct(ranking) && i < |ranking| && grade > 0
    ensures RecallAt(ranking, [Qrel(ranking[i], grade)], cutoff) == if i < cutoff then 1.0 else 0.0
  {
    OneJudgement(ranking[i], grade);
    var shown := Take(ranking, cutoff);
    if i < cutoff {
      assert shown[i] == ranking[i];
      assert {ranking[i]} * ToSet(shown) == {ranking[i]};
    } else {
      assert forall j :: 0 <= j < |shown| ==> shown[j] == ranking[j] != ranking[i];
      assert {ranking[i]} * ToSet(shown) == {};
    }
  }

  lemma ReciprocalRankOfOne(ranking: seq<DocumentId>, i: nat, grade: int, cutoff: nat)
    requires Distinct(ranking) && i < |ranking| && grade > 0
    ensures ReciprocalRankAt(ranking, [Qrel(ranking[i], grade)], cutoff)
         == if i < cutoff then 1.0 / (i + 1) as real else 0.0
  {
    var qrels: Qrels := [Qrel(ranking[i], grade)];
    var shown := Take(ranking, cutoff);
    OneJudgement(ranking[i], grade);
    assert forall j :: 0 <= j < |shown| ==> shown[j] == ranking[j] && (Grade(shown[j], qrels) > 0 <==> j == i);
    var first := FirstRelevant(shown, qrels);
    assert i < cutoff ==> first == i;
  }

  /**
   * A single relevant document at index i, the (i + 1)-th rank: nDCG is the discount of its rank over that of the
   * first, recall is full and the reciprocal rank is its own, each as long as it is among the first ten; deep recall as
   * long as it is among the first hundred.
   */
  lemma OneRelevantDocument(ranking: seq<DocumentId>, i: nat, grade: int, discount: nat -> real)
    requires Distinct(ranking) && i < |ranking| && grade > 0 && IsDiscount(discount)
    ensures ComputeRetrievalMetrics(ranking, [Qrel(ranking[i], grade)], discount)
         == Ok(Scores(if i < 10 then discount(i) / discount(0) else 0.0, if i < 10 then 1.0 else 0.0,
                      if i < 100 then 1.0 else 0.0, if i < 10 then 1.0 / (i + 1) as real else 0.0))
  {
    NdcgOfOne(ranking, i, grade, 10, discount);
    RecallOfOne(ranking, i, grade, 10);
    RecallOfOne(ranking, i, grade, 100);
    ReciprocalRankOfOne(ranking, i, grade, 10);
    assert Values([Qrel(ranking[i], grade)]) == [grade];
  }

  lemma GainOfTwo(a: int, b: int, discount: nat -> real)
    ensures Dcg([a, b], discount) == a as real * discount(0) + b as real * discount(1)
  {
    var gains := Gains([a, b], discount);
    assert [a, b][0] == a && [a, b][1] == b;
    assert gains[0] == a as real * discount(0) && gains[1] == b as real * discount(1);
    TotalOfTwo(gains);
  }

  lemma TotalOfTwo(s: seq<real>)
    requires |s| == 2
    ensures Total(s) == s[0] + s[1]
  {
    assert s[..1][..0] == [];
    assert Total(s[..1]) == s[0];
  }

  lemma Positive(grade: int, x: real)
    requires grade > 0 && x > 0.0
    ensures grade as real * x > 0.0
  {}

  /** Two documents in the wrong order: grades enter linearly, each times the discount of its rank. */
  lemma TwoDocumentsReversed(x: DocumentId, y: DocumentId, low: int, high: int, discount: nat -> real)
    requires x != y && 0 < low < high && IsDiscount(discount)
    ensures NdcgAt([x, y], [Qrel(x, low), Qrel(y, high)], 10, discount)
         == (low as real * discount(0) + high as real * discount(1))
            / (high as real * discount(0) + low as real * discount(1))
  {
    TwoJudgements(x, y, low, high);
    GainOfTwo(low, high, discount);
    GainOfTwo(high, low, discount);
    Positive(high, discount(0));
    Positive(low, discount(1));
    NdcgFrom([x, y], [Qrel(x, low), Qrel(y, high)], 10, discount,
             low as real * discount(0) + high as real * discount(1),
             high as real * discount(0) + low as real * discount(1));
  }

  lemma TwoPositives(low: int, high: int)
    requires 0 < low < high
    ensures Sort(Positives([low, high]), Descending) == [high, low]
  {
    assert [low, high][1..] == [high] && [high][1..] == [];
    assert Positives([]) == [] && Positives([high]) == [high];
    assert Positives([low, high]) == [low, high];
    assert Sort([high], Descending) == [high];
    assert Insert(low, [high], Descending) == [high] + Insert(low, [], Descending);
  }

  lemma TwoGrades(x: DocumentId, y: DocumentId, low: int, high: int)
    requires x != y
    ensures Grade(x, [Qrel(x, low), Qrel(y, high)]) == low && Grade(y, [Qrel(x, low), Qrel(y, high)]) == high
  {
    assert [Qrel(x, low), Qrel(y, high)][1..] == [Qrel(y, high)];
  }

  lemma TwoObserved(x: DocumentId, y: DocumentId, low: int, high: int)
    requires x != y
    ensures ObservedGrades([x, y], [Qrel(x, low), Qrel(y, high)], 10) == [low, high]
  {
    assert Take([x, y], 10) == [x, y];
    TwoGrades(x, y, low, high);
  }

  lemma TwoJudgements(x: DocumentId, y: DocumentId, low: int, high: int)
    requires x != y && 0 < low < high
    ensures IdealGrades([Qrel(x, low), Qrel(y, high)], 10) == [high, low]
    ensures ObservedGrades([x, y], [Qrel(x, low), Qrel(y, high)], 10) == [low, high]
  {
    assert Values([Qrel(x, low), Qrel(y, high)]) == [low, high];
    TwoPositives(low, high);
    TwoObserved(x, y, low, high);
  }

  /** Recall counts the positively judged documents that the first ranks show, out of all that are judged so. */
  lemma RecallCounts(ranking: seq<DocumentId>, qrels: Qrels, cutoff: nat)
    ensures var relevant := set q <- qrels | q.grade > 0 :: q.document;
            var found := set i | 0 <= i < |ranking| && i < cutoff && ranking[i] in relevant :: ranking[i];
            RecallAt(ranking, qrels, cutoff) * |relevant| as real == |found| as real
  {
    var relevant := set q <- qrels | q.grade > 0 :: q.document;
    assert relevant == Relevant(qrels) by {
      forall d ensures d in relevant <==> d in Relevant(qrels) {
        if d in Relevant(qrels) {
          var i :| 0 <= i < |qrels| && qrels[i].grade > 0 && qrels[i].document == d;
          assert qrels[i] in qrels;
        }
      }
    }
    var found := set i | 0 <= i < |ranking| && i < cutoff && ranking[i] in relevant :: ranking[i];
    var shown := Take(ranking, cutoff);
    assert found == relevant * ToSet(shown) by {
      forall d | d in relevant * ToSet(shown) ensures d in found {
        var i :| 0 <= i < |shown| && shown[i] == d;
        assert ranking[i] == d;
      }
      forall d | d in found ensures d in ToSet(shown) {
        var i :| 0 <= i < |ranking| && i < cutoff && ranking[i] == d;
        assert shown[i] == d;
      }
    }
    if relevant != {} { CancelSize(|found| as real, |relevant| as real); }
  }

  lemma CancelSize(part: real, whole: real)
    requires whole != 0.0
    ensures (part / whole) * whole == part
  {}
}
