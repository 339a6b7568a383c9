/** The four retrieval metrics of one query, over exact reals and an arbitrary decreasing discount. */
module RetrievalMetrics {
  import opened Prelude

  type DocumentId = string

  datatype Qrel = Qrel(document: DocumentId, grade: int)

  function Documents(entries: seq<Qrel>): seq<DocumentId> {
    seq(|entries|, i requires 0 <= i < |entries| => entries[i].document)
  }

  /** A relevance dictionary in insertion order: no document is judged twice. */
  type Qrels = entries: seq<Qrel> | Distinct(Documents(entries)) witness []

  datatype Scores = Scores(ndcgAt10: real, recallAt10: real, recallAt100: real, mrrAt10: real)

  datatype MetricError = DuplicateDocuments | NegativeRelevance

  const NDCG_CUTOFF: nat := 10
  const RECALL_CUTOFF: nat := 10
  const DEEP_RECALL_CUTOFF: nat := 100
  const MRR_CUTOFF: nat := 10

  function Take<T>(s: seq<T>, count: nat): seq<T> {
    if count <= |s| then s[..count] else s
  }

  function Grade(document: DocumentId, entries: seq<Qrel>): int {
    if entries == [] then 0
    else if entries[0].document == document then entries[0].grade
    else Grade(document, entries[1..])
  }

  function GradesOf(ranking: seq<DocumentId>, entries: seq<Qrel>): (r: seq<int>)
    ensures |r| == |ranking|
  {
    seq(|ranking|, i requires 0 <= i < |ranking| => Grade(ranking[i], entries))
  }

  function Values(entries: seq<Qrel>): seq<int> {
    seq(|entries|, i requires 0 <= i < |entries| => entries[i].grade)
  }

  predicate NonNegative(s: seq<int>) {
    forall i :: 0 <= i < |s| ==> s[i] >= 0
  }

  function Positives(s: seq<int>): seq<int> {
    if s == [] then [] else (if s[0] > 0 then [s[0]] else []) + Positives(s[1..])
  }

  predicate Descending(a: int, b: int) { a >= b }

  function IdealGrades(qrels: Qrels, cutoff: nat): seq<int> {
    Take(Sort(Positives(Values(qrels)), Descending), cutoff)
  }

  function ObservedGrades(ranking: seq<DocumentId>, qrels: Qrels, cutoff: nat): seq<int> {
    GradesOf(Take(ranking, cutoff), qrels)
  }

  /** The weight of a rank: positive and strictly decreasing, as 1 / log2(rank + 1) is. */
  ghost predicate IsDiscount(discount: nat -> real) {
    && (forall rank: nat :: discount(rank) > 0.0)
    && (forall a: nat, b: nat :: a < b ==> discount(b) < discount(a))
  }

  function Gains(grades: seq<int>, discount: nat -> real): (r: seq<real>)
    ensures |r| == |grades|
  {
    seq(|grades|, i requires 0 <= i < |grades| => grades[i] as real * discount(i))
  }

  function Total(s: seq<real>): real {
    if s == [] then 0.0 else Total(s[..|s| - 1]) + s[|s| - 1]
  }

  /** Discounted cumulative gain: grade times the weight of its rank, summed. */
  function Dcg(grades: seq<int>, discount: nat -> real): real {
    Total(Gains(grades, discount))
  }

  function NdcgAt(ranking: seq<DocumentId>, qrels: Qrels, cutoff: nat, discount: nat -> real): real {
    var ideal := Dcg(IdealGrades(qrels, cutoff), discount);
    if ideal == 0.0 then 0.0 else Dcg(ObservedGrades(ranking, qrels, cutoff), discount) / ideal
  }

  function Relevant(qrels: Qrels): set<DocumentId> {
    set i | 0 <= i < |qrels| && qrels[i].grade > 0 :: qrels[i].document
  }

  function RecallAt(ranking: seq<DocumentId>, qrels: Qrels, cutoff: nat): real {
    var relevant := Relevant(qrels);
    if relevant == {} then 0.0
    else |relevant * ToSet(Take(ranking, cutoff))| as real / |relevant| as real
  }

  /** Position of the first relevant document, or the length when there is none. */
  function FirstRelevant(ranking: seq<DocumentId>, qrels: Qrels): (r: nat)
    ensures r <= |ranking|
    ensures r < |ranking| ==> Grade(ranking[r], qrels) > 0
    ensures forall i :: 0 <= i < r ==> Grade(ranking[i], qrels) <= 0
  {
    if ranking == [] || Grade(ranking[0], qrels) > 0 then 0
    else
      var rest := FirstRelevant(ranking[1..], qrels);
      assert forall i :: 0 < i < 1 + rest ==> ranking[i] == ranking[1..][i - 1];
      1 + rest
  }

  function ReciprocalRankAt(ranking: seq<DocumentId>, qrels: Qrels, cutoff: nat): real {
    var window := Take(ranking, cutoff);
    var first := FirstRelevant(window, qrels);
    if first < |window| then 1.0 / (first + 1) as real else 0.0
  }

  function ComputeRetrievalMetrics(ranking: seq<DocumentId>, qrels: Qrels, discount: nat -> real)
    : Result<Scores, MetricError>
  {
    if !Distinct(ranking) then Err(DuplicateDocuments)
    else if !NonNegative(Values(qrels)) then Err(NegativeRelevance)
    else Ok(Scores(
              NdcgAt(ranking, qrels, NDCG_CUTOFF, discount),
              RecallAt(ranking, qrels, RECALL_CUTOFF),
              RecallAt(ranking, qrels, DEEP_RECALL_CUTOFF),
              ReciprocalRankAt(ranking, qrels, MRR_CUTOFF)))
  }

  // ---- Sums and prefix sums ----

  function Sum(s: seq<int>): int {
    if s == [] then 0 else s[0] + Sum(s[1..])
  }

  lemma {:induction false} SumWithout(s: seq<int>, i: nat)
    requires i < |s|
    ensures Sum(s) == s[i] + Sum(Without(s, i))
  {
    if i == 0 {
      assert Without(s, 0) == s[1..];
    } else {
      SumWithout(s[1..], i - 1);
      var less := Without(s, i);
      assert less[0] == s[0] && less[1..] == Without(s[1..], i - 1);
    }
  }

  lemma {:induction false} SumLast(s: seq<int>)
    requires s != []
    ensures Sum(s) == Sum(s[..|s| - 1]) + s[|s| - 1]
  {
    SumWithout(s, |s| - 1);
    assert Without(s, |s| - 1) == s[..|s| - 1];
  }

  /** No selection of grades outweighs an equally long prefix of the ideal order. */
  lemma {:induction false} TopSum(x: seq<int>, y: seq<int>)
    requires multiset(x) <= multiset(y) && Sorted(y, Descending)
    ensures |x| <= |y| && Sum(x) <= Sum(y[..|x|])
  {
    if x != [] {
      var i := LargestShown(x, y);
      var x', y' := Without(x, i), y[1..];
      assert multiset(x') <= multiset(y') by {
        WithoutMultiset(x, i);
        WithoutMultiset(y, 0);
        assert Without(y, 0) == y';
      }
      TopSum(x', y');
      SumWithout(x, i);
      HeadSum(y, |x|);
    }
  }

  lemma HeadSum(y: seq<int>, k: nat)
    requires 0 < k <= |y|
    ensures Sum(y[..k]) == y[0] + Sum(y[1..][..k - 1])
  {
    assert y[..k][1..] == y[1..][..k - 1];
  }

  /** The element of `x` to match against the head of `y`: the head itself when `x` has it. */
  lemma LargestShown(x: seq<int>, y: seq<int>) returns (i: nat)
    requires x != [] && multiset(x) <= multiset(y) && Sorted(y, Descending)
    ensures i < |x| && y != [] && x[i] <= y[0]
    ensures multiset(x) - multiset{x[i]} <= multiset(y) - multiset{y[0]}
  {
    assert x[0] in multiset(x);
    assert x[0] in multiset(y);
    assert x[0] in y;
    if y[0] in x {
      i :| 0 <= i < |x| && x[i] == y[0];
    } else {
      i := 0;
      assert multiset(x)[y[0]] == 0;
      var k :| 0 <= k < |y| && y[k] == x[0];
    }
  }

  // ---- Which grades a ranking can show ----

  lemma {:induction false} PositivesFacts(s: seq<int>)
    ensures forall i :: 0 <= i < |Positives(s)| ==> Positives(s)[i] > 0
    ensures |Positives(s)| <= |s|
    ensures NonNegative(s) ==> Sum(Positives(s)) == Sum(s)
  {
    if s != [] {
      PositivesFacts(s[1..]);
      var rest := Positives(s[1..]);
      assert Positives(s)[if s[0] > 0 then 1 else 0..] == rest;
    }
  }

  lemma {:induction false} PositivesCount(s: seq<int>, g: int)
    ensures multiset(Positives(s))[g] == if g > 0 then multiset(s)[g] else 0
  {
    if s != [] {
      PositivesCount(s[1..], g);
      assert s == [s[0]] + s[1..];
    }
  }

  lemma PositivesWithout(values: seq<int>, rest: seq<int>, g: int)
    requires g in multiset(values) && multiset(rest) == multiset(values) - multiset{g}
    ensures multiset(Positives(values)) == multiset(Positives(rest)) + if g > 0 then multiset{g} else multiset{}
  {
    forall x ensures multiset(Positives(values))[x]
                  == (multiset(Positives(rest)) + if g > 0 then multiset{g} else multiset{})[x] {
      PositivesCount(values, x);
      PositivesCount(rest, x);
    }
  }

  lemma {:induction false} GradeOutside(document: DocumentId, entries: seq<Qrel>)
    requires document !in Documents(entries)
    ensures Grade(document, entries) == 0
  {
    if entries != [] {
      assert document != Documents(entries)[0];
      assert forall i :: 0 <= i < |entries| - 1 ==> Documents(entries[1..])[i] == Documents(entries)[i + 1];
      GradeOutside(document, entries[1..]);
    }
  }

  lemma {:induction false} GradeAt(entries: seq<Qrel>, i: nat)
    requires Distinct(Documents(entries)) && i < |entries|
    ensures Grade(entries[i].document, entries) == entries[i].grade
  {
    if i > 0 {
      assert Documents(entries)[0] != Documents(entries)[i];
      assert Documents(entries[1..]) == Documents(entries)[1..];
      GradeAt(entries[1..], i - 1);
    }
  }

  lemma {:induction false} GradeWithout(document: DocumentId, entries: seq<Qrel>, i: nat)
    requires i < |entries| && entries[i].document != document
    ensures Grade(document, Without(entries, i)) == Grade(document, entries)
  {
    if i == 0 {
      assert Without(entries, 0) == entries[1..];
    } else {
      assert Without(entries, i) == [entries[0]] + Without(entries[1..], i - 1);
      if entries[0].document != document { GradeWithout(document, entries[1..], i - 1); }
    }
  }

  lemma WithoutDistinct(entries: seq<Qrel>, i: nat)
    requires Distinct(Documents(entries)) && i < |entries|
    ensures Distinct(Documents(Without(entries, i)))
    ensures multiset(Values(Without(entries, i))) == multiset(Values(entries)) - multiset{entries[i].grade}
    ensures entries[i].grade in multiset(Values(entries))
  {
    assert Values(entries)[i] == entries[i].grade;
    WithoutMultiset(Values(entries), i);
    assert Documents(Without(entries, i)) == Without(Documents(entries), i);
    assert Values(Without(entries, i)) == Without(Values(entries), i);
  }

  /** A duplicate-free ranking shows each positive judgment at most once. */
  lemma {:induction false} ShownGrades(ranking: seq<DocumentId>, entries: seq<Qrel>)
    requires Distinct(ranking) && Distinct(Documents(entries))
    ensures multiset(Positives(GradesOf(ranking, entries))) <= multiset(Positives(Values(entries)))
  {
    if ranking != [] {
      var rest := GradesOf(ranking[1..], entries);
      assert GradesOf(ranking, entries)[0] == Grade(ranking[0], entries);
      assert GradesOf(ranking, entries)[1..] == rest;
      if ranking[0] in Documents(entries) {
        var i :| 0 <= i < |entries| && Documents(entries)[i] == ranking[0];
        GradeAt(entries, i);
        WithoutDistinct(entries, i);
        var others := Without(entries, i);
        forall k | 0 <= k < |rest| ensures GradesOf(ranking[1..], others)[k] == rest[k] {
          GradeWithout(ranking[1 + k], entries, i);
        }
        assert GradesOf(ranking[1..], others) == rest;
        ShownGrades(ranking[1..], others);
        PositivesWithout(Values(entries), Values(others), entries[i].grade);
      } else {
        GradeOutside(ranking[0], entries);
        ShownGrades(ranking[1..], entries);
      }
    }
  }

  lemma DescendingOrder()
    ensures TotalPreorder(Descending)
    ensures forall s: seq<int> :: NoTies(s, Descending)
  {}

  lemma IdealFacts(qrels: Qrels, cutoff: nat)
    ensures |IdealGrades(qrels, cutoff)| <= cutoff
    ensures Sorted(IdealGrades(qrels, cutoff), Descending)
    ensures forall i :: 0 <= i < |IdealGrades(qrels, cutoff)| ==> IdealGrades(qrels, cutoff)[i] > 0
  {
    DescendingOrder();
    var positive := Positives(Values(qrels));
    SortSorts(positive, Descending);
    AllSortedPositive(Values(qrels));
  }

  lemma AllSortedPositive(values: seq<int>)
    ensures forall i :: 0 <= i < |Sort(Positives(values), Descending)| ==> Sort(Positives(values), Descending)[i] > 0
  {
    var sorted := Sort(Positives(values), Descending);
    SortMembers(Positives(values), Descending);
    PositivesFacts(values);
    forall i | 0 <= i < |sorted| ensures sorted[i] > 0 {
      assert sorted[i] in Positives(values);
    }
  }

  lemma GradesNonNegative(ranking: seq<DocumentId>, qrels: Qrels)
    requires NonNegative(Values(qrels))
    ensures NonNegative(GradesOf(ranking, qrels))
  {
    forall i | 0 <= i < |ranking| ensures Grade(ranking[i], qrels) >= 0 {
      if ranking[i] in Documents(qrels) {
        var k :| 0 <= k < |qrels| && Documents(qrels)[k] == ranking[i];
        GradeAt(qrels, k);
        assert Values(qrels)[k] >= 0;
      } else {
        GradeOutside(ranking[i], qrels);
      }
    }
  }

  lemma DcgLast(grades: seq<int>, discount: nat -> real)
    requires grades != []
    ensures Dcg(grades, discount)
         == Dcg(grades[..|grades| - 1], discount) + grades[|grades| - 1] as real * discount(|grades| - 1)
  {
    var last := |grades| - 1;
    var gains, shorter := Gains(grades, discount), Gains(grades[..last], discount);
    forall i | 0 <= i < last ensures gains[..last][i] == shorter[i] {
      assert grades[..last][i] == grades[i];
    }
    assert gains[..last] == shorter;
  }

  /** Padding with zeros up to the cutoff leaves prefix sums and gains alone. */
  function Padded(s: seq<int>, length: nat): (r: seq<int>)
    requires |s| <= length
    ensures |r| == length
  {
    s + seq(length - |s|, _ => 0)
  }

  lemma {:induction false} DcgPadded(s: seq<int>, length: nat, discount: nat -> real)
    requires |s| <= length
    ensures Dcg(Padded(s, length), discount) == Dcg(s, discount)
    decreases length
  {
    if |s| < length {
      DcgPadded(s, length - 1, discount);
      assert Padded(s, length)[..length - 1] == Padded(s, length - 1);
      DcgLast(Padded(s, length), discount);
    } else {
      assert Padded(s, length) == s;
    }
  }

  lemma {:induction false} SumPadded(s: seq<int>, length: nat, k: nat)
    requires |s| <= length && k <= length
    ensures Sum(Padded(s, length)[..k]) == Sum(Take(s, k))
  {
    if k <= |s| {
      assert Padded(s, length)[..k] == Take(s, k);
    } else {
      SumPadded(s, length, k - 1);
      SumLast(Padded(s, length)[..k]);
      assert Padded(s, length)[..k][..k - 1] == Padded(s, length)[..k - 1];
      assert Take(s, k) == Take(s, k - 1) == s;
    }
  }

  /** Every prefix of the observed grades sums to at most the same prefix of the ideal. */
  lemma PrefixDominance(ranking: seq<DocumentId>, qrels: Qrels, cutoff: nat, k: nat)
    requires Distinct(ranking) && NonNegative(Values(qrels)) && k <= cutoff
    ensures Sum(Take(ObservedGrades(ranking, qrels, cutoff), k)) <= Sum(Take(IdealGrades(qrels, cutoff), k))
  {
    TakeGrades(ranking, qrels, cutoff, k);
    TakeTake(Sort(Positives(Values(qrels)), Descending), cutoff, k);
    SumDominance(ranking, qrels, k);
  }

  lemma TakeTake<T>(s: seq<T>, cutoff: nat, k: nat)
    requires k <= cutoff
    ensures Take(Take(s, cutoff), k) == Take(s, k)
  {}

  lemma TakeGrades(ranking: seq<DocumentId>, entries: seq<Qrel>, cutoff: nat, k: nat)
    requires k <= cutoff
    ensures Take(GradesOf(Take(ranking, cutoff), entries), k) == GradesOf(Take(ranking, k), entries)
  {
    var left, right := Take(GradesOf(Take(ranking, cutoff), entries), k), GradesOf(Take(ranking, k), entries);
    forall i | 0 <= i < |right| ensures left[i] == right[i] {
      assert Take(ranking, cutoff)[i] == Take(ranking, k)[i];
    }
  }

  lemma SumDominance(ranking: seq<DocumentId>, qrels: Qrels, k: nat)
    requires Distinct(ranking) && NonNegative(Values(qrels))
    ensures Sum(ObservedGrades(ranking, qrels, k)) <= Sum(IdealGrades(qrels, k))
  {
    var observed := ObservedGrades(ranking, qrels, k);
    var all := Positives(Values(qrels));
    var hits, ideal := Positives(observed), Sort(all, Descending);
    GradesNonNegative(Take(ranking, k), qrels);
    PositivesFacts(observed);
    ShownGrades(Take(ranking, k), qrels);
    DescendingOrder();
    SortSorts(all, Descending);
    TopSum(hits, ideal);
    IdealFacts(qrels, k);
    PrefixSumsGrow(Take(ideal, k), |hits|);
    assert Take(ideal, k)[..|hits|] == ideal[..|hits|];
  }

  lemma {:induction false} PrefixSumsGrow(s: seq<int>, k: nat)
    requires NonNegative(s) && k <= |s|
    ensures Sum(s[..k]) <= Sum(s)
    decreases |s|
  {
    if k < |s| {
      PrefixSumsGrow(s[..|s| - 1], k);
      SumLast(s);
      assert s[..|s| - 1][..k] == s[..k];
    } else {
      assert s[..k] == s;
    }
  }

  // ---- Summation by parts: dominated prefix sums give dominated gains ----

  ghost predicate PrefixDominated(a: seq<int>, b: seq<int>)
    requires |a| == |b|
  {
    forall k :: 0 <= k <= |a| ==> Sum(a[..k]) <= Sum(b[..k])
  }

  lemma PrefixDominatedPrefix(a: seq<int>, b: seq<int>)
    requires |a| == |b| && a != [] && PrefixDominated(a, b)
    ensures PrefixDominated(a[..|a| - 1], b[..|b| - 1])
  {
    var last := |a| - 1;
    forall k | 0 <= k <= last ensures Sum(a[..last][..k]) <= Sum(b[..last][..k]) {
      assert a[..last][..k] == a[..k] && b[..last][..k] == b[..k];
    }
  }

  /** `count` copies of `weight`, added up. */
  function Times(count: nat, weight: real): real {
    if count == 0 then 0.0 else Times(count - 1, weight) + weight
  }

  lemma {:induction false} TimesIsProduct(count: nat, weight: real)
    ensures Times(count, weight) == count as real * weight
  {
    if count > 0 { TimesIsProduct(count - 1, weight); }
  }

  lemma {:induction false} TimesAdds(a: nat, b: nat, weight: real)
    ensures Times(a + b, weight) == Times(a, weight) + Times(b, weight)
  {
    if b > 0 { TimesAdds(a, b - 1, weight); }
  }

  lemma {:induction false} TimesGrows(count: nat, less: real, more: real)
    requires 0.0 < less < more
    ensures 0.0 <= Times(count, less) <= Times(count, more)
    ensures count > 0 ==> Times(count, less) < Times(count, more)
  {
    if count > 0 { TimesGrows(count - 1, less, more); }
  }

  /** How far the gain of `b` is ahead of the gain of `a`. */
  function Lead(a: seq<int>, b: seq<int>, discount: nat -> real): real {
    Dcg(b, discount) - Dcg(a, discount)
  }

  lemma LeadStep(a: seq<int>, b: seq<int>, last: nat, discount: nat -> real)
    requires |a| == |b| == last + 1 && a[last] >= 0 && b[last] >= 0
    ensures Lead(a, b, discount)
         == Lead(a[..last], b[..last], discount) + Times(b[last], discount(last)) - Times(a[last], discount(last))
  {
    DcgLast(a, discount);
    DcgLast(b, discount);
    TimesIsProduct(a[last], discount(last));
    TimesIsProduct(b[last], discount(last));
  }

  /** The lead is at least the surplus grade, weighed at the next rank; strictly more once the lists differ. */
  lemma {:induction false} GainDominated(a: seq<int>, b: seq<int>, discount: nat -> real)
    requires |a| == |b| && NonNegative(a) && NonNegative(b)
    requires PrefixDominated(a, b) && IsDiscount(discount)
    ensures Sum(a) <= Sum(b)
    ensures Lead(a, b, discount) >= Times(Sum(b) - Sum(a), discount(|a|))
    ensures a != b ==> Lead(a, b, discount) > Times(Sum(b) - Sum(a), discount(|a|))
  {
    assert a[..|a|] == a && b[..|b|] == b;
    if a != [] {
      var last := |a| - 1;
      PrefixDominatedPrefix(a, b);
      GainDominated(a[..last], b[..last], discount);
      LeadStep(a, b, last, discount);
      SumLast(a);
      SumLast(b);
      SurplusStep(Sum(b[..last]) - Sum(a[..last]), a[last], b[last], discount(last), discount(|a|));
      DifferSomewhere(a, b, last);
    }
  }

  lemma DifferSomewhere<T>(a: seq<T>, b: seq<T>, last: nat)
    requires |a| == |b| == last + 1
    ensures a != b ==> a[..last] != b[..last] || a[last] != b[last]
  {
    assert a == a[..last] + [a[last]] && b == b[..last] + [b[last]];
  }

  lemma SurplusStep(surplus: nat, a: nat, b: nat, here: real, next: real)
    requires 0.0 < next < here && surplus + b - a >= 0
    ensures Times(surplus, here) + Times(b, here) - Times(a, here) >= Times(surplus + b - a, next)
    ensures surplus + b - a > 0
            ==> Times(surplus, here) + Times(b, here) - Times(a, here) > Times(surplus + b - a, next)
  {
    TimesAdds(surplus, b, here);
    TimesAdds(surplus + b - a, a, here);
    TimesGrows(surplus + b - a, next, here);
  }

  // ---- The metric theorems ----

  /** Observed gain never exceeds ideal gain, and ties only when the grades agree position by position. */
  lemma IdealGainIsLargest(ranking: seq<DocumentId>, qrels: Qrels, cutoff: nat, discount: nat -> real)
    requires Distinct(ranking) && NonNegative(Values(qrels)) && IsDiscount(discount)
    ensures |ObservedGrades(ranking, qrels, cutoff)| <= cutoff && |IdealGrades(qrels, cutoff)| <= cutoff
    ensures Dcg(ObservedGrades(ranking, qrels, cutoff), discount) <= Dcg(IdealGrades(qrels, cutoff), discount)
    ensures Dcg(ObservedGrades(ranking, qrels, cutoff), discount) == Dcg(IdealGrades(qrels, cutoff), discount)
       <==> Padded(ObservedGrades(ranking, qrels, cutoff), cutoff) == Padded(IdealGrades(qrels, cutoff), cutoff)
  {
    IdealFacts(qrels, cutoff);
    var observed, ideal := ObservedGrades(ranking, qrels, cutoff), IdealGrades(qrels, cutoff);
    var a, b := Padded(observed, cutoff), Padded(ideal, cutoff);
    PaddedDominated(ranking, qrels, cutoff);
    GradesNonNegative(Take(ranking, cutoff), qrels);
    DominanceDecides(a, b, discount);
    DcgPadded(observed, cutoff, discount);
    DcgPadded(ideal, cutoff, discount);
  }

  lemma DominanceDecides(a: seq<int>, b: seq<int>, discount: nat -> real)
    requires |a| == |b| && NonNegative(a) && NonNegative(b)
    requires PrefixDominated(a, b) && IsDiscount(discount)
    ensures Dcg(a, discount) <= Dcg(b, discount)
    ensures Dcg(a, discount) == Dcg(b, discount) <==> a == b
  {
    GainDominated(a, b, discount);
    TimesGrows(Sum(b) - Sum(a), discount(|a|), discount(|a|) + 1.0);
  }

  lemma PaddedDominated(ranking: seq<DocumentId>, qrels: Qrels, cutoff: nat)
    requires Distinct(ranking) && NonNegative(Values(qrels)) && |IdealGrades(qrels, cutoff)| <= cutoff
    ensures PrefixDominated(Padded(ObservedGrades(ranking, qrels, cutoff), cutoff),
                            Padded(IdealGrades(qrels, cutoff), cutoff))
  {
    var observed, ideal := ObservedGrades(ranking, qrels, cutoff), IdealGrades(qrels, cutoff);
    forall k | 0 <= k <= cutoff ensures Sum(Padded(observed, cutoff)[..k]) <= Sum(Padded(ideal, cutoff)[..k]) {
      SumPadded(observed, cutoff, k);
      SumPadded(ideal, cutoff, k);
      PrefixDominance(ranking, qrels, cutoff, k);
    }
  }

  lemma {:induction false} DcgNonNegative(grades: seq<int>, discount: nat -> real)
    requires NonNegative(grades) && IsDiscount(discount)
    ensures Dcg(grades, discount) >= 0.0
    ensures Dcg(grades, discount) > 0.0 <==> exists i :: 0 <= i < |grades| && grades[i] > 0
  {
    if grades != [] {
      var last := |grades| - 1;
      DcgNonNegative(grades[..last], discount);
      DcgLast(grades, discount);
      assert grades[last] as real * discount(last) >= 0.0;
      assert grades[last] > 0 ==> grades[last] as real * discount(last) > 0.0;
      assert forall i :: 0 <= i < last ==> grades[..last][i] == grades[i];
      if i :| 0 <= i < |grades| && grades[i] > 0 {
        assert i < last ==> grades[..last][i] > 0;
      } else {
        assert grades[last] == 0;
      }
    }
  }

  lemma RelevantFacts(qrels: Qrels)
    requires NonNegative(Values(qrels))
    ensures forall document :: document in Relevant(qrels) <==> Grade(document, qrels) > 0
  {
    forall document ensures document in Relevant(qrels) <==> Grade(document, qrels) > 0 {
      if document in Documents(qrels) {
        var k :| 0 <= k < |qrels| && Documents(qrels)[k] == document;
        GradeAt(qrels, k);
        if document in Relevant(qrels) {
          var i :| 0 <= i < |qrels| && qrels[i].grade > 0 && qrels[i].document == document;
          GradeAt(qrels, i);
        }
      } else {
        GradeOutside(document, qrels);
        RelevantAreJudged(qrels);
      }
    }
  }

  lemma RelevantAreJudged(entries: seq<Qrel>)
    requires Distinct(Documents(entries))
    ensures Relevant(entries) <= ToSet(Documents(entries))
  {
    forall document | document in Relevant(entries) ensures document in Documents(entries) {
      var i :| 0 <= i < |entries| && entries[i].grade > 0 && entries[i].document == document;
      assert Documents(entries)[i] == document;
    }
  }

  lemma IdealEmpty(qrels: Qrels, cutoff: nat)
    requires NonNegative(Values(qrels)) && cutoff > 0
    ensures IdealGrades(qrels, cutoff) == [] <==> Relevant(qrels) == {}
  {
    var values := Values(qrels);
    PositiveCountMatches(qrels);
    assert |Sort(Positives(values), Descending)| == |Positives(values)|;
    assert |Relevant(qrels)| == 0 <==> Relevant(qrels) == {};
  }

  lemma Ratio(part: real, whole: real)
    requires 0.0 <= part <= whole && whole > 0.0
    ensures 0.0 <= part / whole <= 1.0
    ensures part / whole == 1.0 <==> part == whole
    ensures part / whole > 0.0 <==> part > 0.0
  {
    assert part / whole * whole == part;
  }

  lemma NdcgBounds(ranking: seq<DocumentId>, qrels: Qrels, cutoff: nat, discount: nat -> real)
    requires Distinct(ranking) && NonNegative(Values(qrels)) && IsDiscount(discount)
    ensures 0.0 <= NdcgAt(ranking, qrels, cutoff, discount) <= 1.0
  {
    IdealGainIsLargest(ranking, qrels, cutoff, discount);
    GradesNonNegative(Take(ranking, cutoff), qrels);
    DcgNonNegative(ObservedGrades(ranking, qrels, cutoff), discount);
    var ideal := Dcg(IdealGrades(qrels, cutoff), discount);
    if ideal != 0.0 { Ratio(Dcg(ObservedGrades(ranking, qrels, cutoff), discount), ideal); }
  }

  /** nDCG is 1 exactly for a ranking whose grades begin with the ideal grades. */
  lemma NdcgPerfectExactly(ranking: seq<DocumentId>, qrels: Qrels, cutoff: nat, discount: nat -> real)
    requires Distinct(ranking) && NonNegative(Values(qrels)) && IsDiscount(discount)
    requires IdealGrades(qrels, cutoff) != []
    ensures NdcgAt(ranking, qrels, cutoff, discount) == 1.0
       <==> IdealGrades(qrels, cutoff) <= ObservedGrades(ranking, qrels, cutoff)
  {
    var observed, ideal := ObservedGrades(ranking, qrels, cutoff), IdealGrades(qrels, cutoff);
    IdealGainIsLargest(ranking, qrels, cutoff, discount);
    IdealFacts(qrels, cutoff);
    GradesNonNegative(Take(ranking, cutoff), qrels);
    DcgNonNegative(observed, discount);
    assert ideal[0] > 0;
    DcgNonNegative(ideal, discount);
    Ratio(Dcg(observed, discount), Dcg(ideal, discount));
    if ideal <= observed { PrefixLeavesNothing(ranking, qrels, cutoff); }
    PaddedPrefix(observed, ideal, cutoff);
  }

  /** Zero padding hides nothing when the ideal grades are all positive. */
  lemma PaddedPrefix(observed: seq<int>, ideal: seq<int>, length: nat)
    requires |observed| <= length && |ideal| <= length
    requires forall i :: 0 <= i < |ideal| ==> ideal[i] > 0
    requires ideal <= observed ==> forall i :: |ideal| <= i < |observed| ==> observed[i] == 0
    ensures Padded(observed, length) == Padded(ideal, length) <==> ideal <= observed
  {
    var a, b := Padded(observed, length), Padded(ideal, length);
    if a == b {
      forall i | 0 <= i < |ideal| ensures i < |observed| && ideal[i] == observed[i] {
        assert a[i] == b[i];
      }
      if ideal != [] {
        assert ideal[|ideal| - 1] > 0;
        assert |ideal| - 1 < |observed|;
      }
      assert ideal == observed[..|ideal|];
    }
    if ideal <= observed {
      assert forall i :: 0 <= i < length ==> a[i] == b[i];
    }
  }

  /** Once the ideal grades are shown, everything after them in the window grades zero. */
  lemma PrefixLeavesNothing(ranking: seq<DocumentId>, qrels: Qrels, cutoff: nat)
    requires Distinct(ranking) && NonNegative(Values(qrels))
    requires IdealGrades(qrels, cutoff) <= ObservedGrades(ranking, qrels, cutoff)
    ensures forall i :: |IdealGrades(qrels, cutoff)| <= i < |ObservedGrades(ranking, qrels, cutoff)|
                        ==> ObservedGrades(ranking, qrels, cutoff)[i] == 0
  {
    var observed, ideal := ObservedGrades(ranking, qrels, cutoff), IdealGrades(qrels, cutoff);
    GradesNonNegative(Take(ranking, cutoff), qrels);
    forall i | |ideal| <= i < |observed| ensures observed[i] == 0 {
      PrefixDominance(ranking, qrels, cutoff, i + 1);
      assert Take(observed, i + 1) == observed[..i + 1] && Take(ideal, i + 1) == ideal;
      SumLast(observed[..i + 1]);
      assert observed[..i + 1][..i] == observed[..i];
      PrefixSumsGrow(observed[..i], |ideal|);
      assert observed[..i][..|ideal|] == ideal;
    }
  }

  /** A ranking that opens with every positive document, best grades first, scores 1. */
  lemma NdcgPerfectRanking(ranking: seq<DocumentId>, qrels: Qrels, cutoff: nat, discount: nat -> real)
    requires Distinct(ranking) && NonNegative(Values(qrels)) && IsDiscount(discount)
    requires cutoff > 0 && Relevant(qrels) != {}
    requires |Relevant(qrels)| <= |ranking|
    requires ToSet(ranking[..|Relevant(qrels)|]) == Relevant(qrels)
    requires Sorted(GradesOf(ranking[..|Relevant(qrels)|], qrels), Descending)
    ensures NdcgAt(ranking, qrels, cutoff, discount) == 1.0
  {
    var opening := ranking[..|Relevant(qrels)|];
    var grades := GradesOf(opening, qrels);
    OpeningGrades(opening, qrels);
    DescendingOrder();
    SortSorts(Positives(Values(qrels)), Descending);
    SortedUnique(grades, Sort(Positives(Values(qrels)), Descending), Descending);
    IdealEmpty(qrels, cutoff);
    assert IdealGrades(qrels, cutoff) <= ObservedGrades(ranking, qrels, cutoff);
    NdcgPerfectExactly(ranking, qrels, cutoff, discount);
  }

  lemma {:induction false} PositiveCountMatches(entries: seq<Qrel>)
    requires Distinct(Documents(entries))
    ensures |Positives(Values(entries))| == |Relevant(entries)|
  {
    if entries != [] {
      assert Documents(entries[1..]) == Documents(entries)[1..];
      assert Values(entries[1..]) == Values(entries)[1..];
      PositiveCountMatches(entries[1..]);
      RelevantHead(entries);
    }
  }

  lemma RelevantHead(entries: seq<Qrel>)
    requires Distinct(Documents(entries)) && entries != []
    requires Distinct(Documents(entries[1..]))
    ensures Relevant(entries)
         == (if entries[0].grade > 0 then {entries[0].document} else {}) + Relevant(entries[1..])
    ensures entries[0].document !in Relevant(entries[1..])
  {
    var rest := entries[1..];
    RelevantAreJudged(rest);
    assert Documents(rest) == Documents(entries)[1..];
    assert forall i :: 0 < i < |entries| ==> Documents(entries)[0] != Documents(entries)[i];
    var first := if entries[0].grade > 0 then {entries[0].document} else {};
    forall document | document in Relevant(entries) ensures document in first + Relevant(rest) {
      var i :| 0 <= i < |entries| && entries[i].grade > 0 && entries[i].document == document;
      if i > 0 { assert rest[i - 1] == entries[i]; }
    }
    forall document | document in Relevant(rest) ensures document in Relevant(entries) {
      var i :| 0 <= i < |rest| && rest[i].grade > 0 && rest[i].document == document;
      assert entries[i + 1] == rest[i];
    }
  }

  lemma {:induction false} AllPositive(s: seq<int>)
    requires forall i :: 0 <= i < |s| ==> s[i] > 0
    ensures Positives(s) == s
  {
    if s != [] { AllPositive(s[1..]); }
  }

  lemma OpeningGrades(opening: seq<DocumentId>, qrels: Qrels)
    requires Distinct(opening) && NonNegative(Values(qrels)) && ToSet(opening) == Relevant(qrels)
    ensures multiset(GradesOf(opening, qrels)) == multiset(Positives(Values(qrels)))
  {
    var grades := GradesOf(opening, qrels);
    RelevantFacts(qrels);
    forall i | 0 <= i < |grades| ensures grades[i] > 0 {
      assert opening[i] in ToSet(opening);
    }
    AllPositive(grades);
    ShownGrades(opening, qrels);
    PositiveCountMatches(qrels);
    DistinctCardinality(opening);
    var a, b := multiset(grades), multiset(Positives(Values(qrels)));
    assert |a| == |b| && a <= b;
    assert b == a + (b - a) && |b - a| == 0;
  }

  // ---- Recall, reciprocal rank, and the score contract ----

  lemma RecallBounds(ranking: seq<DocumentId>, qrels: Qrels, cutoff: nat)
    ensures 0.0 <= RecallAt(ranking, qrels, cutoff) <= 1.0
    ensures RecallAt(ranking, qrels, cutoff) == 1.0
       <==> Relevant(qrels) != {} && Relevant(qrels) <= ToSet(Take(ranking, cutoff))
    ensures RecallAt(ranking, qrels, cutoff) > 0.0 <==> Relevant(qrels) * ToSet(Take(ranking, cutoff)) != {}
  {
    var relevant := Relevant(qrels);
    if relevant != {} {
      var hits := relevant * ToSet(Take(ranking, cutoff));
      SubsetSize(hits, relevant);
      Ratio(|hits| as real, |relevant| as real);
    }
  }

  lemma SubsetSize<T>(a: set<T>, b: set<T>)
    requires a <= b
    ensures |a| <= |b|
    ensures |a| == |b| <==> a == b
  {
    assert b == a + (b - a);
  }

  lemma RecallGrowsWithDepth(ranking: seq<DocumentId>, qrels: Qrels, shallow: nat, deep: nat)
    requires shallow <= deep
    ensures RecallAt(ranking, qrels, shallow) <= RecallAt(ranking, qrels, deep)
  {
    var relevant := Relevant(qrels);
    if relevant != {} {
      var a, b := relevant * ToSet(Take(ranking, shallow)), relevant * ToSet(Take(ranking, deep));
      assert a <= b by {
        forall document | document in a ensures document in b {
          var i :| 0 <= i < |Take(ranking, shallow)| && Take(ranking, shallow)[i] == document;
          assert Take(ranking, deep)[i] == document;
        }
      }
      SubsetSize(a, b);
      DivisionMonotone(|a| as real, |b| as real, |relevant| as real);
    }
  }

  lemma DivisionMonotone(a: real, b: real, whole: real)
    requires a <= b && whole > 0.0
    ensures a / whole <= b / whole
  {
    assert b / whole - a / whole == (b - a) / whole;
  }

  /** The reciprocal rank names the first relevant position exactly. */
  lemma ReciprocalRankMeaning(ranking: seq<DocumentId>, qrels: Qrels, cutoff: nat)
    requires NonNegative(Values(qrels))
    ensures 0.0 <= ReciprocalRankAt(ranking, qrels, cutoff) <= 1.0
    ensures ReciprocalRankAt(ranking, qrels, cutoff) > 0.0
       <==> Relevant(qrels) * ToSet(Take(ranking, cutoff)) != {}
    ensures forall i :: 0 <= i < |Take(ranking, cutoff)| && ranking[i] in Relevant(qrels)
                        ==> ReciprocalRankAt(ranking, qrels, cutoff) >= 1.0 / (i + 1) as real
  {
    RelevantFacts(qrels);
    var window := Take(ranking, cutoff);
    var first := FirstRelevant(window, qrels);
    if first < |window| {
      Ratio(1.0, (first + 1) as real);
      assert window[first] in Relevant(qrels) * ToSet(window);
    }
    forall i | 0 <= i < |window| && ranking[i] in Relevant(qrels)
      ensures first <= i && ReciprocalRankAt(ranking, qrels, cutoff) >= 1.0 / (i + 1) as real
    {
      assert Grade(window[i], qrels) > 0;
      InverseAntitone((first + 1) as real, (i + 1) as real);
    }
    if Relevant(qrels) * ToSet(window) != {} {
      var document :| document in Relevant(qrels) * ToSet(window);
      var i :| 0 <= i < |window| && window[i] == document;
      assert ranking[i] in Relevant(qrels);
    }
  }

  lemma InverseAntitone(a: real, b: real)
    requires 0.0 < a <= b
    ensures 1.0 / a >= 1.0 / b > 0.0
  {
    assert 1.0 / a - 1.0 / b == (b - a) / (a * b);
    assert a * b > 0.0;
  }

  predicate InUnit(x: real) { 0.0 <= x <= 1.0 }

  predicate MeetsScoreContract(scores: Scores) {
    InUnit(scores.ndcgAt10) && InUnit(scores.recallAt10) && InUnit(scores.recallAt100) && InUnit(scores.mrrAt10)
  }

  /** Metrics are refused exactly for malformed input; otherwise every score fits its contract. */
  lemma MetricsAlwaysFitContract(ranking: seq<DocumentId>, qrels: Qrels, discount: nat -> real)
    requires IsDiscount(discount)
    ensures var result := ComputeRetrievalMetrics(ranking, qrels, discount);
            && (result.Ok? <==> Distinct(ranking) && NonNegative(Values(qrels)))
            && (result.Ok? ==> MeetsScoreContract(result.value)
                               && result.value.recallAt10 <= result.value.recallAt100)
  {
    if Distinct(ranking) && NonNegative(Values(qrels)) {
      NdcgBounds(ranking, qrels, NDCG_CUTOFF, discount);
      RecallBounds(ranking, qrels, RECALL_CUTOFF);
      RecallBounds(ranking, qrels, DEEP_RECALL_CUTOFF);
      RecallGrowsWithDepth(ranking, qrels, RECALL_CUTOFF, DEEP_RECALL_CUTOFF);
      ReciprocalRankMeaning(ranking, qrels, MRR_CUTOFF);
    }
  }

  /** At the shared cutoff the three metrics agree on whether anything relevant was found. */
  lemma MetricsAgreeOnHits(ranking: seq<DocumentId>, qrels: Qrels, discount: nat -> real)
    requires IsDiscount(discount) && Distinct(ranking) && NonNegative(Values(qrels))
    ensures var scores := ComputeRetrievalMetrics(ranking, qrels, discount).value;
            && (scores.ndcgAt10 > 0.0 <==> scores.recallAt10 > 0.0)
            && (scores.mrrAt10 > 0.0 <==> scores.recallAt10 > 0.0)
  {
    RecallBounds(ranking, qrels, RECALL_CUTOFF);
    ReciprocalRankMeaning(ranking, qrels, MRR_CUTOFF);
    RelevantFacts(qrels);
    IdealEmpty(qrels, NDCG_CUTOFF);
    IdealFacts(qrels, NDCG_CUTOFF);
    IdealGainIsLargest(ranking, qrels, NDCG_CUTOFF, discount);
    var window := Take(ranking, NDCG_CUTOFF);
    var observed, ideal := ObservedGrades(ranking, qrels, NDCG_CUTOFF), IdealGrades(qrels, NDCG_CUTOFF);
    GradesNonNegative(window, qrels);
    DcgNonNegative(observed, discount);
    DcgNonNegative(ideal, discount);
    if ideal != [] {
      assert ideal[0] > 0;
      Ratio(Dcg(observed, discount), Dcg(ideal, discount));
    }
    if i :| 0 <= i < |observed| && observed[i] > 0 {
      assert window[i] in Relevant(qrels) * ToSet(window);
    }
    if document :| document in Relevant(qrels) * ToSet(window) {
      var i :| 0 <= i < |window| && window[i] == document;
      assert observed[i] > 0;
    }
  }
}
