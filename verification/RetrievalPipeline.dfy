/** Stage composition of one search: retrieve, fuse, rerank, truncate. */
module RetrievalPipeline {
  import opened Prelude
  import opened RetrievalMetrics
  import opened Fusion

  /** A reranked candidate window: score `candidates` hits, promote the best `keep`. */
  datatype RerankConfig = RerankConfig(candidates: nat, keep: nat)

  predicate ValidRerank(config: RerankConfig) {
    1 <= config.keep <= config.candidates <= 1000
  }

  datatype Candidate = Candidate(hit: StageHit, originalRank: nat)

  /** Best score first, then the original rank, then the identifier. */
  predicate RerankOrder(a: Candidate, b: Candidate) {
    || a.hit.score > b.hit.score
    || (a.hit.score == b.hit.score
        && (a.originalRank < b.originalRank
            || (a.originalRank == b.originalRank && StringLe(a.hit.document, b.hit.document))))
  }

  /** The rank dictionary of a window: a repeated document keeps its last rank. */
  function OriginalRank(window: seq<StageHit>, document: DocumentId): nat {
    if window == [] then 0
    else
      var last := |window| - 1;
      if window[last].document == document then last else OriginalRank(window[..last], document)
  }

  function Scored(window: seq<StageHit>, scores: seq<real>): (r: seq<Candidate>)
    requires |scores| == |window|
    ensures |r| == |window|
  {
    seq(|window|, i requires 0 <= i < |window| =>
      Candidate(StageHit(window[i].document, scores[i]), OriginalRank(window, window[i].document)))
  }

  function Hits(candidates: seq<Candidate>): (r: seq<StageHit>)
    ensures |r| == |candidates|
  {
    seq(|candidates|, i requires 0 <= i < |candidates| => candidates[i].hit)
  }

  function Reranked(window: seq<StageHit>, scores: seq<real>): (r: seq<StageHit>)
    requires |scores| == |window|
    ensures |r| == |window|
  {
    Hits(Sort(Scored(window, scores), RerankOrder))
  }

  function Unpromoted(hits: seq<StageHit>, promoted: set<DocumentId>): seq<StageHit> {
    if hits == [] then []
    else (if hits[0].document in promoted then [] else [hits[0]]) + Unpromoted(hits[1..], promoted)
  }

  /** Promote the best `keep` of the candidate window; everything else keeps its order below them. */
  function Promote(current: seq<StageHit>, scores: seq<real>, config: RerankConfig): seq<StageHit>
    requires |scores| == |Take(current, config.candidates)|
  {
    var promoted := Take(Reranked(Take(current, config.candidates), scores), config.keep);
    promoted + Unpromoted(current, ToSet(DocumentsOf(promoted)))
  }

  // ---- Promotion is a permutation confined to the candidate window ----

  lemma RerankOrderIsTotal()
    ensures TotalPreorder(RerankOrder)
  {
    StringOrder();
  }

  lemma RerankedDocuments(window: seq<StageHit>, scores: seq<real>)
    requires |scores| == |window|
    ensures multiset(DocumentsOf(Reranked(window, scores))) == multiset(DocumentsOf(window))
  {
    var scored := Scored(window, scores);
    var document := (candidate: Candidate) => candidate.hit.document;
    MappedMultiset(Sort(scored, RerankOrder), scored, document);
    assert DocumentsOf(Reranked(window, scores)) == Mapped(Sort(scored, RerankOrder), document);
    assert DocumentsOf(window) == Mapped(scored, document);
  }

  lemma HeadAndTail<T>(a: seq<T>, b: seq<T>)
    requires a != []
    ensures (a + b)[0] == a[0] && (a + b)[1..] == a[1..] + b
  {}

  lemma {:induction false} UnpromotedAppend(a: seq<StageHit>, b: seq<StageHit>, promoted: set<DocumentId>)
    ensures Unpromoted(a + b, promoted) == Unpromoted(a, promoted) + Unpromoted(b, promoted)
  {
    if a == [] {
      assert a + b == b;
    } else {
      UnpromotedAppend(a[1..], b, promoted);
      HeadAndTail(a, b);
    }
  }

  lemma {:induction false} UnpromotedDocuments(hits: seq<StageHit>, promoted: set<DocumentId>)
    requires Distinct(DocumentsOf(hits))
    ensures Distinct(DocumentsOf(Unpromoted(hits, promoted)))
    ensures ToSet(DocumentsOf(Unpromoted(hits, promoted))) == ToSet(DocumentsOf(hits)) - promoted
  {
    if hits != [] {
      var rest := Unpromoted(hits[1..], promoted);
      var head := if hits[0].document in promoted then [] else [hits[0]];
      assert hits == [hits[0]] + hits[1..];
      DocumentsAppend([hits[0]], hits[1..]);
      DocumentsAppend(head, rest);
      DistinctAppend(DocumentsOf([hits[0]]), DocumentsOf(hits[1..]));
      UnpromotedDocuments(hits[1..], promoted);
      DistinctAppend(DocumentsOf(head), DocumentsOf(rest));
    }
  }

  lemma {:induction false} NothingPromoted(hits: seq<StageHit>, promoted: set<DocumentId>)
    requires ToSet(DocumentsOf(hits)) !! promoted
    ensures Unpromoted(hits, promoted) == hits
  {
    if hits != [] {
      assert DocumentsOf(hits)[0] in ToSet(DocumentsOf(hits));
      assert DocumentsOf(hits[1..]) == DocumentsOf(hits)[1..];
      NothingPromoted(hits[1..], promoted);
      assert hits == [hits[0]] + hits[1..];
    }
  }

  /** The window of a promotion, rearranged: promoted hits, then the rest of the window. */
  function PromotedWindow(window: seq<StageHit>, scores: seq<real>, keep: nat): seq<StageHit>
    requires |scores| == |window|
  {
    var promoted := Take(Reranked(window, scores), keep);
    promoted + Unpromoted(window, ToSet(DocumentsOf(promoted)))
  }

  lemma PromotedWindowIsPermutation(window: seq<StageHit>, scores: seq<real>, keep: nat)
    requires |scores| == |window| && Distinct(DocumentsOf(window))
    ensures multiset(DocumentsOf(PromotedWindow(window, scores, keep))) == multiset(DocumentsOf(window))
    ensures ToSet(DocumentsOf(Take(Reranked(window, scores), keep))) <= ToSet(DocumentsOf(window))
  {
    var reranked := Reranked(window, scores);
    var promoted := Take(reranked, keep);
    RerankedDocuments(window, scores);
    PrefixOfPermutation(DocumentsOf(window), DocumentsOf(reranked), |promoted|);
    assert DocumentsOf(promoted) == DocumentsOf(reranked)[..|promoted|];
    UnpromotedDocuments(window, ToSet(DocumentsOf(promoted)));
    WindowRegrouped(promoted, Unpromoted(window, ToSet(DocumentsOf(promoted))), window);
  }

  /** A promotion rearranges its window and appends the rest of the list untouched. */
  lemma PromoteShape(current: seq<StageHit>, window: seq<StageHit>, rest: seq<StageHit>, scores: seq<real>,
                     config: RerankConfig)
    requires Distinct(DocumentsOf(current)) && current == window + rest && window == Take(current, config.candidates)
    requires |scores| == |window|
    ensures Distinct(DocumentsOf(window))
    ensures Promote(current, scores, config) == PromotedWindow(window, scores, config.keep) + rest
    ensures multiset(DocumentsOf(PromotedWindow(window, scores, config.keep))) == multiset(DocumentsOf(window))
  {
    DocumentsAppend(window, rest);
    DistinctAppend(DocumentsOf(window), DocumentsOf(rest));
    PromotedWindowIsPermutation(window, scores, config.keep);
    var promoted := Take(Reranked(window, scores), config.keep);
    var ids := ToSet(DocumentsOf(promoted));
    OnlyWindowPromoted(window, rest, ids);
    Regroup(promoted, Unpromoted(window, ids), rest);
  }

  lemma Regroup<T>(a: seq<T>, b: seq<T>, c: seq<T>)
    ensures a + (b + c) == (a + b) + c
  {}

  lemma OnlyWindowPromoted(window: seq<StageHit>, rest: seq<StageHit>, promoted: set<DocumentId>)
    requires promoted !! ToSet(DocumentsOf(rest))
    ensures Unpromoted(window + rest, promoted) == Unpromoted(window, promoted) + rest
  {
    UnpromotedAppend(window, rest, promoted);
    NothingPromoted(rest, promoted);
  }

  lemma PrefixOfPermutation<T>(a: seq<T>, b: seq<T>, count: nat)
    requires Distinct(a) && multiset(a) == multiset(b) && count <= |b|
    ensures Distinct(b[..count]) && ToSet(b[..count]) <= ToSet(a)
  {
    DistinctByMultiset(a, b);
    SameMembers(a, b);
  }

  lemma WindowRegrouped(promoted: seq<StageHit>, others: seq<StageHit>, window: seq<StageHit>)
    requires Distinct(DocumentsOf(promoted)) && Distinct(DocumentsOf(others)) && Distinct(DocumentsOf(window))
    requires ToSet(DocumentsOf(promoted)) <= ToSet(DocumentsOf(window))
    requires ToSet(DocumentsOf(others)) == ToSet(DocumentsOf(window)) - ToSet(DocumentsOf(promoted))
    ensures multiset(DocumentsOf(promoted + others)) == multiset(DocumentsOf(window))
  {
    var a, b := DocumentsOf(promoted), DocumentsOf(others);
    assert DocumentsOf(promoted + others) == a + b;
    DistinctAppend(a, b);
    assert ToSet(a + b) == ToSet(a) + ToSet(b);
    DistinctMultiset(a + b, DocumentsOf(window));
  }

  /** Promotion only rearranges: no document is gained, lost or repeated. */
  lemma PromotionIsPermutation(current: seq<StageHit>, scores: seq<real>, config: RerankConfig)
    requires Distinct(DocumentsOf(current)) && |scores| == |Take(current, config.candidates)|
    ensures multiset(DocumentsOf(Promote(current, scores, config))) == multiset(DocumentsOf(current))
    ensures Distinct(DocumentsOf(Promote(current, scores, config)))
  {
    var window := Take(current, config.candidates);
    var rest := current[|window|..];
    PromoteShape(current, window, rest, scores, config);
    DocumentsAppend(window, rest);
    DocumentsAppend(PromotedWindow(window, scores, config.keep), rest);
    DistinctByMultiset(DocumentsOf(current), DocumentsOf(Promote(current, scores, config)));
  }

  /** Every prefix that covers the candidate window holds the same documents as before. */
  lemma PromotionKeepsDeepPrefixes(current: seq<StageHit>, scores: seq<real>, config: RerankConfig, depth: nat)
    requires Distinct(DocumentsOf(current)) && |scores| == |Take(current, config.candidates)|
    requires depth >= |Take(current, config.candidates)|
    ensures ToSet(Take(DocumentsOf(Promote(current, scores, config)), depth))
         == ToSet(Take(DocumentsOf(current), depth))
  {
    var window := Take(current, config.candidates);
    var rest := current[|window|..];
    var front := PromotedWindow(window, scores, config.keep);
    PromoteShape(current, window, rest, scores, config);
    DocumentsAppend(window, rest);
    DocumentsAppend(front, rest);
    SameLength(DocumentsOf(front), DocumentsOf(window));
    SameMembers(DocumentsOf(front), DocumentsOf(window));
    TakePast(DocumentsOf(front), DocumentsOf(rest), depth);
    TakePast(DocumentsOf(window), DocumentsOf(rest), depth);
  }

  lemma SameLength<T>(a: seq<T>, b: seq<T>)
    requires multiset(a) == multiset(b)
    ensures |a| == |b|
  {
    assert |multiset(a)| == |a| && |multiset(b)| == |b|;
  }

  lemma TakePast<T>(a: seq<T>, b: seq<T>, depth: nat)
    requires depth >= |a|
    ensures ToSet(Take(a + b, depth)) == ToSet(a) + ToSet(Take(b, depth - |a|))
  {
    assert Take(a + b, depth) == a + Take(b, depth - |a|);
  }

  /** Recall at any depth that covers the window cannot tell a reranked variant from its parent. */
  lemma RecallUnchangedByRerank(current: seq<StageHit>, scores: seq<real>, config: RerankConfig,
                                qrels: Qrels, depth: nat)
    requires Distinct(DocumentsOf(current)) && |scores| == |Take(current, config.candidates)|
    requires depth >= |Take(current, config.candidates)|
    ensures RecallAt(DocumentsOf(Promote(current, scores, config)), qrels, depth)
         == RecallAt(DocumentsOf(current), qrels, depth)
  {
    PromotionKeepsDeepPrefixes(current, scores, config, depth);
  }

  /** Reranker output that lifts exactly the hit at `index` to the top. */
  function LiftOne(length: nat, index: nat): seq<real> {
    seq(length, i => if i == index then 1.0 else 0.0)
  }

  /** A window deeper than the cutoff can push a document out of the measured prefix. */
  lemma DeepWindowChangesRecall(current: seq<StageHit>, config: RerankConfig, depth: nat, qrels: Qrels)
    requires Distinct(DocumentsOf(current)) && ValidRerank(config)
    requires 0 < depth < |Take(current, config.candidates)|
    requires qrels == [Qrel(current[depth].document, 1)]
    ensures RecallAt(DocumentsOf(current), qrels, depth) == 0.0
    ensures RecallAt(DocumentsOf(Promote(current, LiftOne(|Take(current, config.candidates)|, depth), config)),
                     qrels, depth) == 1.0
  {
    var lifted := DocumentsOf(Promote(current, LiftOne(|Take(current, config.candidates)|, depth), config));
    LiftedFirst(Take(current, config.candidates), depth);
    OneJudgedDocument(lifted, current[depth].document, depth);
    OneJudgedDocument(DocumentsOf(current), current[depth].document, depth);
    HiddenBefore(DocumentsOf(current), depth);
    ShownFirst(lifted, current[depth].document, depth);
  }

  lemma OneJudgedDocument(documents: seq<DocumentId>, document: DocumentId, depth: nat)
    ensures RecallAt(documents, [Qrel(document, 1)], depth)
         == if document in ToSet(Take(documents, depth)) then 1.0 else 0.0
  {
    var qrels: Qrels := [Qrel(document, 1)];
    assert Relevant(qrels) == {document} by {
      assert qrels[0].document in Relevant(qrels);
    }
    RecallBounds(documents, qrels, depth);
    var shown := {document} * ToSet(Take(documents, depth));
    assert document !in ToSet(Take(documents, depth)) ==> shown == {};
  }

  lemma HiddenBefore(documents: seq<DocumentId>, depth: nat)
    requires Distinct(documents) && depth < |documents|
    ensures documents[depth] !in ToSet(Take(documents, depth))
  {}

  lemma ShownFirst(documents: seq<DocumentId>, document: DocumentId, depth: nat)
    requires documents != [] && documents[0] == document && depth > 0
    ensures {document} <= ToSet(Take(documents, depth))
  {
    assert Take(documents, depth)[0] == document;
  }

  lemma LiftedFirst(window: seq<StageHit>, index: nat)
    requires index < |window|
    ensures Reranked(window, LiftOne(|window|, index))[0].document == window[index].document
  {
    var scored := Scored(window, LiftOne(|window|, index));
    var sorted := Sort(scored, RerankOrder);
    RerankOrderIsTotal();
    SortSorts(scored, RerankOrder);
    SortMembers(scored, RerankOrder);
    assert scored[index] in sorted && sorted[0] in scored;
    var i :| 0 <= i < |sorted| && sorted[i] == scored[index];
    var j :| 0 <= j < |scored| && scored[j] == sorted[0];
    assert i > 0 ==> RerankOrder(sorted[0], sorted[i]);
  }

  /**
   * Recall at `depth` is immune to reranking for every reranker and every set of judgments
   * exactly when the candidate window does not reach past that depth.
   */
  lemma RerankNeutralExactly(current: seq<StageHit>, config: RerankConfig, depth: nat)
    requires Distinct(DocumentsOf(current)) && ValidRerank(config) && depth > 0
    ensures |Take(current, config.candidates)| <= depth
       <==> forall scores: seq<real>, qrels: Qrels :: |scores| == |Take(current, config.candidates)| ==>
              RecallAt(DocumentsOf(Promote(current, scores, config)), qrels, depth)
              == RecallAt(DocumentsOf(current), qrels, depth)
  {
    if |Take(current, config.candidates)| <= depth {
      forall scores: seq<real>, qrels: Qrels | |scores| == |Take(current, config.candidates)|
        ensures RecallAt(DocumentsOf(Promote(current, scores, config)), qrels, depth)
             == RecallAt(DocumentsOf(current), qrels, depth)
      {
        RecallUnchangedByRerank(current, scores, config, qrels, depth);
      }
    } else {
      var scores := LiftOne(|Take(current, config.candidates)|, depth);
      var qrels: Qrels := [Qrel(current[depth].document, 1)];
      DeepWindowChangesRecall(current, config, depth, qrels);
      assert RecallAt(DocumentsOf(Promote(current, scores, config)), qrels, depth)
          != RecallAt(DocumentsOf(current), qrels, depth);
    }
  }

  function Min(a: nat, b: nat): nat {
    if a < b then a else b
  }

  /** A response of k hits shows recall at a depth as the whole list does, at most k deep. */
  lemma RecallOfResponse(hits: seq<StageHit>, qrels: Qrels, depth: nat, k: nat)
    ensures RecallAt(DocumentsOf(Take(hits, k)), qrels, depth) == RecallAt(DocumentsOf(hits), qrels, Min(depth, k))
  {
    assert DocumentsOf(Take(hits, k)) == Take(DocumentsOf(hits), k);
    assert Take(Take(DocumentsOf(hits), k), depth) == Take(DocumentsOf(hits), Min(depth, k));
  }

  /**
   * A reranked search of k hits has the recall at `depth` of its unreranked parent, for every reranker and every set of
   * judgments, exactly when the candidate window reaches past neither the depth nor the cut.
   */
  lemma SearchesAreNeutralExactly(first: seq<StageHit>, config: RerankConfig, depth: nat, k: nat)
    requires Distinct(DocumentsOf(first)) && ValidRerank(config) && depth > 0 && k > 0
    ensures |Take(first, config.candidates)| <= Min(depth, k)
       <==> forall scores: seq<real>, qrels: Qrels :: |scores| == |Take(first, config.candidates)| ==>
              RecallAt(DocumentsOf(Take(Promote(first, scores, config), k)), qrels, depth)
              == RecallAt(DocumentsOf(Take(first, k)), qrels, depth)
  {
    RerankNeutralExactly(first, config, Min(depth, k));
    forall scores: seq<real>, qrels: Qrels | |scores| == |Take(first, config.candidates)|
      ensures RecallAt(DocumentsOf(Take(Promote(first, scores, config), k)), qrels, depth)
           == RecallAt(DocumentsOf(Promote(first, scores, config)), qrels, Min(depth, k))
      ensures RecallAt(DocumentsOf(Take(first, k)), qrels, depth)
           == RecallAt(DocumentsOf(first), qrels, Min(depth, k))
    {
      RecallOfResponse(Promote(first, scores, config), qrels, depth, k);
      RecallOfResponse(first, qrels, depth, k);
    }
  }

  /** Documents that are not promoted keep their relative order. */
  lemma {:induction false} UnpromotedKeepOrder(hits: seq<StageHit>, promoted: set<DocumentId>, i: nat, j: nat)
    requires i < j < |hits| && hits[i].document !in promoted && hits[j].document !in promoted
    ensures exists p, q :: 0 <= p < q < |Unpromoted(hits, promoted)|
                           && Unpromoted(hits, promoted)[p] == hits[i] && Unpromoted(hits, promoted)[q] == hits[j]
  {
    var rest := Unpromoted(hits[1..], promoted);
    var skipped := if hits[0].document in promoted then 0 else 1;
    if i == 0 {
      UnpromotedKeepMember(hits[1..], promoted, j - 1);
      var q :| 0 <= q < |rest| && rest[q] == hits[j];
      assert Unpromoted(hits, promoted)[0] == hits[0] && Unpromoted(hits, promoted)[q + 1] == hits[j];
    } else {
      UnpromotedKeepOrder(hits[1..], promoted, i - 1, j - 1);
      var p, q :| 0 <= p < q < |rest| && rest[p] == hits[i] && rest[q] == hits[j];
      assert Unpromoted(hits, promoted)[p + skipped] == hits[i] && Unpromoted(hits, promoted)[q + skipped] == hits[j];
    }
  }

  lemma {:induction false} UnpromotedKeepMember(hits: seq<StageHit>, promoted: set<DocumentId>, i: nat)
    requires i < |hits| && hits[i].document !in promoted
    ensures hits[i] in Unpromoted(hits, promoted)
  {
    if i > 0 { UnpromotedKeepMember(hits[1..], promoted, i - 1); }
  }

  // ---- Who is promoted, and what happens to everyone else ----

  /**
   * A promotion told by where in `current` each hit was: at most `keep` hits of the window lead with their new scores,
   * best first and equal ones as they stood; no window hit behind them beats them; everyone else follows unchanged in
   * the old order.
   */
  ghost predicate IsPromotion(r: seq<StageHit>, current: seq<StageHit>, scores: seq<real>, keep: nat,
                              places: seq<nat>)
  {
    var lead := Min(keep, |scores|);
    && |r| == |places| == |current| && |scores| <= |current| && Distinct(places)
    && (forall i :: 0 <= i < |places| ==> places[i] < |current|)
    && (forall i :: 0 <= i < lead ==>
          places[i] < |scores| && r[i] == StageHit(current[places[i]].document, scores[places[i]]))
    && (forall i :: lead <= i < |r| ==> r[i] == current[places[i]])
    && (forall i, j :: 0 <= i < lead && i < j < |r| ==> Precedes(scores, places[i], places[j]))
    && (forall i, j :: lead <= i < j < |r| ==> places[i] < places[j])
  }

  /** The hit at place `a` of the window has the better score, or the same one and stands first. */
  predicate Precedes(scores: seq<real>, a: nat, b: nat) {
    a < |scores| && b < |scores| ==> scores[a] > scores[b] || (scores[a] == scores[b] && a < b)
  }

  lemma {:induction false} RankIsPosition(window: seq<StageHit>, i: nat)
    requires Distinct(DocumentsOf(window)) && i < |window|
    ensures OriginalRank(window, window[i].document) == i
  {
    var last := |window| - 1;
    if i < last {
      assert DocumentsOf(window)[i] != DocumentsOf(window)[last];
      assert DocumentsOf(window[..last]) == DocumentsOf(window)[..last];
      RankIsPosition(window[..last], i);
    }
  }

  /** One hit of the reranked window comes from one place of the window. */
  lemma RerankedPlace(window: seq<StageHit>, scores: seq<real>, i: nat)
    requires |scores| == |window| && Distinct(DocumentsOf(window)) && i < |window|
    ensures var place := Sort(Scored(window, scores), RerankOrder)[i].originalRank;
            place < |window| && Reranked(window, scores)[i] == StageHit(window[place].document, scores[place])
  {
    var scored := Scored(window, scores);
    var sorted := Sort(scored, RerankOrder);
    SortMembers(scored, RerankOrder);
    assert sorted[i] in scored;
    var place :| 0 <= place < |scored| && scored[place] == sorted[i];
    RankIsPosition(window, place);
  }

  /** The reranked window: best score first, and equal ones as they stood. */
  lemma RerankedPlaces(window: seq<StageHit>, scores: seq<real>) returns (places: seq<nat>)
    requires |scores| == |window| && Distinct(DocumentsOf(window))
    ensures |places| == |window| && Distinct(places)
    ensures forall i :: 0 <= i < |places| ==>
              places[i] < |window|
              && Reranked(window, scores)[i] == StageHit(window[places[i]].document, scores[places[i]])
    ensures forall i, j :: 0 <= i < j < |places| ==> Precedes(scores, places[i], places[j])
  {
    var sorted := Sort(Scored(window, scores), RerankOrder);
    places := seq(|sorted|, i requires 0 <= i < |sorted| => sorted[i].originalRank);
    forall i | 0 <= i < |places|
      ensures places[i] < |window|
      ensures Reranked(window, scores)[i] == StageHit(window[places[i]].document, scores[places[i]])
    {
      RerankedPlace(window, scores, i);
    }
    RerankedDocuments(window, scores);
    DistinctByMultiset(DocumentsOf(window), DocumentsOf(Reranked(window, scores)));
    RerankOrderIsTotal();
    SortSorts(Scored(window, scores), RerankOrder);
    forall i, j | 0 <= i < j < |places|
      ensures places[i] != places[j] && Precedes(scores, places[i], places[j])
    {
      assert DocumentsOf(Reranked(window, scores))[i] != DocumentsOf(Reranked(window, scores))[j];
      assert RerankOrder(sorted[i], sorted[j]);
    }
  }

  /** Where the hits that are not promoted stand, counted from `base`. */
  function UnpromotedPlaces(hits: seq<StageHit>, promoted: set<DocumentId>, base: nat): seq<nat> {
    if hits == [] then []
    else (if hits[0].document in promoted then [] else [base]) + UnpromotedPlaces(hits[1..], promoted, base + 1)
  }

  lemma {:induction false} UnpromotedStand(hits: seq<StageHit>, promoted: set<DocumentId>, base: nat)
    ensures var places, left := UnpromotedPlaces(hits, promoted, base), Unpromoted(hits, promoted);
            && |places| == |left|
            && (forall i :: 0 <= i < |places| ==>
                  base <= places[i] < base + |hits| && left[i] == hits[places[i] - base]
                  && left[i].document !in promoted)
            && (forall i, j :: 0 <= i < j < |places| ==> places[i] < places[j])
  {
    if hits != [] { UnpromotedStand(hits[1..], promoted, base + 1); }
  }

  /** What was left of the window behind its promoted hits was ranked behind them. */
  lemma LeftBehind(window: seq<StageHit>, reranked: seq<StageHit>, ranked: seq<nat>, lead: nat, place: nat)
    returns (j: nat)
    requires |reranked| == |window| == |ranked| && Distinct(DocumentsOf(window)) && place < |window|
    requires multiset(DocumentsOf(reranked)) == multiset(DocumentsOf(window))
    requires forall i :: 0 <= i < |ranked| ==>
               ranked[i] < |window| && reranked[i].document == window[ranked[i]].document
    requires forall i :: 0 <= i < lead && i < |reranked| ==> reranked[i].document != window[place].document
    ensures lead <= j < |ranked| && ranked[j] == place
  {
    SameMembers(DocumentsOf(reranked), DocumentsOf(window));
    assert DocumentsOf(window)[place] in DocumentsOf(reranked);
    j :| 0 <= j < |reranked| && DocumentsOf(reranked)[j] == window[place].document;
    assert DocumentsOf(window)[ranked[j]] == DocumentsOf(window)[place];
  }

  /** Promoted hits come before every other hit of the window. */
  lemma LeadersPrecede(window: seq<StageHit>, scores: seq<real>, reranked: seq<StageHit>, ranked: seq<nat>, lead: nat,
                       i: nat, place: nat)
    requires |reranked| == |window| == |ranked| == |scores| && Distinct(DocumentsOf(window))
    requires multiset(DocumentsOf(reranked)) == multiset(DocumentsOf(window))
    requires forall i :: 0 <= i < |ranked| ==>
               ranked[i] < |window| && reranked[i].document == window[ranked[i]].document
    requires forall i, j :: 0 <= i < j < |ranked| ==> Precedes(scores, ranked[i], ranked[j])
    requires i < lead <= |ranked|
    requires place < |window| ==>
               forall i :: 0 <= i < lead ==> reranked[i].document != window[place].document
    ensures Precedes(scores, ranked[i], place)
  {
    if place < |window| {
      var j := LeftBehind(window, reranked, ranked, lead, place);
    }
  }

  /** Two lists of places, one in ranked order and one in the old order, that have no place in common. */
  lemma Assembled(current: seq<StageHit>, scores: seq<real>, promoted: seq<StageHit>, lead: seq<nat>,
                  others: seq<StageHit>, left: seq<nat>, keep: nat)
    requires |promoted| == |lead| == Min(keep, |scores|) && |left| == |others| && |scores| <= |current|
    requires |lead| + |left| == |current| && Distinct(lead)
    requires forall i :: 0 <= i < |lead| ==>
               lead[i] < |scores| && promoted[i] == StageHit(current[lead[i]].document, scores[lead[i]])
    requires forall i, j :: 0 <= i < j < |lead| ==> Precedes(scores, lead[i], lead[j])
    requires forall j :: 0 <= j < |left| ==> left[j] < |current| && others[j] == current[left[j]]
    requires forall i, j :: 0 <= i < j < |left| ==> left[i] < left[j]
    requires forall i, j :: 0 <= i < |lead| && 0 <= j < |left| ==>
               lead[i] != left[j] && Precedes(scores, lead[i], left[j])
    ensures IsPromotion(promoted + others, current, scores, keep, lead + left)
  {}

  /** No document of the others is a promoted one, so they all come behind. */
  lemma OthersFollow(window: seq<StageHit>, scores: seq<real>, reranked: seq<StageHit>, ranked: seq<nat>, lead: nat,
                     others: seq<StageHit>, left: seq<nat>)
    requires |reranked| == |window| == |ranked| == |scores| && Distinct(DocumentsOf(window))
    requires multiset(DocumentsOf(reranked)) == multiset(DocumentsOf(window))
    requires forall i :: 0 <= i < |ranked| ==>
               ranked[i] < |window| && reranked[i].document == window[ranked[i]].document
    requires forall i, j :: 0 <= i < j < |ranked| ==> Precedes(scores, ranked[i], ranked[j])
    requires lead <= |ranked| && |left| == |others|
    requires forall j :: 0 <= j < |left| ==>
               && others[j].document !in ToSet(DocumentsOf(reranked[..lead]))
               && (left[j] < |window| ==> window[left[j]] == others[j])
    ensures forall i, j :: 0 <= i < lead && 0 <= j < |left| ==>
              ranked[i] != left[j] && Precedes(scores, ranked[i], left[j])
  {
    forall i, j | 0 <= i < lead && 0 <= j < |left|
      ensures ranked[i] != left[j] && Precedes(scores, ranked[i], left[j])
    {
      assert forall i :: 0 <= i < lead ==> DocumentsOf(reranked[..lead])[i] == reranked[i].document;
      LeadersPrecede(window, scores, reranked, ranked, lead, i, left[j]);
    }
  }

  /**
   * Reranking moves at most `keep` documents: exactly the best of the window, to the top, best first. All others keep
   * their scores and their order.
   */
  lemma PromotionMeaning(current: seq<StageHit>, scores: seq<real>, config: RerankConfig) returns (places: seq<nat>)
    requires Distinct(DocumentsOf(current)) && |scores| == |Take(current, config.candidates)|
    ensures IsPromotion(Promote(current, scores, config), current, scores, config.keep, places)
  {
    PromotionLength(current, scores, config);
    assert Take(current, config.candidates) == current[..|scores|];
    places := PromotionInto(current, current[..|scores|], scores, config.keep, Promote(current, scores, config));
  }

  lemma PromotionLength(current: seq<StageHit>, scores: seq<real>, config: RerankConfig)
    requires Distinct(DocumentsOf(current)) && |scores| == |Take(current, config.candidates)|
    ensures |Promote(current, scores, config)| == |current|
  {
    PromotionIsPermutation(current, scores, config);
    SameLength(DocumentsOf(Promote(current, scores, config)), DocumentsOf(current));
  }

  lemma PromotionInto(current: seq<StageHit>, window: seq<StageHit>, scores: seq<real>, keep: nat, r: seq<StageHit>)
    returns (places: seq<nat>)
    requires |scores| <= |current| && window == current[..|scores|] && Distinct(DocumentsOf(current))
    requires |r| == |current|
    requires r == Take(Reranked(window, scores), keep)
                  + Unpromoted(current, ToSet(DocumentsOf(Take(Reranked(window, scores), keep))))
    ensures IsPromotion(r, current, scores, keep, places)
  {
    assert DocumentsOf(window) == DocumentsOf(current)[..|scores|];
    RerankedDocuments(window, scores);
    var ranked := RerankedPlaces(window, scores);
    places := PromotionOf(current, scores, Reranked(window, scores), ranked, keep);
  }

  lemma PromotionOf(current: seq<StageHit>, scores: seq<real>, reranked: seq<StageHit>, ranked: seq<nat>, keep: nat)
    returns (places: seq<nat>)
    requires |reranked| == |ranked| == |scores| <= |current| && Distinct(ranked)
    requires Distinct(DocumentsOf(current[..|scores|]))
    requires multiset(DocumentsOf(reranked)) == multiset(DocumentsOf(current[..|scores|]))
    requires forall i :: 0 <= i < |ranked| ==>
               ranked[i] < |scores| && reranked[i] == StageHit(current[ranked[i]].document, scores[ranked[i]])
    requires forall i, j :: 0 <= i < j < |ranked| ==> Precedes(scores, ranked[i], ranked[j])
    requires |Take(reranked, keep) + Unpromoted(current, ToSet(DocumentsOf(Take(reranked, keep))))| == |current|
    ensures IsPromotion(Take(reranked, keep) + Unpromoted(current, ToSet(DocumentsOf(Take(reranked, keep)))),
                        current, scores, keep, places)
  {
    var lead := Min(keep, |scores|);
    var promoted := reranked[..lead];
    assert Take(reranked, keep) == promoted;
    var ids := ToSet(DocumentsOf(promoted));
    var others, left := Unpromoted(current, ids), UnpromotedPlaces(current, ids, 0);
    UnpromotedStand(current, ids, 0);
    OthersFollow(current[..|scores|], scores, reranked, ranked, lead, others, left);
    Assembled(current, scores, promoted, ranked[..lead], others, left, keep);
    places := ranked[..lead] + left;
  }

  // ---- The whole search ----

  datatype FusionMethod = Rrf | Weighted

  datatype Variant = Variant(sparse: bool, dense: bool, fusion: Option<(FusionMethod, nat)>,
                             rerank: Option<RerankConfig>)

  predicate ValidVariant(variant: Variant) {
    && (variant.sparse || variant.dense)
    && (variant.fusion.Some? <==> variant.sparse && variant.dense)
    && (variant.fusion.Some? ==> variant.fusion.value.1 >= 1)
    && (variant.rerank.Some? ==> ValidRerank(variant.rerank.value))
  }

  datatype SearchError = UnsupportedFusion | MissingDocument | ScoreCountMismatch

  type StageScores = map<DocumentId, map<string, real>>

  predicate Records(scores: StageScores, name: string, hit: StageHit) {
    hit.document in scores && name in scores[hit.document] && scores[hit.document][name] == hit.score
  }

  function RecordOne(scores: StageScores, name: string, hit: StageHit): (r: StageScores)
    ensures r.Keys == scores.Keys + {hit.document} && Records(r, name, hit)
    ensures forall d :: d in scores && d != hit.document ==> r[d] == scores[d]
  {
    var row := if hit.document in scores then scores[hit.document] else map[];
    scores[hit.document := row[name := hit.score]]
  }

  function RecordAll(scores: StageScores, name: string, hits: seq<StageHit>): StageScores {
    if hits == [] then scores
    else RecordOne(RecordAll(scores, name, hits[..|hits| - 1]), name, hits[|hits| - 1])
  }

  lemma {:induction false} RecordedDocuments(scores: StageScores, name: string, hits: seq<StageHit>)
    ensures RecordAll(scores, name, hits).Keys == scores.Keys + ToSet(DocumentsOf(hits))
  {
    if hits != [] {
      RecordedDocuments(scores, name, hits[..|hits| - 1]);
      OneMoreDocument(hits, |hits| - 1);
      assert hits[..|hits|] == hits;
    }
  }

  /** Every hit keeps the score that its own stage gave it. */
  lemma {:induction false} RecordedScore(scores: StageScores, name: string, hits: seq<StageHit>, i: nat)
    requires Distinct(DocumentsOf(hits)) && i < |hits|
    ensures Records(RecordAll(scores, name, hits), name, hits[i])
  {
    var last := |hits| - 1;
    if i < last {
      assert DocumentsOf(hits[..last]) == DocumentsOf(hits)[..last];
      RecordedScore(scores, name, hits[..last], i);
      assert DocumentsOf(hits)[i] != DocumentsOf(hits)[last];
    }
  }

  /** A later stage leaves the scores of documents it does not show alone. */
  lemma {:induction false} RecordedElsewhere(scores: StageScores, name: string, hits: seq<StageHit>,
                                             document: DocumentId)
    requires document in scores && document !in DocumentsOf(hits)
    ensures document in RecordAll(scores, name, hits) && RecordAll(scores, name, hits)[document] == scores[document]
  {
    if hits != [] {
      var last := |hits| - 1;
      assert DocumentsOf(hits[..last]) == DocumentsOf(hits)[..last];
      RecordedElsewhere(scores, name, hits[..last], document);
      assert DocumentsOf(hits)[last] != document;
    }
  }

  /**
   * Remembers one stage's scores for every hit of that stage; what is recorded of other documents, or of these by other
   * stages, stays.
   */
  method RecordScores(scores: StageScores, name: string, hits: seq<StageHit>) returns (scores': StageScores)
    ensures scores' == RecordAll(scores, name, hits)
    ensures scores'.Keys == scores.Keys + ToSet(DocumentsOf(hits))
    ensures Distinct(DocumentsOf(hits)) ==> forall i :: 0 <= i < |hits| ==> Records(scores', name, hits[i])
    ensures forall d :: d in scores && d !in DocumentsOf(hits) ==> d in scores' && scores'[d] == scores[d]
    ensures forall d, other :: other != name && RecordedAs(scores, d, other) ==>
              RecordedAs(scores', d, other) && scores'[d][other] == scores[d][other]
    ensures forall d, other :: RecordedAs(scores', d, other) ==>
              RecordedAs(scores, d, other) || (other == name && d in DocumentsOf(hits))
  {
    scores' := scores;
    for i := 0 to |hits|
      invariant scores' == RecordAll(scores, name, hits[..i])
    {
      scores' := RecordOne(scores', name, hits[i]);
      assert hits[..i + 1][..i] == hits[..i];
    }
    assert hits[..|hits|] == hits;
    RecordedDocuments(scores, name, hits);
    RecordedStays(scores, name, hits);
  }

  predicate RecordedAs(scores: StageScores, d: DocumentId, name: string) {
    d in scores && name in scores[d]
  }

  lemma RecordedStays(scores: StageScores, name: string, hits: seq<StageHit>)
    ensures Distinct(DocumentsOf(hits)) ==>
              forall i :: 0 <= i < |hits| ==> Records(RecordAll(scores, name, hits), name, hits[i])
    ensures forall d :: d in scores && d !in DocumentsOf(hits) ==>
              d in RecordAll(scores, name, hits) && RecordAll(scores, name, hits)[d] == scores[d]
    ensures forall d, other :: other != name && RecordedAs(scores, d, other) ==>
              && RecordedAs(RecordAll(scores, name, hits), d, other)
              && RecordAll(scores, name, hits)[d][other] == scores[d][other]
    ensures forall d, other :: RecordedAs(RecordAll(scores, name, hits), d, other) ==>
              RecordedAs(scores, d, other) || (other == name && d in DocumentsOf(hits))
  {
    if Distinct(DocumentsOf(hits)) {
      forall i | 0 <= i < |hits| ensures Records(RecordAll(scores, name, hits), name, hits[i]) {
        RecordedScore(scores, name, hits, i);
      }
    }
    forall d | d in scores && d !in DocumentsOf(hits)
      ensures d in RecordAll(scores, name, hits) && RecordAll(scores, name, hits)[d] == scores[d]
    {
      RecordedElsewhere(scores, name, hits, d);
    }
    forall d, other | other != name && RecordedAs(scores, d, other)
      ensures RecordedAs(RecordAll(scores, name, hits), d, other)
      ensures RecordAll(scores, name, hits)[d][other] == scores[d][other]
    {
      RecordedOtherwise(scores, name, hits, d, other);
    }
    forall d, other | RecordedAs(RecordAll(scores, name, hits), d, other)
      ensures RecordedAs(scores, d, other) || (other == name && d in DocumentsOf(hits))
    {
      RecordedBefore(scores, name, hits, d, other);
    }
  }

  lemma {:induction false} RecordedBefore(scores: StageScores, name: string, hits: seq<StageHit>, d: DocumentId,
                                          other: string)
    requires RecordedAs(RecordAll(scores, name, hits), d, other)
    ensures RecordedAs(scores, d, other) || (other == name && d in DocumentsOf(hits))
  {
    if hits != [] {
      var last := |hits| - 1;
      assert DocumentsOf(hits)[last] == hits[last].document;
      assert DocumentsOf(hits[..last]) == DocumentsOf(hits)[..last];
      if d != hits[last].document || other != name { RecordedBefore(scores, name, hits[..last], d, other); }
    }
  }

  lemma {:induction false} RecordedOtherwise(scores: StageScores, name: string, hits: seq<StageHit>, d: DocumentId,
                                             other: string)
    requires other != name && RecordedAs(scores, d, other)
    ensures RecordedAs(RecordAll(scores, name, hits), d, other)
    ensures RecordAll(scores, name, hits)[d][other] == scores[d][other]
  {
    if hits != [] { RecordedOtherwise(scores, name, hits[..|hits| - 1], d, other); }
  }

  // ---- What all stages record ----

  /** The name a stage's scores are recorded under, and its hits. */
  datatype Stage = Stage(name: string, hits: seq<StageHit>)

  /** A stage by this name has the document among its hits. */
  predicate ShownBy(stages: seq<Stage>, name: string, d: DocumentId) {
    exists s :: s in stages && s.name == name && d in DocumentsOf(s.hits)
  }

  /** Recorded is every stage's score of every one of its hits, and nothing else. */
  ghost predicate RecordsStages(scores: StageScores, stages: seq<Stage>) {
    && (forall s <- stages, hit <- s.hits :: Records(scores, s.name, hit))
    && (forall d, name :: RecordedAs(scores, d, name) ==> ShownBy(stages, name, d))
  }

  predicate NewName(stages: seq<Stage>, name: string) {
    forall s <- stages :: s.name != name
  }

  lemma NothingRecorded()
    ensures RecordsStages(map[], [])
  {}

  /** A further stage adds its scores and keeps the others'. */
  method RecordStage(scores: StageScores, ghost stages: seq<Stage>, name: string, hits: seq<StageHit>)
    returns (scores': StageScores)
    requires RecordsStages(scores, stages) && NewName(stages, name) && Distinct(DocumentsOf(hits))
    ensures RecordsStages(scores', stages + [Stage(name, hits)])
    ensures scores'.Keys == scores.Keys + ToSet(DocumentsOf(hits))
  {
    scores' := RecordScores(scores, name, hits);
    ghost var all := stages + [Stage(name, hits)];
    forall s, hit | s in all && hit in s.hits ensures Records(scores', s.name, hit) {
      if s in stages {
        assert Records(scores, s.name, hit) && RecordedAs(scores, hit.document, s.name);
      } else {
        var i :| 0 <= i < |hits| && hits[i] == hit;
      }
    }
    forall d, other | RecordedAs(scores', d, other) ensures ShownBy(all, other, d) {
      if RecordedAs(scores, d, other) {
        assert ShownBy(stages, other, d);
        var s :| s in stages && s.name == other && d in DocumentsOf(s.hits);
        assert s in all;
      } else {
        assert all[|stages|] in all;
      }
    }
  }

  const SPARSE: string := "sparse_score"
  const DENSE: string := "dense_score"
  const FUSED: string := "fused_score"
  const RERANKED: string := "rerank_score"

  lemma StageNamesDiffer()
    ensures Distinct([SPARSE, DENSE, FUSED, RERANKED])
  {
    assert |SPARSE| == 12 && |DENSE| == 11 && |FUSED| == 11 && |RERANKED| == 12;
    assert SPARSE[0] == 's' && RERANKED[0] == 'r' && DENSE[0] == 'd' && FUSED[0] == 'f';
    var names := [SPARSE, DENSE, FUSED, RERANKED];
    assert names[0] != names[1] && names[0] != names[2] && names[0] != names[3];
    assert names[1] != names[2] && names[1] != names[3] && names[2] != names[3];
  }

  function RetrievalStages(variant: Variant, sparseHits: seq<StageHit>, denseHits: seq<StageHit>,
                           first: seq<StageHit>): seq<Stage>
  {
    [Stage(SPARSE, sparseHits), Stage(DENSE, denseHits)]
    + if variant.fusion.Some? then [Stage(FUSED, first)] else []
  }

  /** The list that the retrieval stages of a variant hand to the reranker. */
  ghost predicate IsFirstStage(variant: Variant, sparseHits: seq<StageHit>, denseHits: seq<StageHit>,
                               current: seq<StageHit>)
    requires ValidVariant(variant)
  {
    match variant.fusion
    case Some(f) => IsFusion(current, [sparseHits, denseHits], f.1)
    case None => current == if variant.sparse then sparseHits else denseHits
  }

  /** The rerank stage over an arbitrary document table and scoring model. */
  method Rerank(current: seq<StageHit>, config: RerankConfig, stored: set<DocumentId>,
                reranker: seq<DocumentId> -> seq<real>, recorded: StageScores, ghost stages: seq<Stage>)
    returns (r: Result<seq<StageHit>, SearchError>, recorded': StageScores)
    requires Distinct(DocumentsOf(current)) && RecordsStages(recorded, stages) && NewName(stages, RERANKED)
    ensures var window := Take(current, config.candidates);
            var scores := reranker(DocumentsOf(window));
            && (r.Err? && r.error == MissingDocument <==> !(ToSet(DocumentsOf(window)) <= stored))
            && (r.Err? && r.error == ScoreCountMismatch
                <==> ToSet(DocumentsOf(window)) <= stored && |scores| != |window|)
            && (r.Err? ==> r.error != UnsupportedFusion)
            && (r.Ok? ==> |scores| == |window| && r.value == Promote(current, scores, config))
    ensures r.Ok? ==> multiset(DocumentsOf(r.value)) == multiset(DocumentsOf(current)) && Distinct(DocumentsOf(r.value))
    ensures r.Ok? ==>
              var scores := reranker(DocumentsOf(Take(current, config.candidates)));
              exists places :: IsPromotion(r.value, current, scores, config.keep, places)
    ensures recorded.Keys <= recorded'.Keys
    ensures r.Ok? ==>
              var window := Take(current, config.candidates);
              var reranked := Reranked(window, reranker(DocumentsOf(window)));
              RecordsStages(recorded', stages + [Stage(RERANKED, reranked)])
  {
    recorded' := recorded;
    var window := Take(current, config.candidates);
    if !(ToSet(DocumentsOf(window)) <= stored) { return Err(MissingDocument), recorded; }
    var scores := reranker(DocumentsOf(window));
    if |scores| != |window| { return Err(ScoreCountMismatch), recorded; }
    PromotionIsPermutation(current, scores, config);
    ghost var places := PromotionMeaning(current, scores, config);
    r := Ok(Promote(current, scores, config));
    RerankedDocuments(window, scores);
    assert DocumentsOf(window) == Take(DocumentsOf(current), |window|);
    DistinctByMultiset(DocumentsOf(window), DocumentsOf(Reranked(window, scores)));
    recorded' := RecordStage(recorded, stages, RERANKED, Reranked(window, scores));
  }

  method FirstStage(variant: Variant, sparseHits: seq<StageHit>, denseHits: seq<StageHit>)
    returns (r: Result<seq<StageHit>, SearchError>, recorded: StageScores)
    requires ValidVariant(variant)
    requires Distinct(DocumentsOf(sparseHits)) && Distinct(DocumentsOf(denseHits))
    requires (!variant.sparse ==> sparseHits == []) && (!variant.dense ==> denseHits == [])
    ensures r.Err? <==> variant.fusion.Some? && variant.fusion.value.0 == Weighted
    ensures r.Err? ==> r.error == UnsupportedFusion
    ensures r.Ok? ==> IsFirstStage(variant, sparseHits, denseHits, r.value) && Distinct(DocumentsOf(r.value))
    ensures r.Ok? ==> ToSet(DocumentsOf(r.value)) <= recorded.Keys
    ensures r.Ok? ==> RecordsStages(recorded, RetrievalStages(variant, sparseHits, denseHits, r.value))
  {
    StageNamesDiffer();
    NothingRecorded();
    ghost var sparse, dense := Stage(SPARSE, sparseHits), Stage(DENSE, denseHits);
    recorded := RecordStage(map[], [], SPARSE, sparseHits);
    assert [] + [sparse] == [sparse];
    recorded := RecordStage(recorded, [sparse], DENSE, denseHits);
    assert [sparse] + [dense] == [sparse, dense];
    if variant.fusion.None? {
      r := Ok(if sparseHits != [] then sparseHits else denseHits);
    } else if variant.fusion.value.0 == Weighted {
      r := Err(UnsupportedFusion);
    } else {
      var fused := ReciprocalRankFusion([sparseHits, denseHits], variant.fusion.value.1);
      recorded := RecordStage(recorded, [sparse, dense], FUSED, fused.value);
      r := Ok(fused.value);
    }
  }

  /** Hits of one search after hydration: every hit carries its stage scores. */
  datatype Response = Response(hits: seq<StageHit>, stageScores: StageScores)

  method Hydrate(current: seq<StageHit>, k: nat, stored: set<DocumentId>, recorded: StageScores)
    returns (r: Result<Response, SearchError>)
    requires Distinct(DocumentsOf(current)) && ToSet(DocumentsOf(current)) <= recorded.Keys
    ensures r.Ok? <==> ToSet(DocumentsOf(Take(current, k))) <= stored
    ensures r.Err? ==> r.error == MissingDocument
    ensures r.Ok? ==> r.value == Response(Take(current, k), recorded)
    ensures r.Ok? ==> Distinct(DocumentsOf(r.value.hits)) && |r.value.hits| <= k
    ensures r.Ok? ==> ToSet(DocumentsOf(r.value.hits)) <= recorded.Keys * stored
  {
    var final := Take(current, k);
    assert DocumentsOf(final) == Take(DocumentsOf(current), k);
    r := if ToSet(DocumentsOf(final)) <= stored then Ok(Response(final, recorded)) else Err(MissingDocument);
  }

  predicate Unsupported(variant: Variant) {
    variant.fusion.Some? && variant.fusion.value.0 == Weighted
  }

  /** Every candidate that the reranker is to read is in the document table. */
  predicate WindowStored(variant: Variant, first: seq<StageHit>, stored: set<DocumentId>) {
    variant.rerank.Some? ==> ToSet(DocumentsOf(Take(first, variant.rerank.value.candidates))) <= stored
  }

  /** The reranker returns one score for every candidate. */
  predicate ScoresFit(variant: Variant, first: seq<StageHit>, reranker: seq<DocumentId> -> seq<real>) {
    variant.rerank.Some? ==>
      var window := Take(first, variant.rerank.value.candidates);
      |reranker(DocumentsOf(window))| == |window|
  }

  /** The list that a variant makes of its first ranking. */
  function Ranking(variant: Variant, first: seq<StageHit>, reranker: seq<DocumentId> -> seq<real>): seq<StageHit>
    requires ScoresFit(variant, first, reranker)
  {
    match variant.rerank
    case None => first
    case Some(config) => Promote(first, reranker(DocumentsOf(Take(first, config.candidates))), config)
  }

  /** All stages of the search, with the hits each of them scored. */
  function StagesOf(variant: Variant, sparseHits: seq<StageHit>, denseHits: seq<StageHit>, first: seq<StageHit>,
                    reranker: seq<DocumentId> -> seq<real>): seq<Stage>
    requires ScoresFit(variant, first, reranker)
  {
    RetrievalStages(variant, sparseHits, denseHits, first)
    + match variant.rerank
      case None => []
      case Some(config) =>
        var window := Take(first, config.candidates);
        [Stage(RERANKED, Reranked(window, reranker(DocumentsOf(window))))]
  }

  predicate ResponseStored(variant: Variant, first: seq<StageHit>, stored: set<DocumentId>,
                           reranker: seq<DocumentId> -> seq<real>, k: nat)
    requires ScoresFit(variant, first, reranker)
  {
    ToSet(DocumentsOf(Take(Ranking(variant, first, reranker), k))) <= stored
  }

  /**
   * One search. `stored` is the document table and `reranker` the scoring model; both are arbitrary. Retrieval hits are
   * empty for a stage that the variant does not configure. A variant with a supported fusion succeeds exactly when the
   * candidates and the final hits are stored and the reranker scores all it was given.
   */
  method Search(variant: Variant, sparseHits: seq<StageHit>, denseHits: seq<StageHit>,
                stored: set<DocumentId>, reranker: seq<DocumentId> -> seq<real>, k: nat)
    returns (r: Result<Response, SearchError>, ghost first: seq<StageHit>)
    requires ValidVariant(variant)
    requires Distinct(DocumentsOf(sparseHits)) && Distinct(DocumentsOf(denseHits))
    requires (!variant.sparse ==> sparseHits == []) && (!variant.dense ==> denseHits == [])
    ensures r == Err(UnsupportedFusion) <==> Unsupported(variant)
    ensures !Unsupported(variant) ==> IsFirstStage(variant, sparseHits, denseHits, first)
    ensures Distinct(DocumentsOf(first))
    ensures !Unsupported(variant) ==>
              && (r == Err(ScoreCountMismatch)
                  <==> WindowStored(variant, first, stored) && !ScoresFit(variant, first, reranker))
              && (r == Err(MissingDocument)
                  <==> (!WindowStored(variant, first, stored)
                        || (ScoresFit(variant, first, reranker)
                            && !ResponseStored(variant, first, stored, reranker, k))))
              && (r.Ok? <==> WindowStored(variant, first, stored) && ScoresFit(variant, first, reranker)
                             && ResponseStored(variant, first, stored, reranker, k))
    ensures r.Ok? ==> r.value.hits == Take(Ranking(variant, first, reranker), k)
    ensures r.Ok? && variant.rerank.Some? ==>
              var config := variant.rerank.value;
              var scores := reranker(DocumentsOf(Take(first, config.candidates)));
              exists all, places :: IsPromotion(all, first, scores, config.keep, places) && r.value.hits == Take(all, k)
    ensures r.Ok? ==> Distinct(DocumentsOf(r.value.hits)) && |r.value.hits| <= k
    ensures r.Ok? ==> ToSet(DocumentsOf(r.value.hits)) <= r.value.stageScores.Keys * stored
    ensures r.Ok? ==> RecordsStages(r.value.stageScores, StagesOf(variant, sparseHits, denseHits, first, reranker))
  {
    var stage, recorded := FirstStage(variant, sparseHits, denseHits);
    first := if stage.Ok? then stage.value else [];
    if stage.Err? { return Err(stage.error), first; }
    var current := stage.value;
    ghost var stages := RetrievalStages(variant, sparseHits, denseHits, first);
    if variant.rerank.Some? {
      RerankedIsNew(variant, sparseHits, denseHits, first);
      stage, recorded := Rerank(current, variant.rerank.value, stored, reranker, recorded, stages);
      if stage.Err? { return Err(stage.error), first; }
      current := stage.value;
      SameMembers(DocumentsOf(current), DocumentsOf(first));
    }
    assert stages + [] == stages;
    r := Hydrate(current, k, stored, recorded);
  }

  lemma RerankedIsNew(variant: Variant, sparseHits: seq<StageHit>, denseHits: seq<StageHit>, first: seq<StageHit>)
    ensures NewName(RetrievalStages(variant, sparseHits, denseHits, first), RERANKED)
  {
    StageNamesDiffer();
    var names := [SPARSE, DENSE, FUSED, RERANKED];
    assert names[0] != names[3] && names[1] != names[3] && names[2] != names[3];
  }
}
