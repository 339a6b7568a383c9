/** The F1 score of claim verification over three labels, counting missing predictions as misses. */
module LabelScores {
  import opened Prelude
  import opened GenerationContract

  const LABELS: seq<SciFactLabel> := [Support, Contradict, NotEnoughInfo]

  type Predictions = seq<Option<SciFactLabel>>

  datatype LabelError = UnequalOrEmpty

  /** How many positions satisfy a condition on the gold label and the predicted one. */
  function Count(gold: seq<SciFactLabel>, predicted: Predictions, holds: (SciFactLabel, Option<SciFactLabel>) -> bool)
    : nat
    requires |gold| == |predicted|
  {
    if gold == [] then 0
    else
      var last := |gold| - 1;
      Count(gold[..last], predicted[..last], holds) + if holds(gold[last], predicted[last]) then 1 else 0
  }

  function TruePositives(gold: seq<SciFactLabel>, predicted: Predictions, kind: SciFactLabel): nat
    requires |gold| == |predicted|
  {
    Count(gold, predicted, (g, p) => g == kind && p == Some(kind))
  }

  function FalsePositives(gold: seq<SciFactLabel>, predicted: Predictions, kind: SciFactLabel): nat
    requires |gold| == |predicted|
  {
    Count(gold, predicted, (g, p) => g != kind && p == Some(kind))
  }

  function FalseNegatives(gold: seq<SciFactLabel>, predicted: Predictions, kind: SciFactLabel): nat
    requires |gold| == |predicted|
  {
    Count(gold, predicted, (g, p) => g == kind && p != Some(kind))
  }

  function F1(truePositives: nat, falsePositives: nat, falseNegatives: nat): real {
    var denominator := 2 * truePositives + falsePositives + falseNegatives;
    if denominator == 0 then 0.0 else (2 * truePositives) as real / denominator as real
  }

  function LabelF1(gold: seq<SciFactLabel>, predicted: Predictions, kind: SciFactLabel): real
    requires |gold| == |predicted|
  {
    F1(TruePositives(gold, predicted, kind), FalsePositives(gold, predicted, kind),
       FalseNegatives(gold, predicted, kind))
  }

  function MacroF1(gold: seq<SciFactLabel>, predicted: Predictions): Result<real, LabelError> {
    if gold == [] || |gold| != |predicted| then Err(UnequalOrEmpty)
    else Ok((LabelF1(gold, predicted, Support) + LabelF1(gold, predicted, Contradict)
             + LabelF1(gold, predicted, NotEnoughInfo)) / |LABELS| as real)
  }

  lemma {:induction false} CountsNothing(gold: seq<SciFactLabel>, predicted: Predictions,
                                         holds: (SciFactLabel, Option<SciFactLabel>) -> bool)
    requires |gold| == |predicted|
    ensures Count(gold, predicted, holds) == 0 <==> forall i :: 0 <= i < |gold| ==> !holds(gold[i], predicted[i])
  {
    if gold != [] {
      var last := |gold| - 1;
      CountsNothing(gold[..last], predicted[..last], holds);
    }
  }

  lemma Fraction(part: nat, whole: nat)
    requires part <= whole && whole > 0
    ensures 0.0 <= part as real / whole as real <= 1.0
    ensures part as real / whole as real == 1.0 <==> part == whole
    ensures part as real / whole as real == 0.0 <==> part == 0
  {
    var ratio := part as real / whole as real;
    assert ratio * whole as real == part as real;
  }

  lemma F1Range(tp: nat, fp: nat, fn: nat)
    ensures 0.0 <= F1(tp, fp, fn) <= 1.0
    ensures F1(tp, fp, fn) == 1.0 <==> tp > 0 && fp == 0 && fn == 0
    ensures F1(tp, fp, fn) == 0.0 <==> tp == 0
  {
    if 2 * tp + fp + fn > 0 { Fraction(2 * tp, 2 * tp + fp + fn); }
  }

  /** A label's score is 1 exactly if it occurs and is predicted where it belongs and nowhere else. */
  lemma LabelF1Meaning(gold: seq<SciFactLabel>, predicted: Predictions, kind: SciFactLabel)
    requires |gold| == |predicted|
    ensures 0.0 <= LabelF1(gold, predicted, kind) <= 1.0
    ensures LabelF1(gold, predicted, kind) == 1.0
       <==> kind in gold && forall i :: 0 <= i < |gold| ==> (gold[i] == kind <==> predicted[i] == Some(kind))
    ensures LabelF1(gold, predicted, kind) == 0.0
       <==> forall i :: 0 <= i < |gold| ==> !(gold[i] == kind && predicted[i] == Some(kind))
  {
    F1Range(TruePositives(gold, predicted, kind), FalsePositives(gold, predicted, kind),
            FalseNegatives(gold, predicted, kind));
    CountsNothing(gold, predicted, (g, p) => g == kind && p == Some(kind));
    CountsNothing(gold, predicted, (g, p) => g != kind && p == Some(kind));
    CountsNothing(gold, predicted, (g, p) => g == kind && p != Some(kind));
  }

  /**
   * The macro score lies in [0, 1], is 1 exactly if every prediction is right and every label occurs, and is 0 exactly
   * if no prediction is right.
   */
  lemma MacroF1Meaning(gold: seq<SciFactLabel>, predicted: Predictions)
    requires gold != [] && |gold| == |predicted|
    ensures 0.0 <= MacroF1(gold, predicted).value <= 1.0
    ensures MacroF1(gold, predicted).value == 1.0
       <==> (forall i :: 0 <= i < |gold| ==> predicted[i] == Some(gold[i])) && forall kind <- LABELS :: kind in gold
    ensures MacroF1(gold, predicted).value == 0.0
       <==> forall i :: 0 <= i < |gold| ==> predicted[i] != Some(gold[i])
  {
    LabelF1Meaning(gold, predicted, Support);
    LabelF1Meaning(gold, predicted, Contradict);
    LabelF1Meaning(gold, predicted, NotEnoughInfo);
    assert LABELS[0] == Support && LABELS[1] == Contradict && LABELS[2] == NotEnoughInfo;
    forall i | 0 <= i < |gold| ensures gold[i] in LABELS {}
  }

  // ---- The score on sets of positions ----

  /** The positions that satisfy a condition on the gold label and the predicted one. */
  ghost function Positions(gold: seq<SciFactLabel>, predicted: Predictions,
                           holds: (SciFactLabel, Option<SciFactLabel>) -> bool): set<int>
    requires |gold| == |predicted|
  {
    set i | 0 <= i < |gold| && holds(gold[i], predicted[i])
  }

  lemma {:induction false} CountsPositions(gold: seq<SciFactLabel>, predicted: Predictions,
                                           holds: (SciFactLabel, Option<SciFactLabel>) -> bool)
    requires |gold| == |predicted|
    ensures Count(gold, predicted, holds) == |Positions(gold, predicted, holds)|
  {
    if gold != [] {
      var last := |gold| - 1;
      CountsPositions(gold[..last], predicted[..last], holds);
      var before := Positions(gold[..last], predicted[..last], holds);
      assert last !in before;
      assert Positions(gold, predicted, holds) == before + if holds(gold[last], predicted[last]) then {last} else {};
    }
  }

  /** Twice the common part of two sets over their sizes. */
  ghost function Overlap(a: set<int>, b: set<int>): real {
    if a + b == {} then 0.0 else (2 * |a * b|) as real / (|a| + |b|) as real
  }

  lemma SplitSizes(a: set<int>, b: set<int>)
    ensures |a| == |a * b| + |a - b| && |b| == |a * b| + |b - a|
    ensures a + b == {} <==> |a| + |b| == 0
  {
    assert a == (a * b) + (a - b) && b == (a * b) + (b - a);
  }

  ghost function Right(gold: seq<SciFactLabel>, kind: SciFactLabel): set<int> {
    set i | 0 <= i < |gold| && gold[i] == kind
  }

  ghost function Claimed(predicted: Predictions, kind: SciFactLabel): set<int> {
    set i | 0 <= i < |predicted| && predicted[i] == Some(kind)
  }

  lemma CommonPositions(gold: seq<SciFactLabel>, predicted: Predictions, kind: SciFactLabel)
    requires |gold| == |predicted|
    ensures TruePositives(gold, predicted, kind) == |Right(gold, kind) * Claimed(predicted, kind)|
  {
    CountsPositions(gold, predicted, (g, p) => g == kind && p == Some(kind));
    assert Positions(gold, predicted, (g, p) => g == kind && p == Some(kind))
        == Right(gold, kind) * Claimed(predicted, kind);
  }

  lemma WronglyClaimed(gold: seq<SciFactLabel>, predicted: Predictions, kind: SciFactLabel)
    requires |gold| == |predicted|
    ensures FalsePositives(gold, predicted, kind) == |Claimed(predicted, kind) - Right(gold, kind)|
  {
    CountsPositions(gold, predicted, (g, p) => g != kind && p == Some(kind));
    assert Positions(gold, predicted, (g, p) => g != kind && p == Some(kind))
        == Claimed(predicted, kind) - Right(gold, kind);
  }

  lemma Missed(gold: seq<SciFactLabel>, predicted: Predictions, kind: SciFactLabel)
    requires |gold| == |predicted|
    ensures FalseNegatives(gold, predicted, kind) == |Right(gold, kind) - Claimed(predicted, kind)|
  {
    CountsPositions(gold, predicted, (g, p) => g == kind && p != Some(kind));
    assert Positions(gold, predicted, (g, p) => g == kind && p != Some(kind))
        == Right(gold, kind) - Claimed(predicted, kind);
  }

  /**
   * The macro score is the mean, over all three labels, of twice the number of positions where the label is both right
   * and claimed over the number where it is right plus the number where it is claimed.
   */
  lemma MacroF1IsMeanOverlap(gold: seq<SciFactLabel>, predicted: Predictions)
    requires gold != [] && |gold| == |predicted|
    ensures MacroF1(gold, predicted)
         == Ok((Overlap(Right(gold, Support), Claimed(predicted, Support))
                + Overlap(Right(gold, Contradict), Claimed(predicted, Contradict))
                + Overlap(Right(gold, NotEnoughInfo), Claimed(predicted, NotEnoughInfo))) / 3.0)
  {
    LabelF1IsOverlap(gold, predicted, Support);
    LabelF1IsOverlap(gold, predicted, Contradict);
    LabelF1IsOverlap(gold, predicted, NotEnoughInfo);
  }

  lemma LabelF1IsOverlap(gold: seq<SciFactLabel>, predicted: Predictions, kind: SciFactLabel)
    requires |gold| == |predicted|
    ensures LabelF1(gold, predicted, kind) == Overlap(Right(gold, kind), Claimed(predicted, kind))
  {
    CommonPositions(gold, predicted, kind);
    WronglyClaimed(gold, predicted, kind);
    Missed(gold, predicted, kind);
    SplitSizes(Right(gold, kind), Claimed(predicted, kind));
  }
}
