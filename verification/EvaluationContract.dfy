/** Evaluation runs: their life cycle and their immutable specification. */
module EvaluationContract {
  import opened Prelude

  type Variant = string
  type Profile = string
  type Hash = string
  type Fingerprint = string

  // ---- Life cycle ----

  datatype RunState =
    Created | Queued | Preparing | Retrieving | Generating | Judging | Scoring | Completed | Failed | Cancelled
  {
    predicate Terminal() {
      this in {Completed, Failed, Cancelled}
    }

    /** How far along the life cycle a state lies; a run that ends early is past every stage. */
    function Stage(): nat {
      match this
      case Created => 0
      case Queued => 1
      case Preparing => 2
      case Retrieving => 3
      case Generating => 4
      case Judging => 5
      case Scoring => 6
      case Completed => 7
      case Failed => 8
      case Cancelled => 8
    }
  }

  function NextStates(state: RunState): set<RunState> {
    match state
    case Created => {Queued}
    case Queued => {Preparing}
    case Preparing => {Retrieving}
    case Retrieving => {Generating, Scoring}
    case Generating => {Judging, Scoring}
    case Judging => {Scoring}
    case Scoring => {Completed}
    case Completed => {}
    case Failed => {}
    case Cancelled => {}
  }

  predicate TransitionAllowed(current: RunState, target: RunState) {
    || target == current
    || (target in {Failed, Cancelled} && !current.Terminal())
    || target in NextStates(current)
  }

  /** A live run moves to its next stage, or past the stages for answers straight to scoring; it may end at any time. */
  lemma TransitionsExactly(current: RunState, target: RunState)
    ensures TransitionAllowed(current, target)
       <==> || target == current
            || (current.Stage() < 7 && (target == Failed || target == Cancelled))
            || (current.Stage() < 7 && target.Stage() == current.Stage() + 1 && target.Stage() < 8)
            || (target == Scoring && current in [Retrieving, Generating])
  {}

  /** A sequence of states in which every step is one the table allows. */
  predicate Lifetime(states: seq<RunState>) {
    forall i :: 0 <= i < |states| - 1 ==> TransitionAllowed(states[i], states[i + 1])
  }

  lemma {:induction false} StagesNeverGoBack(states: seq<RunState>, i: nat, j: nat)
    requires Lifetime(states) && i <= j < |states|
    ensures states[i].Stage() <= states[j].Stage()
    ensures states[i].Terminal() ==> states[j] == states[i]
    decreases j - i
  {
    if i < j {
      assert TransitionAllowed(states[j - 1], states[j]);
      StagesNeverGoBack(states, i, j - 1);
    }
  }

  /** A run that was created and is now completed has passed through every mandatory stage. */
  lemma {:induction false} CompletionVisitsEveryStage(states: seq<RunState>)
    requires Lifetime(states) && states != [] && states[0] == Created && states[|states| - 1] == Completed
    ensures Queued in states && Preparing in states && Retrieving in states && Scoring in states
  {
    Visited(states, Scoring);
    Visited(states, Retrieving);
    Visited(states, Preparing);
    Visited(states, Queued);
  }

  /** The life cycle cannot jump over a mandatory stage. */
  lemma {:induction false} Visited(states: seq<RunState>, stage: RunState)
    requires stage in {Queued, Preparing, Retrieving, Scoring}
    requires Lifetime(states) && states != [] && states[0] == Created
    requires stage.Stage() <= states[|states| - 1].Stage() <= 7
    ensures stage in states
  {
    var last := |states| - 1;
    if states[last] != stage {
      assert TransitionAllowed(states[last - 1], states[last]);
      assert Lifetime(states[..last]) by {
        forall i | 0 <= i < |states[..last]| - 1 ensures TransitionAllowed(states[..last][i], states[..last][i + 1]) {
          assert TransitionAllowed(states[i], states[i + 1]);
        }
      }
      Visited(states[..last], stage);
      assert states == states[..last] + [states[last]];
    }
  }

  // ---- Specification ----

  datatype EvalRunSpec = EvalRunSpec(
    dataset: string, split: string, variants: seq<Variant>, sampleSize: Option<nat>,
    generationSampleSize: Option<nat>, generationVariants: seq<Variant>, seed: int,
    generationEnabled: bool, generatorProfile: Option<Profile>, judgeProfiles: seq<Profile>,
    generationPromptVersion: Option<string>, judgePromptVersion: Option<string>)
  {
    predicate Valid() {
      && dataset != "" && split != "" && variants != []
      && (sampleSize.Some? ==> sampleSize.value > 0)
      && (generationSampleSize.Some? ==> generationSampleSize.value > 0)
      && Distinct(variants)
      && (generationEnabled ==> generatorProfile.Some? && generationPromptVersion.Some?)
      && Distinct(generationVariants)
      && (forall v <- generationVariants :: v in variants)
      && (!generationEnabled ==>
            && generationSampleSize.None? && generationVariants == [] && generatorProfile.None?
            && judgeProfiles == [] && generationPromptVersion.None? && judgePromptVersion.None?)
      && (judgeProfiles != [] ==> judgePromptVersion.Some?)
    }

    /** The variants answers are generated for: those listed, or all of them when none is. */
    function AnsweredVariants(): seq<Variant> {
      if generationVariants != [] then generationVariants else variants
    }
  }
}
