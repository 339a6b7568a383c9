/** Citation checks and the classification of one generated answer. */
module Answering {
  import opened Prelude
  import opened GenerationContract
  import opened GenerationCaching

  // ---- Repeated values ----

  /** The values that occur more than once, in the order in which their second occurrence comes. */
  function Repeats(values: seq<string>): seq<string> {
    if values == [] then []
    else
      var last, rest := values[|values| - 1], values[..|values| - 1];
      if last in rest && last !in Repeats(rest) then Repeats(rest) + [last] else Repeats(rest)
  }

  method Duplicates(values: seq<string>) returns (duplicates: seq<string>)
    ensures duplicates == Repeats(values)
  {
    var seen: set<string> := {};
    duplicates := [];
    for i := 0 to |values|
      invariant seen == ToSet(values[..i])
      invariant duplicates == Repeats(values[..i])
    {
      assert values[..i + 1][..i] == values[..i];
      assert values[..i + 1] == values[..i] + [values[i]];
      if values[i] in seen && values[i] !in duplicates { duplicates := duplicates + [values[i]]; }
      seen := seen + {values[i]};
    }
    assert values[..|values|] == values;
  }

  /** Exactly the values with two or more occurrences, each once. */
  lemma {:induction false} RepeatsMeaning(values: seq<string>)
    ensures Distinct(Repeats(values))
    ensures forall v :: v in Repeats(values) <==> multiset(values)[v] >= 2
  {
    if values != [] {
      var last, rest := values[|values| - 1], values[..|values| - 1];
      RepeatsMeaning(rest);
      assert values == rest + [last];
      assert multiset(values) == multiset(rest) + multiset{last};
      assert last in rest <==> multiset(rest)[last] >= 1;
    }
  }

  lemma EmptyByMembers(values: seq<string>)
    ensures values == [] <==> forall v :: v !in values
  {
    if values != [] { assert values[0] in values; }
  }

  lemma NoRepeats(values: seq<string>)
    ensures Repeats(values) == [] <==> Distinct(values)
  {
    RepeatsMeaning(values);
    EmptyByMembers(Repeats(values));
    if Distinct(values) {
      forall v ensures v !in Repeats(values) {
        OccursOnce(values, v);
      }
    } else {
      var i, j :| 0 <= i < j < |values| && values[i] == values[j];
      TwiceCounted(values, i, j);
    }
  }

  lemma TwiceCounted(values: seq<string>, i: nat, j: nat)
    requires i < j < |values| && values[i] == values[j]
    ensures multiset(values)[values[i]] >= 2
  {
    assert values == values[..j] + [values[j]] + values[j + 1..];
    assert values[i] in values[..j];
  }

  /** The values that satisfy nothing more than being different from all before them. */
  function FirstOccurrences(values: seq<string>): seq<string> {
    if values == [] then []
    else
      var last, rest := values[|values| - 1], FirstOccurrences(values[..|values| - 1]);
      if last in rest then rest else rest + [last]
  }

  lemma {:induction false} FirstOccurrencesMeaning(values: seq<string>)
    ensures Distinct(FirstOccurrences(values)) && ToSet(FirstOccurrences(values)) == ToSet(values)
  {
    if values != [] {
      var init, last := values[..|values| - 1], values[|values| - 1];
      var rest := FirstOccurrences(init);
      FirstOccurrencesMeaning(init);
      DistinctAppend(init, [last]);
      DistinctAppend(rest, [last]);
      assert values == init + [last];
      assert ToSet([last]) == {last};
      assert ToSet(rest) !! {last} <==> last !in rest;
    }
  }

  /** Which position holds the first occurrence of a value. */
  predicate FirstAt(values: seq<string>, i: int, v: string) {
    0 <= i < |values| && values[i] == v && v !in values[..i]
  }

  /** The members of a list come in the order of their first occurrences in another. */
  ghost predicate InFirstOrder(r: seq<string>, values: seq<string>) {
    forall k, l, i, j :: 0 <= k < l < |r| && FirstAt(values, i, r[k]) && FirstAt(values, j, r[l]) ==> i < j
  }

  lemma FirstStays(values: seq<string>, i: int, v: string)
    requires values != [] && FirstAt(values, i, v)
    ensures FirstAt(values[..|values| - 1], i, v) || (i == |values| - 1 && v !in values[..i])
  {
    if i < |values| - 1 { assert values[..|values| - 1][..i] == values[..i]; }
  }

  function Select(values: seq<string>, keep: string -> bool): seq<string> {
    if values == [] then []
    else Select(values[..|values| - 1], keep) + (if keep(values[|values| - 1]) then [values[|values| - 1]] else [])
  }

  lemma {:induction false} SelectMeaning(values: seq<string>, keep: string -> bool)
    ensures forall v :: v in Select(values, keep) <==> v in values && keep(v)
  {
    if values != [] {
      SelectMeaning(values[..|values| - 1], keep);
      assert values == values[..|values| - 1] + [values[|values| - 1]];
    }
  }

  /** What is kept of a list, each value once, comes in the order of the list. */
  lemma {:induction false} KeptInOrder(values: seq<string>, keep: string -> bool)
    ensures InFirstOrder(FirstOccurrences(Select(values, keep)), values)
  {
    if values != [] {
      var last, init := values[|values| - 1], values[..|values| - 1];
      var before, after := FirstOccurrences(Select(init, keep)), FirstOccurrences(Select(values, keep));
      KeptInOrder(init, keep);
      KeptMembers(init, keep);
      assert Select(init, keep) + [] == Select(init, keep);
      assert after == before || after == before + [last];
      forall k, l, i, j | 0 <= k < l < |after| && FirstAt(values, i, after[k]) && FirstAt(values, j, after[l])
        ensures i < j
      {
        FirstStays(values, i, after[k]);
        FirstStays(values, j, after[l]);
        assert before[k] in init;
        if l < |before| { assert before[l] in init; } else { assert last !in init; }
      }
    }
  }

  lemma KeptMembers(values: seq<string>, keep: string -> bool)
    ensures forall v :: v in FirstOccurrences(Select(values, keep)) <==> v in values && keep(v)
  {
    SelectMeaning(values, keep);
    FirstOccurrencesMeaning(Select(values, keep));
    assert forall v :: v in FirstOccurrences(Select(values, keep))
                       <==> v in ToSet(FirstOccurrences(Select(values, keep)));
  }

  // ---- Citations ----

  predicate OccursAt(part: string, text: string, i: nat) {
    i + |part| <= |text| && text[i..i + |part|] == part
  }

  predicate OccursIn(part: string, text: string) {
    exists i: nat :: i <= |text| && OccursAt(part, text, i)
  }

  /** Something occurs in a text that can be cut into a part before it, itself, and a part after it. */
  lemma OccursInMeaning(part: string, text: string)
    ensures OccursIn(part, text) <==> exists before, after :: text == before + part + after
  {
    if OccursIn(part, text) {
      var i: nat :| i <= |text| && OccursAt(part, text, i);
      assert text == text[..i] + part + text[i + |part|..];
    }
    if before, after :| text == before + part + after { assert OccursAt(part, text, |before|); }
  }

  function LocalIds(contexts: seq<Passage>): (r: seq<string>)
    ensures |r| == |contexts| && forall i :: 0 <= i < |r| ==> r[i] == contexts[i].localId
  {
    seq(|contexts|, i requires 0 <= i < |contexts| => contexts[i].localId)
  }

  datatype AnswerError = AmbiguousContexts | ForeignProvenance | Unhandled

  function ValidateCitations(answer: CitedAnswer, contexts: seq<Passage>): Result<CitationValidation, AnswerError> {
    var known := LocalIds(contexts);
    if Repeats(known) != [] then Err(AmbiguousContexts)
    else
      var unknown := FirstOccurrences(Select(answer.citations, c => c !in known));
      var duplicates := Repeats(answer.citations);
      var missingInline := FirstOccurrences(Select(answer.citations, c => !OccursIn(c, answer.answer)));
      var missingRequired := !answer.abstained && answer.citations == [];
      var onAbstention := answer.abstained && answer.citations != [];
      var valid := !(unknown != [] || duplicates != [] || missingInline != [] || missingRequired || onAbstention);
      Ok(CitationValidation(valid, unknown, duplicates, missingInline, missingRequired, onAbstention))
  }

  /** What the validity of a report means for the answer and its contexts. */
  predicate WellCited(answer: CitedAnswer, contexts: seq<Passage>) {
    && (forall c <- answer.citations :: c in LocalIds(contexts) && OccursIn(c, answer.answer))
    && Distinct(answer.citations)
    && (answer.abstained <==> answer.citations == [])
  }

  lemma SelectionEmpty(values: seq<string>, keep: string -> bool)
    ensures FirstOccurrences(Select(values, keep)) == [] <==> forall v <- values :: !keep(v)
  {
    SelectMeaning(values, keep);
    FirstOccurrencesMeaning(Select(values, keep));
    EmptyByMembers(FirstOccurrences(Select(values, keep)));
    assert forall v :: v in FirstOccurrences(Select(values, keep)) <==> v in ToSet(Select(values, keep));
  }

  /**
   * The check fails only on ambiguous contexts. Otherwise the report agrees with itself, is valid exactly for
   * well-cited answers, and names exactly the unknown, repeated and unquoted citations.
   */
  lemma ValidationMeaning(answer: CitedAnswer, contexts: seq<Passage>)
    ensures ValidateCitations(answer, contexts).Ok? <==> Distinct(LocalIds(contexts))
    ensures ValidateCitations(answer, contexts).Ok? ==>
              var v := ValidateCitations(answer, contexts).value;
              && v.Valid() && (v.valid <==> WellCited(answer, contexts))
              && ToSet(v.unknown) == (set c <- answer.citations | c !in LocalIds(contexts))
              && ToSet(v.missingInline) == (set c <- answer.citations | !OccursIn(c, answer.answer))
              && ToSet(v.duplicates) == (set c <- answer.citations | multiset(answer.citations)[c] >= 2)
              && InFirstOrder(v.unknown, answer.citations) && InFirstOrder(v.missingInline, answer.citations)
              && Distinct(v.unknown) && Distinct(v.missingInline) && Distinct(v.duplicates)
              && (v.missingRequired <==> !answer.abstained && answer.citations == [])
              && (v.citationsOnAbstention <==> answer.abstained && answer.citations != [])
  {
    NoRepeats(LocalIds(contexts));
    if Distinct(LocalIds(contexts)) {
      UnknownMeaning(answer, contexts);
      InlineMeaning(answer);
      NoRepeats(answer.citations);
      RepeatsMeaning(answer.citations);
      assert forall c :: multiset(answer.citations)[c] >= 2 ==> c in answer.citations;
    }
  }

  lemma UnknownMeaning(answer: CitedAnswer, contexts: seq<Passage>)
    ensures var unknown := FirstOccurrences(Select(answer.citations, c => c !in LocalIds(contexts)));
            && ToSet(unknown) == (set c <- answer.citations | c !in LocalIds(contexts))
            && (unknown == [] <==> forall c <- answer.citations :: c in LocalIds(contexts))
            && Distinct(unknown) && InFirstOrder(unknown, answer.citations)
  {
    var keep := c => c !in LocalIds(contexts);
    SelectMeaning(answer.citations, keep);
    FirstOccurrencesMeaning(Select(answer.citations, keep));
    SelectionEmpty(answer.citations, keep);
    KeptInOrder(answer.citations, keep);
  }

  lemma InlineMeaning(answer: CitedAnswer)
    ensures var missing := FirstOccurrences(Select(answer.citations, c => !OccursIn(c, answer.answer)));
            && ToSet(missing) == (set c <- answer.citations | !OccursIn(c, answer.answer))
            && (missing == [] <==> forall c <- answer.citations :: OccursIn(c, answer.answer))
            && Distinct(missing) && InFirstOrder(missing, answer.citations)
  {
    var keep := c => !OccursIn(c, answer.answer);
    SelectMeaning(answer.citations, keep);
    FirstOccurrencesMeaning(Select(answer.citations, keep));
    SelectionEmpty(answer.citations, keep);
    KeptInOrder(answer.citations, keep);
  }

  // ---- One answer ----

  predicate PassageLe(a: Passage, b: Passage) {
    a.retrievalRank < b.retrievalRank || (a.retrievalRank == b.retrievalRank && StringLe(a.localId, b.localId))
  }

  /** What the constructors of results and failures have already checked. */
  predicate WellFormedReply(reply: Reply) {
    match reply
    case Generated(result) => result.output.Valid()
    case Failed(failure) => !Blank(failure.message) && !GenerationContract.Generated(failure.outcome)
    case Broken => true
  }

  function Classify(output: CitedAnswer, validation: CitationValidation): GenerationOutcome {
    if !validation.valid then CitationError
    else if output.abstained then Abstained
    else Answered
  }

  function Answer(own: Provenance, reply: Reply, contexts: seq<Passage>, promptHash: string)
    : Result<AnswerResponse, AnswerError>
  {
    var ordered := Sort(contexts, PassageLe);
    match reply
    case Broken => Err(Unhandled)
    case Failed(failure) =>
      Ok(AnswerResponse("", [], false, None, ordered, failure.usage, failure.outcome, own, promptHash, false, None,
                        Some(failure.message)))
    case Generated(result) =>
      if result.provenance != own then Err(ForeignProvenance)
      else
        var validation := ValidateCitations(result.output, ordered);
        if validation.Err? then Err(validation.error)
        else
          Ok(AnswerResponse(result.output.answer, result.output.citations, result.output.abstained,
                            result.output.verificationLabel, ordered, result.usage,
                            Classify(result.output, validation.value), result.provenance, promptHash, result.cacheHit,
                            Some(validation.value), None))
  }

  lemma BlankIsSpace(message: string)
    requires !Blank(message)
    ensures message != ""
  {}

  lemma ClassificationIsConsistent(output: CitedAnswer, contexts: seq<Passage>)
    requires output.Valid() && ValidateCitations(output, contexts).Ok?
    ensures var v := ValidateCitations(output, contexts).value;
            && v.Valid()
            && (Classify(output, v) == Answered ==> !output.abstained && output.citations != [] && v.valid)
            && (Classify(output, v) == Abstained ==> output.abstained && output.citations == [] && v.valid)
            && (Classify(output, v) == CitationError <==> !WellCited(output, contexts))
  {
    ValidationMeaning(output, contexts);
  }

  /** Whatever a provider returns, the response that is built from it passes its own validator. */
  lemma ResponsesAreValid(own: Provenance, reply: Reply, contexts: seq<Passage>, promptHash: string)
    requires WellFormedReply(reply) && Answer(own, reply, contexts, promptHash).Ok?
    ensures Answer(own, reply, contexts, promptHash).value.Valid()
    ensures Answer(own, reply, contexts, promptHash).value.usage == UsageOf(reply)
  {
    if reply.Generated? {
      ClassificationIsConsistent(reply.result.output, Sort(contexts, PassageLe));
    } else {
      BlankIsSpace(reply.failure.message);
    }
  }

  lemma SortedIds(contexts: seq<Passage>)
    ensures multiset(LocalIds(Sort(contexts, PassageLe))) == multiset(LocalIds(contexts))
    ensures Distinct(LocalIds(Sort(contexts, PassageLe))) <==> Distinct(LocalIds(contexts))
  {
    var localId := (p: Passage) => p.localId;
    SortMembers(contexts, PassageLe);
    MappedMultiset(Sort(contexts, PassageLe), contexts, localId);
    assert Mapped(Sort(contexts, PassageLe), localId) == LocalIds(Sort(contexts, PassageLe));
    assert Mapped(contexts, localId) == LocalIds(contexts);
    if Distinct(LocalIds(contexts)) {
      DistinctByMultiset(LocalIds(contexts), LocalIds(Sort(contexts, PassageLe)));
    }
    if Distinct(LocalIds(Sort(contexts, PassageLe))) {
      DistinctByMultiset(LocalIds(Sort(contexts, PassageLe)), LocalIds(contexts));
    }
  }

  /**
   * Answering raises only for an unexpected exception, a result of another model, or contexts that share an
   * identifier; and the last only when a result was generated at all.
   */
  lemma WhenAnsweringRaises(own: Provenance, reply: Reply, contexts: seq<Passage>, promptHash: string)
    ensures Answer(own, reply, contexts, promptHash).Err? <==>
              || reply.Broken?
              || (reply.Generated? && (reply.result.provenance != own || !Distinct(LocalIds(contexts))))
  {
    SortedIds(contexts);
    NoRepeats(LocalIds(Sort(contexts, PassageLe)));
  }

  lemma PassageOrder()
    ensures TotalPreorder(PassageLe)
  {
    StringOrder();
  }

  /** The contexts of a response: the given ones, by rank and then by identifier. */
  predicate ArrangedContexts(arranged: seq<Passage>, contexts: seq<Passage>) {
    && multiset(arranged) == multiset(contexts)
    && forall i, j :: 0 <= i < j < |arranged| ==>
         var a, b := arranged[i], arranged[j];
         a.retrievalRank < b.retrievalRank || (a.retrievalRank == b.retrievalRank && StringLe(a.localId, b.localId))
  }

  /** A generated answer is passed on as it is, judged by its citations of the contexts it was given. */
  lemma AnswersArePassedOn(own: Provenance, result: GenerationResult, contexts: seq<Passage>, promptHash: string)
    requires Answer(own, Reply.Generated(result), contexts, promptHash).Ok?
    ensures var r := Answer(own, Reply.Generated(result), contexts, promptHash).value;
            && CitedAnswer(r.answer, r.citations, r.abstained, r.verificationLabel) == result.output
            && ArrangedContexts(r.contexts, contexts) && r.usage == result.usage && r.cacheHit == result.cacheHit
            && r.provenance == own == result.provenance && r.promptHash == promptHash && r.error.None?
            && (r.outcome == CitationError <==> !WellCited(result.output, r.contexts))
            && (r.outcome == Abstained <==> WellCited(result.output, r.contexts) && result.output.abstained)
            && (r.outcome == Answered <==> WellCited(result.output, r.contexts) && !result.output.abstained)
  {
    PassageOrder();
    SortSorts(contexts, PassageLe);
    ValidationMeaning(result.output, Sort(contexts, PassageLe));
  }

  /** A failure becomes an empty response that names it. */
  lemma FailuresAreNamed(own: Provenance, failure: Failure, contexts: seq<Passage>, promptHash: string)
    ensures Answer(own, Failed(failure), contexts, promptHash).Ok?
    ensures var r := Answer(own, Failed(failure), contexts, promptHash).value;
            && CitedAnswer(r.answer, r.citations, r.abstained, r.verificationLabel) == CitedAnswer("", [], false, None)
            && ArrangedContexts(r.contexts, contexts) && r.usage == failure.usage && !r.cacheHit
            && r.provenance == own && r.promptHash == promptHash && r.outcome == failure.outcome
            && r.error == Some(failure.message) && r.validation.None?
  {
    PassageOrder();
    SortSorts(contexts, PassageLe);
  }

  /** The outcome that is chosen is the only one the validator accepts for the response. */
  lemma OutcomeIsDetermined(own: Provenance, result: GenerationResult, contexts: seq<Passage>, promptHash: string,
                            other: GenerationOutcome)
    requires result.output.Valid() && Answer(own, Reply.Generated(result), contexts, promptHash).Ok?
    ensures var r := Answer(own, Reply.Generated(result), contexts, promptHash).value;
            r.(outcome := other).Valid() <==> other == r.outcome
  {
    ClassificationIsConsistent(result.output, Sort(contexts, PassageLe));
  }

  /** A response that names an error fits every outcome of a failure and no other. */
  lemma FailureOutcomesFit(own: Provenance, failure: Failure, contexts: seq<Passage>, promptHash: string,
                           other: GenerationOutcome)
    requires failure.message != ""
    ensures Answer(own, Failed(failure), contexts, promptHash).value.(outcome := other).Valid()
       <==> other in {SchemaError, Refusal, ProviderError, Timeout}
  {}
}
