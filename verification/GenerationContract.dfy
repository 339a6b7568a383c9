/** Immutable records of the answer pipeline and the validators their constructors run. */
module GenerationContract {
  import opened Prelude

  datatype GenerationOutcome = Answered | Abstained | CitationError | SchemaError | Refusal | ProviderError | Timeout

  /** The outcomes under which a provider produced an answer, rather than failing. */
  predicate Generated(outcome: GenerationOutcome) {
    outcome in {Answered, Abstained, CitationError}
  }

  // ---- Token usage ----

  datatype TokenUsage = TokenUsage(
    inputTokens: nat, outputTokens: nat, cachedInputTokens: nat, cacheWriteInputTokens: nat, costUsd: real)
  {
    predicate Valid() {
      cachedInputTokens + cacheWriteInputTokens <= inputTokens && costUsd >= 0.0
    }
  }

  type Usage = u: TokenUsage | u.Valid() witness TokenUsage(0, 0, 0, 0, 0.0)

  const NO_USAGE: Usage := TokenUsage(0, 0, 0, 0, 0.0)

  // ---- Answers ----

  datatype Passage = Passage(localId: string, documentId: string, retrievalRank: nat)

  predicate IsSpace(c: char) {
    c in {' ', '\t', '\n', '\r'}
  }

  predicate Blank(text: string) {
    forall i :: 0 <= i < |text| ==> IsSpace(text[i])
  }

  /** How a claim is verified, where that is asked for. */
  datatype SciFactLabel = Support | Contradict | NotEnoughInfo

  datatype CitedAnswer = CitedAnswer(
    answer: string, citations: seq<string>, abstained: bool, verificationLabel: Option<SciFactLabel>)
  {
    predicate Valid() {
      1 <= |answer| <= 32_768 && !Blank(answer)
    }
  }

  datatype CitationValidation = CitationValidation(
    valid: bool, unknown: seq<string>, duplicates: seq<string>, missingInline: seq<string>,
    missingRequired: bool, citationsOnAbstention: bool)
  {
    predicate HasErrors() {
      unknown != [] || duplicates != [] || missingInline != [] || missingRequired || citationsOnAbstention
    }

    predicate Valid() {
      valid != HasErrors()
    }
  }

  /** Which model and which prompt produced an output. */
  datatype Provenance = Provenance(provider: string, model: string, configurationHash: string)

  datatype AnswerResponse = AnswerResponse(
    answer: string, citations: seq<string>, abstained: bool, verificationLabel: Option<SciFactLabel>,
    contexts: seq<Passage>, usage: Usage, outcome: GenerationOutcome, provenance: Provenance, promptHash: string,
    cacheHit: bool, validation: Option<CitationValidation>, error: Option<string>)
  {
    predicate Valid() {
      && (error.Some? ==> error.value != "")
      && (validation.Some? ==> validation.value.Valid())
      && if Generated(outcome) then
           && validation.Some? && error.None?
           && CitedAnswer(answer, citations, abstained, verificationLabel).Valid()
           && (outcome.Answered? ==> !abstained && citations != [] && validation.value.valid)
           && (outcome.Abstained? ==> abstained && citations == [] && validation.value.valid)
           && (outcome.CitationError? ==> !validation.value.valid)
         else
           validation.None? && error.Some?
    }
  }
}
