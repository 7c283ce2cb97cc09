/** AnswerGenerationRequest: the body of POST /api/ai/generate. */
module Requests {
  import opened Wrappers
  import opened Text

  /** Nullable text fields are `Option<string>`; the five switches are plain booleans. */
  datatype AnswerGenerationRequest = AnswerGenerationRequest(
    cvContent: Option<string>,
    applicationType: Option<string>,
    programTopic: Option<string>,
    question: Option<string>,
    questionCategory: Option<string>,
    additionalNotes: Option<string>,
    characterLimit: Option<int>,
    languageLevel: Option<string>,
    useContextCache: bool,
    modelName: Option<string>,
    applicationContent: Option<string>,
    isMotivationLetter: bool,
    useQuestionMode: bool,
    useAdvancedFormMode: bool,
    enableTextTrimmer: bool)

  const IntMax: int := 0x7FFF_FFFF

  /** A request as the model binder starts it: every text field null, every switch off. */
  function EmptyRequest(): (r: AnswerGenerationRequest)
    ensures !r.useContextCache && !r.isMotivationLetter && !r.useQuestionMode
    ensures !r.useAdvancedFormMode && !r.enableTextTrimmer
    ensures r.cvContent.None? && r.question.None? && r.characterLimit.None?
    ensures r.applicationType.None? && r.programTopic.None? && r.questionCategory.None?
    ensures r.additionalNotes.None? && r.languageLevel.None? && r.modelName.None? && r.applicationContent.None?
  {
    AnswerGenerationRequest(None, None, None, None, None, None, None, None,
                            false, None, None, false, false, false, false)
  }

  /** [Required] rejects null and whitespace-only text. */
  predicate Present(s: Option<string>) {
    s.Some? && !IsBlank(s.value)
  }

  /** [Range(1, int.MaxValue)] accepts null and 1..int.MaxValue. */
  predicate LimitInRange(limit: Option<int>) {
    limit.None? || 1 <= limit.value <= IntMax
  }

  predicate IsValid(r: AnswerGenerationRequest) {
    Present(r.cvContent) && Present(r.question) && LimitInRange(r.characterLimit)
  }

  /** The validation messages the data annotations produce, in declaration order. */
  function ValidationErrors(r: AnswerGenerationRequest): (errors: seq<string>)
    ensures errors == [] <==> IsValid(r)
    ensures |errors| <= 3
    ensures "CV Content is required." in errors <==> !Present(r.cvContent)
    ensures "Question is required." in errors <==> !Present(r.question)
    ensures "Character limit must be greater than 0." in errors <==> !LimitInRange(r.characterLimit)
  {
    (if Present(r.cvContent) then [] else ["CV Content is required."]) +
    (if Present(r.question) then [] else ["Question is required."]) +
    (if LimitInRange(r.characterLimit) then [] else ["Character limit must be greater than 0."])
  }
}
