/** AIController.Generate (POST /api/ai/generate): the payload and validation guards, the null
    defaults, the text trimmer, the model alias and the last-used model, the choice of the
    questions, and the three answering paths (one call per question over a reduced context,
    one batch call, or one single call with the persona guard and the server-side split).

    The controller's injected services are the fields of a `Services` value; the application
    registers the ones the other modules define (`Registered`). The AI backend behind them is
    the oracle of module Backend: every call is recorded and every reply comes from the
    script. */
module AIController {
  import opened Wrappers
  import opened Text
  import opened Backend
  import opened Requests
  import opened ProviderConfig
  import Collections
  import PromptBuilder
  import PromptTemplates
  import AnswerParsing
  import AIService
  import Smart = SmartContextReducerService
  import ResponseFormatter
  import DynamicAIProvider

  /** Request bodies above this many bytes are refused before anything else. */
  const MaxContentLength: int := 20480
  const TooLargeMessage := "Input too large. Please reduce content."
  /** The retired Groq model name the controller renames. */
  const DeprecatedGroqModel := "llama3-8b-8192"
  /** Application text longer than this is cleaned before question extraction. */
  const ExtractionCap: nat := 10000
  /** The strict extraction instructions (prose abbreviated; first and last lines as written).
      This text and the reminder below are written with their first character apart, so that
      the verifier sees at once that they start with a visible character (HeadNotBlank). */
  const ExtractionInstructions := "E" + "xtract ONLY explicit application form questions.\n\n...\n\nReturn questions as a numbered list only.\n\nTEXT TO EXTRACT FROM:\n"
  const ReminderPrefix := "R" + "eminder: You are the applicant. Answer as a human applicant. "
  const GlobalContextLabel := "Global Context"
  const QuestionPrefix := "Question "

  /** The services the controller calls: the prompt builder's trimmers, question cleaner,
      project cleaner and two prompt builders, the AI service's two generation calls, and the
      smart context reducer's per-question reduction. */
  datatype Services = Services(
    trimCV: string -> string,
    trimProject: string -> string,
    extractCleanQuestions: string -> seq<string>,
    cleanProjectInfo: string -> string,
    buildPrompt: AnswerGenerationRequest -> string,
    buildBatchPrompt: (AnswerGenerationRequest, seq<string>) -> string,
    generate: (string, Option<string>, Script) -> Traced<Outcome<string>>,
    generateWithContext: (string, string, bool, Option<string>, Script) -> Traced<Outcome<string>>,
    reduceForQuestion: (string, string, Script) -> Traced<string>)

  /** The services the application registers: each is what the corresponding method of the
      other modules is proved to compute. */
  function Registered(): Services {
    Services(PromptBuilder.TrimCV, PromptBuilder.TrimProject, PromptBuilder.CleanQuestions,
             PromptBuilder.CleanedProjectInfo, PromptTemplates.PromptFor, PromptTemplates.BatchPrompt,
             AIService.Generate, AIService.GenerateWithContext, Smart.ReduceForSpecificQuestion)
  }

  /** One entry of the `answers` list. */
  datatype AnswerItem = AnswerItem(question: string, answer: string)

  /** One entry of `debug.trimmedContexts`. */
  datatype DebugContext = DebugContext(index: nat, question: string, trimmedContext: string)

  /** trimmedCv, trimmedProject and trimmedForm: null unless the text trimmer produced them. */
  datatype TrimmedTexts = TrimmedTexts(cv: Option<string>, project: Option<string>, form: Option<string>)

  /** The action results: the two 400 replies, the 200 body, and the 500 carrying the message of
      the exception that escaped. */
  datatype GenerateResult =
    | TooLarge(error: string)
    | InvalidModel(errors: seq<string>)
    | Answers(answers: seq<AnswerItem>, trimmed: TrimmedTexts, debug: Option<seq<DebugContext>>)
    | ServerError(error: string)

  // ---- preparing the request

  /** The defensive null checks: CV, application text, notes and question default to "". */
  function WithDefaults(r: AnswerGenerationRequest): AnswerGenerationRequest {
    r.(cvContent := Some(r.cvContent.GetOr("")), applicationContent := Some(r.applicationContent.GetOr("")),
       additionalNotes := Some(r.additionalNotes.GetOr("")), question := Some(r.question.GetOr("")))
  }

  /** The trimmer's first step: a non-empty CV is cut down, and reported. */
  function CvStep(svc: Services, r: AnswerGenerationRequest): (AnswerGenerationRequest, Option<string>) {
    var cv := r.cvContent.GetOr("");
    if cv != "" then (r.(cvContent := Some(svc.trimCV(cv))), Some(svc.trimCV(cv))) else (r, None)
  }

  /** The second step: non-empty project text is cleaned and cut down, and reported. */
  function ProjectStep(svc: Services, r: AnswerGenerationRequest): (AnswerGenerationRequest, Option<string>) {
    var app := r.applicationContent.GetOr("");
    if app != "" then (r.(applicationContent := Some(svc.trimProject(app))), Some(svc.trimProject(app)))
    else (r, None)
  }

  /** The third step: the clean questions of the question field are joined for display, and a
      single one replaces the question. */
  function FormStep(svc: Services, r: AnswerGenerationRequest): (AnswerGenerationRequest, Option<string>) {
    var clean := svc.extractCleanQuestions(r.question.GetOr(""));
    if |clean| == 0 then (r, None)
    else if |clean| == 1 then (r.(question := Some(clean[0])), Some(Join(clean, "\n\n")))
    else (r, Some(Join(clean, "\n\n")))
  }

  /** The text trimmer, when it is switched on; off, it changes nothing. */
  function Trimming(svc: Services, r: AnswerGenerationRequest): (AnswerGenerationRequest, TrimmedTexts) {
    if !r.enableTextTrimmer then (r, TrimmedTexts(None, None, None))
    else
      var c := CvStep(svc, r);
      var p := ProjectStep(svc, c.0);
      var f := FormStep(svc, p.0);
      (f.0, TrimmedTexts(c.1, p.1, f.1))
  }

  /** The model alias: only the exact retired name is renamed, to the instant model. */
  function AliasedModel(m: Option<string>): (r: Option<string>)
    ensures r != Some(DeprecatedGroqModel)
    ensures m != Some(DeprecatedGroqModel) ==> r == m
    ensures m == Some(DeprecatedGroqModel) ==> r == Some(DynamicAIProvider.InstantGroqModel)
  {
    if m == Some(DeprecatedGroqModel) then Some(DynamicAIProvider.InstantGroqModel) else m
  }

  /** The request the rest of the action works on, and the trimmed texts it reports. */
  function Prepared(svc: Services, request: AnswerGenerationRequest): (AnswerGenerationRequest, TrimmedTexts) {
    var t := Trimming(svc, WithDefaults(request));
    (t.0.(modelName := AliasedModel(t.0.modelName)), t.1)
  }

  /** The null checks, the trimmer and the alias, step by step. */
  method PrepareRequest(svc: Services, request: AnswerGenerationRequest) returns (r: AnswerGenerationRequest, trimmed: TrimmedTexts)
    ensures (r, trimmed) == Prepared(svc, request)
  {
    r := WithDefaults(request);
    var trimmedCv: Option<string> := None;
    var trimmedProject: Option<string> := None;
    var trimmedForm: Option<string> := None;
    ghost var start := r;
    if r.enableTextTrimmer {
      if r.cvContent.value != "" {
        r := r.(cvContent := Some(svc.trimCV(r.cvContent.value)));
        trimmedCv := r.cvContent;
      }
      assert (r, trimmedCv) == CvStep(svc, start);
      ghost var afterCv := r;
      if r.applicationContent.value != "" {
        r := r.(applicationContent := Some(svc.trimProject(r.applicationContent.value)));
        trimmedProject := r.applicationContent;
      }
      assert (r, trimmedProject) == ProjectStep(svc, afterCv);
      ghost var afterProject := r;
      var cleanQuestions := svc.extractCleanQuestions(r.question.value);
      if |cleanQuestions| > 0 {
        trimmedForm := Some(Join(cleanQuestions, "\n\n"));
        if |cleanQuestions| == 1 {
          r := r.(question := Some(cleanQuestions[0]));
        }
      }
      assert (r, trimmedForm) == FormStep(svc, afterProject);
    }
    assert (r, TrimmedTexts(trimmedCv, trimmedProject, trimmedForm)) == Trimming(svc, start);
    r := r.(modelName := AliasedModel(r.modelName));
    trimmed := TrimmedTexts(trimmedCv, trimmedProject, trimmedForm);
  }

  /** The settings the trimmer leaves alone. */
  predicate SameSettings(a: AnswerGenerationRequest, b: AnswerGenerationRequest) {
    a.modelName == b.modelName && a.additionalNotes == b.additionalNotes &&
    a.enableTextTrimmer == b.enableTextTrimmer && a.useQuestionMode == b.useQuestionMode &&
    a.isMotivationLetter == b.isMotivationLetter && a.useContextCache == b.useContextCache &&
    a.characterLimit == b.characterLimit
  }

  lemma CvStepKeeps(svc: Services, r: AnswerGenerationRequest)
    ensures SameSettings(CvStep(svc, r).0, r)
  {
  }

  lemma ProjectStepKeeps(svc: Services, r: AnswerGenerationRequest)
    ensures SameSettings(ProjectStep(svc, r).0, r)
  {
  }

  lemma FormStepKeeps(svc: Services, r: AnswerGenerationRequest)
    ensures SameSettings(FormStep(svc, r).0, r)
  {
  }

  /** The trimmer touches only the CV, the application text and the question. */
  lemma TrimmingKeeps(svc: Services, r: AnswerGenerationRequest)
    ensures SameSettings(Trimming(svc, r).0, r)
  {
    if r.enableTextTrimmer {
      var c := CvStep(svc, r);
      var p := ProjectStep(svc, c.0);
      CvStepKeeps(svc, r);
      ProjectStepKeeps(svc, c.0);
      FormStepKeeps(svc, p.0);
    }
  }

  /** Preparing only aliases the model (so the retired name never survives), keeps the switches,
      the limit and the notes (null read as ""), and reports nothing when the trimmer is off. */
  lemma PreparedKeeps(svc: Services, request: AnswerGenerationRequest)
    ensures var (r, t) := Prepared(svc, request);
      r.modelName == AliasedModel(request.modelName) &&
      r.additionalNotes == Some(request.additionalNotes.GetOr("")) &&
      r.enableTextTrimmer == request.enableTextTrimmer && r.useQuestionMode == request.useQuestionMode &&
      r.isMotivationLetter == request.isMotivationLetter && r.useContextCache == request.useContextCache &&
      r.characterLimit == request.characterLimit
    ensures var (r, t) := Prepared(svc, request);
      !request.enableTextTrimmer ==>
        t == TrimmedTexts(None, None, None) &&
        r.cvContent == Some(request.cvContent.GetOr("")) &&
        r.applicationContent == Some(request.applicationContent.GetOr("")) &&
        r.question == Some(request.question.GetOr(""))
  {
    TrimmingKeeps(svc, WithDefaults(request));
  }

  /** With the trimmer on, a CV and project text that were given are replaced by their trimmed
      forms and reported as such; empty ones are kept and not reported. */
  lemma PreparedTrims(svc: Services, request: AnswerGenerationRequest)
    requires request.enableTextTrimmer
    ensures var (r, t) := Prepared(svc, request);
      var cv := request.cvContent.GetOr("");
      var app := request.applicationContent.GetOr("");
      (cv != "" ==> r.cvContent == Some(svc.trimCV(cv)) && t.cv == r.cvContent) &&
      (cv == "" ==> t.cv == None && r.cvContent == Some("")) &&
      (app != "" ==> r.applicationContent == Some(svc.trimProject(app)) && t.project == r.applicationContent) &&
      (app == "" ==> t.project == None && r.applicationContent == Some(""))
  {
  }

  /** With the trimmer on, a question field holding exactly one clean question is replaced by
      it, and the form is reported exactly when clean questions were found. */
  lemma PreparedForm(svc: Services, request: AnswerGenerationRequest)
    requires request.enableTextTrimmer
    ensures var (r, t) := Prepared(svc, request);
      var clean := svc.extractCleanQuestions(request.question.GetOr(""));
      (t.form.Some? <==> clean != []) &&
      (|clean| == 1 ==> r.question == Some(clean[0])) &&
      (|clean| != 1 ==> r.question == Some(request.question.GetOr("")))
  {
    var c := CvStep(svc, WithDefaults(request));
    var p := ProjectStep(svc, c.0);
    assert p.0.question == Some(request.question.GetOr(""));
    assert Prepared(svc, request).1.form == FormStep(svc, p.0).1;
  }

  // ---- the last-used model

  /** The model the action stores for the provider badge: nothing unless both the model and the
      provider key are non-blank; under groq the legacy Ollama name is replaced by the instant
      model, and any other name is stored as it came. */
  function ModelToStore(providerKey: string, modelName: Option<string>): (r: Option<string>)
    ensures r.Some? <==> modelName.Some? && !IsBlank(modelName.value) && !IsBlank(providerKey)
    ensures r.Some? ==> !IsBlank(r.value)
    ensures r.Some? && providerKey == "groq" ==> !EqualsCI(r.value, DynamicAIProvider.LegacyGroqModel)
    ensures r.Some? && (providerKey != "groq" || !EqualsCI(modelName.value, DynamicAIProvider.LegacyGroqModel)) ==>
              r == modelName
  {
    if modelName.None? || IsBlank(modelName.value) || IsBlank(providerKey) then None
    else if providerKey == "groq" && EqualsCI(modelName.value, DynamicAIProvider.LegacyGroqModel) then
      var instant := DynamicAIProvider.InstantGroqModel;
      assert instant[0] == 'l';
      Some(instant)
    else modelName
  }

  // ---- the questions to answer

  /** Question mode with application text asks the model to extract the questions. */
  predicate Extracting(r: AnswerGenerationRequest) {
    r.useQuestionMode && !IsBlank(r.applicationContent.GetOr(""))
  }

  /** The text the extraction prompt carries: very long text is cleaned first. */
  function SourceText(svc: Services, app: string): string {
    if |app| > ExtractionCap then svc.cleanProjectInfo(app) else app
  }

  function ExtractionPrompt(svc: Services, app: string): string {
    ExtractionInstructions + SourceText(svc, app)
  }

  /** The questions to answer: in question mode with application text, the questions read
      from the extraction call's reply (whose exception escapes); otherwise the clean
      questions of the question field. */
  function QuestionsToAnswer(svc: Services, r: AnswerGenerationRequest, script: Script): Traced<Outcome<seq<string>>> {
    if Extracting(r) then
      var g := svc.generate(ExtractionPrompt(svc, r.applicationContent.GetOr("")), r.modelName, script);
      Traced(match g.value
             case Done(text) => Done(AnswerParsing.ExtractedQuestions(text))
             case Thrown(m) => Thrown(m), g.calls)
    else Traced(Done(svc.extractCleanQuestions(r.question.GetOr(""))), [])
  }

  method DetermineQuestions(svc: Services, r: AnswerGenerationRequest, script: Script)
    returns (outcome: Outcome<seq<string>>, calls: seq<Call>)
    ensures Traced(outcome, calls) == QuestionsToAnswer(svc, r, script)
  {
    if Extracting(r) {
      var sourceText := r.applicationContent.GetOr("");
      if |sourceText| > ExtractionCap {
        sourceText := svc.cleanProjectInfo(sourceText);
      }
      var extractionPrompt := ExtractionInstructions + sourceText;
      var extraction := svc.generate(extractionPrompt, r.modelName, script);
      calls := extraction.calls;
      match extraction.value {
        case Thrown(m) =>
          outcome := Thrown(m);
        case Done(text) =>
          var questions := AnswerParsing.ExtractQuestionLines(text);
          outcome := Done(questions);
      }
    } else {
      var questions := svc.extractCleanQuestions(r.question.GetOr(""));
      outcome, calls := Done(questions), [];
    }
  }

  /** A short non-blank prompt: one call, whose reply is the outcome. */
  lemma GenerateOnce(p: string, model: Option<string>, script: Script)
    requires |p| <= AIService.ReduceThreshold && !IsBlank(p)
    ensures AIService.Generate(p, model, script) == Traced(Reflect(script(0)), [Call(p, model)])
  {
    AIService.GenerateShort(p, model, script);
    assert Shift(script, 0)(0) == script(0);
  }

  /** Text whose first character is not white space is not blank, whatever follows it. */
  lemma HeadNotBlank(a: string, b: string)
    requires |a| > 0 && !IsWhite(a[0])
    ensures !IsBlank(a + b)
  {
    assert (a + b)[0] == a[0];
  }

  /** With the registered AI service, an extraction prompt that needs no summary, and a reply
      listing the questions numbered one per line, the questions answered are exactly those,
      after one call carrying the extraction prompt and the request's model. */
  lemma {:induction false} ExtractionFeedsQuestions(svc: Services, r: AnswerGenerationRequest, qs: seq<string>, script: Script)
    requires svc.generate == AIService.Generate
    requires Extracting(r)
    requires |ExtractionPrompt(svc, r.applicationContent.GetOr(""))| <= AIService.ReduceThreshold
    requires forall k :: 0 <= k < |qs| ==> AnswerParsing.ListableQuestion(qs[k])
    requires script(0) == Answer(Terminated(AnswerParsing.NumberedLines(qs, 1)))
    ensures QuestionsToAnswer(svc, r, script) ==
              Traced(Done(qs), [Call(ExtractionPrompt(svc, r.applicationContent.GetOr("")), r.modelName)])
  {
    var reply := Terminated(AnswerParsing.NumberedLines(qs, 1));
    var calls := [Call(ExtractionPrompt(svc, r.applicationContent.GetOr("")), r.modelName)];
    ExtractionCall(svc, r, script, reply);
    QuestionsFromReply(svc, r, script, reply, calls);
    assert AnswerParsing.ExtractedQuestions(reply) == qs by {
      AnswerParsing.ExtractionRoundTrip(qs);
    }
  }

  /** The registered AI service sends the extraction prompt, which is never blank, once. */
  lemma ExtractionCall(svc: Services, r: AnswerGenerationRequest, script: Script, reply: string)
    requires svc.generate == AIService.Generate
    requires |ExtractionPrompt(svc, r.applicationContent.GetOr(""))| <= AIService.ReduceThreshold
    requires script(0) == Answer(reply)
    ensures var p := ExtractionPrompt(svc, r.applicationContent.GetOr(""));
      svc.generate(p, r.modelName, script) == Traced(Done(reply), [Call(p, r.modelName)])
  {
    var p := ExtractionPrompt(svc, r.applicationContent.GetOr(""));
    HeadNotBlank(ExtractionInstructions, SourceText(svc, r.applicationContent.GetOr("")));
    GenerateOnce(p, r.modelName, script);
  }

  /** When extracting, the questions are those the reply lists, after the reply's calls. */
  lemma QuestionsFromReply(svc: Services, r: AnswerGenerationRequest, script: Script, text: string, calls: seq<Call>)
    requires Extracting(r)
    requires svc.generate(ExtractionPrompt(svc, r.applicationContent.GetOr("")), r.modelName, script) == Traced(Done(text), calls)
    ensures QuestionsToAnswer(svc, r, script) == Traced(Done(AnswerParsing.ExtractedQuestions(text)), calls)
  {
  }

  // ---- choosing the path

  /** Several questions, or question mode with at least one, go one by one or in a batch,
      unless a motivation letter is asked for. */
  predicate UseBatch(r: AnswerGenerationRequest, count: nat) {
    (count >= 2 || (r.useQuestionMode && count >= 1)) && !r.isMotivationLetter
  }

  // ---- one call per question (text trimmer on)

  /** The context each question's reduction starts from. */
  function BaseContext(cv: string, source: string, notes: string): string {
    "\nCV:\n" + cv + "\n\nPROJECT INFO:\n" + source + "\n\nNOTES:\n" + notes
  }

  /** The request built for one question: the reduced context as application text, no notes,
      every switch off and no category. */
  function SingleRequest(r: AnswerGenerationRequest, question: string, context: string): AnswerGenerationRequest {
    EmptyRequest().(cvContent := r.cvContent, applicationContent := Some(context),
                    applicationType := r.applicationType, programTopic := r.programTopic,
                    question := Some(question), languageLevel := r.languageLevel,
                    characterLimit := r.characterLimit, additionalNotes := Some(""),
                    modelName := r.modelName)
  }

  /** One question's answer, with the context its prompt was built on. */
  datatype Answered = Answered(item: AnswerItem, context: string)

  /** One pass of the per-question loop, the oracle moved past the n calls made before it:
      reduce the base context for the question, build the prompt, generate and format. */
  function AnswerOne(svc: Services, r: AnswerGenerationRequest, base: string, question: string, script: Script, n: nat)
    : Traced<Outcome<Answered>>
  {
    var ctx := svc.reduceForQuestion(base, question, Shift(script, n));
    var prompt := svc.buildPrompt(SingleRequest(r, question, ctx.value));
    var g := svc.generate(prompt, r.modelName, Shift(script, n + |ctx.calls|));
    Traced(match g.value
           case Done(text) => Done(Answered(AnswerItem(question, ResponseFormatter.FormatResponse(text, r.characterLimit)), ctx.value))
           case Thrown(m) => Thrown(m), ctx.calls + g.calls)
  }

  /** The per-question loop from question i on: the first exception ends it. */
  function AnswerFrom(svc: Services, r: AnswerGenerationRequest, base: string, questions: seq<string>, i: nat, script: Script, n: nat)
    : Traced<Outcome<seq<Answered>>>
    requires i <= |questions|
    decreases |questions| - i
  {
    if i == |questions| then Traced(Done([]), [])
    else
      var one := AnswerOne(svc, r, base, questions[i], script, n);
      match one.value
      case Thrown(m) => Traced(Thrown(m), one.calls)
      case Done(a) =>
        var rest := AnswerFrom(svc, r, base, questions, i + 1, script, n + |one.calls|);
        Traced(match rest.value
               case Done(more) => Done([a] + more)
               case Thrown(m) => Thrown(m), one.calls + rest.calls)
  }

  /** `t` with `done` in front of its answers and `calls` in front of its calls. */
  function After(done: seq<Answered>, calls: seq<Call>, t: Traced<Outcome<seq<Answered>>>): Traced<Outcome<seq<Answered>>> {
    Traced(match t.value
           case Done(more) => Done(done + more)
           case Thrown(m) => Thrown(m), calls + t.calls)
  }

  function ItemsOf(done: seq<Answered>): (items: seq<AnswerItem>)
    ensures |items| == |done|
  {
    seq(|done|, k requires 0 <= k < |done| => done[k].item)
  }

  function DebugOf(done: seq<Answered>): (d: seq<DebugContext>)
    ensures |d| == |done|
  {
    seq(|done|, k requires 0 <= k < |done| => DebugContext(k, done[k].item.question, done[k].context))
  }

  /** One more answer adds its item and its debug context at the end. */
  lemma OfSnoc(done: seq<Answered>, a: Answered)
    ensures ItemsOf(done + [a]) == ItemsOf(done) + [a.item]
    ensures DebugOf(done + [a]) == DebugOf(done) + [DebugContext(|done|, a.item.question, a.context)]
  {
    assert ItemsOf(done + [a]) == ItemsOf(done) + [a.item];
    assert DebugOf(done + [a]) == DebugOf(done) + [DebugContext(|done|, a.item.question, a.context)];
  }

  lemma AfterNothing(t: Traced<Outcome<seq<Answered>>>)
    ensures After([], [], t) == t
  {
    assert [] + t.calls == t.calls;
    if t.value.Done? {
      assert [] + t.value.value == t.value.value;
    }
  }

  /** One successful pass moves its answer and its calls in front of the rest of the loop. */
  lemma AfterStep(svc: Services, r: AnswerGenerationRequest, base: string, questions: seq<string>, i: nat, script: Script, n0: nat,
                  done: seq<Answered>, calls: seq<Call>, one: Traced<Outcome<Answered>>)
    requires i < |questions|
    requires one == AnswerOne(svc, r, base, questions[i], script, n0 + |calls|) && one.value.Done?
    ensures After(done, calls, AnswerFrom(svc, r, base, questions, i, script, n0 + |calls|)) ==
            After(done + [one.value.value], calls + one.calls,
                  AnswerFrom(svc, r, base, questions, i + 1, script, n0 + |calls + one.calls|))
  {
    var rest := AnswerFrom(svc, r, base, questions, i + 1, script, n0 + |calls| + |one.calls|);
    assert |calls + one.calls| == |calls| + |one.calls|;
    Collections.AppendAssoc(calls, one.calls, rest.calls);
    if rest.value.Done? {
      Collections.AppendAssoc(done, [one.value.value], rest.value.value);
    }
  }

  /** A failing pass ends the loop with its exception and every call made so far. */
  lemma AfterThrown(svc: Services, r: AnswerGenerationRequest, base: string, questions: seq<string>, i: nat, script: Script, n0: nat,
                    done: seq<Answered>, calls: seq<Call>, one: Traced<Outcome<Answered>>)
    requires i < |questions|
    requires one == AnswerOne(svc, r, base, questions[i], script, n0 + |calls|) && one.value.Thrown?
    ensures After(done, calls, AnswerFrom(svc, r, base, questions, i, script, n0 + |calls|)) ==
            Traced(Thrown(one.value.message), calls + one.calls)
  {
  }

  /** One pass of the loop: the reduction, the single-question request and prompt, the call
      and the formatting. */
  method AnswerQuestion(svc: Services, r: AnswerGenerationRequest, base: string, question: string, script: Script, n: nat)
    returns (one: Traced<Outcome<Answered>>)
    ensures one == AnswerOne(svc, r, base, question, script, n)
  {
    var specificContext := svc.reduceForQuestion(base, question, Shift(script, n));
    var singleRequest := SingleRequest(r, question, specificContext.value);
    var questionPrompt := svc.buildPrompt(singleRequest);
    var questionResponse := svc.generate(questionPrompt, r.modelName, Shift(script, n + |specificContext.calls|));
    var calls := specificContext.calls + questionResponse.calls;
    match questionResponse.value {
      case Thrown(m) =>
        one := Traced(Thrown(m), calls);
      case Done(text) =>
        var formatted := ResponseFormatter.FormatResponse(text, r.characterLimit);
        one := Traced(Done(Answered(AnswerItem(question, formatted), specificContext.value)), calls);
    }
  }

  /** The per-question loop, building the answers and the debug contexts side by side. */
  method AnswerEachQuestion(svc: Services, r: AnswerGenerationRequest, base: string, questions: seq<string>, script: Script, n0: nat)
    returns (outcome: Outcome<(seq<AnswerItem>, seq<DebugContext>)>, calls: seq<Call>)
    ensures var t := AnswerFrom(svc, r, base, questions, 0, script, n0);
      calls == t.calls &&
      outcome == match t.value
                 case Done(done) => Done((ItemsOf(done), DebugOf(done)))
                 case Thrown(m) => Thrown(m)
  {
    var trimmedAnswers: seq<AnswerItem> := [];
    var debugContexts: seq<DebugContext> := [];
    ghost var done: seq<Answered> := [];
    calls := [];
    var i := 0;
    AfterNothing(AnswerFrom(svc, r, base, questions, 0, script, n0));
    while i < |questions|
      invariant 0 <= i <= |questions| && |done| == i
      invariant trimmedAnswers == ItemsOf(done) && debugContexts == DebugOf(done)
      invariant After(done, calls, AnswerFrom(svc, r, base, questions, i, script, n0 + |calls|)) ==
                AnswerFrom(svc, r, base, questions, 0, script, n0)
    {
      var one := AnswerQuestion(svc, r, base, questions[i], script, n0 + |calls|);
      match one.value {
        case Thrown(m) =>
          AfterThrown(svc, r, base, questions, i, script, n0, done, calls, one);
          return Thrown(m), calls + one.calls;
        case Done(a) =>
          AfterStep(svc, r, base, questions, i, script, n0, done, calls, one);
          trimmedAnswers := trimmedAnswers + [a.item];
          debugContexts := debugContexts + [DebugContext(i, a.item.question, a.context)];
          OfSnoc(done, a);
          done := done + [a];
          calls := calls + one.calls;
      }
      i := i + 1;
    }
    assert done + [] == done && calls + [] == calls;
    outcome := Done((trimmedAnswers, debugContexts));
  }

  /** The loop answers every question, in order; when a pass throws, the loop stops there. */
  lemma {:induction false} AnswerFromFacts(svc: Services, r: AnswerGenerationRequest, base: string, questions: seq<string>,
                                           i: nat, script: Script, n: nat)
    requires i <= |questions|
    ensures var t := AnswerFrom(svc, r, base, questions, i, script, n);
      t.value.Done? ==>
        |t.value.value| == |questions| - i &&
        forall k :: 0 <= k < |t.value.value| ==> t.value.value[k].item.question == questions[i + k]
    decreases |questions| - i
  {
    if i < |questions| {
      var one := AnswerOne(svc, r, base, questions[i], script, n);
      if one.value.Done? {
        AnswerFromFacts(svc, r, base, questions, i + 1, script, n + |one.calls|);
      }
    }
  }

  // ---- one batch call (text trimmer off)

  /** The batch loop's pairing: question i with the formatted i-th parsed answer, or with ""
      when the reply held fewer answers. */
  function Paired(questions: seq<string>, parsed: seq<string>, limit: Option<int>): (items: seq<AnswerItem>)
    ensures |items| == |questions|
    ensures forall k :: 0 <= k < |questions| ==> items[k].question == questions[k]
    ensures forall k :: |parsed| <= k < |questions| ==> items[k].answer == ""
  {
    var empty := ResponseFormatter.FormatResponse("", limit);
    assert empty == "";
    seq(|questions|, k requires 0 <= k < |questions| =>
      AnswerItem(questions[k], ResponseFormatter.FormatResponse(if k < |parsed| then parsed[k] else "", limit)))
  }

  /** The batch path: one prompt for all questions, one call (whose exception escapes), the
      reply split into numbered answers and paired with the questions. */
  function BatchAnswers(svc: Services, r: AnswerGenerationRequest, questions: seq<string>, script: Script)
    : Traced<Outcome<seq<AnswerItem>>>
  {
    var g := svc.generate(svc.buildBatchPrompt(r, questions), r.modelName, script);
    Traced(match g.value
           case Done(text) => Done(Paired(questions, AnswerParsing.ParsedAnswers(text, |questions|), r.characterLimit))
           case Thrown(m) => Thrown(m), g.calls)
  }

  /** The for loop over the questions. */
  method PairAnswers(questions: seq<string>, parsedAnswers: seq<string>, limit: Option<int>) returns (batchAnswers: seq<AnswerItem>)
    ensures batchAnswers == Paired(questions, parsedAnswers, limit)
  {
    batchAnswers := [];
    var i := 0;
    while i < |questions|
      invariant 0 <= i <= |questions| && |batchAnswers| == i
      invariant forall k :: 0 <= k < i ==> batchAnswers[k] == Paired(questions, parsedAnswers, limit)[k]
    {
      var answerText := if i < |parsedAnswers| then parsedAnswers[i] else "";
      var formatted := ResponseFormatter.FormatResponse(answerText, limit);
      batchAnswers := batchAnswers + [AnswerItem(questions[i], formatted)];
      i := i + 1;
    }
  }

  method AnswerBatch(svc: Services, r: AnswerGenerationRequest, questions: seq<string>, script: Script)
    returns (outcome: Outcome<seq<AnswerItem>>, calls: seq<Call>)
    ensures Traced(outcome, calls) == BatchAnswers(svc, r, questions, script)
  {
    var batchPrompt := svc.buildBatchPrompt(r, questions);
    var batchResponse := svc.generate(batchPrompt, r.modelName, script);
    calls := batchResponse.calls;
    match batchResponse.value {
      case Thrown(m) =>
        outcome := Thrown(m);
      case Done(text) =>
        var parsedAnswers := AnswerParsing.ParseNumberedAnswers(text, |questions|);
        var batchAnswers := PairAnswers(questions, parsedAnswers, r.characterLimit);
        outcome := Done(batchAnswers);
    }
  }

  /** A batch reply written in the requested "n. Answer:" layout, with one answer per
      question, gives every question its own answer, formatted. */
  lemma BatchRoundTrip(svc: Services, r: AnswerGenerationRequest, questions: seq<string>, answers: seq<string>, script: Script)
    requires answers != [] && |answers| == |questions|
    requires forall k :: 0 <= k < |answers| ==> AnswerParsing.OneLineAnswer(answers[k])
    requires svc.generate(svc.buildBatchPrompt(r, questions), r.modelName, script).value ==
             Done(AnswerParsing.AnswerSheet(answers, 1))
    ensures var b := BatchAnswers(svc, r, questions, script);
      b.value.Done? && |b.value.value| == |questions| &&
      forall k :: 0 <= k < |questions| ==>
        b.value.value[k] == AnswerItem(questions[k], ResponseFormatter.FormatResponse(answers[k], r.characterLimit))
  {
    AnswerParsing.AnswerSheetRoundTrip(answers, |questions|);
  }
  // ---- one single call (no batch)

  /** The five persona phrases the guard looks for, matched exactly. */
  predicate MetaLeak(text: string) {
    Contains(text, "As an AI") || Contains(text, "I am an AI") || Contains(text, "I don't have a passport") ||
    Contains(text, "I do not have a passport") || Contains(text, "As an assistant")
  }

  /** The first single-answer call: through the context cache when the request asks for it. */
  function FirstResponse(svc: Services, r: AnswerGenerationRequest, prompt: string, script: Script, n: nat): Traced<Outcome<string>> {
    if r.useContextCache then svc.generateWithContext(prompt, "", true, r.modelName, Shift(script, n))
    else svc.generate(prompt, r.modelName, Shift(script, n))
  }

  /** The single answer after the persona guard: a reply that leaks the assistant persona is
      regenerated once, with the reminder in front of the prompt, and the second reply is kept
      whatever it says. */
  function GuardedResponse(svc: Services, r: AnswerGenerationRequest, prompt: string, script: Script, n: nat): Traced<Outcome<string>> {
    var first := FirstResponse(svc, r, prompt, script, n);
    match first.value
    case Thrown(_) => first
    case Done(text) =>
      if MetaLeak(text) then
        var second := svc.generate(ReminderPrefix + prompt, r.modelName, Shift(script, n + |first.calls|));
        Traced(second.value, first.calls + second.calls)
      else first
  }

  method AnswerSingle(svc: Services, r: AnswerGenerationRequest, prompt: string, script: Script, n: nat)
    returns (outcome: Outcome<string>, calls: seq<Call>)
    ensures Traced(outcome, calls) == GuardedResponse(svc, r, prompt, script, n)
  {
    var response: Traced<Outcome<string>>;
    if r.useContextCache {
      response := svc.generateWithContext(prompt, "", true, r.modelName, Shift(script, n));
    } else {
      response := svc.generate(prompt, r.modelName, Shift(script, n));
    }
    outcome, calls := response.value, response.calls;
    if outcome.Done? && MetaLeak(outcome.value) {
      var recoveryPrompt := ReminderPrefix + prompt;
      var recovery := svc.generate(recoveryPrompt, r.modelName, Shift(script, n + |calls|));
      outcome, calls := recovery.value, calls + recovery.calls;
    }
  }

  /** With the registered AI service, no context cache and prompts short enough to go out
      whole: a first reply that leaks the persona is followed by exactly one more call, with
      the reminder in front of the prompt, and its reply is the answer, unchecked. */
  lemma PersonaGuardOnce(svc: Services, r: AnswerGenerationRequest, prompt: string, script: Script, n: nat, leaked: string, second: string)
    requires svc.generate == AIService.Generate && !r.useContextCache
    requires !IsBlank(prompt) && |ReminderPrefix + prompt| <= AIService.ReduceThreshold
    requires script(n) == Answer(leaked) && MetaLeak(leaked)
    requires script(n + 1) == Answer(second)
    ensures GuardedResponse(svc, r, prompt, script, n) ==
              Traced(Done(second), [Call(prompt, r.modelName), Call(ReminderPrefix + prompt, r.modelName)])
  {
    GenerateOnce(prompt, r.modelName, Shift(script, n));
    assert Shift(script, n)(0) == script(n);
    HeadNotBlank(ReminderPrefix, prompt);
    GenerateOnce(ReminderPrefix + prompt, r.modelName, Shift(script, n + 1));
    assert Shift(script, n + 1)(0) == script(n + 1);
  }

  /** Under the same conditions, a first reply that does not leak is the answer, after one
      call. */
  lemma PersonaGuardQuiet(svc: Services, r: AnswerGenerationRequest, prompt: string, script: Script, n: nat, text: string)
    requires svc.generate == AIService.Generate && !r.useContextCache
    requires !IsBlank(prompt) && |prompt| <= AIService.ReduceThreshold
    requires script(n) == Answer(text) && !MetaLeak(text)
    ensures GuardedResponse(svc, r, prompt, script, n) == Traced(Done(text), [Call(prompt, r.modelName)])
  {
    GenerateOnce(prompt, r.modelName, Shift(script, n));
    assert Shift(script, n)(0) == script(n);
  }

  // ---- splitting the single answer

  /** The items of the Q-regex matches: the question as matched, the answer formatted. */
  function MatchItems(ms: seq<AnswerParsing.QAnswer>, limit: Option<int>): (items: seq<AnswerItem>)
    ensures |items| == |ms|
  {
    seq(|ms|, k requires 0 <= k < |ms| => AnswerItem(ms[k].question, ResponseFormatter.FormatResponse(ms[k].answer, limit)))
  }

  /** The fallback items: "Question 1", "Question 2", ... with the parsed answers formatted. */
  function IndexedItems(parsed: seq<string>, limit: Option<int>): (items: seq<AnswerItem>)
    ensures |items| == |parsed|
  {
    seq(|parsed|, k requires 0 <= k < |parsed| =>
      AnswerItem(QuestionPrefix + NatToString(k + 1), ResponseFormatter.FormatResponse(parsed[k], limit)))
  }

  /** The server-side split: in question mode (and not for a motivation letter) a reply with
      numbered answers becomes one item per Q-block, or one per numbered answer when no
      Q-block matches; otherwise the whole reply is the answer to the request's question. */
  function SplitAnswers(r: AnswerGenerationRequest, response: string): (items: seq<AnswerItem>)
    ensures |items| >= 1
  {
    var whole := [AnswerItem(r.question.GetOr(""), ResponseFormatter.FormatResponse(response, r.characterLimit))];
    if r.useQuestionMode && !r.isMotivationLetter then
      var parsed := AnswerParsing.ParsedAnswers(response, 0);
      if parsed != [] then
        var ms := AnswerParsing.QMatches(response, 0);
        if ms != [] then MatchItems(ms, r.characterLimit) else IndexedItems(parsed, r.characterLimit)
      else whole
    else whole
  }

  /** The foreach over the Q-regex matches. */
  method CollectMatches(matches: seq<AnswerParsing.QAnswer>, limit: Option<int>) returns (answers: seq<AnswerItem>)
    ensures answers == MatchItems(matches, limit)
  {
    answers := [];
    var i := 0;
    while i < |matches|
      invariant 0 <= i <= |matches| && |answers| == i
      invariant forall k :: 0 <= k < i ==> answers[k] == MatchItems(matches, limit)[k]
    {
      var m := matches[i];
      answers := answers + [AnswerItem(m.question, ResponseFormatter.FormatResponse(m.answer, limit))];
      i := i + 1;
    }
  }

  /** The fallback loop over the parsed answers. */
  method NumberAnswers(parsed: seq<string>, limit: Option<int>) returns (answers: seq<AnswerItem>)
    ensures answers == IndexedItems(parsed, limit)
  {
    answers := [];
    var i := 0;
    while i < |parsed|
      invariant 0 <= i <= |parsed| && |answers| == i
      invariant forall k :: 0 <= k < i ==> answers[k] == IndexedItems(parsed, limit)[k]
    {
      answers := answers + [AnswerItem(QuestionPrefix + NatToString(i + 1), ResponseFormatter.FormatResponse(parsed[i], limit))];
      i := i + 1;
    }
  }

  method SplitResponse(r: AnswerGenerationRequest, response: string) returns (answers: seq<AnswerItem>)
    ensures answers == SplitAnswers(r, response)
  {
    if r.useQuestionMode && !r.isMotivationLetter {
      var parsed := AnswerParsing.ParseNumberedAnswers(response, 0);
      if |parsed| > 0 {
        var matches := AnswerParsing.QMatches(response, 0);
        if |matches| > 0 {
          answers := CollectMatches(matches, r.characterLimit);
        } else {
          answers := NumberAnswers(parsed, r.characterLimit);
        }
        return;
      }
    }
    answers := [AnswerItem(r.question.GetOr(""), ResponseFormatter.FormatResponse(response, r.characterLimit))];
  }

  /** A question-mode reply laid out as Q-blocks splits back into exactly those questions,
      each with its formatted answer. */
  lemma QuestionModeSplitRoundTrip(r: AnswerGenerationRequest, pairs: seq<AnswerParsing.QAnswer>)
    requires r.useQuestionMode && !r.isMotivationLetter && pairs != []
    requires forall k :: 0 <= k < |pairs| ==> AnswerParsing.LayoutPair(pairs[k])
    ensures var items := SplitAnswers(r, AnswerParsing.QSheet(pairs, 1));
      |items| == |pairs| &&
      forall k :: 0 <= k < |pairs| ==>
        items[k] == AnswerItem(pairs[k].question, ResponseFormatter.FormatResponse(pairs[k].answer, r.characterLimit))
  {
    var s := AnswerParsing.QSheet(pairs, 1);
    assert s == AnswerParsing.QBlock(1, pairs[0]) + AnswerParsing.QSheet(pairs[1..], 2);
    assert s[0] == 'Q';
    if IsBlank(s) {
      BlankAt(s, 0);
    }
    AnswerParsing.ParsedAnswersFacts(s, 0);
    AnswerParsing.QSheetRoundTrip(pairs);
  }

  /** Outside question mode, or for a motivation letter, the whole reply is the one answer. */
  lemma SplitWhole(r: AnswerGenerationRequest, response: string)
    requires !r.useQuestionMode || r.isMotivationLetter
    ensures SplitAnswers(r, response) ==
              [AnswerItem(r.question.GetOr(""), ResponseFormatter.FormatResponse(response, r.characterLimit))]
  {
  }

  /** The single path's debug list: one "Global Context" entry per answer, each carrying the
      whole prompt. */
  function GlobalDebug(count: nat, prompt: string): (d: seq<DebugContext>)
    ensures |d| == count
  {
    seq(count, k requires 0 <= k < count => DebugContext(k, GlobalContextLabel, prompt))
  }

  method GlobalContexts(count: nat, prompt: string) returns (contexts: seq<DebugContext>)
    ensures contexts == GlobalDebug(count, prompt)
  {
    contexts := [];
    var i := 0;
    while i < count
      invariant 0 <= i <= count && |contexts| == i
      invariant forall k :: 0 <= k < i ==> contexts[k] == DebugContext(k, GlobalContextLabel, prompt)
    {
      contexts := contexts + [DebugContext(i, GlobalContextLabel, prompt)];
      i := i + 1;
    }
  }

  // ---- the action

  /** The answers for the chosen questions, the oracle moved past the n calls made before:
      one call per question with the trimmer on, one batch call without it, or the single
      call; an exception that escapes becomes the 500 reply. */
  function Answering(svc: Services, r: AnswerGenerationRequest, trimmed: TrimmedTexts, questions: seq<string>, script: Script, n: nat)
    : (a: Traced<GenerateResult>)
    ensures a.value.Answers? || a.value.ServerError?
    ensures a.value.Answers? ==> a.value.trimmed == trimmed
  {
    if UseBatch(r, |questions|) then
      if r.enableTextTrimmer then
        var base := BaseContext(r.cvContent.GetOr(""), trimmed.project.GetOr(r.applicationContent.GetOr("")),
                                r.additionalNotes.GetOr(""));
        var t := AnswerFrom(svc, r, base, questions, 0, script, n);
        Traced(match t.value
               case Done(done) => Answers(ItemsOf(done), trimmed, Some(DebugOf(done)))
               case Thrown(m) => ServerError(m), t.calls)
      else
        var b := BatchAnswers(svc, r, questions, Shift(script, n));
        Traced(match b.value
               case Done(items) => Answers(items, trimmed, None)
               case Thrown(m) => ServerError(m), b.calls)
    else
      var prompt := svc.buildPrompt(r);
      var g := GuardedResponse(svc, r, prompt, script, n);
      Traced(match g.value
             case Done(text) =>
               var items := SplitAnswers(r, text);
               Answers(items, trimmed, if r.enableTextTrimmer then Some(GlobalDebug(|items|, prompt)) else None)
             case Thrown(m) => ServerError(m), g.calls)
  }

  /** A request the guards turn away: too large a body, or a model state that is not valid. */
  predicate Rejected(request: AnswerGenerationRequest, contentLength: Option<int>) {
    (contentLength.Some? && contentLength.value > MaxContentLength) || !IsValid(request)
  }

  /** The whole action: the guards, the preparation, the questions and the answers; the calls
      are those of the extraction followed by those of the answering. The controller carries
      [ApiController], so model validation answers an invalid request before the action body
      runs, and the size guard only ever sees valid requests. */
  function Flow(svc: Services, request: AnswerGenerationRequest, contentLength: Option<int>, script: Script)
    : (f: Traced<GenerateResult>)
    ensures Rejected(request, contentLength) <==> f.value.TooLarge? || f.value.InvalidModel?
    ensures !IsValid(request) ==> f == Traced(InvalidModel(ValidationErrors(request)), [])
    ensures f.value.TooLarge? ==> IsValid(request) && f == Traced(TooLarge(TooLargeMessage), [])
  {
    if !IsValid(request) then Traced(InvalidModel(ValidationErrors(request)), [])
    else if contentLength.Some? && contentLength.value > MaxContentLength then Traced(TooLarge(TooLargeMessage), [])
    else
      var (r, trimmed) := Prepared(svc, request);
      var q := QuestionsToAnswer(svc, r, script);
      match q.value
      case Thrown(m) => Traced(ServerError(m), q.calls)
      case Done(qs) =>
        var a := Answering(svc, r, trimmed, qs, script, |q.calls|);
        Traced(a.value, q.calls + a.calls)
  }

  /** The stored models after the action: only an accepted request stores, and then the model
      chosen for the badge under the normalised current provider. */
  function ModelsAfter(models: map<string, string>, currentProvider: string, request: AnswerGenerationRequest,
                       contentLength: Option<int>): map<string, string>
  {
    if Rejected(request, contentLength) then models
    else match ModelToStore(NormalKey(currentProvider), AliasedModel(request.modelName))
         case None => models
         case Some(m) => models[NormalKey(currentProvider) := Trim(m)]
  }

  /** An accepted request stores the badge model, trimmed, under the normalised provider. */
  lemma StoredModel(models: map<string, string>, currentProvider: string, request: AnswerGenerationRequest,
                    contentLength: Option<int>, modelToStore: Option<string>)
    requires !Rejected(request, contentLength)
    requires modelToStore == ModelToStore(NormalKey(currentProvider), AliasedModel(request.modelName))
    ensures ModelsAfter(models, currentProvider, request, contentLength) ==
              if modelToStore.Some? then models[NormalKey(currentProvider) := Trim(modelToStore.value)] else models
  {
  }

  /** The three answering paths, one branch each. */
  method Respond(svc: Services, r: AnswerGenerationRequest, trimmed: TrimmedTexts, questions: seq<string>, script: Script, n: nat)
    returns (result: GenerateResult, calls: seq<Call>)
    ensures Traced(result, calls) == Answering(svc, r, trimmed, questions, script, n)
  {
    if UseBatch(r, |questions|) {
      if r.enableTextTrimmer {
        var sourceContent := trimmed.project.GetOr(r.applicationContent.GetOr(""));
        var baseContext := BaseContext(r.cvContent.GetOr(""), sourceContent, r.additionalNotes.GetOr(""));
        var outcome;
        outcome, calls := AnswerEachQuestion(svc, r, baseContext, questions, script, n);
        match outcome {
          case Thrown(m) => result := ServerError(m);
          case Done((trimmedAnswers, debugContexts)) => result := Answers(trimmedAnswers, trimmed, Some(debugContexts));
        }
      } else {
        var outcome;
        outcome, calls := AnswerBatch(svc, r, questions, Shift(script, n));
        match outcome {
          case Thrown(m) => result := ServerError(m);
          case Done(batchAnswers) => result := Answers(batchAnswers, trimmed, None);
        }
      }
      return;
    }
    var prompt := svc.buildPrompt(r);
    var response;
    response, calls := AnswerSingle(svc, r, prompt, script, n);
    match response {
      case Thrown(m) =>
        result := ServerError(m);
      case Done(text) =>
        var answers := SplitResponse(r, text);
        var debugInfo: Option<seq<DebugContext>> := None;
        if r.enableTextTrimmer {
          var contexts := GlobalContexts(|answers|, prompt);
          debugInfo := Some(contexts);
        }
        result := Answers(answers, trimmed, debugInfo);
    }
  }

  /** On the per-question and batch paths every question gets exactly one answer, in order;
      on the single path there is at least one answer, and a debug entry for each when the
      trimmer is on. */
  lemma AnsweringFacts(svc: Services, r: AnswerGenerationRequest, trimmed: TrimmedTexts, questions: seq<string>, script: Script, n: nat)
    ensures var a := Answering(svc, r, trimmed, questions, script, n).value;
      a.Answers? && UseBatch(r, |questions|) ==>
        |a.answers| == |questions| &&
        forall k :: 0 <= k < |questions| ==> a.answers[k].question == questions[k]
    ensures var a := Answering(svc, r, trimmed, questions, script, n).value;
      a.Answers? && !UseBatch(r, |questions|) ==>
        |a.answers| >= 1 && (a.debug.Some? <==> r.enableTextTrimmer) &&
        (a.debug.Some? ==> |a.debug.value| == |a.answers|)
  {
    if UseBatch(r, |questions|) && r.enableTextTrimmer {
      var base := BaseContext(r.cvContent.GetOr(""), trimmed.project.GetOr(r.applicationContent.GetOr("")),
                              r.additionalNotes.GetOr(""));
      AnswerFromFacts(svc, r, base, questions, 0, script, n);
    }
  }

  /** A rejected request makes no call and gets its 400 reply. Model validation comes first:
      an invalid request gets its validation errors whatever its size, and only a valid one
      can be turned away as too large. */
  lemma RejectedQuietly(svc: Services, request: AnswerGenerationRequest, contentLength: Option<int>, script: Script)
    requires Rejected(request, contentLength)
    ensures Flow(svc, request, contentLength, script).calls == []
    ensures !IsValid(request) ==>
              Flow(svc, request, contentLength, script).value == InvalidModel(ValidationErrors(request)) &&
              ValidationErrors(request) != []
    ensures IsValid(request) ==>
              contentLength.Some? && contentLength.value > MaxContentLength &&
              Flow(svc, request, contentLength, script).value == TooLarge(TooLargeMessage)
  {
  }

  /** The controller, with its injected provider configuration and services. */
  class AIController {
    const providerConfig: ProviderConfigService
    const services: Services

    /** The application passes its provider configuration and `Registered()`. */
    constructor(providerConfig: ProviderConfigService, services: Services)
      ensures this.providerConfig == providerConfig && this.services == services
    {
      this.providerConfig := providerConfig;
      this.services := services;
    }

    /** POST /api/ai/generate. The provider configuration changes only by the last-used model. */
    method Generate(request: AnswerGenerationRequest, contentLength: Option<int>, script: Script)
      returns (result: GenerateResult, calls: seq<Call>)
      requires providerConfig.Valid()
      modifies providerConfig
      ensures providerConfig.Valid()
      ensures Traced(result, calls) == Flow(services, request, contentLength, script)
      ensures providerConfig.models ==
                ModelsAfter(old(providerConfig.models), old(providerConfig.currentProvider), request, contentLength)
      ensures providerConfig.currentProvider == old(providerConfig.currentProvider)
      ensures providerConfig.apiKeys == old(providerConfig.apiKeys)
    {
      if !IsValid(request) {
        return InvalidModel(ValidationErrors(request)), [];
      }
      if contentLength.Some? && contentLength.value > MaxContentLength {
        return TooLarge(TooLargeMessage), [];
      }
      ghost var oldModels := providerConfig.models;
      var providerKey := NormalKey(providerConfig.currentProvider);
      var r, trimmed := PrepareRequest(services, request);
      assert r.modelName == AliasedModel(request.modelName) by {
        PreparedKeeps(services, request);
      }
      var modelToStore := ModelToStore(providerKey, r.modelName);
      StoredModel(oldModels, providerConfig.currentProvider, request, contentLength, modelToStore);
      if modelToStore.Some? {
        NormalKeyIdempotent(providerConfig.currentProvider);
        providerConfig.SetModel(providerKey, modelToStore.value);
      }
      var questions, questionCalls := DetermineQuestions(services, r, script);
      match questions {
        case Thrown(m) =>
          result, calls := ServerError(m), questionCalls;
        case Done(qs) =>
          var answerCalls;
          result, answerCalls := Respond(services, r, trimmed, qs, script, |questionCalls|);
          calls := questionCalls + answerCalls;
      }
    }
  }
}
