/** The prompt builders of PromptBuilderService: BuildBatchPrompt, BuildPrompt and
    BuildApplicationModePrompt. Each fills a StringBuilder with AppendLine calls only; the model
    keeps the list of appended lines (`AppendLine()` appends ""), whose text is `Terminated(lines)`.
    Lines of instruction prose are kept by their opening words followed by " ..."; headings,
    fallbacks, separators and every phrase that other code looks for are kept in full. */
module PromptTemplates {
  import opened Wrappers
  import opened Text
  import opened Collections
  import opened Requests
  import opened PromptBuilder

  // ================================================================ shared pieces

  const DefaultApplicationType: string := "international mobility or training program"
  const DefaultTopic: string := "the selected program"
  const DefaultLanguageLevel: string := "Write in clear and simple English"

  /** The hard length guard: prompts longer than this are rebuilt once with a shorter application text. */
  const GuardLimit: nat := 6000
  const SafetyBuffer: nat := 100
  const GuardMarker: string := "\n[...Truncated...]"
  const GuardNotice: string := "[Project Info Truncated due to length limit]"

  /** `!string.IsNullOrWhiteSpace(s) ? s : fallback`. */
  function OrElse(s: string, fallback: string): string {
    if IsBlank(s) then fallback else s
  }

  /** newLength = Math.Max(0, appLength - excess - 100), with excess = promptLength - 6000. */
  function GuardLength(appLength: nat, promptLength: nat): (n: nat)
    requires promptLength > GuardLimit
    ensures n < appLength || n == 0
    ensures n > 0 ==> n == appLength - (promptLength - GuardLimit) - SafetyBuffer
  {
    var n := appLength - (promptLength - GuardLimit) - SafetyBuffer;
    if n > 0 then n else 0
  }

  /** The application text of the rebuilt prompt: its first newLength characters and a marker,
      or a fixed notice when nothing of it can be kept. */
  function GuardedApp(app: string, promptLength: nat): (r: string)
    requires promptLength > GuardLimit
    ensures GuardLength(|app|, promptLength) > 0 ==>
              |r| == GuardLength(|app|, promptLength) + |GuardMarker| &&
              r[..GuardLength(|app|, promptLength)] == app[..GuardLength(|app|, promptLength)]
    ensures GuardLength(|app|, promptLength) == 0 ==> r == GuardNotice
  {
    var n := GuardLength(|app|, promptLength);
    if n > 0 then app[..n] + GuardMarker else GuardNotice
  }

  /** Both replacements end with ']', so the rebuilt application section is never skipped as blank. */
  lemma GuardedAppNotBlank(app: string, promptLength: nat)
    requires promptLength > GuardLimit
    ensures !IsBlank(GuardedApp(app, promptLength))
  {
    var cut := GuardedApp(app, promptLength);
    assert cut[|cut| - 1] == ']';
    if IsBlank(cut) {
      BlankAt(cut, |cut| - 1);
    }
  }

  /** The application text of the first build: cleaned when the trimmer is on. */
  function TrimmedApp(r: AnswerGenerationRequest): string {
    var app := r.applicationContent.GetOr("");
    if r.enableTextTrimmer then CleanedProjectInfo(app) else app
  }

  /** With the trimmer on, the text to build with is empty or has something to show. */
  lemma TrimmedAppEmptyOrText(r: AnswerGenerationRequest)
    requires r.enableTextTrimmer
    ensures TrimmedApp(r) == "" || !IsBlank(TrimmedApp(r))
  {
    CleanedProjectInfoEmptyOrText(r.applicationContent.GetOr(""));
  }

  /** "1. q1", "2. q2", ...: the question list as BuildBatchPrompt numbers it. */
  function NumberedLines(qs: seq<string>): (r: seq<string>)
    ensures |r| == |qs|
  {
    seq(|qs|, i requires 0 <= i < |qs| => NumberedLine(i + 1, qs[i]))
  }

  lemma NumberedLinesSnoc(qs: seq<string>, i: nat)
    requires i < |qs|
    ensures NumberedLines(qs[..i + 1]) == NumberedLines(qs[..i]) + [NumberedLine(i + 1, qs[i])]
  {
  }

  /** Every numbered line reads back as its position (from 1) and its question. */
  lemma NumberedLinesParse(qs: seq<string>)
    ensures forall i :: 0 <= i < |qs| ==> ParseNumberedLine(NumberedLines(qs)[i]) == Some((i + 1, qs[i]))
  {
    forall i | 0 <= i < |qs| ensures ParseNumberedLine(NumberedLines(qs)[i]) == Some((i + 1, qs[i])) {
      NumberedLineRoundTrip(i + 1, qs[i]);
    }
  }

  // ================================================================ BuildBatchPrompt

  /** The headings of the two rule blocks every template opens with (the lines under them
      differ from template to template). */
  const NegativeConstraints: string := "NEGATIVE CONSTRAINTS (Violating these = FAIL):"
  const LanguageRules: string := "CRITICAL LANGUAGE RULES:"

  /** A line of the opening block of a text is part of the whole text. */
  lemma OpeningLineShown(block: seq<string>, rest: seq<string>, k: nat)
    requires k < |block|
    ensures Contains(Terminated(block + rest), block[k] + "\n")
  {
    TerminatedContains(block, k);
    ContainsInPrefix(block, rest, block[k] + "\n");
  }

  const BatchInstructions: seq<string> := [
    "!!! URGENT INSTRUCTIONS !!!",
    "1. IDENTITY LOCK: ...",
    "2. GOAL: Write a ...",
    "3. VOICE: First-person ...",
    "4. ADHERENCE: Answer ...",
    "",
    NegativeConstraints,
    "- NEVER say 'As an ...",
    "- NEVER use robotic ...",
    "- NEVER explain what ...",
    "- NEVER use asterisks ...",
    "",
    LanguageRules,
    "- Use ONLY A2-level ...",
    "- NEVER use hyphens ...",
    "- NEVER use asterisks ...",
    "- Keep sentences ...",
    "- Use only plain ...",
    "",
    "OUTPUT FORMAT (strict):",
    "1. Answer:",
    "...",
    "2. Answer:",
    "...",
    "(Continue until the ...",
    ""]

  /** What BuildInternal reads besides the application text: the request's fields after the
      null checks and the topic cap, and the question list. */
  datatype BatchContext = BatchContext(
    cv: string, applicationType: string, topic: string, languageLevel: string,
    notes: string, questions: seq<string>)

  function BatchContextLines(c: BatchContext): seq<string> {
    ["CONTEXT:",
     "- Application Type: " + OrElse(c.applicationType, DefaultApplicationType),
     "- Program Topic: " + OrElse(c.topic, DefaultTopic),
     "- Language Level: " + OrElse(c.languageLevel, DefaultLanguageLevel),
     ""]
  }

  function BatchAppSection(app: string): seq<string> {
    if IsBlank(app) then [] else ["PROJECT / APPLICATION INFO:", app, ""]
  }

  function CvBlock(cv: string): seq<string> {
    ["APPLICANT CV:", cv, ""]
  }

  function BatchNotesSection(notes: string): seq<string> {
    if IsBlank(notes) then [] else ["ADDITIONAL NOTES:", notes, ""]
  }

  /** The closing block: the numbered questions and the answer cue. */
  function QuestionBlock(qs: seq<string>): seq<string> {
    ["QUESTIONS:"] + NumberedLines(qs) + ["", "ANSWERS:"]
  }

  /** The lines BuildInternal appends before the questions. */
  function BatchOpening(c: BatchContext, app: string): seq<string> {
    BatchInstructions + BatchContextLines(c) + BatchAppSection(app) + CvBlock(c.cv) + BatchNotesSection(c.notes)
  }

  /** The lines BuildInternal(app) appends. */
  function BatchLines(c: BatchContext, app: string): seq<string> {
    BatchOpening(c, app) + QuestionBlock(c.questions)
  }

  /** The topic after the trimmer's 800-character cap. */
  function BatchTopic(r: AnswerGenerationRequest): string {
    var topic := r.programTopic.GetOr("");
    if r.enableTextTrimmer && |topic| > 800 then topic[..800] + "..." else topic
  }

  function BatchContextOf(r: AnswerGenerationRequest, questions: seq<string>): BatchContext {
    BatchContext(r.cvContent.GetOr(""), r.applicationType.GetOr(""), BatchTopic(r),
                 r.languageLevel.GetOr(""), r.additionalNotes.GetOr(""), questions)
  }

  /** The first build and, with the trimmer on and a prompt over the limit, the one rebuild. */
  function GuardedBatch(c: BatchContext, app: string, trimmer: bool): string {
    var first := Terminated(BatchLines(c, app));
    if trimmer && |first| > GuardLimit then Terminated(BatchLines(c, GuardedApp(app, |first|))) else first
  }

  /** What BuildBatchPrompt returns. */
  function BatchPrompt(r: AnswerGenerationRequest, questions: seq<string>): string {
    GuardedBatch(BatchContextOf(r, questions), TrimmedApp(r), r.enableTextTrimmer)
  }

  /** BuildBatchPrompt's local function BuildInternal: the StringBuilder and the numbering loop. */
  method BuildBatchInternal(c: BatchContext, appContentToUse: string) returns (prompt: string)
    ensures prompt == Terminated(BatchLines(c, appContentToUse))
  {
    var sb := BatchInstructions;
    var appType := if !IsBlank(c.applicationType) then c.applicationType else DefaultApplicationType;
    var topic := if !IsBlank(c.topic) then c.topic else DefaultTopic;
    var languageLevel := if !IsBlank(c.languageLevel) then c.languageLevel else DefaultLanguageLevel;
    sb := sb + ["CONTEXT:", "- Application Type: " + appType, "- Program Topic: " + topic,
                "- Language Level: " + languageLevel, ""];
    sb := sb + BatchAppSection(appContentToUse);
    sb := sb + ["APPLICANT CV:", c.cv, ""];
    sb := sb + BatchNotesSection(c.notes);
    assert sb == BatchOpening(c, appContentToUse);
    sb := sb + ["QUESTIONS:"];
    ghost var before := sb;
    for i := 0 to |c.questions|
      invariant sb == before + NumberedLines(c.questions[..i])
    {
      NumberedLinesSnoc(c.questions, i);
      AppendAssoc(before, NumberedLines(c.questions[..i]), [NumberedLine(i + 1, c.questions[i])]);
      sb := sb + [NumberedLine(i + 1, c.questions[i])];
    }
    assert c.questions[..|c.questions|] == c.questions;
    sb := sb + ["", "ANSWERS:"];
    AppendAssoc(BatchOpening(c, appContentToUse), ["QUESTIONS:"], NumberedLines(c.questions));
    AppendAssoc(BatchOpening(c, appContentToUse), ["QUESTIONS:"] + NumberedLines(c.questions), ["", "ANSWERS:"]);
    prompt := Terminated(sb);
  }

  /** BuildBatchPrompt(request, questions): null checks, the trimmer rules, the first build and
      the one-pass length guard. */
  method BuildBatchPrompt(r: AnswerGenerationRequest, questions: seq<string>) returns (prompt: string)
    ensures prompt == BatchPrompt(r, questions)
  {
    var programTopic := r.programTopic.GetOr("");
    var applicationContent := r.applicationContent.GetOr("");
    if r.enableTextTrimmer {
      if |programTopic| > 800 {
        programTopic := programTopic[..800] + "...";
      }
      applicationContent := CleanProjectInfo(applicationContent);
    }
    var c := BatchContext(r.cvContent.GetOr(""), r.applicationType.GetOr(""), programTopic,
                          r.languageLevel.GetOr(""), r.additionalNotes.GetOr(""), questions);
    prompt := BuildBatchInternal(c, applicationContent);
    if r.enableTextTrimmer && |prompt| > GuardLimit {
      var excess := |prompt| - GuardLimit;
      var newLength := |applicationContent| - excess - SafetyBuffer;
      if newLength < 0 {
        newLength := 0;
      }
      var truncatedAppContent := if newLength > 0 then applicationContent[..newLength] + GuardMarker else GuardNotice;
      prompt := BuildBatchInternal(c, truncatedAppContent);
    }
  }

  /** Whatever the guard does, the batch prompt is BuildInternal's text for some application text,
      and it is the first build's whenever the guard does not fire. */
  lemma GuardedBatchShape(c: BatchContext, app: string, trimmer: bool)
    ensures !(trimmer && |Terminated(BatchLines(c, app))| > GuardLimit) ==>
              GuardedBatch(c, app, trimmer) == Terminated(BatchLines(c, app))
    ensures trimmer && |Terminated(BatchLines(c, app))| > GuardLimit ==>
              GuardedBatch(c, app, trimmer) == Terminated(BatchLines(c, GuardedApp(app, |Terminated(BatchLines(c, app))|)))
  {
  }

  /** Every batch prompt ends with the questions, numbered from 1 in their order, and the answer cue,
      and shows the CV under its heading, whether or not the guard rebuilt it. */
  lemma GuardedBatchContents(c: BatchContext, app: string, trimmer: bool)
    ensures EndsWith(GuardedBatch(c, app, trimmer), Terminated(QuestionBlock(c.questions)))
    ensures Contains(GuardedBatch(c, app, trimmer), "APPLICANT CV:\n" + c.cv + "\n\n")
  {
    var first := Terminated(BatchLines(c, app));
    if trimmer && |first| > GuardLimit {
      BatchLinesContents(c, GuardedApp(app, |first|));
    } else {
      BatchLinesContents(c, app);
    }
  }

  lemma BatchLinesContents(c: BatchContext, app: string)
    ensures EndsWith(Terminated(BatchLines(c, app)), Terminated(QuestionBlock(c.questions)))
    ensures Contains(Terminated(BatchLines(c, app)), "APPLICANT CV:\n" + c.cv + "\n\n")
  {
    TerminatedConcat(BatchOpening(c, app), QuestionBlock(c.questions));
    var head := BatchInstructions + BatchContextLines(c) + BatchAppSection(app);
    TerminatedTriple("APPLICANT CV:", c.cv, "");
    assert Terminated(CvBlock(c.cv)) == "APPLICANT CV:\n" + c.cv + "\n\n";
    ContainsLine([], "APPLICANT CV:", [c.cv, ""]);
    TerminatedConcat(head, CvBlock(c.cv));
    ContainsMiddle(Terminated(head), Terminated(CvBlock(c.cv)), "");
    assert Terminated(head) + Terminated(CvBlock(c.cv)) + "" == Terminated(head + CvBlock(c.cv));
    ContainsInPrefix(head + CvBlock(c.cv), BatchNotesSection(c.notes), "APPLICANT CV:\n" + c.cv + "\n\n");
    ContainsInPrefix(BatchOpening(c, app), QuestionBlock(c.questions), "APPLICANT CV:\n" + c.cv + "\n\n");
  }

  /** Both rule blocks open every batch prompt, whether or not the guard rebuilt it. */
  lemma GuardedBatchRules(c: BatchContext, app: string, trimmer: bool)
    ensures Contains(GuardedBatch(c, app, trimmer), NegativeConstraints + "\n")
    ensures Contains(GuardedBatch(c, app, trimmer), LanguageRules + "\n")
  {
    var first := Terminated(BatchLines(c, app));
    if trimmer && |first| > GuardLimit {
      BatchLinesRules(c, GuardedApp(app, |first|));
    } else {
      BatchLinesRules(c, app);
    }
  }

  lemma BatchLinesRules(c: BatchContext, app: string)
    ensures Contains(Terminated(BatchLines(c, app)), NegativeConstraints + "\n")
    ensures Contains(Terminated(BatchLines(c, app)), LanguageRules + "\n")
  {
    var rest := BatchContextLines(c) + BatchAppSection(app) + CvBlock(c.cv) + BatchNotesSection(c.notes)
                + QuestionBlock(c.questions);
    assert BatchLines(c, app) == BatchInstructions + rest;
    assert BatchInstructions[6] == NegativeConstraints && BatchInstructions[12] == LanguageRules;
    OpeningLineShown(BatchInstructions, rest, 6);
    OpeningLineShown(BatchInstructions, rest, 12);
  }

  /** The batch prompt's length is the sum of its parts; only the application section depends on the application text. */
  lemma BatchLinesLength(c: BatchContext, app: string)
    ensures |Terminated(BatchLines(c, app))| ==
              |Terminated(BatchInstructions + BatchContextLines(c))| + |Terminated(BatchAppSection(app))|
              + |Terminated(CvBlock(c.cv))| + |Terminated(BatchNotesSection(c.notes))| + |Terminated(QuestionBlock(c.questions))|
  {
    TerminatedConcat(BatchOpening(c, app), QuestionBlock(c.questions));
    TerminatedConcat(BatchInstructions + BatchContextLines(c) + BatchAppSection(app) + CvBlock(c.cv), BatchNotesSection(c.notes));
    TerminatedConcat(BatchInstructions + BatchContextLines(c) + BatchAppSection(app), CvBlock(c.cv));
    TerminatedConcat(BatchInstructions + BatchContextLines(c), BatchAppSection(app));
  }

  /** A non-empty application text that is not blank takes 30 characters more than itself:
      the heading line, its own line break and the blank line after it. */
  lemma BatchAppSectionLength(app: string)
    requires !IsBlank(app)
    ensures |Terminated(BatchAppSection(app))| == |app| + 30
  {
    TerminatedTriple("PROJECT / APPLICATION INFO:", app, "");
  }

  /** When the guard keeps part of an application text that is empty or not blank, the rebuilt batch
      prompt is exactly 82 characters under the limit (the 100-character buffer less the 18-character marker). */
  lemma GuardedBatchLength(c: BatchContext, app: string)
    requires app == "" || !IsBlank(app)
    requires |Terminated(BatchLines(c, app))| > GuardLimit
    requires GuardLength(|app|, |Terminated(BatchLines(c, app))|) > 0
    ensures |GuardedBatch(c, app, true)| == GuardLimit - SafetyBuffer + |GuardMarker|
  {
    var first := Terminated(BatchLines(c, app));
    var cut := GuardedApp(app, |first|);
    GuardedAppNotBlank(app, |first|);
    BatchAppSectionLength(app);
    BatchAppSectionLength(cut);
    BatchLinesLength(c, app);
    BatchLinesLength(c, cut);
  }

  /** The same bound for BuildBatchPrompt: with the trimmer on, a guard that keeps part of the
      application text leaves the prompt at 5918 characters. */
  lemma BatchPromptGuardLength(r: AnswerGenerationRequest, questions: seq<string>)
    requires r.enableTextTrimmer
    requires |Terminated(BatchLines(BatchContextOf(r, questions), TrimmedApp(r)))| > GuardLimit
    requires GuardLength(|TrimmedApp(r)|, |Terminated(BatchLines(BatchContextOf(r, questions), TrimmedApp(r)))|) > 0
    ensures |BatchPrompt(r, questions)| == GuardLimit - SafetyBuffer + |GuardMarker|
    ensures |BatchPrompt(r, questions)| < GuardLimit
  {
    TrimmedAppEmptyOrText(r);
    GuardedBatchLength(BatchContextOf(r, questions), TrimmedApp(r));
  }

  /** A blank application type, topic or language level is replaced by its fallback text. */
  lemma BatchContextFallbacks(c: BatchContext)
    ensures IsBlank(c.applicationType) ==> BatchContextLines(c)[1] == "- Application Type: " + DefaultApplicationType
    ensures !IsBlank(c.applicationType) ==> BatchContextLines(c)[1] == "- Application Type: " + c.applicationType
    ensures IsBlank(c.topic) ==> BatchContextLines(c)[2] == "- Program Topic: " + DefaultTopic
    ensures !IsBlank(c.topic) ==> BatchContextLines(c)[2] == "- Program Topic: " + c.topic
    ensures IsBlank(c.languageLevel) ==> BatchContextLines(c)[3] == "- Language Level: " + DefaultLanguageLevel
    ensures !IsBlank(c.languageLevel) ==> BatchContextLines(c)[3] == "- Language Level: " + c.languageLevel
  {
  }

  // ================================================================ BuildPrompt

  const EmptyInputReply: string := "Please provide CV content and a question."
  const Rule: string := "=========================================="

  /** A heading between two rules of '=' characters. */
  function Banner(title: string): seq<string> {
    [Rule, title, Rule]
  }

  const ContextBanner: seq<string> := Banner("               CONTEXT")
  const QuestionBanner: seq<string> := Banner("             THE QUESTION")
  const ProfileBanner: seq<string> := Banner("          APPLICANT PROFILE (CV)")
  const InstructionsBanner: seq<string> := Banner("             INSTRUCTIONS")
  const CvBanner: seq<string> := Banner("               CV SECTION")
  const ApplicationBanner: seq<string> := Banner("           APPLICATION SECTION")
  const NotesBanner: seq<string> := Banner("                 NOTES")
  const AnswerBanner: seq<string> := Banner("            YOUR ANSWER:")
  const ResponseBanner: seq<string> := Banner("            YOUR RESPONSE:")

  const SingleRoleLines: seq<string> := [
    "!!! URGENT INSTRUCTIONS !!!", "1. IDENTITY LOCK: ...", "2. GOAL: Write a ...", "3. VOICE: First-person ...", "4. ADHERENCE: Answer ...", "",
    NegativeConstraints, "- NEVER say 'As an ...", "- NEVER use robotic ...", "- NEVER explain what ...", "- NEVER give advice ...", "- NEVER use asterisks ...", "",
    LanguageRules, "- Use ONLY A2-level ...", "- NEVER use hyphens ...", "- NEVER use asterisks ...", "- Keep sentences ...", "- Use only plain ...", "",
    "Question handling rules:", "- Treat ONLY explicit ...", "- Only include lines ...", "- Ignore lines containing: ...", "- Ignore navigation ...", ""]


  /** The last instruction of a single-question prompt: the applicant's own voice, no AI disclaimers. */
  const PersonaLine: string := "6. **Persona:** You are the applicant. NEVER use phrases like 'As an AI', 'I cannot answer', or 'Based on the CV'. Answer directly."

  const SingleInstructionLines: seq<string> := ["1. **Relevance:** ...", "2. **Tone:** Professional, ...", "3. **Structure:** ...", "4. **Specificity:** ...", "5. **Factuality:** ...", PersonaLine]

  const ProfessionalLevel: string := "Write in professional English"
  const IntermediateLevel: string := "Write in intermediate English"

  /** BuildPrompt's language level: the user's text, else a level inferred from the CEFR marks in a non-blank CV. */
  function LanguageLevelFor(input: string, cv: string): string {
    if !IsBlank(input) then input
    else if !IsBlank(cv) && (Contains(cv, "B2") || Contains(cv, "C1") || Contains(cv, "C2")) then ProfessionalLevel
    else if !IsBlank(cv) && Contains(cv, "B1") then IntermediateLevel
    else DefaultLanguageLevel
  }

  function CategoryLines(category: string): seq<string> {
    if IsBlank(category) then [] else ["**Category:** " + category]
  }

  function QuestionLine(question: string): string {
    "**Question:** " + question
  }

  /** The length instruction, written only when a character limit was given. */
  function LengthLine(limit: int): string {
    "6. **Length:** STRICTLY limit your answer to approximately " + IntToString(limit) + " characters."
  }

  function LengthLines(limit: Option<int>): seq<string> {
    if limit.Some? then [LengthLine(limit.value)] else []
  }

  function NoteLines(notes: string): seq<string> {
    if IsBlank(notes) then [] else ["7. **Additional Notes:** " + notes]
  }

  function SingleContextLines(r: AnswerGenerationRequest): seq<string> {
    ["- **Application Type:** " + OrElse(r.applicationType.GetOr(""), DefaultApplicationType),
     "- **Program Topic:** " + OrElse(r.programTopic.GetOr(""), DefaultTopic),
     "- **Language Level:** " + LanguageLevelFor(r.languageLevel.GetOr(""), r.cvContent.GetOr("")),
     ""]
  }

  /** The role block, the context and the question heading, with the category when there is one. */
  function SingleFront(r: AnswerGenerationRequest): seq<string> {
    SingleRoleLines + ContextBanner + SingleContextLines(r) + QuestionBanner + CategoryLines(r.questionCategory.GetOr(""))
  }

  /** Everything after the question line: the CV and the instructions. */
  function SingleBack(r: AnswerGenerationRequest): seq<string> {
    [""] + ProfileBanner + [r.cvContent.GetOr(""), ""] + InstructionsBanner + SingleInstructionLines
    + LengthLines(r.characterLimit) + NoteLines(r.additionalNotes.GetOr("")) + [""] + AnswerBanner
  }

  /** The lines BuildPrompt appends when it builds a single-question prompt. */
  function SingleLines(r: AnswerGenerationRequest): seq<string> {
    SingleFront(r) + [QuestionLine(r.question.GetOr(""))] + SingleBack(r)
  }

  /** What BuildPrompt returns. */
  function PromptFor(r: AnswerGenerationRequest): string {
    if !IsBlank(r.applicationContent.GetOr("")) then AppModePrompt(r)
    else if IsBlank(r.cvContent.GetOr("")) && IsBlank(r.question.GetOr("")) then EmptyInputReply
    else Terminated(SingleLines(r))
  }

  /** BuildPrompt(request): application mode when application text is given, a fixed reply when
      there is nothing to answer, and otherwise the single-question prompt. */
  method BuildPrompt(r: AnswerGenerationRequest) returns (prompt: string)
    ensures prompt == PromptFor(r)
  {
    if !IsBlank(r.applicationContent.GetOr("")) {
      prompt := BuildApplicationModePrompt(r);
      return;
    }
    if IsBlank(r.cvContent.GetOr("")) && IsBlank(r.question.GetOr("")) {
      return EmptyInputReply;
    }
    prompt := BuildSinglePrompt(r);
  }

  /** The rest of BuildPrompt, past the two early returns: the single-question StringBuilder. */
  method BuildSinglePrompt(r: AnswerGenerationRequest) returns (prompt: string)
    ensures prompt == Terminated(SingleLines(r))
  {
    var cvContent := r.cvContent.GetOr("");
    var applicationType := r.applicationType.GetOr("");
    var programTopic := r.programTopic.GetOr("");
    var question := r.question.GetOr("");
    var additionalNotes := r.additionalNotes.GetOr("");
    var languageLevelInput := r.languageLevel.GetOr("");
    var questionCategory := r.questionCategory.GetOr("");
    var sb := SingleRoleLines;
    sb := sb + ContextBanner;
    var appType := if !IsBlank(applicationType) then applicationType else DefaultApplicationType;
    var topic := if !IsBlank(programTopic) then programTopic else DefaultTopic;
    var languageLevel := DefaultLanguageLevel;
    if !IsBlank(languageLevelInput) {
      languageLevel := languageLevelInput;
    } else if !IsBlank(cvContent) {
      if Contains(cvContent, "B2") || Contains(cvContent, "C1") || Contains(cvContent, "C2") {
        languageLevel := ProfessionalLevel;
      } else if Contains(cvContent, "B1") {
        languageLevel := IntermediateLevel;
      }
    }
    assert languageLevel == LanguageLevelFor(languageLevelInput, cvContent);
    var context := ["- **Application Type:** " + appType, "- **Program Topic:** " + topic,
                    "- **Language Level:** " + languageLevel, ""];
    assert context == SingleContextLines(r);
    sb := sb + context;
    sb := sb + QuestionBanner;
    sb := sb + CategoryLines(questionCategory);
    assert sb == SingleFront(r);
    sb := sb + [QuestionLine(question)];
    ghost var head := sb;
    ghost var back: seq<string> := [""];
    sb := sb + [""];
    AppendAssoc(head, back, ProfileBanner);
    sb, back := sb + ProfileBanner, back + ProfileBanner;
    AppendAssoc(head, back, [cvContent, ""]);
    sb, back := sb + [cvContent, ""], back + [cvContent, ""];
    AppendAssoc(head, back, InstructionsBanner);
    sb, back := sb + InstructionsBanner, back + InstructionsBanner;
    AppendAssoc(head, back, SingleInstructionLines);
    sb, back := sb + SingleInstructionLines, back + SingleInstructionLines;
    var length := LengthLines(r.characterLimit);
    AppendAssoc(head, back, length);
    sb, back := sb + length, back + length;
    var note := NoteLines(additionalNotes);
    AppendAssoc(head, back, note);
    sb, back := sb + note, back + note;
    AppendAssoc(head, back, [""]);
    sb, back := sb + [""], back + [""];
    AppendAssoc(head, back, AnswerBanner);
    sb, back := sb + AnswerBanner, back + AnswerBanner;
    assert back == SingleBack(r);
    prompt := Terminated(sb);
  }

  /** A non-blank language level is used as given; otherwise C1, C2 or B2 in the CV wins over B1,
      and the fallback is used when the CV names neither. */
  lemma LanguageLevelInference(input: string, cv: string)
    ensures !IsBlank(input) ==> LanguageLevelFor(input, cv) == input
    ensures IsBlank(input) && (Contains(cv, "B2") || Contains(cv, "C1") || Contains(cv, "C2")) ==>
              LanguageLevelFor(input, cv) == ProfessionalLevel
    ensures IsBlank(input) && Contains(cv, "B1") && !Contains(cv, "B2") && !Contains(cv, "C1") && !Contains(cv, "C2") ==>
              LanguageLevelFor(input, cv) == IntermediateLevel
    ensures IsBlank(input) && !Contains(cv, "B1") && !Contains(cv, "B2") && !Contains(cv, "C1") && !Contains(cv, "C2") ==>
              LanguageLevelFor(input, cv) == DefaultLanguageLevel
  {
    if IsBlank(input) && IsBlank(cv) {
      // A blank CV holds no letter, so it names no level.
      BlankHasNo(cv, "B2");
      BlankHasNo(cv, "C1");
      BlankHasNo(cv, "C2");
      BlankHasNo(cv, "B1");
    }
  }

  /** A blank string contains no text that starts with a letter. */
  lemma BlankHasNo(s: string, sub: string)
    requires IsBlank(s) && sub != [] && !IsWhite(sub[0])
    ensures !Contains(s, sub)
  {
    if Contains(s, sub) {
      var i := ContainsWitness(s, sub);
      assert s[i] == sub[0];
      BlankAt(s, i);
    }
  }

  /** A single-question prompt starts with the urgent-instructions banner. */
  lemma SinglePromptHead(r: AnswerGenerationRequest)
    ensures Terminated(SingleLines(r)) != [] && Terminated(SingleLines(r))[0] == '!'
  {
    assert SingleFront(r)[0] == SingleRoleLines[0];
    TerminatedHeadChar(SingleFront(r), [QuestionLine(r.question.GetOr(""))] + SingleBack(r));
    AppendAssoc(SingleFront(r), [QuestionLine(r.question.GetOr(""))], SingleBack(r));
  }

  /** BuildPrompt answers with the fixed reply exactly when there is no application text, no CV and no question. */
  lemma PromptEmptyInput(r: AnswerGenerationRequest)
    ensures PromptFor(r) == EmptyInputReply <==>
              IsBlank(r.applicationContent.GetOr("")) && IsBlank(r.cvContent.GetOr("")) && IsBlank(r.question.GetOr(""))
  {
    if !IsBlank(r.applicationContent.GetOr("")) {
      AppModePromptHead(r);
      NotReply(AppModePrompt(r));
    } else if !(IsBlank(r.cvContent.GetOr("")) && IsBlank(r.question.GetOr(""))) {
      SinglePromptHead(r);
      NotReply(Terminated(SingleLines(r)));
    }
  }

  /** A prompt that starts with '!' is not the fixed reply. */
  lemma NotReply(s: string)
    requires s != [] && s[0] == '!'
    ensures s != EmptyInputReply
  {
    assert EmptyInputReply[0] == 'P';
  }

  /** The single-question prompt always states the question, the CV and the persona rule, each on its own line. */
  lemma SinglePromptContents(r: AnswerGenerationRequest)
    ensures Contains(Terminated(SingleLines(r)), QuestionLine(r.question.GetOr("")) + "\n")
    ensures Contains(Terminated(SingleLines(r)), r.cvContent.GetOr("") + "\n")
    ensures Contains(Terminated(SingleLines(r)), PersonaLine + "\n")
  {
    var cv := r.cvContent.GetOr("");
    var front := SingleFront(r) + [QuestionLine(r.question.GetOr(""))];
    ContainsLine(SingleFront(r), QuestionLine(r.question.GetOr("")), SingleBack(r));
    var cvHead := [""] + ProfileBanner;
    ContainsLine(cvHead, cv, [""]);
    var toCv := cvHead + [cv, ""];
    assert cvHead + [cv] + [""] == toCv;
    TerminatedContains(SingleInstructionLines, 5);
    ContainsInSuffix(toCv + InstructionsBanner, SingleInstructionLines, PersonaLine + "\n");
    var toPersona := toCv + InstructionsBanner + SingleInstructionLines;
    ContainsInPrefix(toCv, InstructionsBanner, cv + "\n");
    ContainsInPrefix(toCv + InstructionsBanner, SingleInstructionLines, cv + "\n");
    BackKeeps(r, toPersona, cv + "\n");
    BackKeeps(r, toPersona, PersonaLine + "\n");
    ContainsInSuffix(front, SingleBack(r), cv + "\n");
    ContainsInSuffix(front, SingleBack(r), PersonaLine + "\n");
  }

  /** The single-question prompt opens with both rule blocks too. */
  lemma SinglePromptRules(r: AnswerGenerationRequest)
    ensures Contains(Terminated(SingleLines(r)), NegativeConstraints + "\n")
    ensures Contains(Terminated(SingleLines(r)), LanguageRules + "\n")
  {
    var rest := ContextBanner + SingleContextLines(r) + QuestionBanner + CategoryLines(r.questionCategory.GetOr(""))
                + [QuestionLine(r.question.GetOr(""))] + SingleBack(r);
    assert SingleLines(r) == SingleRoleLines + rest;
    assert SingleRoleLines[6] == NegativeConstraints && SingleRoleLines[13] == LanguageRules;
    OpeningLineShown(SingleRoleLines, rest, 6);
    OpeningLineShown(SingleRoleLines, rest, 13);
  }

  /** What the start of the back part shows, all of the back part shows. */
  lemma BackKeeps(r: AnswerGenerationRequest, toPersona: seq<string>, sub: string)
    requires toPersona == [""] + ProfileBanner + [r.cvContent.GetOr(""), ""] + InstructionsBanner + SingleInstructionLines
    requires Contains(Terminated(toPersona), sub)
    ensures Contains(Terminated(SingleBack(r)), sub)
  {
    var limit := LengthLines(r.characterLimit);
    var notes := NoteLines(r.additionalNotes.GetOr(""));
    ContainsInPrefix(toPersona, limit, sub);
    ContainsInPrefix(toPersona + limit, notes, sub);
    ContainsInPrefix(toPersona + limit + notes, [""], sub);
    ContainsInPrefix(toPersona + limit + notes + [""], AnswerBanner, sub);
  }

  /** A given character limit is passed on as a length instruction. */
  lemma SinglePromptLimit(r: AnswerGenerationRequest)
    requires r.characterLimit.Some?
    ensures Contains(Terminated(SingleLines(r)), LengthLine(r.characterLimit.value) + "\n")
  {
    var line := LengthLine(r.characterLimit.value);
    var toPersona := [""] + ProfileBanner + [r.cvContent.GetOr(""), ""] + InstructionsBanner + SingleInstructionLines;
    var notes := NoteLines(r.additionalNotes.GetOr(""));
    ContainsLine(toPersona, line, []);
    assert toPersona + [line] + [] == toPersona + LengthLines(r.characterLimit);
    ContainsInPrefix(toPersona + [line], notes, line + "\n");
    ContainsInPrefix(toPersona + [line] + notes, [""], line + "\n");
    ContainsInPrefix(toPersona + [line] + notes + [""], AnswerBanner, line + "\n");
    ContainsInSuffix(SingleFront(r) + [QuestionLine(r.question.GetOr(""))], SingleBack(r), line + "\n");
  }

  // ================================================================ BuildApplicationModePrompt

  const Separator: string := "###SYSTEM_END###"

  const AppRoleLines: seq<string> := [
    "!!! URGENT INSTRUCTIONS !!!", "1. IDENTITY LOCK: ...", "2. GOAL: Write a ...", "3. VOICE: First-person ...", "",
    NegativeConstraints, "- NEVER say 'As an ...", "- NEVER use robotic ...", "- NEVER explain what ...", "- NEVER use asterisks ...", "", "",
    LanguageRules, "- Use ONLY A2-level ...", "- NEVER use hyphens ...", "- NEVER EVER use ...", "- Keep sentences ...", "- Use common everyday words", "- No formatting symbols ...", "",
    "If the question asks:", "- Name -> return only the name.", "- Email -> return ...", "- Date -> return only the date.", "- Yes/No -> return ...", "- Short factual field ...", "Break this rule and ...", ""]

  /** The lines of the role blocks that the providers' heuristics and the mode lemmas look for. */
  const MotivationTask: string := "Your task is to write a highly professional, structured, and convincing Motivation Letter."
  const ExtractorIdentity: string := "You are a specialized form data extractor."
  const ExtractorTask: string := "Your task is to analyze the content, extract ONLY explicit application form questions, and provide professional answers."
  const FormIdentity: string := "You are filling out ..."
  const SeparateAnswersRule: string := "Answer each question separately."

  const MotivationRoleLines: seq<string> := ["You are a professional ...", MotivationTask]

  const ExtractorRoleLines: seq<string> := [ExtractorIdentity, ExtractorTask, "Ignore navigation, ..."]

  const FormRoleLines: seq<string> := [
    FormIdentity, "Answer each extracted question.", "Rules:", "- No introduction", "- No explanation", "- No commentary", "- No rewriting CV", "- No improvements", "- Only answer questions", "",
    "Format strictly:", "Q1: {question}", "Answer:", "{answer}", "", "Repeat for all questions."]

  const MotivationInstructionLines: seq<string> := ["1. **Structure:** ...", "2. **Tone:** Enthusiastic, ...", "3. **Language:** ...", "4. **Formatting:** ...", "5. **Alignment:** ...", "6. **No Hallucination:** ..."]

  const QuestionModeInstructionLines: seq<string> := [
    "You are filling an ...", SeparateAnswersRule, "Rules:", "- Do NOT merge answers.", "- Do NOT generate ...", "- Do NOT add introduction.", "- Do NOT add conclusion.", "- Do NOT comment.", "- Answer directly and concisely.", "",
    "Output format:", "Q1: {question}", "Answer:", "{answer}", "", "Q2: {question}", "Answer:", "{answer}", "Repeat until finished."]

  const GenericInstructionLines: seq<string> := ["1. Identify the key ...", "2. Provide structured ...", "3. **Constraint:** ..."]


  /** The role block: motivation letter first, then the question-extraction mode, else form filling. */
  function AppModeRole(r: AnswerGenerationRequest): seq<string> {
    if r.isMotivationLetter then MotivationRoleLines
    else if r.useQuestionMode then ExtractorRoleLines
    else FormRoleLines
  }

  /** Paragraph mode's instructions when a question is given. */
  function ParagraphInstructionLines(question: string): seq<string> {
    ["**Specific Question to Answer:** " + question, "1. Answer ONLY this question.", "2. Use the CV and Application info to provide evidence."]
  }

  /** The instruction block, chosen by the same two switches; paragraph mode names the question when there is one. */
  function AppInstructions(r: AnswerGenerationRequest): seq<string> {
    if r.isMotivationLetter then MotivationInstructionLines
    else if r.useQuestionMode then QuestionModeInstructionLines
    else if !IsBlank(r.question.GetOr("")) then ParagraphInstructionLines(r.question.GetOr(""))
    else GenericInstructionLines
  }

  const SeparatorBlock: seq<string> := ["", Separator, ""]

  /** The system part: everything up to and including the separator line the providers split on. */
  function AppSystemLines(r: AnswerGenerationRequest): seq<string> {
    AppRoleLines + AppModeRole(r) + SeparatorBlock
  }

  function AppNotesSection(notes: string): seq<string> {
    if IsBlank(notes) then [] else NotesBanner + [notes, ""]
  }

  /** The closing block that repeats the notes as instructions to follow, present even when they are empty. */
  function AdditionalBlock(notes: string): seq<string> {
    ["", "--- ADDITIONAL INSTRUCTIONS ---", "You MUST follow these instructions strictly:", notes, "--- END OF ADDITIONAL INSTRUCTIONS ---", ""]
  }

  /** The user part up to the application text: the CV section and the application heading. */
  function AppUserFront(r: AnswerGenerationRequest): seq<string> {
    CvBanner + [r.cvContent.GetOr(""), ""] + ApplicationBanner
  }

  /** The user part after the application text. */
  function AppModeTail(r: AnswerGenerationRequest): seq<string> {
    var notes := r.additionalNotes.GetOr("");
    [""] + AppNotesSection(notes) + InstructionsBanner + AppInstructions(r) + AdditionalBlock(notes) + ResponseBanner
  }

  function AppUserLines(r: AnswerGenerationRequest, app: string): seq<string> {
    AppUserFront(r) + [app] + AppModeTail(r)
  }

  /** The lines BuildApplicationModePrompt's BuildInternal(app) appends. */
  function AppModeLines(r: AnswerGenerationRequest, app: string): seq<string> {
    AppSystemLines(r) + AppUserLines(r, app)
  }

  /** The first build from the given application text, or the one rebuild with its guarded form. */
  function AppModePromptFrom(r: AnswerGenerationRequest, app: string): string {
    var first := Terminated(AppModeLines(r, app));
    if r.enableTextTrimmer && |first| > GuardLimit then Terminated(AppModeLines(r, GuardedApp(app, |first|))) else first
  }

  /** What BuildApplicationModePrompt returns. */
  function AppModePrompt(r: AnswerGenerationRequest): string {
    AppModePromptFrom(r, TrimmedApp(r))
  }

  /** BuildApplicationModePrompt's local function BuildInternal. */
  method BuildAppModeInternal(r: AnswerGenerationRequest, appContentToUse: string) returns (prompt: string)
    ensures prompt == Terminated(AppModeLines(r, appContentToUse))
  {
    var cvContent := r.cvContent.GetOr("");
    var notes := r.additionalNotes.GetOr("");
    var sb := AppRoleLines;
    var role := AppModeRole(r);
    sb := sb + role;
    sb := sb + ["", Separator, ""];
    assert sb == AppSystemLines(r);
    // `user` is what has been appended after the separator, `tail` what follows the application text.
    ghost var sys := sb;
    ghost var user := CvBanner;
    sb := sb + CvBanner;
    AppendAssoc(sys, user, [cvContent, ""]);
    sb, user := sb + [cvContent, ""], user + [cvContent, ""];
    AppendAssoc(sys, user, ApplicationBanner);
    sb, user := sb + ApplicationBanner, user + ApplicationBanner;
    AppendAssoc(sys, user, [appContentToUse]);
    sb, user := sb + [appContentToUse], user + [appContentToUse];
    assert sb == sys + (AppUserFront(r) + [appContentToUse]);
    ghost var head := sb;
    ghost var tail: seq<string> := [""];
    sb := sb + [""];
    var notesSection := AppNotesSection(notes);
    AppendAssoc(head, tail, notesSection);
    sb, tail := sb + notesSection, tail + notesSection;
    AppendAssoc(head, tail, InstructionsBanner);
    sb, tail := sb + InstructionsBanner, tail + InstructionsBanner;
    var instructions := AppInstructions(r);
    AppendAssoc(head, tail, instructions);
    sb, tail := sb + instructions, tail + instructions;
    AppendAssoc(head, tail, AdditionalBlock(notes));
    sb, tail := sb + AdditionalBlock(notes), tail + AdditionalBlock(notes);
    AppendAssoc(head, tail, ResponseBanner);
    sb, tail := sb + ResponseBanner, tail + ResponseBanner;
    assert tail == AppModeTail(r);
    AppendAssoc(sys, AppUserFront(r) + [appContentToUse], tail);
    prompt := Terminated(sb);
  }

  /** BuildApplicationModePrompt(request): the trimmer's cleaning, the first build and the length guard. */
  method BuildApplicationModePrompt(r: AnswerGenerationRequest) returns (prompt: string)
    ensures prompt == AppModePrompt(r)
  {
    var appContent := r.applicationContent.GetOr("");
    if r.enableTextTrimmer {
      appContent := CleanProjectInfo(appContent);
    }
    prompt := BuildAppModeGuarded(r, appContent);
  }

  /** The rest of BuildApplicationModePrompt: the first build and the one-pass length guard. */
  method BuildAppModeGuarded(r: AnswerGenerationRequest, appContent: string) returns (prompt: string)
    ensures prompt == AppModePromptFrom(r, appContent)
  {
    prompt := BuildAppModeInternal(r, appContent);
    if r.enableTextTrimmer && |prompt| > GuardLimit {
      prompt := RebuildGuarded(r, appContent, |prompt|);
    }
  }

  /** The guard's rebuild after a first prompt of promptLength characters: the application
      text cut by the excess and the safety buffer, or the notice when nothing is left. */
  method RebuildGuarded(r: AnswerGenerationRequest, appContent: string, promptLength: nat) returns (prompt: string)
    requires promptLength > GuardLimit
    ensures prompt == Terminated(AppModeLines(r, GuardedApp(appContent, promptLength)))
  {
    var excess := promptLength - GuardLimit;
    var newLength := |appContent| - excess - SafetyBuffer;
    if newLength < 0 {
      newLength := 0;
    }
    var truncatedAppContent := if newLength > 0 then appContent[..newLength] + GuardMarker else GuardNotice;
    prompt := BuildAppModeInternal(r, truncatedAppContent);
  }

  /** Only the application text varies the length of an application-mode prompt. */
  lemma AppModeLinesLength(r: AnswerGenerationRequest, app: string)
    ensures |Terminated(AppModeLines(r, app))| ==
              |Terminated(AppSystemLines(r))| + |Terminated(AppUserFront(r))| + |app| + 1 + |Terminated(AppModeTail(r))|
  {
    TerminatedConcat(AppSystemLines(r), AppUserLines(r, app));
    TerminatedConcat(AppUserFront(r) + [app], AppModeTail(r));
    TerminatedConcat(AppUserFront(r), [app]);
    assert Terminated([app]) == app + "\n";
  }

  /** The separator block is the separator on a line of its own, followed by a blank line. */
  lemma SeparatorBlockText()
    ensures Terminated(SeparatorBlock) == "\n" + Separator + "\n\n"
  {
    TerminatedTriple("", Separator, "");
  }

  /** The prompt is the system part, ending with the separator line and a blank line, followed by the user part. */
  lemma AppModeSeparated(r: AnswerGenerationRequest, app: string)
    ensures Terminated(AppModeLines(r, app)) == Terminated(AppSystemLines(r)) + Terminated(AppUserLines(r, app))
    ensures EndsWith(Terminated(AppSystemLines(r)), Terminated(SeparatorBlock))
  {
    TerminatedConcat(AppSystemLines(r), AppUserLines(r, app));
    TerminatedConcat(AppRoleLines + AppModeRole(r), SeparatorBlock);
    EndsWithAppend(Terminated(AppRoleLines + AppModeRole(r)), Terminated(SeparatorBlock));
  }

  /** Both rule blocks are part of the system part of every application-mode build. */
  lemma AppModeRules(r: AnswerGenerationRequest)
    ensures Contains(Terminated(AppSystemLines(r)), NegativeConstraints + "\n")
    ensures Contains(Terminated(AppSystemLines(r)), LanguageRules + "\n")
  {
    var rest := AppModeRole(r) + SeparatorBlock;
    assert AppSystemLines(r) == AppRoleLines + rest;
    assert AppRoleLines[5] == NegativeConstraints && AppRoleLines[12] == LanguageRules;
    OpeningLineShown(AppRoleLines, rest, 5);
    OpeningLineShown(AppRoleLines, rest, 12);
  }

  /** The application-mode prompt carries both rule blocks, whether or not the guard rebuilt it. */
  lemma AppModePromptRules(r: AnswerGenerationRequest)
    ensures Contains(AppModePrompt(r), NegativeConstraints + "\n")
    ensures Contains(AppModePrompt(r), LanguageRules + "\n")
  {
    var app := TrimmedApp(r);
    var first := Terminated(AppModeLines(r, app));
    var used := if r.enableTextTrimmer && |first| > GuardLimit then GuardedApp(app, |first|) else app;
    AppModeRules(r);
    AppModeSeparated(r, used);
    ContainsLeft(Terminated(AppSystemLines(r)), Terminated(AppUserLines(r, used)), NegativeConstraints + "\n");
    ContainsLeft(Terminated(AppSystemLines(r)), Terminated(AppUserLines(r, used)), LanguageRules + "\n");
  }

  /** Every line of the chosen role block is part of the system part. */
  lemma RoleShown(r: AnswerGenerationRequest, k: nat)
    requires k < |AppModeRole(r)|
    ensures Contains(Terminated(AppSystemLines(r)), AppModeRole(r)[k] + "\n")
  {
    var role := AppModeRole(r);
    TerminatedContains(role, k);
    ContainsInSuffix(AppRoleLines, role, role[k] + "\n");
    ContainsInPrefix(AppRoleLines + role, SeparatorBlock, role[k] + "\n");
  }

  /** The role block follows the mode switches: motivation letter over question extraction over form filling. */
  lemma AppModeRoleChoice(r: AnswerGenerationRequest)
    ensures r.isMotivationLetter ==> Contains(Terminated(AppSystemLines(r)), MotivationTask + "\n")
    ensures !r.isMotivationLetter && r.useQuestionMode ==> Contains(Terminated(AppSystemLines(r)), ExtractorIdentity + "\n")
    ensures !r.isMotivationLetter && !r.useQuestionMode ==> Contains(Terminated(AppSystemLines(r)), FormIdentity + "\n")
  {
    RoleShown(r, if r.isMotivationLetter then 1 else 0);
  }

  /** The instruction block follows the same switches; paragraph mode names the question when there is one. */
  lemma AppModeInstructionChoice(r: AnswerGenerationRequest, app: string)
    ensures !r.isMotivationLetter && r.useQuestionMode ==>
              Contains(Terminated(AppModeLines(r, app)), SeparateAnswersRule + "\n")
    ensures !r.isMotivationLetter && !r.useQuestionMode && !IsBlank(r.question.GetOr("")) ==>
              Contains(Terminated(AppModeLines(r, app)), "**Specific Question to Answer:** " + r.question.GetOr("") + "\n")
  {
    if !r.isMotivationLetter && r.useQuestionMode {
      InstructionShown(r, app, 1);
    } else if !r.isMotivationLetter && !IsBlank(r.question.GetOr("")) {
      InstructionShown(r, app, 0);
    }
  }

  /** Every line of the instruction block is part of the prompt. */
  lemma InstructionShown(r: AnswerGenerationRequest, app: string, j: nat)
    requires j < |AppInstructions(r)|
    ensures Contains(Terminated(AppModeLines(r, app)), AppInstructions(r)[j] + "\n")
  {
    var notes := r.additionalNotes.GetOr("");
    var line := AppInstructions(r)[j] + "\n";
    var pre := [""] + AppNotesSection(notes) + InstructionsBanner;
    TerminatedContains(AppInstructions(r), j);
    ContainsInSuffix(pre, AppInstructions(r), line);
    ContainsInPrefix(pre + AppInstructions(r), AdditionalBlock(notes), line);
    ContainsInPrefix(pre + AppInstructions(r) + AdditionalBlock(notes), ResponseBanner, line);
    ContainsInSuffix(AppUserFront(r) + [app], AppModeTail(r), line);
    ContainsInSuffix(AppSystemLines(r), AppUserLines(r, app), line);
  }

  /** Every application-mode build shows the CV and the text it is given, each on its own line. */
  lemma AppModeShows(r: AnswerGenerationRequest, app: string)
    ensures Contains(Terminated(AppModeLines(r, app)), r.cvContent.GetOr("") + "\n")
    ensures Contains(Terminated(AppModeLines(r, app)), app + "\n")
  {
    var cv := r.cvContent.GetOr("");
    ContainsLine(CvBanner, cv, [""]);
    assert CvBanner + [cv] + [""] == CvBanner + [cv, ""];
    ContainsInPrefix(CvBanner + [cv, ""], ApplicationBanner, cv + "\n");
    ContainsInPrefix(AppUserFront(r), [app], cv + "\n");
    ContainsInPrefix(AppUserFront(r) + [app], AppModeTail(r), cv + "\n");
    ContainsLine(AppUserFront(r), app, AppModeTail(r));
    ContainsInSuffix(AppSystemLines(r), AppUserLines(r, app), cv + "\n");
    ContainsInSuffix(AppSystemLines(r), AppUserLines(r, app), app + "\n");
  }

  /** Without the trimmer, the application text reaches the prompt unchanged, and so does the CV. */
  lemma AppModeKeepsApp(r: AnswerGenerationRequest)
    requires !r.enableTextTrimmer
    ensures Contains(AppModePrompt(r), r.applicationContent.GetOr("") + "\n")
    ensures Contains(AppModePrompt(r), r.cvContent.GetOr("") + "\n")
  {
    AppModeShows(r, r.applicationContent.GetOr(""));
  }

  /** Every application-mode build starts with the urgent-instructions banner. */
  lemma AppModeLinesHead(r: AnswerGenerationRequest, app: string)
    ensures Terminated(AppModeLines(r, app)) != [] && Terminated(AppModeLines(r, app))[0] == '!'
  {
    assert AppSystemLines(r)[0] == AppRoleLines[0];
    TerminatedHeadChar(AppSystemLines(r), AppUserLines(r, app));
  }

  /** The application-mode prompt starts with the urgent-instructions banner, never with the fixed reply. */
  lemma AppModePromptHead(r: AnswerGenerationRequest)
    ensures AppModePrompt(r) != [] && AppModePrompt(r)[0] == '!'
  {
    var app := TrimmedApp(r);
    var first := Terminated(AppModeLines(r, app));
    AppModeLinesHead(r, app);
    if r.enableTextTrimmer && |first| > GuardLimit {
      AppModeLinesHead(r, GuardedApp(app, |first|));
    }
  }

  /** When the guard keeps part of the application text, the rebuilt prompt is exactly 82 characters under the limit. */
  lemma AppModeGuardLength(r: AnswerGenerationRequest, app: string)
    requires r.enableTextTrimmer && |Terminated(AppModeLines(r, app))| > GuardLimit
    requires GuardLength(|app|, |Terminated(AppModeLines(r, app))|) > 0
    ensures |AppModePromptFrom(r, app)| == GuardLimit - SafetyBuffer + |GuardMarker|
  {
    var first := Terminated(AppModeLines(r, app));
    AppModeLinesLength(r, app);
    AppModeLinesLength(r, GuardedApp(app, |first|));
  }
}
