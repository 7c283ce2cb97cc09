/** ContextReducer.ReduceIfNecessaryAsync: long contexts are compressed by one model call,
    with a hard truncation as the fallback when that call fails. */
module ContextReducer {
  import opened Wrappers
  import opened Text
  import opened Backend

  /** Contexts shorter than this are sent as they are. */
  const ShortLimit: nat := 5000
  /** At most this many characters of the context go into the compression prompt. */
  const InputCap: nat := 12000
  const TruncatedMarker := "\n...(truncated)..."
  /** The fallback keeps this many leading characters. */
  const FallbackKeep: nat := 4000
  const ReducedMarker := "\n...(content auto-reduced due to size limit)..."
  /** The compression instructions (prose abbreviated; first and last lines as written). */
  const CompressionHeader := "\nCompress the following Erasmus application context. ...\n\nCONTEXT TO COMPRESS:\n"

  /** The slice of the context the model is shown: the first 12000 characters and a marker
      when the context is longer, otherwise the whole context. */
  function SafeInput(full: string): (r: string)
    ensures |full| <= InputCap ==> r == full
    ensures |full| > InputCap ==> StartsWith(r, full[..InputCap]) && EndsWith(r, TruncatedMarker)
  {
    if |full| > InputCap then full[..InputCap] + TruncatedMarker else full
  }

  /** The prompt sent: the header and the context, in which the context is then replaced
      (String.Replace, every occurrence) by its safe slice. */
  function CompressionPrompt(full: string): string
    requires full != []
  {
    ReplaceAll(CompressionHeader + full, full, SafeInput(full))
  }

  /** ReduceIfNecessaryAsync against the provider oracle. Its result is a plain string:
      every path returns a value, none throws. */
  function ReduceIfNecessary(full: string, script: Script): (r: Traced<string>)
    ensures |r.calls| <= 1
    ensures r.calls == [] <==> IsBlank(full) || |full| < ShortLimit
    ensures r.calls == [] ==> r.value == full
  {
    if IsBlank(full) || |full| < ShortLimit then Traced(full, [])
    else
      var call := Call(CompressionPrompt(full), None);
      match script(0)
      case Answer(summary) => Traced(summary, [call])
      case Raised(_) => Traced(full[..FallbackKeep] + ReducedMarker, [call])
  }

  /** On the long path the one prompt carries the safe slice: exactly one occurrence of the
      context is replaced, so the prompt is the header plus the slice in length, and its size
      is bounded whatever the size of the context. */
  lemma ReducePromptCapped(full: string, script: Script)
    requires !IsBlank(full) && |full| >= ShortLimit
    ensures ReduceIfNecessary(full, script).calls == [Call(CompressionPrompt(full), None)]
    ensures Contains(CompressionPrompt(full), SafeInput(full))
    ensures |CompressionPrompt(full)| == |CompressionHeader| + |SafeInput(full)|
    ensures |CompressionPrompt(full)| <= |CompressionHeader| + InputCap + |TruncatedMarker|
  {
    var s := CompressionHeader + full;
    assert s[|CompressionHeader|..|CompressionHeader| + |full|] == full;
    ContainsAt(s, full, |CompressionHeader|);
    ReplaceOnce(s, full, SafeInput(full));
  }

  /** A successful call's text is the result as it came, even when it is empty or longer. */
  lemma ReduceSuccess(full: string, script: Script)
    requires !IsBlank(full) && |full| >= ShortLimit && script(0).Answer?
    ensures ReduceIfNecessary(full, script).value == script(0).text
  {
  }

  /** A failed call falls back to the first 4000 characters and the marker, which is strictly
      shorter than the context it replaces. */
  lemma ReduceFallback(full: string, script: Script)
    requires !IsBlank(full) && |full| >= ShortLimit && script(0).Raised?
    ensures StartsWith(ReduceIfNecessary(full, script).value, full[..FallbackKeep])
    ensures EndsWith(ReduceIfNecessary(full, script).value, ReducedMarker)
    ensures |ReduceIfNecessary(full, script).value| < |full|
  {
    var r := full[..FallbackKeep] + ReducedMarker;
    assert r[..FallbackKeep] == full[..FallbackKeep];
    EndsWithAppend(full[..FallbackKeep], ReducedMarker);
  }
}

/** SmartContextReducerService: a summary pass for very long content and a
    question-directed reduction, each one model call that fails open. */
module SmartContextReducerService {
  import opened Wrappers
  import opened Text
  import opened Backend

  /** Content up to this length is never summarised. */
  const SummaryThreshold: nat := 8000
  const SummaryCap: nat := 12000
  const QuestionContextCap: nat := 15000

  const SummaryHeader := "\nYou are an expert content summarizer for professional applications.\n...\n\nINPUT TEXT:\n================\n"
  const SummaryFooter := "\n================\n\nOUTPUT (Condensed Version):"
  const ReductionHeader := "\nYou are an expert context reducer.\n...\n\nQUESTION:\n"
  const ReductionMiddle := "\n\nINSTRUCTIONS:\n...\n\nCONTEXT:\n================\n"
  const ReductionFooter := "\n================\n\nOUTPUT (Reduced Context):"

  function Min(a: nat, b: nat): nat {
    if a <= b then a else b
  }

  /** The first n characters of s, or all of s when it is shorter. */
  function Head(s: string, n: nat): (r: string)
    ensures |r| <= n && StartsWith(s, r)
    ensures |s| <= n ==> r == s
  {
    s[..Min(|s|, n)]
  }

  function SummaryPrompt(content: string): string {
    SummaryHeader + Head(content, SummaryCap) + SummaryFooter
  }

  function ReductionPrompt(fullContext: string, question: string): string {
    ReductionHeader + question + ReductionMiddle + Head(fullContext, QuestionContextCap) + ReductionFooter
  }

  /** SmartReduceAsync: blank or short content is returned with no call; otherwise the summary
      replaces the content unless it is blank or the call failed. */
  function SmartReduce(content: string, script: Script): (r: Traced<string>)
    ensures |r.calls| <= 1
    ensures r.calls == [] <==> IsBlank(content) || |content| <= SummaryThreshold
    ensures r.value == content || (r.calls != [] && script(0) == Answer(r.value) && !IsBlank(r.value))
    ensures !IsBlank(content) && |content| > SummaryThreshold ==>
              r.value == (if script(0).Answer? && !IsBlank(script(0).text) then script(0).text else content)
  {
    if IsBlank(content) then Traced(content, [])
    else if |content| <= SummaryThreshold then Traced(content, [])
    else
      var call := Call(SummaryPrompt(content), None);
      match script(0)
      case Answer(summary) => Traced(if IsBlank(summary) then content else summary, [call])
      case Raised(_) => Traced(content, [call])
  }

  /** The summary prompt shows the model at most the first 12000 characters of the content. */
  lemma SmartReducePrompt(content: string, script: Script)
    requires !IsBlank(content) && |content| > SummaryThreshold
    ensures SmartReduce(content, script).calls == [Call(SummaryPrompt(content), None)]
    ensures Contains(SummaryPrompt(content), Head(content, SummaryCap))
    ensures |SummaryPrompt(content)| <= |SummaryHeader| + SummaryCap + |SummaryFooter|
  {
    ContainsMiddle(SummaryHeader, Head(content, SummaryCap), SummaryFooter);
  }

  /** Summarising never turns content into blank text, nor blank text into content. */
  lemma SmartReduceBlank(content: string, script: Script)
    ensures IsBlank(SmartReduce(content, script).value) <==> IsBlank(content)
  {
  }

  /** ReduceForSpecificQuestion: "" for a blank context; otherwise the reduced text, or the
      whole context when the reduction is blank or the call failed. */
  function ReduceForSpecificQuestion(fullContext: string, question: string, script: Script): (r: Traced<string>)
    ensures IsBlank(fullContext) ==> r == Traced("", [])
    ensures !IsBlank(fullContext) ==>
              (|r.calls| == 1 && (r.value == fullContext || (script(0) == Answer(r.value) && !IsBlank(r.value))))
    ensures !IsBlank(fullContext) ==>
              r.value == (if script(0).Answer? && !IsBlank(script(0).text) then script(0).text else fullContext)
  {
    if IsBlank(fullContext) then Traced("", [])
    else
      var call := Call(ReductionPrompt(fullContext, question), None);
      match script(0)
      case Answer(reduced) => Traced(if IsBlank(reduced) then fullContext else reduced, [call])
      case Raised(_) => Traced(fullContext, [call])
  }

  /** The reduction prompt carries the question and at most the first 15000 characters of the
      context; its size is bounded by the question's, whatever the size of the context. */
  lemma ReductionPromptContents(fullContext: string, question: string, script: Script)
    requires !IsBlank(fullContext)
    ensures ReduceForSpecificQuestion(fullContext, question, script).calls ==
              [Call(ReductionPrompt(fullContext, question), None)]
    ensures Contains(ReductionPrompt(fullContext, question), question)
    ensures Contains(ReductionPrompt(fullContext, question), Head(fullContext, QuestionContextCap))
    ensures |ReductionPrompt(fullContext, question)| <=
              |ReductionHeader| + |question| + |ReductionMiddle| + QuestionContextCap + |ReductionFooter|
  {
    var ctx := Head(fullContext, QuestionContextCap);
    var p := ReductionPrompt(fullContext, question);
    ContainsMiddle(ReductionHeader, question, ReductionMiddle + ctx + ReductionFooter);
    assert ReductionHeader + question + (ReductionMiddle + ctx + ReductionFooter) == p;
    ContainsMiddle(ReductionHeader + question + ReductionMiddle, ctx, ReductionFooter);
  }

  /** The reduced context is blank exactly when the context was. */
  lemma ReduceForQuestionBlank(fullContext: string, question: string, script: Script)
    ensures IsBlank(ReduceForSpecificQuestion(fullContext, question, script).value) <==> IsBlank(fullContext)
  {
  }
}

/** AIService: the entry points that route a prompt (or a context and a question) through
    the reducers to the provider. The service keeps no state: its cache field is never
    written, so each operation is a function of its inputs and the provider's replies. */
module AIService {
  import opened Wrappers
  import opened Text
  import opened Backend
  import ContextReducer
  import Smart = SmartContextReducerService

  /** Prompts and contexts longer than this are summarised first. */
  const ReduceThreshold: nat := 8000
  /** The ArgumentException raised for a blank prompt. */
  const EmptyPromptMessage := "Prompt cannot be empty (Parameter 'prompt')"

  /** GenerateInternalAsync: a blank prompt is refused before the provider is asked; otherwise
      one call with the prompt and the model as given, whose exception is re-thrown. */
  function GenerateInternal(prompt: string, model: Option<string>, script: Script): (r: Traced<Outcome<string>>)
    ensures IsBlank(prompt) ==> r == Traced(Thrown(EmptyPromptMessage), [])
    ensures !IsBlank(prompt) ==>
              (r.calls == [Call(prompt, model)] && r.value == Reflect(script(0)))
  {
    if IsBlank(prompt) then Traced(Thrown(EmptyPromptMessage), [])
    else
      match script(0)
      case Answer(text) => Traced(Done(text), [Call(prompt, model)])
      case Raised(message) => Traced(Thrown(message), [Call(prompt, model)])
  }

  /** The prompt after the optional summary pass (the summary's own calls included). */
  function ReducedPrompt(prompt: string, script: Script): (r: Traced<string>)
    ensures |prompt| <= ReduceThreshold ==> r == Traced(prompt, [])
  {
    if |prompt| > ReduceThreshold then Smart.SmartReduce(prompt, script) else Traced(prompt, [])
  }

  /** Runs `first`, then GenerateInternal on its value with the oracle moved past its calls. */
  function ThenGenerate(first: Traced<string>, model: Option<string>, script: Script): Traced<Outcome<string>> {
    var g := GenerateInternal(first.value, model, Shift(script, |first.calls|));
    Traced(g.value, first.calls + g.calls)
  }

  /** GenerateAsync. */
  function Generate(prompt: string, model: Option<string>, script: Script): (r: Traced<Outcome<string>>)
    ensures |r.calls| <= 2
  {
    ThenGenerate(ReducedPrompt(prompt, script), model, script)
  }

  /** A prompt of at most 8000 characters reaches the provider unchanged, in one call. */
  lemma GenerateShort(prompt: string, model: Option<string>, script: Script)
    requires |prompt| <= ReduceThreshold && !IsBlank(prompt)
    ensures Generate(prompt, model, script).calls == [Call(prompt, model)]
  {
    assert Shift(script, 0)(0) == script(0);
  }

  /** A longer prompt is summarised first (a call without a model), then the reduced prompt is
      sent with the caller's model; the last call's reply decides the outcome. */
  lemma GenerateLong(prompt: string, model: Option<string>, script: Script)
    requires |prompt| > ReduceThreshold && !IsBlank(prompt)
    ensures var r := Generate(prompt, model, script);
            var reduced := Smart.SmartReduce(prompt, script).value;
            r.calls == [Call(Smart.SummaryPrompt(prompt), None), Call(reduced, model)] &&
            r.value == Reflect(script(1))
  {
    var first := Smart.SmartReduce(prompt, script);
    Smart.SmartReducePrompt(prompt, script);
    Smart.SmartReduceBlank(prompt, script);
    assert first == ReducedPrompt(prompt, script);
    assert Shift(script, 1)(0) == script(1);
    var g := GenerateInternal(first.value, model, Shift(script, 1));
    assert g.calls == [Call(first.value, model)];
  }

  /** A blank prompt raises ArgumentException and the provider is never called; a non-blank
      one never does, since summarising keeps it non-blank. */
  lemma GenerateBlank(prompt: string, model: Option<string>, script: Script)
    ensures IsBlank(prompt) ==> Generate(prompt, model, script) == Traced(Thrown(EmptyPromptMessage), [])
    ensures !IsBlank(prompt) ==> Generate(prompt, model, script).calls != []
  {
    Smart.SmartReduceBlank(prompt, script);
  }

  const QuestionLabel := "\n\nQUESTION:\n"
  const AnswerLabel := "\n\nANSWER:"

  /** The prompt GenerateWithContextAsync sends for a context and a question. */
  function QuestionPrompt(context: string, question: string): string {
    context + QuestionLabel + question + AnswerLabel
  }

  /** The context after the optional summary pass and, with the cache flag, ContextReducer. */
  function EffectiveContext(fullContext: string, useContextCache: bool, script: Script): (r: Traced<string>)
    ensures |r.calls| <= 2
    ensures !useContextCache ==> r == ReducedPrompt(fullContext, script)
  {
    var summarised := ReducedPrompt(fullContext, script);
    if useContextCache then
      var reduced := ContextReducer.ReduceIfNecessary(summarised.value, Shift(script, |summarised.calls|));
      Traced(reduced.value, summarised.calls + reduced.calls)
    else summarised
  }

  /** GenerateWithContextAsync. */
  function GenerateWithContext(fullContext: string, question: string, useContextCache: bool,
                               model: Option<string>, script: Script): (r: Traced<Outcome<string>>)
    ensures |r.calls| <= 3
  {
    var ctx := EffectiveContext(fullContext, useContextCache, script);
    ThenGenerate(Traced(QuestionPrompt(ctx.value, question), ctx.calls), model, script)
  }

  /** The question prompt is never blank, so the last call always goes out: it carries the
      effective context and the question with the caller's model, and its reply (or its
      exception) is the outcome. */
  lemma GenerateWithContextSends(fullContext: string, question: string, useContextCache: bool,
                                 model: Option<string>, script: Script)
    ensures var ctx := EffectiveContext(fullContext, useContextCache, script);
            var r := GenerateWithContext(fullContext, question, useContextCache, model, script);
            var n := |ctx.calls|;
            r.calls == ctx.calls + [Call(QuestionPrompt(ctx.value, question), model)] &&
            r.value == Reflect(script(n))
  {
    var ctx := EffectiveContext(fullContext, useContextCache, script);
    var p := QuestionPrompt(ctx.value, question);
    assert p[|ctx.value| + 2] == 'Q';
    if IsBlank(p) {
      BlankAt(p, |ctx.value| + 2);
    }
    assert Shift(script, |ctx.calls|)(0) == script(|ctx.calls|);
  }

  /** Without the cache flag and with a context of at most 8000 characters, exactly one call is
      made, and it carries the whole context verbatim. */
  lemma GenerateWithShortContext(fullContext: string, question: string, model: Option<string>, script: Script)
    requires |fullContext| <= ReduceThreshold
    ensures GenerateWithContext(fullContext, question, false, model, script).calls ==
              [Call(fullContext + QuestionLabel + question + AnswerLabel, model)]
  {
    GenerateWithContextSends(fullContext, question, false, model, script);
  }
}
