# Erasmus AI application filler — a Dafny model of its text pipeline

The system helps an applicant fill in Erasmus+ and similar application forms with a language
model. An ASP.NET backend cleans the pasted CV, project and form text and picks out the
questions. It builds a prompt for the chosen mode, sends it through a provider chosen at run
time (Ollama, Groq, Hugging Face, ...), recovers one answer per question from the reply, and
fits each answer into the form field's character limit. Three small TypeScript utilities in the
web front end pre-split pasted questions and guess the kind of application.

This project models that pipeline and proves what each step promises:

- `text.dfy` (module `Text`) holds the string operations the code calls (Trim,
  ToLowerInvariant, Contains, StartsWith, Split, string.Join, int.ToString) with the ASCII
  white-space set and ASCII case folding.
- `collections.dfy` holds `Wrappers` (Option), `Collections` (filters, order-keeping
  de-duplication) and `Backend`, the language-model oracle. Every provider call is recorded
  as a `Call(prompt, model)`. The k-th call is answered by `script(k)`, either a text or an
  exception. Operations return `Traced(value, calls)`, so call counts and the prompts sent
  are stated in contracts.
- `request.dfy` and `response_formatter.dfy` model the request body, its validation and the
  character-limit formatter.
- `reducers.dfy` models ContextReducer, SmartContextReducerService and AIService, against
  the oracle.
- `providers.dfy` models DynamicAIProvider, GroqProvider and HuggingFaceProvider. Each
  vendor's HTTP exchange is an oracle of `HttpReply` values.
- `provider_config.dfy` and `admin.dfy` model the provider configuration service (a class
  whose methods update its maps) and the settings endpoints.
- `prompt_builder.dfy` models the question and project filters of PromptBuilderService.
- `prompt_templates.dfy` models its three prompt builders. A StringBuilder that only
  receives AppendLine calls is kept as the list of lines it received.
- `answers.dfy` models the reply parsers of AIController.
- `controller.dfy` models AIController.Generate.
- `question_extractor.dfy`, `split_questions.dfy` and `quick_mode.dfy` model the front-end
  utilities smartQuestionExtractor, splitQuestions and quickModeParser.

Where the source loops or updates state, the model does too. The loops become methods with
invariants, each proved against a specification function. The configuration service and
the controllers become classes. The properties themselves are lemmas on the specification
functions: round trips (answers laid out as the prompts ask parse back to exactly those
answers; questions joined by line breaks are extracted back; numbered lists and blank-line
paragraphs split back into their items), idempotence of the project
cleaner, no duplicates, order preservation, bounds, and exact call counts.

Notes on the source, where its comments or documentation promise more than the code does:

- BuildPrompt returns the fixed text "Please provide CV content and a question." when CV and
  question are both blank. In that case no persona instructions are present, although the
  documentation describes them as always present.
- In the question-mode extraction of AIController.Generate, the advanced-form-mode branch
  is unreachable. It sits inside a test of the same question-mode flag that the enclosing
  branch already requires, so the strict prompt is always used.
- HuggingFaceProvider chooses temperature 0.2 when the system message holds "Answer each
  question separately". The application-mode prompt puts that phrase after the separator,
  in the user part, so for the prompts this system builds only 0.3 and 0.7 occur.
- The 6000-character guard runs once. When nothing of the application text can be kept, the
  rebuilt prompt can still exceed 6000 characters.
- AIController persists the model name untrimmed through SetModel, which trims it. A padded
  " llama3:8b " under groq therefore escapes the alias rewrite and is stored as "llama3:8b".
- AdminController.SetConfig tests the provider only for emptiness. A provider made of white
  space is set as the current provider.
- In GetOllamaModels, an installed model reported with an empty name is appended as a row.
  Every later installed name starts with "", so no further rows are appended.
- HuggingFaceProvider takes a stored API key in preference to the configured one even when
  the stored key is blank. It then reports the key as missing, although a key is configured.
- quickModeParser tests "esc" as a substring, so any text with "erasmus" and, say,
  "describe" is labelled ESC Volunteering unless an earlier keyword matches.

## Model

| member | source | states |
|---|---|---|
| Requests.EmptyRequest | backend/ErasmusAi.Api/Models/AI/AnswerGenerationRequest.cs:5-37 | a request starts with every switch off and every text field null |
| Requests.ValidationErrors | backend/ErasmusAi.Api/Models/AI/AnswerGenerationRequest.cs:7-21 | no message exactly when the request is valid; each of the three messages appears exactly when its field (CV, question, character limit in 1..int.MaxValue) fails |
| ResponseFormatter.FormatResponse | backend/ErasmusAi.Api/Services/AI/ResponseFormatterService.cs:5-27 | blank gives ""; an answer with no positive limit, or one that fits, is kept; a longer one is a proper prefix plus "...", cut at the last space after index 0 within the limit, or at the limit when there is none |
| ContextReducer.SafeInput | backend/ErasmusAi.Api/Services/AI/ContextReducer.cs:49-51 | a context of at most 12000 characters is kept; a longer one becomes its first 12000 characters followed by the truncation marker |
| ContextReducer.ReduceIfNecessary | backend/ErasmusAi.Api/Services/AI/ContextReducer.cs:14-65 | at most one provider call; no call exactly when the context is blank or shorter than 5000 characters, and then it comes back unchanged |
| ContextReducer.ReducePromptCapped | backend/ErasmusAi.Api/Services/AI/ContextReducer.cs:24-55 | on the long path the one call carries the compression prompt, which contains the safe slice and is no longer than the header, 12000 characters and the marker |
| ContextReducer.ReduceSuccess | backend/ErasmusAi.Api/Services/AI/ContextReducer.cs:55-57 | a successful call's text is returned as it came |
| ContextReducer.ReduceFallback | backend/ErasmusAi.Api/Services/AI/ContextReducer.cs:59-64 | a failed call gives the first 4000 characters and the auto-reduced marker, strictly shorter than the context |
| SmartContextReducerService.Head | backend/ErasmusAi.Api/Services/AI/Internal/SmartContextReducerService.cs:36 | Substring(0, Math.Min(length, n)): a prefix of at most n characters, the whole text when it is shorter |
| SmartContextReducerService.SmartReduce | backend/ErasmusAi.Api/Services/AI/Internal/SmartContextReducerService.cs:14-63 | at most one call, none exactly for blank content or content of at most 8000 characters; for longer content a non-blank summary the provider returns is the result, and a blank summary or a failure gives the content back |
| SmartContextReducerService.SmartReducePrompt | backend/ErasmusAi.Api/Services/AI/Internal/SmartContextReducerService.cs:23-51 | the one call carries the summary prompt, which holds at most the first 12000 characters of the content |
| SmartContextReducerService.SmartReduceBlank | backend/ErasmusAi.Api/Services/AI/Internal/SmartContextReducerService.cs:16-53 | the result is blank exactly when the content was |
| SmartContextReducerService.ReduceForSpecificQuestion | backend/ErasmusAi.Api/Services/AI/Internal/SmartContextReducerService.cs:64-109 | "" and no call for a blank context; otherwise one call, whose non-blank reply is the result and whose blank reply or failure gives the context back |
| SmartContextReducerService.ReductionPromptContents | backend/ErasmusAi.Api/Services/AI/Internal/SmartContextReducerService.cs:70-93 | the one call carries the reduction prompt, which contains the question and at most the first 15000 characters of the context |
| SmartContextReducerService.ReduceForQuestionBlank | backend/ErasmusAi.Api/Services/AI/Internal/SmartContextReducerService.cs:66-107 | the reduced context is blank exactly when the context was |
| AIService.GenerateInternal | backend/ErasmusAi.Api/Services/AI/AIService.cs:58-74 | a blank prompt throws ArgumentException with no call; otherwise one call with the prompt and model, whose reply or exception is passed on |
| AIService.ReducedPrompt | backend/ErasmusAi.Api/Services/AI/AIService.cs:23-26 | a prompt of at most 8000 characters is kept, with no call |
| AIService.Generate | backend/ErasmusAi.Api/Services/AI/AIService.cs:20-29 | at most two calls: the optional summary and the generation |
| AIService.GenerateShort | backend/ErasmusAi.Api/Services/AI/AIService.cs:23-28 | a prompt of at most 8000 characters reaches the provider unchanged, in exactly one call |
| AIService.GenerateLong | backend/ErasmusAi.Api/Services/AI/AIService.cs:23-28 | a longer prompt is first summarised by a call without a model, then the reduced prompt is sent with the model |
| AIService.GenerateBlank | backend/ErasmusAi.Api/Services/AI/AIService.cs:60-63 | a blank prompt throws and the provider is never called; a non-blank one always reaches it |
| AIService.EffectiveContext | backend/ErasmusAi.Api/Services/AI/AIService.cs:34-43 | at most two calls; without the cache flag the context is only the summary pass's result |
| AIService.GenerateWithContext | backend/ErasmusAi.Api/Services/AI/AIService.cs:31-56 | at most three calls: summary, ContextReducer and generation |
| AIService.GenerateWithContextSends | backend/ErasmusAi.Api/Services/AI/AIService.cs:43-54 | the question prompt is never blank, so the last call always goes out, carrying the effective context, the question and the model |
| AIService.GenerateWithShortContext | backend/ErasmusAi.Api/Services/AI/AIService.cs:53-54 | without the cache flag, a context of at most 8000 characters goes out in exactly one call: context, "QUESTION:", question, "ANSWER:" |
| DynamicAIProvider.BackendFor | backend/ErasmusAi.Api/Services/AI/Providers/DynamicAIProvider.cs:30-39 | a backend exactly for the six names the switch accepts |
| DynamicAIProvider.AdvertisedDispatchable | backend/ErasmusAi.Api/Services/AI/Providers/DynamicAIProvider.cs:7-39 | every advertised name can be dispatched; openai and mock can be dispatched but are not advertised |
| DynamicAIProvider.EffectiveModel | backend/ErasmusAi.Api/Services/AI/Providers/DynamicAIProvider.cs:47-56 | the non-blank override if there is one, else the model stored under the provider's key; under groq the legacy model name, in any letter case, becomes the instant model, and nothing else is changed |
| DynamicAIProvider.Generate | backend/ErasmusAi.Api/Services/AI/Providers/DynamicAIProvider.cs:23-61 | at most one call to a backend |
| DynamicAIProvider.ResolveBackend | backend/ErasmusAi.Api/Services/AI/Providers/DynamicAIProvider.cs:25-45 | the trimmed, lower-cased provider name picks the backend; an unknown name gives the error text naming the trimmed provider |
| DynamicAIProvider.StoredModelUsed | backend/ErasmusAi.Api/Services/AI/Providers/DynamicAIProvider.cs:47-51 | without an override, the model stored under a dispatchable provider's key is used as stored (under groq, unless it is the legacy name), or none |
| DynamicAIProvider.OverrideUsed | backend/ErasmusAi.Api/Services/AI/Providers/DynamicAIProvider.cs:47-56 | a non-blank override is used, except that groq's legacy name is rewritten |
| DynamicAIProvider.GroqAliasRewritten | backend/ErasmusAi.Api/Services/AI/Providers/DynamicAIProvider.cs:53-56 | under groq the legacy name in any letter case, from the override or from storage, becomes the instant model |
| DynamicAIProvider.GenerateForwards | backend/ErasmusAi.Api/Services/AI/Providers/DynamicAIProvider.cs:41-60 | a known provider gets exactly one call with the prompt unchanged and the effective model; an unknown one gets none, and its error text is returned, not thrown |
| GroqProvider.ClampModel | backend/ErasmusAi.Api/Services/AI/Providers/GroqProvider.cs:21-49 | the result is on the allowlist; an allowed model is kept, any other becomes the instant model |
| GroqProvider.Generate | backend/ErasmusAi.Api/Services/AI/Providers/GroqProvider.cs:33-110 | no key: the missing-key exception and no request; otherwise the clamped model first; a second request, to the instant model, exactly when the first failed naming a retired or unknown model; success exactly when the last request succeeded, with its content; each failure maps to its message |
| GroqProvider.FallbackMessageNamesBoth | backend/ErasmusAi.Api/Services/AI/Providers/GroqProvider.cs:84-88 | when the retry fails too, the exception names both bodies |
| HuggingFaceProvider.Temperature | backend/ErasmusAi.Api/Services/AI/Providers/HuggingFaceProvider.cs:120-146 | one of 0.3, 0.2 or 0.7; 0.3 exactly when the system part names the extractor or the extract-only rule; 0.2 exactly when it does not but holds "Answer each question separately"; otherwise 0.7 |
| HuggingFaceProvider.BuildMessages | backend/ErasmusAi.Api/Services/AI/Providers/HuggingFaceProvider.cs:118-161 | one or two messages: the whole prompt as the user message at 0.7, or a system and a user message at the system part's temperature; without the separator always one message |
| HuggingFaceProvider.BuildMessagesSplits | backend/ErasmusAi.Api/Services/AI/Providers/HuggingFaceProvider.cs:125-152 | system part, separator, user part becomes exactly those two messages, trimmed |
| HuggingFaceProvider.BuildMessagesDropsThirdPiece | backend/ErasmusAi.Api/Services/AI/Providers/HuggingFaceProvider.cs:127-131 | text after a second separator never reaches a message |
| HuggingFaceProvider.ResolveKey | backend/ErasmusAi.Api/Services/AI/Providers/HuggingFaceProvider.cs:28-30 | the stored key, even an empty one; with none stored, the configured key; with neither, "" |
| HuggingFaceProvider.ResolveModel | backend/ErasmusAi.Api/Services/AI/Providers/HuggingFaceProvider.cs:37-41 | a non-blank override is used trimmed; otherwise the stored model, else the configured one, else the Mistral default |
| HuggingFaceProvider.FailureMessage | backend/ErasmusAi.Api/Services/AI/Providers/HuggingFaceProvider.cs:71-90 | 401, 404 and 429 map to their fixed messages |
| HuggingFaceProvider.FailureReportsBody | backend/ErasmusAi.Api/Services/AI/Providers/HuggingFaceProvider.cs:89 | any other failure's message contains the body |
| HuggingFaceProvider.Generate | backend/ErasmusAi.Api/Services/AI/Providers/HuggingFaceProvider.cs:26-111 | a request goes out exactly when the key is not blank, else the missing-key exception; the request carries the resolved model and BuildMessages' messages and temperature; a success returns the reply's content ("" when missing), a failure raises FailureMessage of its status and body |
| ProviderConfig.NormalKeyIdempotent | backend/ErasmusAi.Api/Services/AI/ProviderConfigService.cs:25-35 | the model-map key of a key is itself |
| ProviderConfig.NormalKeyBlank | backend/ErasmusAi.Api/Services/AI/ProviderConfigService.cs:24-35 | only a blank name gives the empty key |
| ProviderConfig.Lookup | backend/ErasmusAi.Api/Services/AI/ProviderConfigService.cs:22-30 | nothing for a blank name; otherwise the entry under the trimmed, lower-cased key, exactly when there is one |
| ProviderConfig.LookupStore | backend/ErasmusAi.Api/Services/AI/ProviderConfigService.cs:22-41 | after storing under a provider's key, every non-blank name with that key reads the trimmed model and every other name reads what it read before |
| ProviderConfig.ProviderConfigService.constructor | backend/ErasmusAi.Api/Services/AI/ProviderConfigService.cs:10-18 | with no configuration file: provider "ollama", no models, no keys, and the invariant |
| ProviderConfig.ProviderConfigService.GetModel | backend/ErasmusAi.Api/Services/AI/ProviderConfigService.cs:22-30 | the lookup under the key; under the invariant a stored model is non-blank and trimmed |
| ProviderConfig.ProviderConfigService.SetModel | backend/ErasmusAi.Api/Services/AI/ProviderConfigService.cs:32-41 | ignored when either argument is blank; otherwise the trimmed model is stored under the key and every name with that key reads it back; provider and keys unchanged; the invariant is kept |
| ProviderConfig.ProviderConfigService.SetProvider | backend/ErasmusAi.Api/Services/AI/ProviderConfigService.cs:43-50 | the lower-cased, untrimmed name becomes the current provider; models and keys unchanged |
| ProviderConfig.ProviderConfigService.GetApiKey | backend/ErasmusAi.Api/Services/AI/ProviderConfigService.cs:57-60 | the key stored under the lower-cased name, exactly when there is one |
| ProviderConfig.ProviderConfigService.SetApiKey | backend/ErasmusAi.Api/Services/AI/ProviderConfigService.cs:52-55 | the key is stored unchanged under the lower-cased name; every name that lowers to it reads it, every other reads what it read before |
| AdminController.RecommendedRows | backend/ErasmusAi.Api/Controllers/AdminController.cs:57-93 | the four recommended names in their fixed order, each marked installed exactly when some installed name starts with it |
| AdminController.MergedKeepsRows | backend/ErasmusAi.Api/Controllers/AdminController.cs:95-102 | the append loop never changes or removes the rows already in the list |
| AdminController.MergedAppended | backend/ErasmusAi.Api/Controllers/AdminController.cs:95-102 | every appended row is an installed name, marked installed, that does not start with the name of any row before it |
| AdminController.MergedCovers | backend/ErasmusAi.Api/Controllers/AdminController.cs:95-102 | every installed name ends up in the list, as its own row or under a row whose name it starts with |
| AdminController.GetOllamaModels | backend/ErasmusAi.Api/Controllers/AdminController.cs:57-104 | the recommended rows first, flagged by prefix, then the installed names no row is a prefix of, in order; with Ollama unreachable, the four recommended names, none installed |
| AdminController.ProviderLabel | backend/ErasmusAi.Api/Controllers/AdminController.cs:118-129 | "Ollama" or "Groq" exactly when the trimmed, lower-cased provider is ollama or groq, otherwise "Unknown" |
| AdminController.ChosenModel | backend/ErasmusAi.Api/Controllers/AdminController.cs:132-142 | the trimmed non-blank model; under groq a trimmed request equal to llama3:8b in any case becomes the instant model; every other request is kept trimmed |
| AdminController.AdminController.constructor | backend/ErasmusAi.Api/Controllers/AdminController.cs:15-20 | the controller holds the configuration service it is given |
| AdminController.AdminController.GetConfig | backend/ErasmusAi.Api/Controllers/AdminController.cs:23-28 | the current provider, and the model stored under its normalised key; none when the provider is blank or has no stored model |
| AdminController.AdminController.SetConfig | backend/ErasmusAi.Api/Controllers/AdminController.cs:31-42 | an empty provider is refused with no change; otherwise the lower-cased provider is set, the model stored under its key only when neither is blank, keys unchanged |
| AdminController.AdminController.SetApiKey | backend/ErasmusAi.Api/Controllers/AdminController.cs:45-52 | an empty provider or key is refused with no change; otherwise the key is stored under the lower-cased provider and read back; provider and models unchanged |
| AdminController.AdminController.SetModel | backend/ErasmusAi.Api/Controllers/AdminController.cs:114-151 | the provider label; a blank request reports the stored model or "Unknown" and stores nothing; otherwise the chosen model is reported, and stored and read back only for ollama and groq |
| PromptTemplates.GuardLength | backend/ErasmusAi.Api/Services/AI/PromptBuilderService.cs:287-291 | the shortened application length is zero or below the original, and when positive it is the length minus the excess over 6000 minus the 100-character buffer |
| PromptTemplates.GuardedApp | backend/ErasmusAi.Api/Services/AI/PromptBuilderService.cs:287-298 | a positive new length keeps exactly that prefix of the application text followed by the truncation marker; otherwise the fixed notice |
| PromptTemplates.GuardedAppNotBlank | backend/ErasmusAi.Api/Services/AI/PromptBuilderService.cs:252-295 | the replacement application text is never blank, so the rebuilt batch prompt keeps its application section |
| PromptTemplates.TrimmedAppEmptyOrText | backend/ErasmusAi.Api/Services/AI/PromptBuilderService.cs:449-459 | with the trimmer on, the cleaned application text is empty or has a non-white character |
| PromptTemplates.NumberedLines | backend/ErasmusAi.Api/Services/AI/PromptBuilderService.cs:271-274 | one line per question, in order |
| PromptTemplates.NumberedLinesParse | backend/ErasmusAi.Api/Services/AI/PromptBuilderService.cs:271-274 | every numbered question line reads back as its 1-based position and its question |
| PromptTemplates.BuildBatchInternal | backend/ErasmusAi.Api/Services/AI/PromptBuilderService.cs:203-279 | the prompt is the instructions, context with fallbacks, optional application section, CV, optional notes and the numbered questions, each line terminated |
| PromptTemplates.BuildBatchPrompt | backend/ErasmusAi.Api/Services/AI/PromptBuilderService.cs:181-307 | the topic capped at 800 characters and the application text cleaned when the trimmer is on; the prompt rebuilt once with a shortened application text when it exceeds 6000 characters |
| PromptTemplates.GuardedBatchShape | backend/ErasmusAi.Api/Services/AI/PromptBuilderService.cs:281-298 | without the trimmer or within 6000 characters the first build is kept; otherwise the rebuild with the shortened application text |
| PromptTemplates.GuardedBatchContents | backend/ErasmusAi.Api/Services/AI/PromptBuilderService.cs:259-298 | whether or not the guard fires, the prompt ends with the numbered questions and "ANSWERS:" and contains the CV block |
| PromptTemplates.BatchLinesContents | backend/ErasmusAi.Api/Services/AI/PromptBuilderService.cs:259-276 | the built batch prompt ends with the question block and contains the CV block |
| PromptTemplates.GuardedBatchRules | backend/ErasmusAi.Api/Services/AI/PromptBuilderService.cs:205-225 | every batch prompt, rebuilt by the guard or not, carries the negative-constraints and language-rules headings |
| PromptTemplates.BatchLinesRules | backend/ErasmusAi.Api/Services/AI/PromptBuilderService.cs:205-225 | the built batch prompt carries both rule headings |
| PromptTemplates.BatchLinesLength | backend/ErasmusAi.Api/Services/AI/PromptBuilderService.cs:203-279 | the prompt's length is the sum of its sections' lengths |
| PromptTemplates.BatchAppSectionLength | backend/ErasmusAi.Api/Services/AI/PromptBuilderService.cs:252-257 | a shown application section adds its text's length plus 30 characters |
| PromptTemplates.GuardedBatchLength | backend/ErasmusAi.Api/Services/AI/PromptBuilderService.cs:284-297 | when the guard fires with a positive new length, the rebuilt prompt is exactly 5900 characters plus the marker |
| PromptTemplates.BatchPromptGuardLength | backend/ErasmusAi.Api/Services/AI/PromptBuilderService.cs:181-307 | when the guard fires with a positive new length, the final batch prompt is below 6000 characters |
| PromptTemplates.BatchContextFallbacks | backend/ErasmusAi.Api/Services/AI/PromptBuilderService.cs:234-249 | application type, topic and language level each show the request's value when not blank and their fixed fallback otherwise |
| PromptTemplates.BuildPrompt | backend/ErasmusAi.Api/Services/AI/PromptBuilderService.cs:309-446 | the application-mode prompt when there is application text; the fixed reply when CV and question are both blank; the single-question prompt otherwise |
| PromptTemplates.BuildSinglePrompt | backend/ErasmusAi.Api/Services/AI/PromptBuilderService.cs:336-446 | the single-question prompt: role lines, context with fallbacks and inferred language level, optional category, question, CV, instructions, optional limit and notes |
| PromptTemplates.LanguageLevelInference | backend/ErasmusAi.Api/Services/AI/PromptBuilderService.cs:379-395 | a given level wins; otherwise B2, C1 or C2 in the CV give professional English, B1 alone intermediate, and nothing the default |
| PromptTemplates.BlankHasNo | backend/ErasmusAi.Api/Services/AI/PromptBuilderService.cs:385 | a blank CV contains no level code, so the CV test after the blank check changes nothing |
| PromptTemplates.SinglePromptHead | backend/ErasmusAi.Api/Services/AI/PromptBuilderService.cs:337 | the single-question prompt starts with '!' |
| PromptTemplates.PromptEmptyInput | backend/ErasmusAi.Api/Services/AI/PromptBuilderService.cs:314-334 | the fixed reply is returned exactly when application text, CV and question are all blank |
| PromptTemplates.NotReply | backend/ErasmusAi.Api/Services/AI/PromptBuilderService.cs:333-337 | a prompt starting with '!' is never the fixed reply |
| PromptTemplates.SinglePromptContents | backend/ErasmusAi.Api/Services/AI/PromptBuilderService.cs:410-429 | the single-question prompt contains the question line, the CV and the persona rule |
| PromptTemplates.SinglePromptRules | backend/ErasmusAi.Api/Services/AI/PromptBuilderService.cs:337-356 | the single-question prompt carries both rule headings |
| PromptTemplates.BackKeeps | backend/ErasmusAi.Api/Services/AI/PromptBuilderService.cs:413-444 | text shown before the optional limit and notes lines stays in the prompt's back part |
| PromptTemplates.SinglePromptLimit | backend/ErasmusAi.Api/Services/AI/PromptBuilderService.cs:431-434 | a character limit is stated in the prompt |
| PromptTemplates.BuildAppModeInternal | backend/ErasmusAi.Api/Services/AI/PromptBuilderService.cs:462-626 | the application-mode prompt: role lines, the branch's role, the separator, CV, application text, optional notes, the branch's instructions, the additional-instructions block and the response banner |
| PromptTemplates.BuildApplicationModePrompt | backend/ErasmusAi.Api/Services/AI/PromptBuilderService.cs:449-654 | the application text cleaned when the trimmer is on, then the guarded build |
| PromptTemplates.BuildAppModeGuarded | backend/ErasmusAi.Api/Services/AI/PromptBuilderService.cs:628-653 | the first build, rebuilt once with a shortened application text when the trimmer is on and it exceeds 6000 characters |
| PromptTemplates.RebuildGuarded | backend/ErasmusAi.Api/Services/AI/PromptBuilderService.cs:632-645 | the rebuild uses the application text cut to the new length with the marker, or the fixed notice |
| PromptTemplates.AppModeLinesLength | backend/ErasmusAi.Api/Services/AI/PromptBuilderService.cs:462-626 | the prompt's length is the system part, the CV part, the application text plus a line break, and the tail |
| PromptTemplates.SeparatorBlockText | backend/ErasmusAi.Api/Services/AI/PromptBuilderService.cs:534-536 | the separator block is the marker alone on its line between blank lines |
| PromptTemplates.AppModeSeparated | backend/ErasmusAi.Api/Services/AI/PromptBuilderService.cs:533-538 | the prompt is its system part followed by its user part, and the system part ends with the separator block |
| PromptTemplates.RoleShown | backend/ErasmusAi.Api/Services/AI/PromptBuilderService.cs:496-531 | every line of the chosen role is in the system part |
| PromptTemplates.AppModeRoleChoice | backend/ErasmusAi.Api/Services/AI/PromptBuilderService.cs:496-531 | a motivation letter gets the motivation-letter task, question mode the extractor role, otherwise the form-filling role |
| PromptTemplates.AppModeRules | backend/ErasmusAi.Api/Services/AI/PromptBuilderService.cs:466-486 | both rule headings are in the system part of every application-mode build |
| PromptTemplates.AppModePromptRules | backend/ErasmusAi.Api/Services/AI/PromptBuilderService.cs:448-486 | the application-mode prompt, rebuilt by the guard or not, carries both rule headings |
| PromptTemplates.AppModeInstructionChoice | backend/ErasmusAi.Api/Services/AI/PromptBuilderService.cs:565-612 | question mode demands separate answers; paragraph mode with a question names that question |
| PromptTemplates.InstructionShown | backend/ErasmusAi.Api/Services/AI/PromptBuilderService.cs:561-612 | every line of the chosen instructions is in the prompt |
| PromptTemplates.AppModeShows | backend/ErasmusAi.Api/Services/AI/PromptBuilderService.cs:541-547 | the prompt contains the CV and the application text, each on its own line |
| PromptTemplates.AppModeKeepsApp | backend/ErasmusAi.Api/Services/AI/PromptBuilderService.cs:449-547 | without the trimmer, the application text and the CV are shown unchanged |
| PromptTemplates.AppModeLinesHead | backend/ErasmusAi.Api/Services/AI/PromptBuilderService.cs:466 | the application-mode prompt starts with '!' |
| PromptTemplates.AppModePromptHead | backend/ErasmusAi.Api/Services/AI/PromptBuilderService.cs:449-654 | the final application-mode prompt starts with '!', guarded or not |
| PromptTemplates.AppModeGuardLength | backend/ErasmusAi.Api/Services/AI/PromptBuilderService.cs:631-645 | when the guard fires with a positive new length, the rebuilt prompt is exactly 5900 characters plus the marker |
| PromptBuilder.ListMarkerEnd | backend/ErasmusAi.Api/Services/AI/PromptBuilderService.cs:29 | the list marker's end is within the line, and a marker starts with a digit or bullet and ends in white space |
| PromptBuilder.StripPrefix | backend/ErasmusAi.Api/Services/AI/PromptBuilderService.cs:24-31 | the stripped line is trimmed and holds only characters of the line |
| PromptBuilder.StripNumberedMarker | backend/ErasmusAi.Api/Services/AI/PromptBuilderService.cs:29 | digits, optional white space, "." or ")" and white space are removed before the text that follows, and the marker match ends where that text starts |
| PromptBuilder.NumberedMarkerAt | backend/ErasmusAi.Api/Services/AI/PromptBuilderService.cs:29 | digits, white space, "." or ")" and white space before a visible character: the marker match ends at that character |
| PromptBuilder.StripBulletMarker | backend/ErasmusAi.Api/Services/AI/PromptBuilderService.cs:29 | a run of "-", "*" or "•" followed by white space is removed before the text that follows |
| PromptBuilder.StripWithoutMarker | backend/ErasmusAi.Api/Services/AI/PromptBuilderService.cs:24-31 | a line whose first visible character is no digit or bullet matches no marker and is only trimmed |
| PromptBuilder.StrippedLines | backend/ErasmusAi.Api/Services/AI/PromptBuilderService.cs:68-73 | one stripped line per non-empty piece of the line-break-unified text |
| PromptBuilder.StrippedLinesClean | backend/ErasmusAi.Api/Services/AI/PromptBuilderService.cs:68-73 | every stripped line is trimmed and has no line break |
| PromptBuilder.ExtractCleanQuestions | backend/ErasmusAi.Api/Services/AI/PromptBuilderService.cs:9-114 | blank input gives no questions; otherwise the candidate lines that end with '?' or hold '*' or ':', have at least five words and are the first with their normalised key, in order |
| PromptBuilder.CleanQuestionsWellFormed | backend/ErasmusAi.Api/Services/AI/PromptBuilderService.cs:68-111 | every extracted question passes the candidate filters, looks like a question, is trimmed and is a single line |
| PromptBuilder.CandidateFacts | backend/ErasmusAi.Api/Services/AI/PromptBuilderService.cs:68-82 | every candidate line passes the filters, is trimmed and is a single line |
| PromptBuilder.CleanQuestionsDistinct | backend/ErasmusAi.Api/Services/AI/PromptBuilderService.cs:104-108 | no two extracted questions share a normalised key |
| PromptBuilder.CleanQuestionsFirstWins | backend/ErasmusAi.Api/Services/AI/PromptBuilderService.cs:87-111 | the result keeps the order of the filtered lines, and the first line with a given key is kept |
| PromptBuilder.CleanProjectInfo | backend/ErasmusAi.Api/Services/AI/PromptBuilderService.cs:116-166 | blank text gives ""; otherwise each trimmed line that is at most 300 characters, unseen ignoring case, free of banned phrases and footer text and not blank, in order, each terminated by a line break |
| PromptBuilder.IsDenied | backend/ErasmusAi.Api/Services/AI/PromptBuilderService.cs:143-157 | a line is dropped exactly when it holds a banned phrase or footer text, ignoring case |
| PromptBuilder.KeptProjectLinesStep | backend/ErasmusAi.Api/Services/AI/PromptBuilderService.cs:132-163 | one pass of the loop: a long or already seen line is skipped; a seen-for-the-first-time banned or blank line is recorded and dropped; any other is kept |
| PromptBuilder.KeptProjectLinesClean | backend/ErasmusAi.Api/Services/AI/PromptBuilderService.cs:132-163 | every kept line is trimmed, not blank, at most 300 characters, not banned, a single line and unseen before; no two kept lines are equal ignoring case |
| PromptBuilder.KeptProjectLinesComplete | backend/ErasmusAi.Api/Services/AI/PromptBuilderService.cs:132-163 | a short, non-blank, allowed line whose text no earlier short line repeats is kept |
| PromptBuilder.KeptProjectLinesOrder | backend/ErasmusAi.Api/Services/AI/PromptBuilderService.cs:132-163 | the kept lines are trimmed input lines in input order: a subsequence of the trimmed lines |
| PromptBuilder.KeptProjectLinesFixed | backend/ErasmusAi.Api/Services/AI/PromptBuilderService.cs:132-163 | lines that already pass every rule, followed by one blank line, come back unchanged |
| PromptBuilder.TerminatedNoCrLf | backend/ErasmusAi.Api/Services/AI/PromptBuilderService.cs:120-161 | kept lines joined by line breaks hold no CR LF pair |
| PromptBuilder.CleanProjectInfoIdempotent | backend/ErasmusAi.Api/Services/AI/PromptBuilderService.cs:116-166 | cleaning cleaned text changes nothing |
| PromptBuilder.CleanedProjectInfoEmptyOrText | backend/ErasmusAi.Api/Services/AI/PromptBuilderService.cs:116-166 | the cleaned text is empty or has a non-white character |
| PromptBuilder.TrimCV | backend/ErasmusAi.Api/Services/AI/PromptBuilderService.cs:168-172 | blank gives ""; up to 2000 characters the CV itself; longer, its first 2000 characters and the marker |
| PromptBuilder.TrimProject | backend/ErasmusAi.Api/Services/AI/PromptBuilderService.cs:174-179 | the cleaned project text, cut to 1500 characters with a marker when longer |
| AnswerParsing.SkipWhiteIs | backend/ErasmusAi.Api/Controllers/AIController.cs:784-800 | the white-space run of `\s*` starting at i ends at the first non-white character |
| AnswerParsing.SkipDigitsIs | backend/ErasmusAi.Api/Controllers/AIController.cs:784-800 | the digit run of `(\d+)` ends at the first non-digit |
| AnswerParsing.SkipWhiteRun | backend/ErasmusAi.Api/Controllers/AIController.cs:784-800 | the `\s*` run is white and stops at the end or at a visible character |
| AnswerParsing.SkipDigitsRun | backend/ErasmusAi.Api/Controllers/AIController.cs:784-800 | the `\d*` run is digits and stops at the end or at a non-digit |
| AnswerParsing.AnswerHeaderIsBare | backend/ErasmusAi.Api/Controllers/AIController.cs:784-800 | every "n. Answer:" header is also a bare numbered header |
| AnswerParsing.NextHeader | backend/ErasmusAi.Api/Controllers/AIController.cs:784-801 | the next header position lies between the start and the end of the text (NextHeaderFound and NextHeaderIs state that it is the first header) |
| AnswerParsing.NextHeaderFound | backend/ErasmusAi.Api/Controllers/AIController.cs:784-801 | the next header position found is a header, unless it is the end of the text |
| AnswerParsing.NextHeaderIs | backend/ErasmusAi.Api/Controllers/AIController.cs:784-801 | the lazy body stops at the first header after its start |
| AnswerParsing.BodiesStep | backend/ErasmusAi.Api/Controllers/AIController.cs:782-793 | each match's body runs from its header's end to the next header or the end |
| AnswerParsing.NoHeaderNoBodies | backend/ErasmusAi.Api/Controllers/AIController.cs:782-803 | text with no header has no matches |
| AnswerParsing.NonBlankTrimmed | backend/ErasmusAi.Api/Controllers/AIController.cs:803-810 | the kept fallback bodies are trimmed, not blank and no more than the matches |
| AnswerParsing.ParsedAnswersFacts | backend/ErasmusAi.Api/Controllers/AIController.cs:764-822 | no answers exactly for blank output; with "Answer:" headers, every body trimmed, uncapped; otherwise non-blank trimmed answers capped at a positive expected count |
| AnswerParsing.TrimEach | backend/ErasmusAi.Api/Controllers/AIController.cs:789-793 | the trimmed bodies of the "Answer:" matches, in order |
| AnswerParsing.KeepNonBlank | backend/ErasmusAi.Api/Controllers/AIController.cs:803-810 | the trimmed, non-blank fallback bodies, in order |
| AnswerParsing.ParseNumberedAnswers | backend/ErasmusAi.Api/Controllers/AIController.cs:764-822 | the answers the two header patterns recover, with the whole trimmed output as the last resort and the cap applied to the fallback only |
| AnswerParsing.ParsedNoHeaders | backend/ErasmusAi.Api/Controllers/AIController.cs:812-816 | non-blank output with no numbered header yields its trimmed self as the only answer |
| AnswerParsing.SheetBodies | backend/ErasmusAi.Api/Controllers/AIController.cs:782-793 | in a sheet of "n. Answer:" blocks each body is recovered as its answer line |
| AnswerParsing.TrimLines | backend/ErasmusAi.Api/Controllers/AIController.cs:791 | trimming the recovered bodies gives back the one-line answers |
| AnswerParsing.SheetNotBlank | backend/ErasmusAi.Api/Controllers/AIController.cs:766-769 | a sheet with an answer is never blank |
| AnswerParsing.AnswerSheetRoundTrip | backend/ErasmusAi.Api/Controllers/AIController.cs:764-822 | the answers written as "1. Answer:" blocks parse back to exactly those answers, whatever the expected count |
| AnswerParsing.ExtractionMarkerEnd | backend/ErasmusAi.Api/Controllers/AIController.cs:553 | the stripped leading marker lies within the line |
| AnswerParsing.CleanExtractedLine | backend/ErasmusAi.Api/Controllers/AIController.cs:551-553 | the cleaned line is trimmed and no longer than the line |
| AnswerParsing.CleanedQuestions | backend/ErasmusAi.Api/Controllers/AIController.cs:549-559 | no more questions than lines |
| AnswerParsing.CleanedQuestionsKept | backend/ErasmusAi.Api/Controllers/AIController.cs:551-558 | every kept question is trimmed, not blank and longer than five characters |
| AnswerParsing.ExtractQuestionLines | backend/ErasmusAi.Api/Controllers/AIController.cs:546-560 | blank reply gives no questions; otherwise each non-empty line cleaned of its marker, kept when longer than five characters, in order |
| AnswerParsing.CleanedStep | backend/ErasmusAi.Api/Controllers/AIController.cs:549-559 | one pass of the loop appends the cleaned line exactly when it is kept |
| AnswerParsing.CleanExtractedLineChars | backend/ErasmusAi.Api/Controllers/AIController.cs:553 | cleaning only removes characters |
| AnswerParsing.CleanedOneLine | backend/ErasmusAi.Api/Controllers/AIController.cs:548-558 | questions cleaned from single lines are single lines |
| AnswerParsing.ExtractedQuestionsFacts | backend/ErasmusAi.Api/Controllers/AIController.cs:546-560 | every extracted question is trimmed, longer than five characters and free of line breaks |
| AnswerParsing.CleanNumberedLine | backend/ErasmusAi.Api/Controllers/AIController.cs:553 | the "n. " marker is removed and the question itself kept |
| AnswerParsing.CleanBulletLine | backend/ErasmusAi.Api/Controllers/AIController.cs:553 | the "- " marker is removed and the question itself kept |
| AnswerParsing.CleanLabelLine | backend/ErasmusAi.Api/Controllers/AIController.cs:553 | the "Qn: " marker is removed and the question itself kept |
| AnswerParsing.NumberedLinesClean | backend/ErasmusAi.Api/Controllers/AIController.cs:546-560 | a numbered list of questions is a list of non-empty single lines whose cleaning gives the questions back |
| AnswerParsing.CleanedQuestionsCons | backend/ErasmusAi.Api/Controllers/AIController.cs:549-559 | the loop handles the first line, then the rest |
| AnswerParsing.ExtractionRoundTrip | backend/ErasmusAi.Api/Controllers/AIController.cs:546-560 | questions the model returns as a numbered list are extracted back exactly |
| AnswerParsing.NextQHeaderIs | backend/ErasmusAi.Api/Controllers/AIController.cs:693 | the lazy question-answer match stops at the first "Qn:" line after its start |
| AnswerParsing.QHeaderEnd | backend/ErasmusAi.Api/Controllers/AIController.cs:693 | a recognised `Q\d+:` header is "Q" or "q", at least one digit and ":", and its end lies past them |
| AnswerParsing.QHeaderEndIs | backend/ErasmusAi.Api/Controllers/AIController.cs:693 | "Q" or "q", digits and ":" are recognised, ending just past the ":" |
| AnswerParsing.QHeaderParts | backend/ErasmusAi.Api/Controllers/AIController.cs:693 | everything between the "Q" and the ":" of a recognised header is a digit |
| AnswerParsing.NextQHeader | backend/ErasmusAi.Api/Controllers/AIController.cs:693 | the next "Qn:" position lies between the start and the end of the text (NextQHeaderFound and NextQHeaderIs state that it is the first) |
| AnswerParsing.NextQHeaderFound | backend/ErasmusAi.Api/Controllers/AIController.cs:693 | a position found before the end starts a "Qn:" line |
| AnswerParsing.QMatchFrom | backend/ErasmusAi.Api/Controllers/AIController.cs:693-706 | a match exactly when an "Answer:" follows the header; it ends after the header, at the next "Qn:" line or at the end of the text |
| AnswerParsing.NextLabelIs | backend/ErasmusAi.Api/Controllers/AIController.cs:693 | the question part stops at the first "Answer:", ignoring case |
| AnswerParsing.QMatchesTrimmed | backend/ErasmusAi.Api/Controllers/AIController.cs:693-706 | every recovered question and answer is trimmed |
| AnswerParsing.NoQHeaderNoMatches | backend/ErasmusAi.Api/Controllers/AIController.cs:697-698 | text with no "Qn:" line has no matches |
| AnswerParsing.QMatchesStep | backend/ErasmusAi.Api/Controllers/AIController.cs:697-706 | each match contributes its question and answer, then matching resumes at the next "Qn:" line |
| AnswerParsing.QBlockStep | backend/ErasmusAi.Api/Controllers/AIController.cs:692-706 | one "Qn: question / Answer: answer" block is matched as that pair |
| AnswerParsing.QSheetMatches | backend/ErasmusAi.Api/Controllers/AIController.cs:692-706 | a sheet of question-answer blocks yields exactly those pairs |
| AnswerParsing.QSheetRoundTrip | backend/ErasmusAi.Api/Controllers/AIController.cs:692-706 | pairs written in the "Q1:" layout the prompt asks for split back to exactly those pairs |
| SmartQuestionExtractor.ExtractRealQuestions | frontend/erasmus-ai-web/src/utils/smartQuestionExtractor.ts:1-128 | blank text gives no questions; otherwise the questions the line scan collects, duplicates removed, first occurrence kept |
| SmartQuestionExtractor.GlueTrimmed | frontend/erasmus-ai-web/src/utils/smartQuestionExtractor.ts:109 | joining two trimmed non-empty pieces with a space gives a trimmed buffer |
| SmartQuestionExtractor.AbsorbOk | frontend/erasmus-ai-web/src/utils/smartQuestionExtractor.ts:99-110 | taking a line in keeps every pushed question valid and trimmed and the buffer trimmed |
| SmartQuestionExtractor.CompleteOk | frontend/erasmus-ai-web/src/utils/smartQuestionExtractor.ts:113-118 | pushing a buffer that ends with '?' keeps the same invariant |
| SmartQuestionExtractor.StepOk | frontend/erasmus-ai-web/src/utils/smartQuestionExtractor.ts:90-119 | one loop pass, noise skipped, keeps the invariant |
| SmartQuestionExtractor.ScanLinesOk | frontend/erasmus-ai-web/src/utils/smartQuestionExtractor.ts:88-119 | the invariant holds after the whole loop |
| SmartQuestionExtractor.CollectedOk | frontend/erasmus-ai-web/src/utils/smartQuestionExtractor.ts:88-124 | every collected question, including the leftover buffer, is valid and trimmed |
| SmartQuestionExtractor.ValidQuestionShape | frontend/erasmus-ai-web/src/utils/smartQuestionExtractor.ts:53-86 | a valid question is at least 10 characters, not all capitals, and a checkbox statement only when it ends with '?' |
| SmartQuestionExtractor.RealQuestionsValid | frontend/erasmus-ai-web/src/utils/smartQuestionExtractor.ts:1-128 | every returned question is valid, trimmed, at least 10 characters, not all capitals, and a checkbox statement only when it asks |
| SmartQuestionExtractor.RealQuestionsDistinct | frontend/erasmus-ai-web/src/utils/smartQuestionExtractor.ts:2-127 | blank text gives nothing; the result has no duplicates, keeps the collection order and loses no collected question |
| SmartQuestionExtractor.NoiseLineSkipped | frontend/erasmus-ai-web/src/utils/smartQuestionExtractor.ts:42-93 | a noise line changes nothing in the scan |
| SmartQuestionExtractor.StepQuestionLine | frontend/erasmus-ai-web/src/utils/smartQuestionExtractor.ts:99-118 | with an empty buffer, a valid line ending with '?' is pushed at once |
| SmartQuestionExtractor.AllQuestionLinesFrom | frontend/erasmus-ai-web/src/utils/smartQuestionExtractor.ts:90-119 | lines that are each complete questions qualify as a run of complete questions |
| SmartQuestionExtractor.StepLastQuestionLine | frontend/erasmus-ai-web/src/utils/smartQuestionExtractor.ts:90-119 | a run of complete questions ends by pushing its last line |
| SmartQuestionExtractor.ScanQuestionLines | frontend/erasmus-ai-web/src/utils/smartQuestionExtractor.ts:88-119 | scanning complete question lines pushes each of them and leaves the buffer empty |
| SmartQuestionExtractor.SplitJoinLines | frontend/erasmus-ai-web/src/utils/smartQuestionExtractor.ts:6 | splitting lines joined by line breaks gives the lines back |
| SmartQuestionExtractor.SplitHeadNotBlank | frontend/erasmus-ai-web/src/utils/smartQuestionExtractor.ts:2 | text whose first line starts with a visible character is not blank |
| SmartQuestionExtractor.CollectedNoPending | frontend/erasmus-ai-web/src/utils/smartQuestionExtractor.ts:121-124 | with an empty buffer after the loop, nothing is added at the end |
| SmartQuestionExtractor.CollectedQuestionLines | frontend/erasmus-ai-web/src/utils/smartQuestionExtractor.ts:6-124 | text made of complete question lines collects exactly those lines |
| SmartQuestionExtractor.RealQuestionsOfLines | frontend/erasmus-ai-web/src/utils/smartQuestionExtractor.ts:1-128 | text made of distinct complete question lines returns exactly those lines |
| SmartQuestionExtractor.QuestionLinesRoundTrip | frontend/erasmus-ai-web/src/utils/smartQuestionExtractor.ts:1-128 | distinct complete questions joined by line breaks are extracted back exactly |
| SplitQuestions.ItemMarkerEnd | frontend/erasmus-ai-web/src/utils/splitQuestions.ts:8-13 | a numbered-item match ends after where it starts, within the text |
| SplitQuestions.ItemMarkerParts | frontend/erasmus-ai-web/src/utils/splitQuestions.ts:8-13 | a match is white space, digits, "." or ")", and white space up to a visible character or the end |
| SplitQuestions.ItemMarkerFound | frontend/erasmus-ai-web/src/utils/splitQuestions.ts:8-13 | conversely, that shape is matched and the match ends where it says |
| SplitQuestions.LastBreak | frontend/erasmus-ai-web/src/utils/splitQuestions.ts:13 | finds the last line break in a range, or shows there is none |
| SplitQuestions.MatchAt | frontend/erasmus-ai-web/src/utils/splitQuestions.ts:13-26 | a separator match at a position ends after it, within the text |
| SplitQuestions.CleanedTidy | frontend/erasmus-ai-web/src/utils/splitQuestions.ts:17-28 | every kept piece is non-empty and trimmed |
| SplitQuestions.ReclosedShape | frontend/erasmus-ai-web/src/utils/splitQuestions.ts:39-47 | a long trimmed fragment, once closed, stays long and trimmed and ends with '?', '.' or '!' |
| SplitQuestions.QuestionMarkPartsShape | frontend/erasmus-ai-web/src/utils/splitQuestions.ts:36-47 | every '?' fragment kept is longer than 10 characters, trimmed, and ends with '?', '.' or '!' |
| SplitQuestions.SplitQuestions | frontend/erasmus-ai-web/src/utils/splitQuestions.ts:1-56 | no pieces exactly for blank text; a single piece is always the whole text trimmed, since each splitting strategy is used only when it gives more than one piece |
| SplitQuestions.SplitQuestionsShape | frontend/erasmus-ai-web/src/utils/splitQuestions.ts:1-56 | no pieces exactly for blank text; every piece returned is non-empty and trimmed |
| SplitQuestions.PiecesSkip | frontend/erasmus-ai-web/src/utils/splitQuestions.ts:16-26 | positions with no separator match do not change the pieces |
| SplitQuestions.NoMarkerAtParagraph | frontend/erasmus-ai-web/src/utils/splitQuestions.ts:13 | a plain paragraph does not start with a numbered marker |
| SplitQuestions.ParagraphHead | frontend/erasmus-ai-web/src/utils/splitQuestions.ts:26 | paragraphs joined by blank lines start with the first paragraph, then a blank line and the rest |
| SplitQuestions.NoNumberedInParagraph | frontend/erasmus-ai-web/src/utils/splitQuestions.ts:13 | no numbered-item match starts inside a plain paragraph |
| SplitQuestions.NoNumberedAtBlankLine | frontend/erasmus-ai-web/src/utils/splitQuestions.ts:13 | the line breaks between paragraphs start no numbered-item match when the next paragraph has no marker |
| SplitQuestions.AllPlainFrom | frontend/erasmus-ai-web/src/utils/splitQuestions.ts:13 | every paragraph plain makes the sequence plain |
| SplitQuestions.NoNumberedAtBreak | frontend/erasmus-ai-web/src/utils/splitQuestions.ts:13 | the blank line before a plain paragraph starts no numbered-item match |
| SplitQuestions.NoNumberedAround | frontend/erasmus-ai-web/src/utils/splitQuestions.ts:13 | no match before, at or after a paragraph break means none from the paragraph on |
| SplitQuestions.NoNumberedFrom | frontend/erasmus-ai-web/src/utils/splitQuestions.ts:13-15 | plain paragraphs joined by blank lines hold no numbered-item match, so the first strategy does not fire |
| SplitQuestions.NoBreakInParagraph | frontend/erasmus-ai-web/src/utils/splitQuestions.ts:26 | no blank-line separator starts inside a plain paragraph |
| SplitQuestions.ParagraphStart | frontend/erasmus-ai-web/src/utils/splitQuestions.ts:26 | a plain paragraph starts with a visible character |
| SplitQuestions.BlankLineMatch | frontend/erasmus-ai-web/src/utils/splitQuestions.ts:26 | two line breaks before a visible character form one separator |
| SplitQuestions.ParagraphPieces | frontend/erasmus-ai-web/src/utils/splitQuestions.ts:26 | splitting plain paragraphs joined by blank lines gives the paragraphs back |
| SplitQuestions.PiecesCut | frontend/erasmus-ai-web/src/utils/splitQuestions.ts:16-26 | a separator match closes the current piece and the split resumes after it |
| SplitQuestions.ParagraphsRoundTrip | frontend/erasmus-ai-web/src/utils/splitQuestions.ts:1-32 | two or more plain paragraphs joined by blank lines split back into exactly those paragraphs |
| SplitQuestions.NumberedLinesLabelled | frontend/erasmus-ai-web/src/utils/splitQuestions.ts:13-21 | numbering the items from n labels them with the decimal numbers n, n+1, ... |
| SplitQuestions.LabelledHead | frontend/erasmus-ai-web/src/utils/splitQuestions.ts:13-16 | the first labelled line of a numbered list: its digits, ". ", its item, then the end of the text or a line break and the rest of the list |
| SplitQuestions.NoNumberedInItem | frontend/erasmus-ai-web/src/utils/splitQuestions.ts:13 | no numbered-item separator matches inside a line, away from the start of the text |
| SplitQuestions.NumberedItemSkip | frontend/erasmus-ai-web/src/utils/splitQuestions.ts:16 | the split passes over an item without cutting |
| SplitQuestions.NumberedItemCut | frontend/erasmus-ai-web/src/utils/splitQuestions.ts:13-16 | an item followed by a line break and a marker "<digits>. " is one piece, and the split resumes after the marker |
| SplitQuestions.NumberedItemLast | frontend/erasmus-ai-web/src/utils/splitQuestions.ts:16 | an item that runs to the end of the text is the last piece |
| SplitQuestions.LabelledTail | frontend/erasmus-ai-web/src/utils/splitQuestions.ts:16 | after the first line of a numbered list come a line break and the rest of the list |
| SplitQuestions.LabelledNext | frontend/erasmus-ai-web/src/utils/splitQuestions.ts:13-16 | in a list of two or more lines, the first item is followed by the next marker and a visible character |
| SplitQuestions.LabelledLast | frontend/erasmus-ai-web/src/utils/splitQuestions.ts:16 | a one-line list ends with its item |
| SplitQuestions.ItemThenMarkerShift | frontend/erasmus-ai-web/src/utils/splitQuestions.ts:13 | an item followed by a marker keeps that shape inside a longer text that ends with it |
| SplitQuestions.ChainShift | frontend/erasmus-ai-web/src/utils/splitQuestions.ts:13-16 | items laid out one after another keep that layout inside a longer text that ends with them |
| SplitQuestions.ChainCons | frontend/erasmus-ai-web/src/utils/splitQuestions.ts:13-16 | the first item and its following marker, then the layout of the rest, give the layout of the whole list |
| SplitQuestions.ChainJoin | frontend/erasmus-ai-web/src/utils/splitQuestions.ts:13-16 | the items of a numbered list lie one after another from the end of the first marker, each but the last followed by the next marker |
| SplitQuestions.PiecesChain | frontend/erasmus-ai-web/src/utils/splitQuestions.ts:16 | splitting along such a layout gives exactly the items |
| SplitQuestions.NumberedListHead | frontend/erasmus-ai-web/src/utils/splitQuestions.ts:13 | a numbered list starts with "1. " and a visible character |
| SplitQuestions.MarkerAtStart | frontend/erasmus-ai-web/src/utils/splitQuestions.ts:13-15 | a marker at the start of the text matches there, so the numbered strategy is tried |
| SplitQuestions.NumberedListPieces | frontend/erasmus-ai-web/src/utils/splitQuestions.ts:13-16 | splitting a numbered list gives an empty first piece and then the items |
| SplitQuestions.NumberedRoundTrip | frontend/erasmus-ai-web/src/utils/splitQuestions.ts:1-22 | two or more non-empty trimmed one-line items, numbered "1. ", "2. ", ... and joined by line breaks, split back into exactly those items |
| QuickModeParser.ErasmusKind | frontend/erasmus-ai-web/src/utils/quickModeParser.ts:26-35 | internship words give " Internship"; failing those, youth-exchange words " Youth Exchange"; failing those, solidarity-corps words " ESC Volunteering"; otherwise " Mobility" |
| QuickModeParser.ApplicationType | frontend/erasmus-ai-web/src/utils/quickModeParser.ts:21-42 | a type exactly when the lowered text mentions one of the keywords; "erasmus" gives Erasmus+ with its kind; failing that, internship, then volunteering, then academic keywords give their label, in that priority |
| QuickModeParser.ErasmusWins | frontend/erasmus-ai-web/src/utils/quickModeParser.ts:25-35 | once the text mentions "erasmus", whatever follows, the type is an Erasmus+ label |
| QuickModeParser.LinesTidy | frontend/erasmus-ai-web/src/utils/quickModeParser.ts:47 | the lines are trimmed and non-empty |
| QuickModeParser.KeywordLength | frontend/erasmus-ai-web/src/utils/quickModeParser.ts:65 | the length of project, topic, about or konu when the line starts with it in any letter case, and 0 exactly when it starts with none of them |
| QuickModeParser.StripTopic | frontend/erasmus-ai-web/src/utils/quickModeParser.ts:65 | stripping never lengthens the line, and a line without a leading keyword is only trimmed |
| QuickModeParser.KeywordLengthOf | frontend/erasmus-ai-web/src/utils/quickModeParser.ts:65 | whichever of the four keywords the line starts with, its length is what is removed |
| QuickModeParser.StripTopicTrimmed | frontend/erasmus-ai-web/src/utils/quickModeParser.ts:65 | the stripped topic is trimmed |
| QuickModeParser.StripKeywordLabel | frontend/erasmus-ai-web/src/utils/quickModeParser.ts:65 | any of the four keywords in any letter case, then any run of ':', '-' and white space, then a text not starting with one of those: the topic is that text trimmed |
| QuickModeParser.FirstTopic | frontend/erasmus-ai-web/src/utils/quickModeParser.ts:50-69 | nothing exactly when no line qualifies; otherwise the stripped text of a qualifying line |
| QuickModeParser.FirstTopicAt | frontend/erasmus-ai-web/src/utils/quickModeParser.ts:50-69 | the loop stops at the first qualifying line |
| QuickModeParser.FindTopic | frontend/erasmus-ai-web/src/utils/quickModeParser.ts:46-69 | the stripped first line that is not numbered, dated or a URL, is 6 to 99 characters and mentions a topic keyword |
| QuickModeParser.ProgramTopicShape | frontend/erasmus-ai-web/src/utils/quickModeParser.ts:46-77 | no lines give no topic; any topic is under 100 characters and trimmed |
| QuickModeParser.FirstTopicShape | frontend/erasmus-ai-web/src/utils/quickModeParser.ts:50-69 | a found topic is under 100 characters and trimmed |
| QuickModeParser.ParseQuickModeInput | frontend/erasmus-ai-web/src/utils/quickModeParser.ts:9-84 | blank text gives no questions, type or topic; otherwise the extracted questions, the detected type and the detected topic |
| QuickModeParser.QuickParsedShape | frontend/erasmus-ai-web/src/utils/quickModeParser.ts:9-84 | the questions are valid, trimmed and distinct; the type is a known label, Erasmus+ exactly when "erasmus" appears; the topic is under 100 characters and trimmed |
| AIController.AliasedModel | backend/ErasmusAi.Api/Controllers/AIController.cs:376-395 | the deprecated "llama3-8b-8192" becomes the instant model; every other name, "llama3:8b" included, is kept |
| AIController.PrepareRequest | backend/ErasmusAi.Api/Controllers/AIController.cs:331-395 | missing texts become empty, the trimmer steps run when enabled, then the model name is aliased |
| AIController.CvStepKeeps | backend/ErasmusAi.Api/Controllers/AIController.cs:342-349 | trimming the CV changes no setting |
| AIController.ProjectStepKeeps | backend/ErasmusAi.Api/Controllers/AIController.cs:351-356 | trimming the project changes no setting |
| AIController.FormStepKeeps | backend/ErasmusAi.Api/Controllers/AIController.cs:358-368 | extracting the form's questions changes no setting |
| AIController.TrimmingKeeps | backend/ErasmusAi.Api/Controllers/AIController.cs:342-369 | the trimmer changes no setting |
| AIController.PreparedKeeps | backend/ErasmusAi.Api/Controllers/AIController.cs:331-395 | preparation keeps every setting except the aliased model name and fills in missing notes; without the trimmer the texts are only defaulted and nothing is reported trimmed |
| AIController.PreparedTrims | backend/ErasmusAi.Api/Controllers/AIController.cs:342-356 | with the trimmer on, a non-empty CV and project are replaced by their trimmed forms and reported; empty ones are neither |
| AIController.PreparedForm | backend/ErasmusAi.Api/Controllers/AIController.cs:358-368 | with the trimmer on, the form is reported exactly when questions were extracted, and a single extracted question replaces the question |
| AIController.ModelToStore | backend/ErasmusAi.Api/Controllers/AIController.cs:397-405 | a model is stored exactly when the name and the provider key are not blank; under groq a llama3:8b in any case is stored as the instant model, otherwise the name itself |
| AIController.DetermineQuestions | backend/ErasmusAi.Api/Controllers/AIController.cs:412-568 | in question mode with application text, the questions cleaned from one extraction call on the text, cleaned first when over 10000 characters; otherwise the questions extracted from the question field, with no call |
| AIController.GenerateOnce | backend/ErasmusAi.Api/Controllers/AIController.cs:544 | a short non-blank prompt is sent once, unchanged, and the reply returned |
| AIController.ExtractionFeedsQuestions | backend/ErasmusAi.Api/Controllers/AIController.cs:415-560 | when the extraction reply is a numbered list of questions, exactly those questions are answered, after one call |
| AIController.ExtractionCall | backend/ErasmusAi.Api/Controllers/AIController.cs:544 | the extraction prompt is sent once and the reply returned |
| AIController.QuestionsFromReply | backend/ErasmusAi.Api/Controllers/AIController.cs:544-560 | the extraction reply's cleaned lines are the questions, with the extraction's calls |
| AIController.OfSnoc | backend/ErasmusAi.Api/Controllers/AIController.cs:629-630 | answering one more question appends its answer and a debug entry indexed by its position |
| AIController.AfterNothing | backend/ErasmusAi.Api/Controllers/AIController.cs:601-631 | nothing done before leaves the rest unchanged |
| AIController.AfterStep | backend/ErasmusAi.Api/Controllers/AIController.cs:601-631 | one successful pass appends its answer and calls and continues with the next question |
| AIController.AfterThrown | backend/ErasmusAi.Api/Controllers/AIController.cs:601-631 | a failing call ends the loop with its error and the calls made so far |
| AIController.AnswerQuestion | backend/ErasmusAi.Api/Controllers/AIController.cs:603-630 | one question: the reduced context, the single-question prompt built from it, one generation and the formatted answer |
| AIController.AnswerEachQuestion | backend/ErasmusAi.Api/Controllers/AIController.cs:580-633 | the per-question answers and debug contexts in question order, or the first error, with every call made |
| AIController.AnswerFromFacts | backend/ErasmusAi.Api/Controllers/AIController.cs:601-631 | a completed loop answers every question once, in order, under its own text |
| AIController.Paired | backend/ErasmusAi.Api/Controllers/AIController.cs:646-651 | one answer per question, under the question's text; a question without a parsed answer gets "" |
| AIController.PairAnswers | backend/ErasmusAi.Api/Controllers/AIController.cs:644-651 | each question paired with its formatted parsed answer, or an empty one |
| AIController.AnswerBatch | backend/ErasmusAi.Api/Controllers/AIController.cs:637-653 | one batch prompt, one call, the reply parsed with the question count as the cap, then paired |
| AIController.BatchRoundTrip | backend/ErasmusAi.Api/Controllers/AIController.cs:637-653 | when the model answers in the numbered layout the prompt asks for, each question receives its own answer, formatted |
| AIController.AnswerSingle | backend/ErasmusAi.Api/Controllers/AIController.cs:658-675 | one call, with the context cache when requested; one retry with the reminder prefix when the reply leaks the AI persona |
| AIController.PersonaGuardOnce | backend/ErasmusAi.Api/Controllers/AIController.cs:663-675 | a leaking reply is replaced by the retry's reply, after exactly two calls |
| AIController.PersonaGuardQuiet | backend/ErasmusAi.Api/Controllers/AIController.cs:658-675 | a reply that does not leak is kept, after one call |
| AIController.MatchItems | backend/ErasmusAi.Api/Controllers/AIController.cs:700-706 | one item per question-answer match |
| AIController.IndexedItems | backend/ErasmusAi.Api/Controllers/AIController.cs:711-714 | one "Question n" item per parsed answer |
| AIController.SplitAnswers | backend/ErasmusAi.Api/Controllers/AIController.cs:677-727 | there is always at least one answer item |
| AIController.CollectMatches | backend/ErasmusAi.Api/Controllers/AIController.cs:700-706 | each match's trimmed question with its formatted answer |
| AIController.NumberAnswers | backend/ErasmusAi.Api/Controllers/AIController.cs:711-714 | each parsed answer as "Question n", n from 1 |
| AIController.SplitResponse | backend/ErasmusAi.Api/Controllers/AIController.cs:677-727 | in question mode, not a letter, the "Q" matches, else the numbered answers, else the whole reply; otherwise the whole reply under the request's question |
| AIController.QuestionModeSplitRoundTrip | backend/ErasmusAi.Api/Controllers/AIController.cs:680-707 | a reply in the "Q1:" layout splits into exactly its questions and formatted answers |
| AIController.SplitWhole | backend/ErasmusAi.Api/Controllers/AIController.cs:723-727 | outside question mode, or for a letter, the whole reply is one answer under the request's question |
| AIController.GlobalDebug | backend/ErasmusAi.Api/Controllers/AIController.cs:729-745 | one debug entry per answer |
| AIController.GlobalContexts | backend/ErasmusAi.Api/Controllers/AIController.cs:735-739 | one "Global Context" entry per answer, indexed from 0, each holding the prompt |
| AIController.StoredModel | backend/ErasmusAi.Api/Controllers/AIController.cs:397-406 | after an accepted request the stored models change only under the provider's key, and only when a model is stored |
| AIController.Answering | backend/ErasmusAi.Api/Controllers/AIController.cs:570-756 | the answering paths end in answers, carrying the trimmed texts of the request, or in a server error, never in a 400 reply |
| AIController.Respond | backend/ErasmusAi.Api/Controllers/AIController.cs:570-756 | the per-question loop, the batch call or the single-question path, as the question count and flags choose |
| AIController.AnsweringFacts | backend/ErasmusAi.Api/Controllers/AIController.cs:570-756 | the batch paths answer every question in order; the single path gives at least one answer, with debug entries exactly when the trimmer is on, one per answer |
| AIController.RejectedQuietly | backend/ErasmusAi.Api/Controllers/AIController.cs:316-323 | a rejected request makes no model call; an invalid one gets its validation errors at any size, and only a valid one can get the too-large reply |
| AIController.Flow | backend/ErasmusAi.Api/Controllers/AIController.cs:313-762 | one of the two 400 replies exactly for a rejected request, with no call; model validation comes before the size guard, as the [ApiController] filter runs before the action body |
| AIController.AIController.constructor | backend/ErasmusAi.Api/Controllers/AIController.cs:20-34 | the controller holds the configuration service and services it is given |
| AIController.AIController.Generate | backend/ErasmusAi.Api/Controllers/AIController.cs:313-762 | the response and calls are those of the request flow, validation first; the model is persisted for the provider as the source does; provider and keys unchanged |

## Left out

- AIController.Generate: the controller carries [ApiController] (AIController.cs:10) and Program.cs:13 keeps the default automatic model validation, so an invalid request is answered before the action body runs, ahead of the Content-Length guard; the model checks validity first accordingly, and `InvalidModel(ValidationErrors(request))` stands for that automatic 400. Its ValidationProblemDetails body (title, status, errors keyed by property) is not modelled, only the list of messages, and the action's own `ModelState.IsValid` test (AIController.cs:322-323) is thereby never the one that fires.
- Logging (Console.WriteLine), timing and the token-size estimate are not modelled. They change no result.
- HTTP and JSON are not modelled. A vendor exchange is reduced to `Http.HttpReply`: the parsed content on success, the status and body on failure. Ollama's tag list arrives at GetOllamaModels as the list of installed names, empty when Ollama cannot be reached. The request's Content-Length arrives at Generate as a parameter.
- ProviderConfigService persistence (LoadConfig, SaveConfig, the JSON file) and its lock are not modelled. The service starts as it does when no configuration file exists.
- The Ollama, Gemini, OpenAI and mock backends behind DynamicAIProvider are not part of this model. Each is one oracle call that returns the reply or raises.
- Concurrency and asynchrony are not modelled. The async calls run in sequence, as they are awaited.
- Prompt prose is abbreviated. Instruction lines are kept by their opening words followed by " ...". Headings (among them "NEGATIVE CONSTRAINTS (Violating these = FAIL):" and "CRITICAL LANGUAGE RULES:", which open every template), fallbacks, separators, the line count and order, and every phrase other code looks for are kept in full. The rule lines under those two headings differ from template to template (the single-question prompt forbids giving advice, the application-mode prompt forbids asterisks "EVER" and asks for everyday words); the model keeps each template's own lines, abbreviated. Exact prompt lengths in the guard lemmas are therefore lengths of the model's prompts, not of the original texts.
- White space (\s, Trim, IsNullOrWhiteSpace) is the ASCII set. Case folding (ToLowerInvariant, toLowerCase, OrdinalIgnoreCase, the `i` regex flag) maps ASCII letters only. Other Unicode letters, such as the Turkish ones in the denylists, compare case-sensitively in the model.
- The regular expressions are modelled as position-based matchers over the whole text: `\s` is white space, `\d` an ASCII digit. `^` is a line start in the .NET patterns that carry the `m` option (the answer and "Q<n>:" splits of AIController), and the start of the text everywhere else: in StripPrefix's and the extraction cleaner's patterns, and in the JavaScript ones, none of which has the `m` flag (splitQuestions' `(?:^|\n)` therefore matches at the start of the text or after a line break). Backtracking corner cases in which .NET or JavaScript would match differently are not modelled.
- Lengths are counts of characters (Unicode scalar values). .NET's `Length` and JavaScript's `length` count UTF-16 code units, so a character outside the Basic Multilingual Plane (an emoji, say) counts twice in the source and once in the model. Every character threshold (the 100, 300, 1500, 2000, 5000, 6000, 8000, 12000 and 15000 limits and the character limit of FormatResponse) is therefore met by the model at the same number of characters, which for such text is a larger number of code units than in the source. A `Substring` that cuts between the two halves of a surrogate pair has no counterpart in the model.
- A line appended with `StringBuilder.AppendLine` ends in "\n" in the model (`Terminated`). That is `Environment.NewLine` on Linux and macOS; on Windows, the platform the key store's DPAPI calls (EncryptedKeyStore.cs) require, it is "\r\n". There each prompt line is one character longer than the model's, so the prompt length lemmas and the 6000-character guard count one character less per line, and the cleaned project text (CleanProjectInfo, TerminatedNoCrLf) holds "\r\n" pairs where the model has "\n".
- AnswerParsing.QMatchFrom: the lazy `(.*?)\s*Answer:` group 1 is modelled as the trimmed text up to the first "Answer:". The source trims it anyway before use, so both give the same question text.
- The controller's injected services are function values, so the controller is proved for any services. `Registered` supplies the ones this model defines.
- The unused cache field of AIService is not modelled. It is never assigned, so no call changes the service's state.
