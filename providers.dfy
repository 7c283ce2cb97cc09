/** An HTTP exchange with a model vendor, reduced to what the providers read from it. */
module Http {
  import opened Wrappers

  /** A response: on success the parsed `choices[0].message.content` (None when the path is
      absent or null); on failure the status code, its name as HttpStatusCode prints it, and
      the body. */
  datatype HttpReply = Ok(content: Option<string>) | Failed(status: nat, statusName: string, body: string)

  /** The vendor as an oracle: the k-th request of one call receives replies(k). */
  type Replies = nat -> HttpReply

  /** The text a successful reply yields: the content, or "" when it is missing. */
  function ContentText(reply: HttpReply): string
    requires reply.Ok?
  {
    reply.content.GetOr("")
  }
}

/** DynamicAIProvider: picks the backend named by the current provider and the model to ask
    for, then forwards the prompt to that backend. */
module DynamicAIProvider {
  import opened Wrappers
  import opened Text
  import opened Backend
  import opened ProviderConfig

  datatype BackendKind = Ollama | Gemini | Groq | HuggingFace | OpenAI | Mock

  /** The names the admin panel offers. */
  const AvailableProviders: seq<string> := ["ollama", "groq", "huggingface", "gemini"]
  /** The names the dispatch switch accepts. */
  const DispatchableProviders: set<string> := {"ollama", "gemini", "groq", "huggingface", "openai", "mock"}

  const LegacyGroqModel := "llama3:8b"
  const InstantGroqModel := "llama-3.1-8b-instant"

  /** The switch over the provider key. */
  function BackendFor(key: string): (r: Option<BackendKind>)
    ensures r.Some? <==> key in DispatchableProviders
  {
    if key == "ollama" then Some(Ollama)
    else if key == "gemini" then Some(Gemini)
    else if key == "groq" then Some(Groq)
    else if key == "huggingface" then Some(HuggingFace)
    else if key == "openai" then Some(OpenAI)
    else if key == "mock" then Some(Mock)
    else None
  }

  /** Every advertised name can be dispatched; openai and mock can be dispatched but are not advertised. */
  lemma AdvertisedDispatchable()
    ensures forall p :: p in AvailableProviders ==> BackendFor(p).Some?
    ensures BackendFor("openai").Some? && "openai" !in AvailableProviders
    ensures BackendFor("mock").Some? && "mock" !in AvailableProviders
  {
  }

  /** The model asked for: a non-blank override as given, else the stored model (maybe none);
      under groq the legacy name, in any case, becomes the instant model. */
  function EffectiveModel(key: string, modelName: Option<string>, stored: Option<string>): (r: Option<string>)
    ensures key == "groq" ==> r.None? || !EqualsCI(r.value, LegacyGroqModel)
    ensures key != "groq" ==> r == if modelName.Some? && !IsBlank(modelName.value) then modelName else stored
    ensures modelName.Some? && !IsBlank(modelName.value) ==>
              r == if key == "groq" && EqualsCI(modelName.value, LegacyGroqModel) then Some(InstantGroqModel) else modelName
    ensures (modelName.None? || IsBlank(modelName.value)) ==>
              r == if key == "groq" && stored.Some? && EqualsCI(stored.value, LegacyGroqModel) then Some(InstantGroqModel) else stored
  {
    var chosen := if modelName.Some? && !IsBlank(modelName.value) then modelName else stored;
    if key == "groq" && chosen.Some? && EqualsCI(chosen.value, LegacyGroqModel) then Some(InstantGroqModel)
    else chosen
  }

  /** What GenerateAsync decided: the error text for an unknown provider, or the backend and model. */
  datatype Route = Unknown(message: string) | Forward(backend: BackendKind, model: Option<string>)

  function UnknownProviderMessage(name: string): string {
    "Error: Unknown provider '" + name + "'. Please select a valid provider in Admin Panel."
  }

  function Resolve(config: ProviderConfigService, modelName: Option<string>): (r: Route)
    reads config
  {
    var name := Trim(config.currentProvider);
    var key := Lower(name);
    match BackendFor(key)
    case None => Unknown(UnknownProviderMessage(name))
    case Some(b) => Forward(b, EffectiveModel(key, modelName, config.GetModel(key)))
  }

  /** GenerateAsync: an unknown provider yields its error text and no call; otherwise one call
      to the chosen backend, whose exception propagates. */
  function Generate(config: ProviderConfigService, prompt: string, modelName: Option<string>, script: Script): (r: Traced<Outcome<string>>)
    reads config
    ensures |r.calls| <= 1
  {
    match Resolve(config, modelName)
    case Unknown(message) => Traced(Done(message), [])
    case Forward(_, model) => Traced(Reflect(script(0)), [Call(prompt, model)])
  }

  /** The backend is chosen by the trimmed, lower-cased provider name, among exactly six names. */
  lemma ResolveBackend(config: ProviderConfigService, modelName: Option<string>)
    ensures Resolve(config, modelName).Forward? <==> NormalKey(config.currentProvider) in DispatchableProviders
    ensures Resolve(config, modelName).Forward? ==>
              Some(Resolve(config, modelName).backend) == BackendFor(NormalKey(config.currentProvider))
    ensures Resolve(config, modelName).Unknown? ==>
              Resolve(config, modelName).message == UnknownProviderMessage(Trim(config.currentProvider))
  {
  }

  /** Without an override the stored model for the provider's key is used, as stored
      (under groq, unless it is the legacy name). */
  lemma StoredModelUsed(config: ProviderConfigService, modelName: Option<string>)
    requires modelName.None? || IsBlank(modelName.value)
    requires NormalKey(config.currentProvider) in DispatchableProviders
    requires NormalKey(config.currentProvider) == "groq" && "groq" in config.models ==>
               !EqualsCI(config.models["groq"], LegacyGroqModel)
    ensures var key := NormalKey(config.currentProvider);
            Resolve(config, modelName).model == if key in config.models then Some(config.models[key]) else None
  {
    var key := NormalKey(config.currentProvider);
    NormalKeyIdempotent(config.currentProvider);
    NormalKeyBlank(key);
  }

  /** A non-blank override wins over the stored model, except that groq's legacy name is rewritten. */
  lemma OverrideUsed(config: ProviderConfigService, modelName: string)
    requires !IsBlank(modelName)
    requires NormalKey(config.currentProvider) in DispatchableProviders
    ensures var key := NormalKey(config.currentProvider);
            Resolve(config, Some(modelName)).model ==
              if key == "groq" && EqualsCI(modelName, LegacyGroqModel) then Some(InstantGroqModel) else Some(modelName)
  {
  }

  /** Under groq, the legacy model name in any letter case becomes the instant model, whether
      it came as the override or from storage. */
  lemma GroqAliasRewritten(config: ProviderConfigService, modelName: Option<string>)
    requires NormalKey(config.currentProvider) == "groq"
    requires var stored := config.GetModel("groq");
             (modelName.Some? && !IsBlank(modelName.value) && EqualsCI(modelName.value, LegacyGroqModel)) ||
             ((modelName.None? || IsBlank(modelName.value)) && stored.Some? && EqualsCI(stored.value, LegacyGroqModel))
    ensures Resolve(config, modelName) == Forward(Groq, Some(InstantGroqModel))
  {
  }

  /** A known provider gets exactly one call, carrying the prompt unchanged and the effective
      model; an unknown one gets none, and its error text is returned rather than thrown. */
  lemma GenerateForwards(config: ProviderConfigService, prompt: string, modelName: Option<string>, script: Script)
    ensures var route := Resolve(config, modelName);
            var r := Generate(config, prompt, modelName, script);
            (route.Forward? ==> r == Traced(Reflect(script(0)), [Call(prompt, route.model)])) &&
            (route.Unknown? ==> r == Traced(Done(route.message), []))
  {
  }
}

/** GroqProvider.GenerateAsync: the model is clamped to an allowlist, and a request refused
    because the model is retired is retried once with the instant model. */
module GroqProvider {
  import opened Wrappers
  import opened Text
  import opened Backend
  import opened Http

  const AllowedModels: set<string> := {"llama-3.1-8b-instant", "llama-3.1-70b-versatile", "mixtral-8x7b-32768"}
  const FallbackModel := "llama-3.1-8b-instant"
  const MissingKeyMessage := "Groq API Key is missing. Please configure it in the Admin Panel."

  /** One chat-completions request: the model and the single user message. */
  datatype Send = Send(model: string, prompt: string)

  /** A failure body that names a retired or unknown model. */
  predicate IsModelGone(body: string) {
    Contains(body, "model_decommissioned") || Contains(body, "model_not_found")
  }

  /** The model asked for: a non-empty override, else the configured model, else the instant model. */
  function RequestedModel(modelName: Option<string>, configured: Option<string>): string {
    if modelName.Some? && modelName.value != "" then modelName.value else configured.GetOr(FallbackModel)
  }

  /** The allowlist: allowed names pass, anything else becomes the instant model. */
  function ClampModel(model: string): (r: string)
    ensures r in AllowedModels
    ensures model in AllowedModels ==> r == model
    ensures model !in AllowedModels ==> r == FallbackModel
  {
    if model in AllowedModels then model else FallbackModel
  }

  function FallbackFailedMessage(original: string, fallback: string): string {
    "Groq Fallback Failed. Original: " + original + " | Fallback: " + fallback
  }

  function StatusFailedMessage(statusName: string, body: string): string {
    "Groq API failed with status code " + statusName + ": " + body
  }

  /** GenerateAsync for the stored API key (None when absent) and the configured model. */
  method Generate(prompt: string, modelName: Option<string>, apiKey: Option<string>,
                  configured: Option<string>, replies: Replies)
    returns (result: Outcome<string>, sends: seq<Send>)
    ensures |sends| <= 2
    ensures forall i :: 0 <= i < |sends| ==> sends[i].model in AllowedModels && sends[i].prompt == prompt
    ensures apiKey.None? || apiKey.value == "" ==> result == Thrown(MissingKeyMessage) && sends == []
    ensures apiKey.Some? && apiKey.value != "" ==>
              sends != [] && sends[0] == Send(ClampModel(RequestedModel(modelName, configured)), prompt)
    ensures |sends| == 2 <==>
              apiKey.Some? && apiKey.value != "" && replies(0).Failed? && IsModelGone(replies(0).body)
    ensures |sends| == 2 ==> sends[1] == Send(FallbackModel, prompt)
    ensures result.Done? <==> sends != [] && replies(|sends| - 1).Ok?
    ensures result.Done? ==> result.value == ContentText(replies(|sends| - 1))
    ensures |sends| == 1 && replies(0).Failed? ==>
              result == Thrown(StatusFailedMessage(replies(0).statusName, replies(0).body))
    ensures |sends| == 2 && replies(1).Failed? ==>
              result == Thrown(FallbackFailedMessage(replies(0).body, replies(1).body))
  {
    if apiKey.None? || apiKey.value == "" {
      return Thrown(MissingKeyMessage), [];
    }
    var model := RequestedModel(modelName, configured);
    if model !in AllowedModels {
      model := FallbackModel;
    }
    var response := replies(0);
    sends := [Send(model, prompt)];
    if response.Failed? {
      var errorContent := response.body;
      if IsModelGone(errorContent) {
        response := replies(1);
        sends := sends + [Send(FallbackModel, prompt)];
        if response.Failed? {
          return Thrown(FallbackFailedMessage(errorContent, response.body)), sends;
        }
      } else {
        return Thrown(StatusFailedMessage(response.statusName, errorContent)), sends;
      }
    }
    result := Done(ContentText(response));
  }

  /** When the retry fails too, the error names both bodies. */
  lemma FallbackMessageNamesBoth(original: string, fallback: string)
    ensures Contains(FallbackFailedMessage(original, fallback), original)
    ensures Contains(FallbackFailedMessage(original, fallback), fallback)
  {
    var head := "Groq Fallback Failed. Original: ";
    var mid := " | Fallback: ";
    ContainsMiddle(head, original, mid + fallback);
    assert head + original + (mid + fallback) == FallbackFailedMessage(original, fallback);
    ContainsMiddle(head + original + mid, fallback, "");
    assert head + original + mid + fallback + "" == FallbackFailedMessage(original, fallback);
  }
}

/** HuggingFaceProvider: the chat messages and temperature built from a prompt, the key and
    model resolution, and the error mapping of the router API. */
module HuggingFaceProvider {
  import opened Wrappers
  import opened Text
  import opened Backend
  import opened Http
  import PromptTemplates

  const Separator := PromptTemplates.Separator
  const MissingKeyMessage := "HuggingFace API Key is missing. Please configure it in the Admin Panel."
  const DefaultModel := "mistralai/Mistral-7B-Instruct-v0.2"
  const MaxTokens: nat := 2048

  const DefaultTemperature: real := 0.7
  const ExtractionTemperature: real := 0.3
  const StrictTemperature: real := 0.2

  const ExtractorPhrase := "specialized form data extractor"
  const ExtractOnlyPhrase := "extract ONLY explicit application form questions"
  const SeparateAnswersPhrase := "Answer each question separately"
  const MotivationPhrase := "Motivation Letter"

  datatype Message = Message(role: string, content: string)

  /** The temperature the system message calls for; the motivation-letter case keeps the default. */
  function Temperature(system: string): (t: real)
    ensures t == ExtractionTemperature || t == StrictTemperature || t == DefaultTemperature
    ensures t == ExtractionTemperature <==> Contains(system, ExtractorPhrase) || Contains(system, ExtractOnlyPhrase)
    ensures t == StrictTemperature <==>
              !(Contains(system, ExtractorPhrase) || Contains(system, ExtractOnlyPhrase)) &&
              Contains(system, SeparateAnswersPhrase)
  {
    if Contains(system, ExtractorPhrase) || Contains(system, ExtractOnlyPhrase) then ExtractionTemperature
    else if Contains(system, SeparateAnswersPhrase) then StrictTemperature
    else if Contains(system, MotivationPhrase) then DefaultTemperature
    else DefaultTemperature
  }

  /** BuildMessages: with the separator and at least two non-empty pieces around it, a system
      message (the first piece) and a user message (the second), both trimmed; otherwise the
      whole prompt as one user message at the default temperature. */
  function BuildMessages(prompt: string): (r: (seq<Message>, real))
    ensures |r.0| == 1 || |r.0| == 2
    ensures |r.0| == 1 ==> r == ([Message("user", prompt)], DefaultTemperature)
    ensures |r.0| == 2 ==> r.0[0].role == "system" && r.0[1].role == "user" && r.1 == Temperature(r.0[0].content)
    ensures !Contains(prompt, Separator) ==> |r.0| == 1
  {
    if Contains(prompt, Separator) then
      var parts := RemoveEmpty(SplitOn(prompt, Separator));
      if |parts| >= 2 then
        var system := Trim(parts[0]);
        ([Message("system", system), Message("user", Trim(parts[1]))], Temperature(system))
      else ([Message("user", prompt)], DefaultTemperature)
    else ([Message("user", prompt)], DefaultTemperature)
  }

  /** A prompt made of a system part, the separator and a user part, where the system part has
      no '#' and the user part no separator, becomes exactly those two messages, trimmed. */
  lemma BuildMessagesSplits(system: string, user: string)
    requires system != [] && user != []
    requires '#' !in system && !Contains(user, Separator)
    ensures BuildMessages(system + Separator + user) ==
              ([Message("system", Trim(system)), Message("user", Trim(user))], Temperature(Trim(system)))
  {
    SplitOnAround(system, Separator, user);
    ContainsMiddle(system, Separator, user);
    RemoveEmptyKeeps([system, user]);
  }

  /** Only the second piece reaches the user message: text after a second separator is dropped. */
  lemma BuildMessagesDropsThirdPiece(a: string, b: string, c: string)
    requires a != [] && b != [] && c != []
    requires '#' !in a && '#' !in b && !Contains(c, Separator)
    ensures BuildMessages(a + Separator + b + Separator + c).0 ==
              [Message("system", Trim(a)), Message("user", Trim(b))]
  {
    SplitOnThree(a, Separator, b, c);
    RemoveEmptyThree(a, b, c);
  }

  /** The key: the stored key if there is one (even an empty one), else the configured key,
      else "". */
  function ResolveKey(stored: Option<string>, configured: Option<string>): (k: string)
    ensures stored.Some? ==> k == stored.value
    ensures stored.None? && configured.Some? ==> k == configured.value
    ensures stored.None? && configured.None? ==> k == ""
  {
    if stored.Some? then stored.value else configured.GetOr("")
  }

  /** The model: a non-blank override, trimmed; else the stored, configured or default model. */
  function ResolveModel(modelName: Option<string>, stored: Option<string>, configured: Option<string>): (m: string)
    ensures modelName.Some? && !IsBlank(modelName.value) ==> m == Trim(modelName.value) && !IsBlank(m)
    ensures (modelName.None? || IsBlank(modelName.value)) && stored.Some? ==> m == stored.value
    ensures (modelName.None? || IsBlank(modelName.value)) && stored.None? && configured.Some? ==> m == configured.value
    ensures (modelName.None? || IsBlank(modelName.value)) && stored.None? && configured.None? ==> m == DefaultModel
  {
    if modelName.Some? && !IsBlank(modelName.value) then
      TrimNotBlank(modelName.value);
      Trim(modelName.value)
    else if stored.Some? then stored.value
    else configured.GetOr(DefaultModel)
  }

  /** The exception text for a failed response. */
  function FailureMessage(status: nat, statusName: string, body: string): (m: string)
    ensures status == 401 ==> m == "Invalid API Key"
    ensures status == 404 ==> m == "Model not available on router"
    ensures status == 429 ==> m == "Rate limit exceeded"
  {
    if status == 401 then "Invalid API Key"
    else if status == 404 then "Model not available on router"
    else if status == 429 then "Rate limit exceeded"
    else "HuggingFace API failed with status code " + statusName + ": " + body
  }

  /** Any other failure reports the body. */
  lemma FailureReportsBody(status: nat, statusName: string, body: string)
    requires status != 401 && status != 404 && status != 429
    ensures Contains(FailureMessage(status, statusName, body), body)
  {
    var head := "HuggingFace API failed with status code " + statusName + ": ";
    ContainsMiddle(head, body, "");
    assert head + body + "" == FailureMessage(status, statusName, body);
  }

  /** The request sent to the router. */
  datatype Request = Request(model: string, messages: seq<Message>, temperature: real, maxTokens: nat)

  /** GenerateAsync for the keys and models found in the configuration service and the
      application settings, and the router's reply. */
  function Generate(prompt: string, modelName: Option<string>, storedKey: Option<string>, configuredKey: Option<string>,
                    storedModel: Option<string>, configuredModel: Option<string>, reply: HttpReply)
    : (r: (Outcome<string>, Option<Request>))
    ensures IsBlank(ResolveKey(storedKey, configuredKey)) <==> r.1.None?
    ensures r.1.None? ==> r.0 == Thrown(MissingKeyMessage)
    ensures r.1.Some? ==> r.1.value.model == ResolveModel(modelName, storedModel, configuredModel) &&
                          (r.1.value.messages, r.1.value.temperature) == BuildMessages(prompt)
    ensures r.1.Some? ==> (r.0.Done? <==> reply.Ok?)
    ensures r.1.Some? && reply.Ok? ==> r.0 == Done(reply.content.GetOr(""))
    ensures r.1.Some? && reply.Failed? ==> r.0 == Thrown(FailureMessage(reply.status, reply.statusName, reply.body))
  {
    var key := ResolveKey(storedKey, configuredKey);
    if IsBlank(key) then (Thrown(MissingKeyMessage), None)
    else
      var built := BuildMessages(prompt);
      var request := Request(ResolveModel(modelName, storedModel, configuredModel), built.0, built.1, MaxTokens);
      match reply
      case Ok(_) => (Done(ContentText(reply)), Some(request))
      case Failed(status, statusName, body) => (Thrown(FailureMessage(status, statusName, body)), Some(request))
  }
}
