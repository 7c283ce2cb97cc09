/** AdminController: the settings endpoints over the provider configuration, and the list of
    Ollama models the settings page offers. The HTTP request to Ollama's tag list and the
    parsing of its JSON are not modelled: the installed names arrive as a parameter, empty
    when Ollama cannot be reached. */
module AdminController {
  import opened Wrappers
  import opened Text
  import opened ProviderConfig
  import DynamicAIProvider

  /** The outcome of an endpoint that only validates and stores. */
  datatype ActionResult = Ok | BadRequest(message: string)

  /** One row of the Ollama model list. */
  datatype OllamaModelInfo = OllamaModelInfo(name: string, installed: bool)

  const RecommendedModels: seq<string> := ["llama3:8b", "mistral:7b", "gemma:2b", "phi3"]

  const ProviderRequired := "Provider is required"
  const ProviderAndKeyRequired := "Provider and Key are required"
  const UnknownLabel := "Unknown"

  /** Some installed name starts with `name`. */
  predicate IsInstalled(name: string, installed: seq<string>) {
    exists j :: 0 <= j < |installed| && StartsWith(installed[j], name)
  }

  /** Some row's name is a prefix of `name`. */
  predicate Covered(name: string, rows: seq<OllamaModelInfo>) {
    exists k :: 0 <= k < |rows| && StartsWith(name, rows[k].name)
  }

  /** The recommended names, in their fixed order, each marked by whether it is installed. */
  function RecommendedRows(installed: seq<string>): (r: seq<OllamaModelInfo>)
    ensures |r| == |RecommendedModels|
  {
    seq(|RecommendedModels|, i requires 0 <= i < |RecommendedModels| =>
      OllamaModelInfo(RecommendedModels[i], IsInstalled(RecommendedModels[i], installed)))
  }

  /** One pass of the append loop: an installed name no row is a prefix of is added. */
  function AddInstalled(rows: seq<OllamaModelInfo>, name: string): seq<OllamaModelInfo> {
    if Covered(name, rows) then rows else rows + [OllamaModelInfo(name, true)]
  }

  /** The rows after the append loop has seen every name of `names`, in order. */
  function Merged(rows: seq<OllamaModelInfo>, names: seq<string>): seq<OllamaModelInfo>
    decreases |names|
  {
    if names == [] then rows
    else AddInstalled(Merged(rows, names[..|names| - 1]), names[|names| - 1])
  }

  /** The merge only appends: the starting rows stay in front, unchanged. */
  lemma {:induction false} MergedKeepsRows(rows: seq<OllamaModelInfo>, names: seq<string>)
    ensures |rows| <= |Merged(rows, names)|
    ensures Merged(rows, names)[..|rows|] == rows
    decreases |names|
  {
    if names != [] {
      var prev := Merged(rows, names[..|names| - 1]);
      MergedKeepsRows(rows, names[..|names| - 1]);
      assert (prev + [OllamaModelInfo(names[|names| - 1], true)])[..|rows|] == prev[..|rows|];
    }
  }

  /** Every appended row is an installed name, marked installed, that does not start with
      the name of any row before it. */
  lemma {:induction false} MergedAppended(rows: seq<OllamaModelInfo>, names: seq<string>)
    ensures var m := Merged(rows, names);
      forall j :: |rows| <= j < |m| ==>
        m[j].installed && m[j].name in names && !Covered(m[j].name, m[..j])
    decreases |names|
  {
    if names != [] {
      var init := names[..|names| - 1];
      var name := names[|names| - 1];
      var prev := Merged(rows, init);
      MergedAppended(rows, init);
      MergedKeepsRows(rows, init);
      var m := Merged(rows, names);
      forall j | |rows| <= j < |m|
        ensures m[j].installed && m[j].name in names && !Covered(m[j].name, m[..j])
      {
        if j < |prev| {
          assert m[..j] == prev[..j];
          assert prev[j].name in init;
        } else {
          assert m[..j] == prev;
          assert m[j].name == names[|names| - 1];
        }
      }
    }
  }

  /** Every installed name appears in the list, as a row of its own or under a row whose
      name it starts with. */
  lemma {:induction false} MergedCovers(rows: seq<OllamaModelInfo>, names: seq<string>)
    ensures forall i :: 0 <= i < |names| ==> Covered(names[i], Merged(rows, names))
    decreases |names|
  {
    if names != [] {
      var init := names[..|names| - 1];
      var prev := Merged(rows, init);
      MergedCovers(rows, init);
      var m := Merged(rows, names);
      assert m[..|prev|] == prev;
      forall i | 0 <= i < |names|
        ensures Covered(names[i], m)
      {
        if i < |names| - 1 {
          assert names[i] == init[i];
          var k :| 0 <= k < |prev| && StartsWith(names[i], prev[k].name);
          assert m[k] == prev[k];
        } else if !Covered(names[i], prev) {
          assert m[|prev|].name == names[i];
        } else {
          var k :| 0 <= k < |prev| && StartsWith(names[i], prev[k].name);
          assert m[k] == prev[k];
        }
      }
    }
  }

  /** GetOllamaModels: the recommended rows, then each installed name no row is a prefix of. */
  method GetOllamaModels(installed: seq<string>) returns (result: seq<OllamaModelInfo>)
    ensures result == Merged(RecommendedRows(installed), installed)
    ensures |RecommendedModels| <= |result|
    ensures forall i :: 0 <= i < |RecommendedModels| ==>
              result[i].name == RecommendedModels[i] &&
              (result[i].installed <==> IsInstalled(RecommendedModels[i], installed))
    ensures forall j :: |RecommendedModels| <= j < |result| ==>
              result[j].installed && result[j].name in installed && !Covered(result[j].name, result[..j])
    ensures forall i :: 0 <= i < |installed| ==> Covered(installed[i], result)
    ensures installed == [] ==> result == [OllamaModelInfo("llama3:8b", false), OllamaModelInfo("mistral:7b", false),
                                           OllamaModelInfo("gemma:2b", false), OllamaModelInfo("phi3", false)]
  {
    var recommended := RecommendedRows(installed);
    result := recommended;
    var i := 0;
    while i < |installed|
      invariant 0 <= i <= |installed|
      invariant result == Merged(recommended, installed[..i])
    {
      var name := installed[i];
      if !Covered(name, result) {
        result := result + [OllamaModelInfo(name, true)];
      }
      assert installed[..i + 1][..i] == installed[..i];
      i := i + 1;
    }
    assert installed[..i] == installed;
    MergedKeepsRows(recommended, installed);
    MergedAppended(recommended, installed);
    MergedCovers(recommended, installed);
    assert forall i :: 0 <= i < |RecommendedModels| ==> result[i] == result[..|recommended|][i];
  }

  /** The label SetModel reports for the current provider. */
  function ProviderLabel(raw: string): (r: string)
    ensures r == "Ollama" || r == "Groq" || r == UnknownLabel
    ensures r != UnknownLabel <==> NormalKey(raw) == "ollama" || NormalKey(raw) == "groq"
  {
    var key := NormalKey(raw);
    if key == "ollama" then "Ollama" else if key == "groq" then "Groq" else UnknownLabel
  }

  /** The model SetModel settles on for a non-blank request: trimmed, with the legacy groq
      name replaced by the instant model under groq. */
  function ChosenModel(key: string, requested: string): (r: string)
    requires !IsBlank(requested)
    ensures !IsBlank(r) && Trim(r) == r
    ensures key == "groq" ==> !EqualsCI(r, DynamicAIProvider.LegacyGroqModel)
    ensures key != "groq" ==> r == Trim(requested)
    ensures key == "groq" && EqualsCI(Trim(requested), DynamicAIProvider.LegacyGroqModel) ==>
              r == DynamicAIProvider.InstantGroqModel
    ensures !(key == "groq" && EqualsCI(Trim(requested), DynamicAIProvider.LegacyGroqModel)) ==> r == Trim(requested)
  {
    var m := Trim(requested);
    TrimNotBlank(requested);
    TrimIdempotent(requested);
    if key == "groq" && EqualsCI(m, DynamicAIProvider.LegacyGroqModel) then InstantTrimmed()
    else m
  }

  /** The instant model name has no surrounding white space. */
  function InstantTrimmed(): (r: string)
    ensures r == DynamicAIProvider.InstantGroqModel
    ensures !IsBlank(r) && Trim(r) == r && !EqualsCI(r, DynamicAIProvider.LegacyGroqModel)
  {
    var r := DynamicAIProvider.InstantGroqModel;
    assert r[0] == 'l' && r[|r| - 1] == 't';
    TrimFixed(r);
    r
  }

  class AdminController {
    const configService: ProviderConfigService

    constructor(configService: ProviderConfigService)
      ensures this.configService == configService
    {
      this.configService := configService;
    }

    /** GetConfig: the current provider and the model stored for it. */
    function GetConfig(): (r: (string, Option<string>))
      reads configService
      ensures r.0 == configService.currentProvider
      ensures configService.Valid() && r.1.Some? ==> !IsBlank(r.1.value)
      ensures configService.Valid() && r.1.Some? ==> NormalKey(r.0) in configService.models
      ensures r.1 == if IsBlank(r.0) || NormalKey(r.0) !in configService.models then None
                     else Some(configService.models[NormalKey(r.0)])
    {
      (configService.currentProvider, configService.GetModel(configService.currentProvider))
    }

    /** SetConfig: an empty provider is refused; otherwise the provider is always set and the
        model stored only when it is not blank. */
    method SetConfig(provider: string, model: string) returns (r: ActionResult)
      requires configService.Valid()
      modifies configService
      ensures configService.Valid()
      ensures provider == [] ==> r == BadRequest(ProviderRequired) && unchanged(configService)
      ensures provider != [] ==> r == Ok && configService.currentProvider == Lower(provider)
      ensures provider != [] ==>
                (configService.models ==
                  if IsBlank(provider) || IsBlank(model) then old(configService.models)
                  else old(configService.models)[NormalKey(provider) := Trim(model)])
      ensures configService.apiKeys == old(configService.apiKeys)
    {
      if provider == [] {
        return BadRequest(ProviderRequired);
      }
      configService.SetProvider(provider);
      if !IsBlank(model) {
        configService.SetModel(provider, model);
      }
      r := Ok;
    }

    /** SetApiKey: an empty provider or key is refused; otherwise the key is stored. */
    method SetApiKey(provider: string, key: string) returns (r: ActionResult)
      requires configService.Valid()
      modifies configService
      ensures configService.Valid()
      ensures provider == [] || key == [] ==> r == BadRequest(ProviderAndKeyRequired) && unchanged(configService)
      ensures provider != [] && key != [] ==>
                r == Ok && configService.apiKeys == old(configService.apiKeys)[Lower(provider) := key] &&
                configService.GetApiKey(provider) == Some(key)
      ensures configService.currentProvider == old(configService.currentProvider)
      ensures configService.models == old(configService.models)
    {
      if provider == [] || key == [] {
        return BadRequest(ProviderAndKeyRequired);
      }
      configService.SetApiKey(provider, key);
      r := Ok;
    }

    /** SetModel: a blank request reports the stored model (or "Unknown") and stores nothing;
        otherwise the chosen model is reported, and stored only for ollama and groq, where
        GetModel then reads it back. */
    method SetModel(requested: string) returns (provider: string, model: string)
      requires configService.Valid()
      modifies configService
      ensures configService.Valid()
      ensures provider == ProviderLabel(old(configService.currentProvider))
      ensures configService.currentProvider == old(configService.currentProvider)
      ensures configService.apiKeys == old(configService.apiKeys)
      ensures IsBlank(requested) ==>
                model == old(configService.GetModel(configService.currentProvider)).GetOr(UnknownLabel) &&
                configService.models == old(configService.models)
      ensures !IsBlank(requested) ==>
                model == ChosenModel(NormalKey(configService.currentProvider), requested) &&
                configService.models ==
                  if provider == UnknownLabel then old(configService.models)
                  else old(configService.models)[NormalKey(configService.currentProvider) := model]
      ensures !IsBlank(requested) && provider != UnknownLabel ==>
                configService.GetModel(configService.currentProvider) == Some(model)
    {
      provider := ProviderLabel(configService.currentProvider);
      var providerKey := NormalKey(configService.currentProvider);
      NormalKeyIdempotent(configService.currentProvider);
      NormalKeyBlank(configService.currentProvider);
      NormalKeyBlank(providerKey);
      assert configService.GetModel(providerKey) == configService.GetModel(configService.currentProvider);
      if IsBlank(requested) {
        model := configService.GetModel(providerKey).GetOr(UnknownLabel);
        return;
      }
      TrimNotBlank(requested);
      model := ChosenModel(providerKey, requested);
      if !IsBlank(providerKey) && provider != UnknownLabel {
        configService.SetModel(providerKey, model);
      }
    }
  }
}
