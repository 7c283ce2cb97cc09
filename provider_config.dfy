/** ProviderConfigService: the selected provider, a model per provider, and the API keys,
    all held under normalised provider names. Persistence to disk is not modelled; the
    service starts as it does when no configuration file exists. */
module ProviderConfig {
  import opened Wrappers
  import opened Text

  const DefaultProvider := "ollama"

  /** The dictionary key of a provider name in the model map: trimmed and lower-cased. */
  function NormalKey(provider: string): string {
    Lower(Trim(provider))
  }

  lemma LowerKeepsWhite(c: char)
    ensures IsWhite(LowerChar(c)) <==> IsWhite(c)
  {
  }

  /** A normalised key normalises to itself. */
  lemma NormalKeyIdempotent(provider: string)
    ensures NormalKey(NormalKey(provider)) == NormalKey(provider)
  {
    var t := Trim(provider);
    var l := Lower(t);
    if l != [] {
      LowerKeepsWhite(t[0]);
      LowerKeepsWhite(t[|t| - 1]);
    }
    TrimFixed(l);
    LowerIdempotent(t);
  }

  /** Only a blank name normalises to the empty key. */
  lemma NormalKeyBlank(provider: string)
    ensures NormalKey(provider) == [] <==> IsBlank(provider)
  {
    TrimBlank(provider);
  }

  /** GetModel over a model map: nothing for a blank name, else the entry under its key. */
  function Lookup(models: map<string, string>, provider: string): (r: Option<string>)
    ensures IsBlank(provider) ==> r == None
    ensures r.Some? <==> !IsBlank(provider) && NormalKey(provider) in models
    ensures r.Some? ==> r.value == models[NormalKey(provider)]
  {
    if IsBlank(provider) then None
    else if NormalKey(provider) in models then Some(models[NormalKey(provider)])
    else None
  }

  /** Storing a model under a provider's key is seen by every name with that key and by
      no other name. */
  lemma LookupStore(models: map<string, string>, provider: string, model: string, query: string)
    requires !IsBlank(provider)
    ensures Lookup(models[NormalKey(provider) := Trim(model)], query) ==
              if !IsBlank(query) && NormalKey(query) == NormalKey(provider) then Some(Trim(model))
              else Lookup(models, query)
  {
  }

  /** A name that normalises to the same key as a non-blank name is itself non-blank. */
  lemma SameKeyNotBlank(provider: string, query: string)
    requires !IsBlank(provider) && NormalKey(query) == NormalKey(provider)
    ensures !IsBlank(query)
  {
    NormalKeyBlank(provider);
    NormalKeyBlank(query);
  }

  class ProviderConfigService {
    /** The provider name as last set, lower-cased but not trimmed. */
    var currentProvider: string
    /** The model chosen per provider, keyed by NormalKey. */
    var models: map<string, string>
    /** The contents of the encrypted key store, keyed by the lower-cased provider name. */
    var apiKeys: map<string, string>

    /** Every model key is a non-empty normalised name and every model a trimmed,
        non-blank name; the current provider and the key-store keys are lower-case. */
    ghost predicate Valid()
      reads this
    {
      Lower(currentProvider) == currentProvider &&
      (forall k :: k in models ==> k != [] && NormalKey(k) == k && !IsBlank(models[k]) && Trim(models[k]) == models[k]) &&
      (forall k :: k in apiKeys ==> Lower(k) == k)
    }

    constructor()
      ensures Valid()
      ensures currentProvider == DefaultProvider && models == map[] && apiKeys == map[]
    {
      currentProvider := DefaultProvider;
      models := map[];
      apiKeys := map[];
    }

    /** GetModel: the stored model under the name's key; nothing for a blank name. */
    function GetModel(provider: string): (r: Option<string>)
      reads this
      ensures r == Lookup(models, provider)
      ensures Valid() && r.Some? ==> !IsBlank(r.value) && Trim(r.value) == r.value
    {
      Lookup(models, provider)
    }

    /** SetModel: ignored when either argument is blank; otherwise the trimmed model is stored
        under the provider's key, and every name with that key now reads it back. */
    method SetModel(provider: string, model: string)
      requires Valid()
      modifies this
      ensures Valid()
      ensures IsBlank(provider) || IsBlank(model) ==> models == old(models)
      ensures !IsBlank(provider) && !IsBlank(model) ==> models == old(models)[NormalKey(provider) := Trim(model)]
      ensures forall q :: GetModel(q) ==
                if !IsBlank(provider) && !IsBlank(model) && !IsBlank(q) && NormalKey(q) == NormalKey(provider)
                then Some(Trim(model)) else old(GetModel(q))
      ensures currentProvider == old(currentProvider) && apiKeys == old(apiKeys)
    {
      if IsBlank(provider) || IsBlank(model) {
        return;
      }
      var key := NormalKey(provider);
      NormalKeyIdempotent(provider);
      NormalKeyBlank(provider);
      TrimNotBlank(model);
      TrimIdempotent(model);
      forall q ensures Lookup(models[key := Trim(model)], q) ==
                if !IsBlank(q) && NormalKey(q) == key then Some(Trim(model)) else Lookup(models, q) {
        LookupStore(models, provider, model, q);
      }
      models := models[key := Trim(model)];
    }

    /** SetProvider: the lower-cased name becomes the current provider; models are untouched. */
    method SetProvider(provider: string)
      requires Valid()
      modifies this
      ensures Valid()
      ensures currentProvider == Lower(provider)
      ensures models == old(models) && apiKeys == old(apiKeys)
    {
      LowerIdempotent(provider);
      currentProvider := Lower(provider);
    }

    /** GetApiKey: the key stored under the lower-cased name, if any. */
    function GetApiKey(provider: string): (r: Option<string>)
      reads this
      ensures r.Some? <==> Lower(provider) in apiKeys
      ensures r.Some? ==> r.value == apiKeys[Lower(provider)]
    {
      if Lower(provider) in apiKeys then Some(apiKeys[Lower(provider)]) else None
    }

    /** SetApiKey: stores the key, unchanged, under the lower-cased name. */
    method SetApiKey(provider: string, key: string)
      requires Valid()
      modifies this
      ensures Valid()
      ensures apiKeys == old(apiKeys)[Lower(provider) := key]
      ensures forall q :: GetApiKey(q) == if Lower(q) == Lower(provider) then Some(key) else old(GetApiKey(q))
      ensures currentProvider == old(currentProvider) && models == old(models)
    {
      LowerIdempotent(provider);
      apiKeys := apiKeys[Lower(provider) := key];
    }
  }
}
