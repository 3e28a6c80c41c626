/** The application controller: the analysis on screen, the settings, the
    loading flag, the error banner, whether the settings dialog is open, and the
    two browser-storage entries it writes. Storage is a map from key to a parsed
    blob; a blob that does not parse is `Unparseable`. The remote analysis service is
    a `Remote` object whose answer to each request is fixed (a result or a thrown
    message) and which logs every request it receives. */
module App {
  import opened Types

  const StorageKey: string := "ielts_app_analysis_data"
  const SettingsKey: string := "ielts_app_settings"
  const DefaultModel: string := "gemini-2.5-flash"
  const AnalyzeFallbackMessage: string :=
    "Failed to analyze the article. Please check your settings and text."

  /** A stored settings object as parsed back: each top-level field may be absent. */
  datatype StoredSettings = StoredSettings(
    provider: Option<Provider>,
    model: Option<string>,
    apiKeys: Option<map<Provider, string>>)

  datatype Blob =
    | AnalysisBlob(analysis: IeltsAnalysisResponse)
    | SettingsBlob(stored: StoredSettings)
    | Unparseable

  /** What the remote analysis call does: return a result or throw with a message
      (an empty message when the thrown value has none). */
  datatype AnalysisOutcome = Analysed(result: IeltsAnalysisResponse) | Threw(message: string)

  /** The default settings; `envApiKey` is the build-time key, empty when unset. */
  function DefaultSettings(envApiKey: string): (s: AISettings)
    ensures s.provider == Google && s.model == DefaultModel && s.KeyFor(Google) == envApiKey
    ensures s.KeyFor(OpenAI) == s.KeyFor(DeepSeek) == s.KeyFor(Moonshot) == ""
  {
    AISettings(Google, DefaultModel,
      map[Google := envApiKey, OpenAI := "", DeepSeek := "", Moonshot := ""])
  }

  /** What saving settings writes: every field present, so that merging it over
      any base gives the saved settings back. */
  function Serialize(s: AISettings): (stored: StoredSettings)
    ensures stored.provider.Some? && stored.model.Some? && stored.apiKeys.Some?
    ensures forall base :: Merge(base, stored) == s
  {
    StoredSettings(Some(s.provider), Some(s.model), Some(s.apiKeys))
  }

  /** `{ ...base, ...stored }`: each field present in `stored` replaces the same
      field of `base` as a whole. An empty object changes nothing, and a complete
      one leaves nothing of the base. */
  function Merge(base: AISettings, stored: StoredSettings): (s: AISettings)
    ensures stored == StoredSettings(None, None, None) ==> s == base
    ensures stored.provider.Some? && stored.model.Some? && stored.apiKeys.Some? ==>
      StoredSettings(Some(s.provider), Some(s.model), Some(s.apiKeys)) == stored
  {
    AISettings(
      if stored.provider.Some? then stored.provider.value else base.provider,
      if stored.model.Some? then stored.model.value else base.model,
      if stored.apiKeys.Some? then stored.apiKeys.value else base.apiKeys)
  }

  /** The settings the page starts with: the stored settings merged over the
      defaults, or the defaults when nothing usable is stored. */
  function LoadSettings(storage: map<string, Blob>, envApiKey: string): (s: AISettings)
    ensures var stored := StoredSettingsIn(storage);
      && s.provider == (if stored.provider.Some? then stored.provider.value else Google)
      && s.model == (if stored.model.Some? then stored.model.value else DefaultModel)
      && s.apiKeys == (if stored.apiKeys.Some? then stored.apiKeys.value
                       else DefaultSettings(envApiKey).apiKeys)
  {
    if SettingsKey in storage && storage[SettingsKey].SettingsBlob? then
      Merge(DefaultSettings(envApiKey), storage[SettingsKey].stored)
    else DefaultSettings(envApiKey)
  }

  /** The fields a usable stored settings entry supplies; none otherwise. */
  function StoredSettingsIn(storage: map<string, Blob>): StoredSettings
  {
    if SettingsKey in storage && storage[SettingsKey].SettingsBlob? then storage[SettingsKey].stored
    else StoredSettings(None, None, None)
  }

  /** The analysis the page starts with, if a usable one is stored. Only the
      analysis entry is read. A blob of another shape under that key counts as
      unusable: this is a choice of the model, since the page itself would take
      any parseable value there, a settings object included, as its analysis. */
  function LoadAnalysis(storage: map<string, Blob>): (r: Option<IeltsAnalysisResponse>)
    ensures r.Some? ==> StorageKey in storage && storage[StorageKey] == AnalysisBlob(r.value)
    ensures StorageKey in storage && storage[StorageKey].SettingsBlob? ==> r == None
  {
    if StorageKey in storage && storage[StorageKey].AnalysisBlob? then
      Some(storage[StorageKey].analysis)
    else None
  }

  /** Whether the active provider has a key: an empty or missing key is falsy.
      A provider without an entry never has a key. */
  predicate HasApiKey(s: AISettings)
    ensures HasApiKey(s) ==> s.provider in s.apiKeys
  {
    s.KeyFor(s.provider) != ""
  }

  /** The banner when the active provider has no key: it names the provider. */
  function MissingKeyMessage(catalog: Catalog, p: Provider): (m: string)
    ensures "Please enter an API Key for " + catalog.names(p) <= m
  {
    "Please enter an API Key for " + catalog.names(p) + " in Settings."
  }

  /** The error banner after a failed call: the thrown message, or the fallback
      when the message is empty; never empty. */
  function ErrorMessage(thrown: string): (m: string)
    ensures m != ""
    ensures thrown != "" ==> m == thrown
    ensures thrown == "" ==> m == AnalyzeFallbackMessage
  {
    if thrown != "" then thrown else AnalyzeFallbackMessage
  }

  /** Saving settings and reloading gives the same settings back, whatever else
      storage holds and whatever the build-time key is. */
  lemma SettingsRoundTrip(storage: map<string, Blob>, s: AISettings, envApiKey: string)
    ensures LoadSettings(storage[SettingsKey := SettingsBlob(Serialize(s))], envApiKey) == s
  {
  }

  /** With nothing stored, or a blob that does not parse, the defaults are used. */
  lemma LoadSettingsFallsBack(storage: map<string, Blob>, envApiKey: string)
    requires SettingsKey !in storage || storage[SettingsKey] == Unparseable
    ensures LoadSettings(storage, envApiKey) == DefaultSettings(envApiKey)
  {
  }

  /** The merge is shallow: a stored key record replaces the default one whole,
      so a build-time Google key is lost when the stored record has no Google entry. */
  lemma StoredKeysReplaceDefaults(storage: map<string, Blob>, envApiKey: string, keys: map<Provider, string>)
    requires envApiKey != "" && Google !in keys
    ensures var stored := StoredSettings(None, None, Some(keys));
      var s := LoadSettings(storage[SettingsKey := SettingsBlob(stored)], envApiKey);
      s.provider == Google && s.apiKeys == keys && !HasApiKey(s)
  {
  }

  /** The merge overrides field by field: a stored provider alone keeps the
      default model and keys. */
  lemma StoredProviderAlone(storage: map<string, Blob>, envApiKey: string, p: Provider)
    ensures var stored := StoredSettings(Some(p), None, None);
      LoadSettings(storage[SettingsKey := SettingsBlob(stored)], envApiKey)
        == DefaultSettings(envApiKey).(provider := p)
  {
  }

  /** Loading the settings is merging whatever the settings entry supplies over
      the defaults. */
  lemma LoadIsMergeOverDefaults(storage: map<string, Blob>, envApiKey: string)
    ensures LoadSettings(storage, envApiKey)
      == Merge(DefaultSettings(envApiKey), StoredSettingsIn(storage))
  {
  }

  /** Spreading the same stored object twice is the same as spreading it once. */
  lemma MergeTwice(base: AISettings, stored: StoredSettings)
    ensures Merge(Merge(base, stored), stored) == Merge(base, stored)
  {
  }

  /** The default settings have a key exactly when a build-time key is set. */
  lemma DefaultsHaveKey(envApiKey: string)
    ensures HasApiKey(DefaultSettings(envApiKey)) <==> envApiKey != ""
  {
  }

  /** Entering a key for the active provider decides the key test; entering one
      for another provider leaves it as it was. */
  lemma KeyEditDecides(s: AISettings, p: Provider, k: string)
    ensures p == s.provider ==> (HasApiKey(s.(apiKeys := s.apiKeys[p := k])) <==> k != "")
    ensures p != s.provider ==> HasApiKey(s.(apiKeys := s.apiKeys[p := k])) == HasApiKey(s)
  {
  }

  /** The analysis entry is the only one the analysis load reads: writing any
      other entry, such as saved settings, leaves the loaded analysis alone. */
  lemma AnalysisIgnoresOtherEntries(storage: map<string, Blob>, key: string, b: Blob)
    requires key != StorageKey
    ensures LoadAnalysis(storage[key := b]) == LoadAnalysis(storage)
    ensures LoadAnalysis(storage - {key}) == LoadAnalysis(storage)
  {
  }

  /** A stored analysis reloads as itself; a removed one reloads as nothing. */
  lemma AnalysisRoundTrip(storage: map<string, Blob>, r: IeltsAnalysisResponse)
    ensures LoadAnalysis(storage[StorageKey := AnalysisBlob(r)]) == Some(r)
    ensures LoadAnalysis(storage - {StorageKey}) == None
  {
  }

  /** The remote analysis service. Its answer to a request is fixed by
      `outcome`; every request made is logged in `requests`, so a caller's
      contract can say how often, and with what, the service was called. */
  class Remote {
    const outcome: (string, AISettings) -> AnalysisOutcome
    var requests: seq<(string, AISettings)>

    constructor (outcome: (string, AISettings) -> AnalysisOutcome)
      ensures this.outcome == outcome && requests == []
    {
      this.outcome := outcome;
      requests := [];
    }

    /** `analyzeArticle(text, settings)`: one request, answered by `outcome`. */
    method Analyze(text: string, settings: AISettings) returns (o: AnalysisOutcome)
      modifies this
      ensures requests == old(requests) + [(text, settings)]
      ensures o == outcome(text, settings)
    {
      requests := requests + [(text, settings)];
      o := outcome(text, settings);
    }
  }

  class App {
    const catalog: Catalog
    const envApiKey: string
    var data: Option<IeltsAnalysisResponse>
    var settings: AISettings
    var isLoading: bool
    var error: Option<string>
    var isSettingsOpen: bool
    var storage: map<string, Blob>

    /** Memory agrees with storage: reloading the page would show the same
        analysis and the same settings. */
    ghost predicate Valid()
      reads this
    {
      data == LoadAnalysis(storage) && settings == LoadSettings(storage, envApiKey)
    }

    /** The page starts from whatever storage holds. */
    constructor (catalog: Catalog, envApiKey: string, storage: map<string, Blob>)
      ensures Valid()
      ensures this.catalog == catalog && this.envApiKey == envApiKey && this.storage == storage
      ensures data == LoadAnalysis(storage) && settings == LoadSettings(storage, envApiKey)
      ensures !isLoading && error == None && !isSettingsOpen
    {
      this.catalog := catalog;
      this.envApiKey := envApiKey;
      this.storage := storage;
      data := LoadAnalysis(storage);
      settings := LoadSettings(storage, envApiKey);
      isLoading := false;
      error := None;
      isSettingsOpen := false;
    }

    /** Runs an analysis of `text`. Without a key for the active provider it opens
        the settings dialog and reports the missing key, and sends no request;
        otherwise it sends exactly one, with the text and the current settings.
        `called` says which. */
    method HandleAnalyze(text: string, remote: Remote) returns (called: bool)
      requires Valid()
      modifies this, remote
      ensures Valid()
      ensures called == HasApiKey(old(settings))
      ensures settings == old(settings)
      ensures !called ==> remote.requests == old(remote.requests)
      ensures called ==> remote.requests == old(remote.requests) + [(text, settings)]
      ensures !called ==>
        && isSettingsOpen
        && error == Some(MissingKeyMessage(catalog, settings.provider))
        && data == old(data) && storage == old(storage) && isLoading == old(isLoading)
      ensures called ==> !isLoading && isSettingsOpen == old(isSettingsOpen)
      ensures called && remote.outcome(text, settings).Analysed? ==>
        var r := remote.outcome(text, settings).result;
        data == Some(r) && storage == old(storage)[StorageKey := AnalysisBlob(r)] && error == None
      ensures called && remote.outcome(text, settings).Threw? ==>
        && error == Some(ErrorMessage(remote.outcome(text, settings).message))
        && data == old(data) && storage == old(storage)
    {
      if !HasApiKey(settings) {
        isSettingsOpen := true;
        error := Some(MissingKeyMessage(catalog, settings.provider));
        return false;
      }
      BeginAnalyze();
      var outcome := remote.Analyze(text, settings);
      CompleteAnalyze(outcome);
      called := true;
    }

    /** The state while the call is outstanding: loading, no error shown. */
    method BeginAnalyze()
      requires Valid()
      modifies this
      ensures Valid()
      ensures isLoading && error == None
      ensures data == old(data) && settings == old(settings) && storage == old(storage)
      ensures isSettingsOpen == old(isSettingsOpen)
    {
      isLoading := true;
      error := None;
    }

    /** The call has returned or thrown: a result replaces the analysis in memory
        and in storage; a failure only sets the error. Loading ends either way. */
    method CompleteAnalyze(outcome: AnalysisOutcome)
      requires Valid()
      modifies this
      ensures Valid()
      ensures !isLoading
      ensures settings == old(settings) && isSettingsOpen == old(isSettingsOpen)
      ensures outcome.Analysed? ==>
        && data == Some(outcome.result)
        && storage == old(storage)[StorageKey := AnalysisBlob(outcome.result)]
        && error == old(error)
      ensures outcome.Threw? ==>
        data == old(data) && storage == old(storage) && error == Some(ErrorMessage(outcome.message))
    {
      match outcome {
        case Analysed(r) =>
          data := Some(r);
          storage := storage[StorageKey := AnalysisBlob(r)];
        case Threw(m) =>
          error := Some(ErrorMessage(m));
      }
      isLoading := false;
    }

    /** Forgets the analysis, in memory and in storage; nothing else changes. */
    method ClearData()
      requires Valid()
      modifies this
      ensures Valid()
      ensures data == None && storage == old(storage) - {StorageKey}
      ensures settings == old(settings) && isLoading == old(isLoading)
      ensures error == old(error) && isSettingsOpen == old(isSettingsOpen)
    {
      data := None;
      storage := storage - {StorageKey};
    }

    /** Adopts `newSettings` in memory and in storage, so a reload restores them. */
    method HandleSaveSettings(newSettings: AISettings)
      requires Valid()
      modifies this
      ensures Valid()
      ensures settings == newSettings
      ensures storage == old(storage)[SettingsKey := SettingsBlob(Serialize(newSettings))]
      ensures data == old(data) && isLoading == old(isLoading)
      ensures error == old(error) && isSettingsOpen == old(isSettingsOpen)
    {
      settings := newSettings;
      storage := storage[SettingsKey := SettingsBlob(Serialize(newSettings))];
      SettingsRoundTrip(old(storage), newSettings, envApiKey);
    }

    /** The header's settings button. */
    method OpenSettings()
      requires Valid()
      modifies this`isSettingsOpen
      ensures Valid() && isSettingsOpen
    {
      isSettingsOpen := true;
    }

    /** The dialog's close callback. */
    method CloseSettings()
      requires Valid()
      modifies this`isSettingsOpen
      ensures Valid() && !isSettingsOpen
    {
      isSettingsOpen := false;
    }
  }
}
