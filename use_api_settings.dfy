/**
 * The API settings hook (src/hooks/use-api-settings.ts): stored settings merged
 * over the defaults, shallow-merging saves, clearing, and the derivation of
 * settings from an imported Claude Code configuration.
 */
module ApiSettingsHook {
  import opened Wrappers
  import opened JsString
  import opened ClaudeApi
  import MainChat

  datatype ApiSettings = ApiSettings(
    providerType: Provider, apiKey: string, baseUrl: string, defaultModel: string,
    thirdPartyName: Option<string>, claudeCodePath: Option<string>, claudeCodeConfigPath: Option<string>)

  const Defaults := ApiSettings(Anthropic, "", "https://api.anthropic.com", "claude-sonnet-4-20250514", None, None, None)

  /**
   * A `Partial<ApiSettings>`: `None` is an absent key. For the optional fields
   * `Some(None)` is a key present with the value `undefined`, which a spread
   * copies like any other value.
   */
  datatype SettingsPatch = SettingsPatch(
    providerType: Option<Provider>, apiKey: Option<string>, baseUrl: Option<string>, defaultModel: Option<string>,
    thirdPartyName: Option<Option<string>>, claudeCodePath: Option<Option<string>>, claudeCodeConfigPath: Option<Option<string>>)

  const NoChange := SettingsPatch(None, None, None, None, None, None, None)

  /** `{ ...s, ...p }` */
  function Merge(s: ApiSettings, p: SettingsPatch): (r: ApiSettings)
    ensures r.providerType == p.providerType.GetOr(s.providerType)
    ensures r.apiKey == p.apiKey.GetOr(s.apiKey) && r.baseUrl == p.baseUrl.GetOr(s.baseUrl)
    ensures r.defaultModel == p.defaultModel.GetOr(s.defaultModel)
    ensures r.thirdPartyName == p.thirdPartyName.GetOr(s.thirdPartyName)
    ensures r.claudeCodePath == p.claudeCodePath.GetOr(s.claudeCodePath)
    ensures r.claudeCodeConfigPath == p.claudeCodeConfigPath.GetOr(s.claudeCodeConfigPath)
  {
    ApiSettings(p.providerType.GetOr(s.providerType), p.apiKey.GetOr(s.apiKey), p.baseUrl.GetOr(s.baseUrl),
                p.defaultModel.GetOr(s.defaultModel), p.thirdPartyName.GetOr(s.thirdPartyName),
                p.claudeCodePath.GetOr(s.claudeCodePath), p.claudeCodeConfigPath.GetOr(s.claudeCodeConfigPath))
  }

  function Later<T>(a: Option<T>, b: Option<T>): Option<T> {
    if b.Some? then b else a
  }

  /** `{ ...p, ...q }` for two partials. */
  function Combine(p: SettingsPatch, q: SettingsPatch): SettingsPatch {
    SettingsPatch(Later(p.providerType, q.providerType), Later(p.apiKey, q.apiKey), Later(p.baseUrl, q.baseUrl),
                  Later(p.defaultModel, q.defaultModel), Later(p.thirdPartyName, q.thirdPartyName),
                  Later(p.claudeCodePath, q.claudeCodePath), Later(p.claudeCodeConfigPath, q.claudeCodeConfigPath))
  }

  /** Two saves in a row are one save of the combined partial; saving the same partial twice is saving it once. */
  lemma MergeLaws(s: ApiSettings, p: SettingsPatch, q: SettingsPatch)
    ensures Merge(Merge(s, p), q) == Merge(s, Combine(p, q))
    ensures Merge(Merge(s, p), p) == Merge(s, p)
    ensures Merge(s, NoChange) == s
  {
  }

  /** The settings loaded from storage: the stored object (if it parses) spread over the defaults. */
  function Loaded(stored: Option<string>, parse: string -> Option<SettingsPatch>): (r: ApiSettings)
    ensures stored.None? || stored == Some("") || parse(stored.value).None? ==> r == Defaults
    ensures stored.Some? && stored.value != "" && parse(stored.value).Some? ==> r == Merge(Defaults, parse(stored.value).value)
  {
    if stored.Some? && stored.value != "" then
      match parse(stored.value)
      case None => Defaults
      case Some(p) => Merge(Defaults, p)
    else Defaults
  }

  /** A provider type, key, URL or model missing from storage takes the default, so the loaded settings are complete. */
  lemma LoadedFallsBack(stored: string, parse: string -> Option<SettingsPatch>)
    requires stored != "" && parse(stored).Some?
    ensures var p := parse(stored).value;
      && (p.apiKey.None? ==> Loaded(Some(stored), parse).apiKey == "")
      && (p.baseUrl.None? ==> Loaded(Some(stored), parse).baseUrl == "https://api.anthropic.com")
      && (p.defaultModel.None? ==> Loaded(Some(stored), parse).defaultModel == "claude-sonnet-4-20250514")
      && (p.providerType.None? ==> Loaded(Some(stored), parse).providerType == Anthropic)
  {
  }

  /** `env.A || env.B || ... || fallback` */
  function FirstSet(env: map<string, string>, keys: seq<string>, fallback: string): (r: string)
    ensures r == fallback || exists k :: 0 <= k < |keys| && keys[k] in env && env[keys[k]] == r && r != ""
    ensures (forall k :: 0 <= k < |keys| ==> keys[k] !in env || env[keys[k]] == "") ==> r == fallback
    ensures |keys| > 0 && keys[0] in env && env[keys[0]] != "" ==> r == env[keys[0]]
    decreases |keys|
  {
    if |keys| == 0 then fallback
    else
      var rest := FirstSet(env, keys[1..], fallback);
      assert forall k :: 0 <= k < |keys| - 1 ==> keys[1..][k] == keys[k + 1];
      MainChat.EnvOr(env, keys[0], rest)
  }

  const ModelKeys := ["ANTHROPIC_MODEL", "ANTHROPIC_DEFAULT_SONNET_MODEL", "ANTHROPIC_DEFAULT_OPUS_MODEL", "ANTHROPIC_DEFAULT_HAIKU_MODEL"]

  /** 'thirdparty' exactly for a non-empty base URL outside api.anthropic.com. */
  function ProviderFor(baseUrl: string): (p: Provider)
    ensures p == ThirdParty <==> baseUrl != "" && !Contains(baseUrl, "api.anthropic.com")
    ensures p != ThirdParty ==> p == Anthropic
  {
    if baseUrl != "" && !Contains(baseUrl, "api.anthropic.com") then ThirdParty else Anthropic
  }

  /** What `loadClaudeCodeConfig` saves for a configuration `env`. */
  function ConfigPatch(env: map<string, string>, currentModel: string, path: Option<string>): (p: SettingsPatch)
    ensures p.apiKey == Some(FirstSet(env, ["ANTHROPIC_AUTH_TOKEN", "ANTHROPIC_API_KEY"], ""))
    ensures p.baseUrl == Some(FirstSet(env, ["ANTHROPIC_BASE_URL"], ""))
    ensures p.defaultModel == Some(FirstSet(env, ModelKeys, currentModel))
    ensures p.providerType == Some(ProviderFor(p.baseUrl.value))
    ensures p.claudeCodeConfigPath == Some(if path.Some? && path.value != "" then path else None)
    ensures p.thirdPartyName.None? && p.claudeCodePath.None?
  {
    var baseUrl := FirstSet(env, ["ANTHROPIC_BASE_URL"], "");
    SettingsPatch(Some(ProviderFor(baseUrl)), Some(FirstSet(env, ["ANTHROPIC_AUTH_TOKEN", "ANTHROPIC_API_KEY"], "")),
                  Some(baseUrl), Some(FirstSet(env, ModelKeys, currentModel)), None, None,
                  Some(if path.Some? && path.value != "" then path else None))
  }

  /** The auth token wins over the API key, and the model chain ends at the current default. */
  lemma ConfigPrecedence(env: map<string, string>, currentModel: string, path: Option<string>)
    ensures "ANTHROPIC_AUTH_TOKEN" in env && env["ANTHROPIC_AUTH_TOKEN"] != "" ==>
      ConfigPatch(env, currentModel, path).apiKey == Some(env["ANTHROPIC_AUTH_TOKEN"])
    ensures ("ANTHROPIC_AUTH_TOKEN" !in env || env["ANTHROPIC_AUTH_TOKEN"] == "") ==>
      ConfigPatch(env, currentModel, path).apiKey == Some(MainChat.EnvOr(env, "ANTHROPIC_API_KEY", ""))
    ensures (forall k :: 0 <= k < |ModelKeys| ==> ModelKeys[k] !in env || env[ModelKeys[k]] == "") ==>
      ConfigPatch(env, currentModel, path).defaultModel == Some(currentModel)
  {
    var keys := ["ANTHROPIC_AUTH_TOKEN", "ANTHROPIC_API_KEY"];
    assert keys[1..] == ["ANTHROPIC_API_KEY"];
    assert keys[1..][1..] == [];
  }

  /** A checked Claude Code path: `exists` (here `found`) exactly when a non-empty path came back. */
  datatype ClaudeCheck = ClaudeCheck(found: bool, path: Option<string>)

  function CheckClaudeCode(hasElectron: bool, reply: Option<Option<string>>): (r: ClaudeCheck)
    ensures r.found <==> hasElectron && reply.Some? && reply.value.Some? && reply.value.value != ""
    ensures r.found ==> r.path == reply.value
  {
    if !hasElectron then ClaudeCheck(false, None)
    else match reply
      case None => ClaudeCheck(false, None)
      case Some(path) => ClaudeCheck(path.Some? && path.value != "", path)
  }

  /** `getClaudeConfig()`'s reply: the file path and its `env` object. */
  datatype ConfigReply = ConfigReply(path: Option<string>, env: Option<map<string, string>>)

  /** The hook's state: the settings and the `codenova_api_settings` storage entry. */
  class ApiSettingsStore {
    var settings: ApiSettings
    var stored: Option<ApiSettings>
    var isLoaded: bool

    constructor ()
      ensures settings == Defaults && stored.None? && !isLoaded
    {
      settings := Defaults;
      stored := None;
      isLoaded := false;
    }

    /** The mount effect: the stored text, if any and if it parses, spread over the defaults. */
    method Load(text: Option<string>, parse: string -> Option<SettingsPatch>)
      modifies this
      ensures isLoaded && stored == old(stored)
      ensures text.Some? && text.value != "" && parse(text.value).Some? ==> settings == Merge(Defaults, parse(text.value).value)
      ensures !(text.Some? && text.value != "" && parse(text.value).Some?) ==> settings == old(settings)
    {
      if text.Some? && text.value != "" {
        var p := parse(text.value);
        if p.Some? {
          settings := Merge(Defaults, p.value);
        }
      }
      isLoaded := true;
    }

    method SaveSettings(patch: SettingsPatch)
      modifies this
      ensures settings == Merge(old(settings), patch) && stored == Some(settings)
      ensures isLoaded == old(isLoaded)
    {
      settings := Merge(settings, patch);
      stored := Some(settings);
    }

    method ClearSettings()
      modifies this
      ensures settings == Defaults && stored.None? && isLoaded == old(isLoaded)
    {
      stored := None;
      settings := Defaults;
    }

    /**
     * `loadClaudeCodeConfig`: a reply with an `env` saves the derived settings;
     * no Electron, a failed call or a reply without `env` changes nothing.
     */
    method LoadClaudeCodeConfig(hasElectron: bool, reply: Option<ConfigReply>)
      modifies this
      ensures hasElectron && reply.Some? && reply.value.env.Some? ==>
        settings == Merge(old(settings), ConfigPatch(reply.value.env.value, old(settings).defaultModel, reply.value.path))
        && stored == Some(settings)
      ensures !(hasElectron && reply.Some? && reply.value.env.Some?) ==> settings == old(settings) && stored == old(stored)
      ensures isLoaded == old(isLoaded)
    {
      if hasElectron && reply.Some? && reply.value.env.Some? {
        SaveSettings(ConfigPatch(reply.value.env.value, settings.defaultModel, reply.value.path));
      }
    }
  }
}
