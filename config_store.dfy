/**
 * The worker's mutable `CONFIG` object and the three places that write it:
 * `validateLicense`, `loadConfigFromResult` (settings read from storage) and
 * the `updateConfig` message. Each method is specified by a function on the
 * `Settings` snapshot that `checkGrammar` reads.
 */
module ConfigStore {
  import opened Wrappers
  import opened Strings
  import opened Orchestrator

  /** Premium licence keys start with this. */
  const PremiumPrefix := "CLARIFY-PRO-"

  /** `CONFIG` as the worker starts: LanguageTool on, gemini selected, no keys, free tier. */
  const Defaults := Settings(true, GeminiProvider, "", "", false, None)

  /** A key is premium exactly when it is the prefix followed by anything. */
  lemma PremiumKeyShape(key: string)
    ensures key != "" && StartsWith(key, PremiumPrefix) <==> exists rest :: key == PremiumPrefix + rest
  {
    if key != "" && StartsWith(key, PremiumPrefix) {
      assert key == PremiumPrefix + key[|PremiumPrefix|..];
    }
    if exists rest :: key == PremiumPrefix + rest {
      var rest :| key == PremiumPrefix + rest;
      assert key[..|PremiumPrefix|] == PremiumPrefix;
    }
  }

  /** `licenseKey && licenseKey.startsWith('CLARIFY-PRO-')`: the prefix
      followed by anything, the empty suffix included. */
  function IsPremiumKey(key: string): (r: bool)
    ensures r <==> exists rest :: key == PremiumPrefix + rest
  {
    PremiumKeyShape(key);
    key != "" && StartsWith(key, PremiumPrefix)
  }

  /** The settings after `validateLicense(key)`: premium is switched on or off
      by the prefix test, and the stored key is replaced only on success. */
  function WithLicense(s: Settings, key: string): (r: Settings)
    ensures r.premiumActive <==> exists rest :: key == PremiumPrefix + rest
    // a premium key is stored; a free one leaves the stored key as it was
    ensures IsPremiumKey(key) ==> r.licenseKey == Some(key)
    ensures !IsPremiumKey(key) ==> r.licenseKey == s.licenseKey
    ensures r.languageToolEnabled == s.languageToolEnabled && r.aiProvider == s.aiProvider
    ensures r.openaiKey == s.openaiKey && r.geminiKey == s.geminiKey
  {
    if IsPremiumKey(key) then s.(premiumActive := true, licenseKey := Some(key))
    else s.(premiumActive := false)
  }

  /** A storage result; `None` is a missing (`undefined`) entry. */
  datatype StoredSettings = StoredSettings(
    licenseKey: Option<string>,
    openaiKey: Option<string>,
    geminiKey: Option<string>,
    aiProvider: Option<string>,
    languageToolEnabled: Option<bool>)

  /** Truthiness of a possibly missing string. */
  predicate Present(v: Option<string>)
  {
    v.Some? && v.value != ""
  }

  /** The settings after `loadConfigFromResult(stored)`. */
  function Loaded(s: Settings, stored: StoredSettings): (r: Settings)
    // keys and licence only count when truthy; an empty stored key changes nothing
    ensures r.openaiKey == if Present(stored.openaiKey) then stored.openaiKey.value else s.openaiKey
    ensures r.geminiKey == if Present(stored.geminiKey) then stored.geminiKey.value else s.geminiKey
    ensures !Present(stored.licenseKey) ==> r.premiumActive == s.premiumActive && r.licenseKey == s.licenseKey
    ensures Present(stored.licenseKey) ==> r.premiumActive == IsPremiumKey(stored.licenseKey.value)
    ensures Present(stored.licenseKey) ==>
      r.licenseKey == if IsPremiumKey(stored.licenseKey.value) then stored.licenseKey else s.licenseKey
    // the provider always gets written, `gemini` being the default
    ensures r.aiProvider == if Present(stored.aiProvider) then stored.aiProvider.value else GeminiProvider
    ensures r.languageToolEnabled == if stored.languageToolEnabled.Some? then stored.languageToolEnabled.value else s.languageToolEnabled
  {
    var licensed := if Present(stored.licenseKey) then WithLicense(s, stored.licenseKey.value) else s;
    var openai := if Present(stored.openaiKey) then stored.openaiKey.value else licensed.openaiKey;
    var gemini := if Present(stored.geminiKey) then stored.geminiKey.value else licensed.geminiKey;
    var provider := if Present(stored.aiProvider) then stored.aiProvider.value else GeminiProvider;
    var enabled := if stored.languageToolEnabled.Some? then stored.languageToolEnabled.value else licensed.languageToolEnabled;
    licensed.(openaiKey := openai, geminiKey := gemini, aiProvider := provider, languageToolEnabled := enabled)
  }

  /** The `config` of an `updateConfig` message; `None` is an `undefined` field. */
  datatype ConfigUpdate = ConfigUpdate(
    aiProvider: Option<string>,
    geminiKey: Option<string>,
    openaiKey: Option<string>,
    languageToolEnabled: Option<bool>,
    licenseKey: Option<string>)

  const NoUpdate := ConfigUpdate(None, None, None, None, None)

  /** The settings after the `updateConfig` branch: every field present in the
      message overwrites its setting, even with an empty string. */
  function Updated(s: Settings, u: ConfigUpdate): (r: Settings)
    ensures r.aiProvider == if u.aiProvider.Some? then u.aiProvider.value else s.aiProvider
    ensures r.geminiKey == if u.geminiKey.Some? then u.geminiKey.value else s.geminiKey
    ensures r.openaiKey == if u.openaiKey.Some? then u.openaiKey.value else s.openaiKey
    ensures r.languageToolEnabled == if u.languageToolEnabled.Some? then u.languageToolEnabled.value else s.languageToolEnabled
    ensures u.licenseKey.None? ==> r.premiumActive == s.premiumActive && r.licenseKey == s.licenseKey
    ensures u.licenseKey.Some? ==> r.premiumActive == IsPremiumKey(u.licenseKey.value)
    ensures u.licenseKey.Some? ==>
      r.licenseKey == if IsPremiumKey(u.licenseKey.value) then u.licenseKey else s.licenseKey
  {
    var s1 := if u.aiProvider.Some? then s.(aiProvider := u.aiProvider.value) else s;
    var s2 := if u.geminiKey.Some? then s1.(geminiKey := u.geminiKey.value) else s1;
    var s3 := if u.openaiKey.Some? then s2.(openaiKey := u.openaiKey.value) else s2;
    var s4 := if u.languageToolEnabled.Some? then s3.(languageToolEnabled := u.languageToolEnabled.value) else s3;
    if u.licenseKey.Some? then WithLicense(s4, u.licenseKey.value) else s4
  }

  /** A message with no fields changes nothing. */
  lemma EmptyUpdateChangesNothing(s: Settings)
    ensures Updated(s, NoUpdate) == s
  {
  }

  /** Delivering the same `updateConfig` message twice is the same as once. */
  lemma UpdateIdempotent(s: Settings, u: ConfigUpdate)
    ensures Updated(Updated(s, u), u) == Updated(s, u)
  {
  }

  /** An empty key erases the stored one when it comes in an `updateConfig`
      message, but not when it comes from storage. */
  lemma EmptyKeyClearsOnlyByUpdate(s: Settings)
    requires s.geminiKey != ""
    ensures Updated(s, NoUpdate.(geminiKey := Some(""))).geminiKey == ""
    ensures Loaded(s, StoredSettings(None, None, Some(""), None, None)).geminiKey == s.geminiKey
  {
  }

  /** The worker's global `CONFIG`, restricted to the fields the grammar path uses. */
  class Config {
    var languageToolEnabled: bool
    var aiProvider: string
    var openaiKey: string
    var geminiKey: string
    var premiumActive: bool
    var licenseKey: Option<string>

    function Snapshot(): Settings
      reads this
    {
      Settings(languageToolEnabled, aiProvider, openaiKey, geminiKey, premiumActive, licenseKey)
    }

    constructor ()
      ensures Snapshot() == Defaults
    {
      languageToolEnabled := true;
      aiProvider := GeminiProvider;
      openaiKey := "";
      geminiKey := "";
      premiumActive := false;
      licenseKey := None;
    }

    /** `validateLicense(key)`. */
    method ValidateLicense(key: string) returns (ok: bool)
      modifies this
      ensures ok == IsPremiumKey(key) == premiumActive
      ensures Snapshot() == WithLicense(old(Snapshot()), key)
    {
      if key != "" && StartsWith(key, PremiumPrefix) {
        premiumActive := true;
        licenseKey := Some(key);
        return true;
      }
      premiumActive := false;
      return false;
    }

    /** `loadConfigFromResult(stored)`. */
    method LoadConfigFromResult(stored: StoredSettings)
      modifies this
      ensures Snapshot() == Loaded(old(Snapshot()), stored)
    {
      if Present(stored.licenseKey) {
        var _ := ValidateLicense(stored.licenseKey.value);
      }
      if Present(stored.openaiKey) {
        openaiKey := stored.openaiKey.value;
      }
      if Present(stored.geminiKey) {
        geminiKey := stored.geminiKey.value;
      }
      aiProvider := if Present(stored.aiProvider) then stored.aiProvider.value else GeminiProvider;
      if stored.languageToolEnabled.Some? {
        languageToolEnabled := stored.languageToolEnabled.value;
      }
    }

    /** The `updateConfig` branch of the worker's message handler; it always
        answers `{success: true}`. */
    method UpdateConfig(update: ConfigUpdate) returns (success: bool)
      modifies this
      ensures success
      ensures Snapshot() == Updated(old(Snapshot()), update)
    {
      if update.aiProvider.Some? {
        aiProvider := update.aiProvider.value;
      }
      if update.geminiKey.Some? {
        geminiKey := update.geminiKey.value;
      }
      if update.openaiKey.Some? {
        openaiKey := update.openaiKey.value;
      }
      if update.languageToolEnabled.Some? {
        languageToolEnabled := update.languageToolEnabled.value;
      }
      if update.licenseKey.Some? {
        var _ := ValidateLicense(update.licenseKey.value);
      }
      success := true;
    }
  }
}
