/** The dashboard's API connection settings: the configuration object, the
    four keys under which it is persisted in the browser's key-value
    storage, the validation the settings panel applies before saving, and
    what saving, loading and clearing do to storage. Storage is modelled
    as a map from key to string; an absent key is what `getItem` reports
    as null. */
module Settings {
  import opened Common

  const EndpointKey := "lks_api_endpoint"
  const ApiKeyKey := "lks_api_key"
  const RegionKey := "lks_aws_region"
  const DebugKey := "lks_debug_mode"

  const DefaultRegion := "us-east-1"

  type Store = map<string, string>

  datatype Config = Config(endpoint: string, apiKey: string, region: string, debug: bool)

  /** The values the page starts with and returns to when settings are cleared. */
  const Defaults := Config("", "", DefaultRegion, false)

  /** Both connection fields are set; every backend call needs this. */
  predicate IsConfigured(c: Config)
  {
    c.endpoint != "" && c.apiKey != ""
  }

  /** Messages shown under the two validated fields; "" means no error. */
  datatype FieldErrors = FieldErrors(endpoint: string, apiKey: string)
  {
    predicate HasError()
    {
      endpoint != "" || apiKey != ""
    }
  }

  const RequiredMsg := "Required"
  const SchemeMsg := "Must start with http:// or https://"

  predicate HasHttpScheme(url: string)
  {
    "http://" <= url || "https://" <= url
  }

  /** Validation of the (already trimmed) endpoint and key. An empty
      endpoint is reported as missing rather than as lacking a scheme. */
  function ValidateSettings(endpoint: string, key: string): (r: FieldErrors)
    ensures !r.HasError() <==> endpoint != "" && HasHttpScheme(endpoint) && key != ""
    ensures r.endpoint == "" <==> endpoint != "" && HasHttpScheme(endpoint)
    ensures r.endpoint != "" ==> r.endpoint == (if endpoint == "" then RequiredMsg else SchemeMsg)
    ensures r.apiKey == (if key == "" then RequiredMsg else "")
  {
    var endpointError :=
      if endpoint == "" then RequiredMsg
      else if !HasHttpScheme(endpoint) then SchemeMsg
      else "";
    var keyError := if key == "" then RequiredMsg else "";
    FieldErrors(endpointError, keyError)
  }

  /** What a storage read yields that the page treats as present: a
      missing key reads as null and the empty string is falsy; both leave
      the current value in place. */
  function Stored(store: Store, key: string): (v: Option<string>)
    ensures v.Some? <==> key in store && store[key] != ""
    ensures v.Some? ==> v.value == store[key]
  {
    if key in store && store[key] != "" then Some(store[key]) else None
  }

  /** The configuration after loading from storage, starting from `current`. */
  function LoadedConfig(store: Store, current: Config): (c: Config)
  {
    Config(
      if Stored(store, EndpointKey).Some? then store[EndpointKey] else current.endpoint,
      if Stored(store, ApiKeyKey).Some? then store[ApiKeyKey] else current.apiKey,
      if Stored(store, RegionKey).Some? then store[RegionKey] else current.region,
      if Stored(store, DebugKey).Some? then store[DebugKey] == "true" else current.debug)
  }

  /** How the debug flag is written: `debug.toString()`. */
  function FlagText(b: bool): (s: string)
    ensures b ==> s == "true"
    ensures !b ==> s == "false"
  {
    if b then "true" else "false"
  }

  /** Storage after a successful save of the four values. */
  function Persisted(store: Store, c: Config): (s: Store)
    ensures s.Keys == store.Keys + {EndpointKey, ApiKeyKey, RegionKey, DebugKey}
    ensures s[EndpointKey] == c.endpoint && s[ApiKeyKey] == c.apiKey && s[RegionKey] == c.region
    ensures s[DebugKey] == FlagText(c.debug)
    ensures forall k | k in store && k !in {EndpointKey, ApiKeyKey, RegionKey, DebugKey} :: s[k] == store[k]
  {
    store[EndpointKey := c.endpoint][ApiKeyKey := c.apiKey][RegionKey := c.region][DebugKey := FlagText(c.debug)]
  }

  /** Storage after "clear all": the four keys removed, others untouched. */
  function Cleared(store: Store): (s: Store)
    ensures s.Keys == store.Keys - {EndpointKey, ApiKeyKey, RegionKey, DebugKey}
    ensures forall k | k in s :: s[k] == store[k]
  {
    store - {EndpointKey, ApiKeyKey, RegionKey, DebugKey}
  }

  /** Loading never empties a field that was set, and only a stored
      value replaces the current one. */
  lemma LoadKeepsUnstored(store: Store, current: Config)
    ensures var c := LoadedConfig(store, current);
      && (Stored(store, EndpointKey) == None ==> c.endpoint == current.endpoint)
      && (Stored(store, ApiKeyKey) == None ==> c.apiKey == current.apiKey)
      && (Stored(store, RegionKey) == None ==> c.region == current.region)
      && (Stored(store, DebugKey) == None ==> c.debug == current.debug)
      && (current.endpoint != "" ==> c.endpoint != "")
      && (current.apiKey != "" ==> c.apiKey != "")
  {
  }

  /** Save then load restores exactly what was saved, whatever the page
      held before, provided the region was not left empty. */
  lemma SaveLoadRoundTrip(store: Store, saved: Config, current: Config)
    requires saved.endpoint != "" && saved.apiKey != "" && saved.region != ""
    ensures LoadedConfig(Persisted(store, saved), current) == saved
  {
  }

  /** An empty region is written but reads back as absent, so loading
      keeps the region the page already had. */
  lemma EmptyRegionNotRestored(store: Store, saved: Config, current: Config)
    requires saved.region == ""
    ensures LoadedConfig(Persisted(store, saved), current).region == current.region
  {
  }

  /** After clearing, a fresh page load sees the defaults. */
  lemma ClearThenLoad(store: Store)
    ensures LoadedConfig(Cleared(store), Defaults) == Defaults
  {
  }
}
