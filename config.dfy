/**
 * Settings validation and defaults. Reading and parsing the settings file
 * is not part of this model; these are the checks the loaded settings must
 * pass, and the values used when a setting is absent.
 */
module Config {

  /** A Rust `u32`. */
  type u32 = x: int | 0 <= x < 0x1_0000_0000
  /** A Rust `u64`. */
  type u64 = x: int | 0 <= x < 0x1_0000_0000_0000_0000

  datatype SearchConfig = SearchConfig(
    userAgents: seq<string>,
    maxRetries: u32,
    baseDelay: u64,        // milliseconds
    maxJitter: u64,        // milliseconds
    requestTimeout: u64,   // seconds
    responseTimeout: u64)  // seconds

  datatype CacheConfig = CacheConfig(maxCapacity: u64, timeToLive: u64)

  datatype EngineConfig = EngineConfig(favor: string)

  datatype Settings = Settings(search: SearchConfig, cache: CacheConfig, engine: EngineConfig)

  datatype ConfigError = ValidationError(message: string)

  /** `Result<(), ConfigError>`. */
  datatype Outcome = Pass | Fail(error: ConfigError)

  const RetriesMessage := "Max retries should not exceed 10"
  const TimeoutsMessage := "Timeouts must be greater than 0"
  const TimeToLiveMessage := "Cache time-to-live must be greater than 0"
  const EngineMessage := "Invalid search engine specified"

  /**
   * `SearchConfig::validate`: at most ten retries, both timeouts positive;
   * the retry bound is checked first. Nothing is checked of the user agents
   * or of the jitter bound.
   */
  function ValidateSearch(c: SearchConfig): (r: Outcome)
    ensures r.Pass? <==> c.maxRetries <= 10 && c.requestTimeout > 0 && c.responseTimeout > 0
    ensures c.maxRetries > 10 ==> r == Fail(ValidationError(RetriesMessage))
    ensures c.maxRetries <= 10 && r.Fail? ==> r == Fail(ValidationError(TimeoutsMessage))
  {
    if c.maxRetries > 10 then Fail(ValidationError(RetriesMessage))
    else if c.requestTimeout == 0 || c.responseTimeout == 0 then Fail(ValidationError(TimeoutsMessage))
    else Pass
  }

  /** `CacheConfig::validate`: only the time-to-live is checked. */
  function ValidateCache(c: CacheConfig): (r: Outcome)
    ensures r.Pass? <==> c.timeToLive > 0
    ensures r.Fail? ==> r.error.message == TimeToLiveMessage
  {
    if c.timeToLive == 0 then Fail(ValidationError(TimeToLiveMessage)) else Pass
  }

  /** The engine names the settings file may hold, exactly as written (case matters). */
  predicate KnownEngineName(name: string) {
    name == "google" || name == "bing" || name == "duckduckgo"
  }

  /** `EngineConfig::validate`. */
  function ValidateEngine(c: EngineConfig): (r: Outcome)
    ensures r.Pass? <==> KnownEngineName(c.favor)
    ensures r.Fail? ==> r.error.message == EngineMessage
  {
    match c.favor
    case "google" => Pass
    case "bing" => Pass
    case "duckduckgo" => Pass
    case _ => Fail(ValidationError(EngineMessage))
  }

  /** `Config::validate`: the three checks in order; the first failure is reported. */
  function Validate(s: Settings): (r: Outcome)
    ensures r.Pass? <==> ValidateSearch(s.search).Pass? && ValidateCache(s.cache).Pass? && ValidateEngine(s.engine).Pass?
    ensures ValidateSearch(s.search).Fail? ==> r == ValidateSearch(s.search)
    ensures ValidateSearch(s.search).Pass? && ValidateCache(s.cache).Fail? ==> r == ValidateCache(s.cache)
    ensures ValidateSearch(s.search).Pass? && ValidateCache(s.cache).Pass? ==> r == ValidateEngine(s.engine)
  {
    match ValidateSearch(s.search)
    case Fail(e) => Fail(e)
    case Pass =>
      match ValidateCache(s.cache)
      case Fail(e) => Fail(e)
      case Pass => ValidateEngine(s.engine)
  }

  const ChromeWindows := "Mozilla/5.0 (Windows NT 10.0; Win64; x64) AppleWebKit/537.36 (KHTML, like Gecko) Chrome/121.0.0.0 Safari/537.36"
  const ChromeMac := "Mozilla/5.0 (Macintosh; Intel Mac OS X 10_15_7) AppleWebKit/537.36 (KHTML, like Gecko) Chrome/121.0.0.0 Safari/537.36"
  const FirefoxWindows := "Mozilla/5.0 (Windows NT 10.0; Win64; x64; rv:122.0) Gecko/20100101 Firefox/122.0"
  const SafariMac := "Mozilla/5.0 (Macintosh; Intel Mac OS X 10_15_7) AppleWebKit/605.1.15 (KHTML, like Gecko) Version/17.2.1 Safari/605.1.15"
  const ChromeLinux := "Mozilla/5.0 (X11; Linux x86_64) AppleWebKit/537.36 (KHTML, like Gecko) Chrome/121.0.0.0 Safari/537.36"

  /** Five desktop browser user agents. */
  function DefaultUserAgents(): (agents: seq<string>)
    ensures |agents| == 5
  {
    [ChromeWindows, ChromeMac, FirefoxWindows, SafariMac, ChromeLinux]
  }

  const DefaultMaxRetries: u32 := 3
  const DefaultBaseDelay: u64 := 1000
  const DefaultMaxJitter: u64 := 1000
  const DefaultRequestTimeout: u64 := 10
  const DefaultResponseTimeout: u64 := 10
  const DefaultMaxCapacity: u64 := 100
  const DefaultTimeToLive: u64 := 600
  const DefaultFavor := "google"

  /** The settings used when the file is missing, unreadable or unparsable. */
  function DefaultSettings(): (s: Settings)
    ensures Validate(s).Pass?
    ensures s.search.userAgents == DefaultUserAgents() && s.search.maxRetries == 3
    ensures s.search.baseDelay == 1000 && s.search.maxJitter == 1000
    ensures s.search.requestTimeout == 10 && s.search.responseTimeout == 10
    ensures s.cache == CacheConfig(100, 600) && s.engine.favor == "google"
  {
    Settings(
      SearchConfig(DefaultUserAgents(), DefaultMaxRetries, DefaultBaseDelay, DefaultMaxJitter,
                   DefaultRequestTimeout, DefaultResponseTimeout),
      CacheConfig(DefaultMaxCapacity, DefaultTimeToLive),
      EngineConfig(DefaultFavor))
  }

  /**
   * What a fetch needs of the search settings: a user agent to choose and a
   * non-empty jitter range to draw from.
   */
  predicate FetchReady(c: SearchConfig) {
    |c.userAgents| > 0 && c.maxJitter > 0
  }

  /**
   * As written, validation accepts settings with no user agents and a zero
   * jitter bound, for which every uncached fetch panics.
   */
  lemma ValidationAdmitsUnfetchableSettings()
    ensures var c := SearchConfig([], 3, 1000, 0, 10, 10);
      ValidateSearch(c).Pass? && !FetchReady(c)
  {
  }

  /**
   * Search validation that also rejects what makes a fetch panic. Every
   * settings value it passes passes `ValidateSearch` and is fetch-ready.
   */
  function ValidateSearchChecked(c: SearchConfig): (r: Outcome)
    ensures r.Pass? <==> ValidateSearch(c).Pass? && FetchReady(c)
    ensures ValidateSearch(c).Fail? ==> r == ValidateSearch(c)
  {
    match ValidateSearch(c)
    case Fail(e) => Fail(e)
    case Pass =>
      if c.userAgents == [] then Fail(ValidationError("User agents must not be empty"))
      else if c.maxJitter == 0 then Fail(ValidationError("Max jitter must be greater than 0"))
      else Pass
  }

  /** The default settings pass the stricter check too. */
  lemma DefaultSettingsFetchReady()
    ensures ValidateSearchChecked(DefaultSettings().search).Pass?
  {
  }
}
