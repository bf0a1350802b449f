/**
 * The plugin's options and how it normalises them before generating the
 * runtime: the retry budget, the cache-bust token, the retry delay and the
 * chunk-name allow-list.
 */
module RetryOptions {
  import opened Optional

  /** A JavaScript number, as `Number(...)` yields it. */
  datatype JsNumber = NaN | PositiveInfinity | NegativeInfinity | Finite(value: real)

  /** `Number.isInteger(x) && x > 0`. */
  predicate IsPositiveInteger(x: JsNumber)
  {
    x.Finite? && x.value.Floor as real == x.value && x.value > 0.0
  }

  /** A retry budget: at least one retry. */
  type RetryBudget = n: nat | n >= 1 witness 1

  /** The `retryDelay` option: absent, a number, or a user function given as source text. */
  datatype DelayOption =
    | NoDelay
    | DelayMs(ms: int)
    | DelayScript(delay: int -> int)

  /** The options object the plugin is constructed with. */
  datatype PluginOptions = PluginOptions(
    maxRetries: JsNumber,            // Number(options.maxRetries); NaN when the option is absent
    cacheBust: Option<string>,       // the token the user's cacheBust function returns, when one is given
    retryDelay: DelayOption,
    chunks: Option<seq<string>>)     // the allow-list of chunk names, when one is given

  /** What the generated runtime is parameterised by. */
  datatype Settings = Settings(maxRetries: RetryBudget, cacheBust: string, retryDelay: int -> int)

  /** The token used when no cacheBust function is configured. */
  const DefaultCacheBust: string := "cache-bust=true"

  /** The retry budget: the option when it is a positive integer, and 1 otherwise. */
  function MaxRetries(x: JsNumber): (n: RetryBudget)
    ensures IsPositiveInteger(x) ==> n as real == x.value
    ensures !IsPositiveInteger(x) ==> n == 1
  {
    if IsPositiveInteger(x) then x.value.Floor else 1
  }

  /** The cache-bust token: the user function's value, or "cache-bust=true" without one. */
  function CacheBustToken(custom: Option<string>): (token: string)
    ensures custom.None? ==> token == "cache-bust=true"
    ensures custom.Some? ==> token == custom.value
  {
    if custom.Some? then custom.value else DefaultCacheBust
  }

  /**
   * The delay function: a script option is used as given; otherwise the
   * generated function ignores its argument and returns `retryDelay || 0`.
   */
  function RetryDelay(option: DelayOption): (delay: int -> int)
    ensures option.NoDelay? ==> forall attempt :: delay(attempt) == 0
    ensures option.DelayMs? ==> forall attempt :: delay(attempt) == option.ms
    ensures option.DelayScript? ==> forall attempt :: delay(attempt) == option.delay(attempt)
  {
    match option
    case NoDelay => _ => 0
    case DelayMs(ms) => _ => ms
    case DelayScript(f) => f
  }

  /** The settings the generated runtime is built from. */
  function Normalise(options: PluginOptions): (s: Settings)
    ensures IsPositiveInteger(options.maxRetries) ==> s.maxRetries as real == options.maxRetries.value
    ensures !IsPositiveInteger(options.maxRetries) ==> s.maxRetries == 1
    ensures options.cacheBust.None? ==> s.cacheBust == "cache-bust=true"
    ensures options.cacheBust.Some? ==> s.cacheBust == options.cacheBust.value
    ensures options.retryDelay.NoDelay? ==> forall attempt :: s.retryDelay(attempt) == 0
    ensures options.retryDelay.DelayMs? ==> forall attempt :: s.retryDelay(attempt) == options.retryDelay.ms
    ensures options.retryDelay.DelayScript? ==> forall attempt :: s.retryDelay(attempt) == options.retryDelay.delay(attempt)
  {
    Settings(MaxRetries(options.maxRetries), CacheBustToken(options.cacheBust), RetryDelay(options.retryDelay))
  }

  /**
   * Whether a chunk gets the retry runtime: always without an allow-list;
   * with one (even an empty one), only when the chunk's name is in it.
   */
  function AddsRetryCode(chunks: Option<seq<string>>, chunkName: Option<string>): (adds: bool)
    ensures chunks.None? ==> adds
    ensures chunks.Some? ==> (adds <==> exists k :: 0 <= k < |chunks.value| && Some(chunks.value[k]) == chunkName)
  {
    chunks.None? || (chunkName.Some? && chunkName.value in chunks.value)
  }

  /** The bootstrap source after the localVars hook: `runtime` is appended only to chunks that get retries. */
  function BootstrapSource(source: string, chunks: Option<seq<string>>, chunkName: Option<string>, runtime: string): (out: string)
    ensures chunks.Some? && (chunkName.None? || chunkName.value !in chunks.value) ==> out == source
    ensures chunks.None? ==> out == source + runtime
    ensures chunks.Some? && chunkName.Some? && chunkName.value in chunks.value ==> out == source + runtime
    ensures chunks == Some([]) ==> out == source
  {
    if AddsRetryCode(chunks, chunkName) then source + runtime else source
  }
}
