/** The cache-option resolver `staticCacheOptions`. */
module CacheOptions {
  import opened JsValues

  /** The `{ms?, seconds?}` cache configuration object. */
  datatype CacheConfig = CacheConfig(ms: Option<int>, seconds: Option<int>)

  /** The options object handed to the static middleware: `MsField(ms)` is an
      object whose only key is `ms` (so it carries no `maxAge`), `MaxAge(maxAge)`
      is `{maxAge: maxAge}` in milliseconds. */
  datatype CacheOpts = MsField(ms: int) | MaxAge(maxAge: int)

  /** The resolver's default, `{ms: 0}`. */
  const Default: CacheOpts := MsField(0)

  /** `staticCacheOptions(cacheConfiguration)`: start from the default, let a
      truthy `seconds` replace it, then let a truthy `ms` replace that. */
  function StaticCacheOptions(config: Option<CacheConfig>): (r: CacheOpts)
    // no or falsy configuration: the `{ms: 0}` default, never a maxAge
    ensures r == Default <==>
              config.None? || (!TruthyNumber(config.value.ms) && !TruthyNumber(config.value.seconds))
    ensures r.MsField? ==> r == Default
    // a truthy `ms` wins whatever `seconds` holds
    ensures config.Some? && TruthyNumber(config.value.ms) ==> r == MaxAge(config.value.ms.value)
    // a truthy `seconds` alone is converted to milliseconds
    ensures config.Some? && !TruthyNumber(config.value.ms) && TruthyNumber(config.value.seconds) ==>
              r == MaxAge(config.value.seconds.value * 1000)
    // a resolved maxAge is never zero
    ensures r.MaxAge? ==> r.maxAge != 0
  {
    var res := Default;
    if config.None? then res
    else
      var res := if TruthyNumber(config.value.seconds) then MaxAge(config.value.seconds.value * 1000) else res;
      if TruthyNumber(config.value.ms) then MaxAge(config.value.ms.value) else res
  }
}
