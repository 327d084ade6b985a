/**
  Construction-time configuration of an OhCrash client: the `options` object, the
  API key check and the endpoint default.
 */
module Config {
  import opened Wrappers

  /**
    The `options` object a caller passes. A field is `None` when the caller leaves it
    out; the channel and exit flags are only switched off by a literal `false`.
   */
  datatype Options = Options(
    endpoint: Option<string>,
    uncaughtExceptions: Option<bool>,
    unhandledRejections: Option<bool>,
    windowOnError: Option<bool>,
    exit: Option<bool>)

  /** The `{}` that stands in for missing options. */
  const NoOptions: Options := Options(None, None, None, None, None)

  const DefaultEndpoint: string := "https://api.ohcrash.com/v1"

  const MissingKeyMessage: string := "Expected `apiKey` for OhCrash client"

  /** A flag tested with `!== false`: absent and `true` both leave the feature on. */
  predicate Enabled(flag: Option<bool>)
  {
    flag != Some(false)
  }

  /** JavaScript truthiness of an optional string: absent and "" are falsy. */
  predicate Truthy(s: Option<string>)
  {
    s.Some? && s.value != ""
  }

  /** What a successfully constructed client holds: `this.options`, `this.apiKey`, `this.endpoint`. */
  datatype Settings = Settings(options: Options, apiKey: string, endpoint: string)

  datatype ConstructError = TypeError(message: string)

  /**
    The checks and defaults of the `OhCrash` constructor. A falsy key throws before
    anything else happens; otherwise missing options become `{}` and a falsy
    `options.endpoint` gives way to the default endpoint.
   */
  function Configure(apiKey: Option<string>, options: Option<Options>): (r: Result<Settings, ConstructError>)
    ensures r.Failure? <==> !Truthy(apiKey)
    ensures r.Failure? ==> r.error == TypeError(MissingKeyMessage)
    ensures r.Success? ==> r.value.apiKey == apiKey.value && r.value.apiKey != ""
    ensures r.Success? && options.Some? ==> r.value.options == options.value
    ensures r.Success? && options.None? ==> r.value.options == NoOptions
    ensures r.Success? ==> r.value.endpoint != ""
    ensures r.Success? && Truthy(r.value.options.endpoint) ==> r.value.endpoint == r.value.options.endpoint.value
    ensures r.Success? && !Truthy(r.value.options.endpoint) ==> r.value.endpoint == DefaultEndpoint
  {
    if !Truthy(apiKey) then
      Failure(TypeError(MissingKeyMessage))
    else
      var opts := if options.Some? then options.value else NoOptions;
      var endpoint := if Truthy(opts.endpoint) then opts.endpoint.value else DefaultEndpoint;
      Success(Settings(opts, apiKey.value, endpoint))
  }
}
