/**
 * The two configuration strings (an API key and an endpoint id) and the check
 * that refuses to run while either still holds its shipped placeholder. The
 * strings are passed around as a `Config` value instead of module globals.
 */
module Configuration {
  import opened Wire

  /** The value the API key has until the user edits it. */
  const ApiKeyPlaceholder := "YOUR_API_KEY_HERE"

  /** The value the endpoint id has until the user edits it. */
  const EndpointIdPlaceholder := "YOUR_ENDPOINT_ID_HERE"

  datatype Config = Config(apiKey: string, endpointId: string)

  /**
   * `validate_config`: `None` when the configuration may be used, otherwise the
   * failure the run exits with. The key is looked at first, so a configuration
   * where both are placeholders is reported as a key problem.
   */
  function Validate(cfg: Config): (r: Option<Failure>)
    ensures r == None <==> cfg.apiKey != ApiKeyPlaceholder && cfg.endpointId != EndpointIdPlaceholder
    ensures cfg.apiKey == ApiKeyPlaceholder ==> r == Some(PlaceholderApiKey)
    ensures cfg.apiKey != ApiKeyPlaceholder && cfg.endpointId == EndpointIdPlaceholder ==> r == Some(PlaceholderEndpointId)
  {
    if cfg.apiKey == ApiKeyPlaceholder then Some(PlaceholderApiKey)
    else if cfg.endpointId == EndpointIdPlaceholder then Some(PlaceholderEndpointId)
    else None
  }
}
