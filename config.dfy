/**
 * The endpoint configuration: a map from endpoint to credentials, the lookup
 * the exporter does for every scrape, and the emptiness check applied once
 * the configuration file has been parsed.
 */
module Config {
  import opened Wrappers
  import Strconv

  datatype EndpointConfig = EndpointConfig(username: string, password: string, insecure: bool)

  /** Go's zero value of the record, returned beside an error. */
  const ZERO_ENDPOINT_CONFIG := EndpointConfig("", "", false)

  type Config = map<string, EndpointConfig>

  const NOT_CONFIGURED_HEAD := "error: endpoint "
  const NOT_CONFIGURED_TAIL := " not configured"

  function NotConfigured(endpoint: string): string
  {
    NOT_CONFIGURED_HEAD + Strconv.Quote(endpoint) + NOT_CONFIGURED_TAIL
  }

  /**
   * The configuration of `endpoint` and no error when it is configured;
   * otherwise the zero configuration and an error naming the endpoint.
   */
  function GetEndpointConfig(c: Config, endpoint: string): (r: (EndpointConfig, Option<string>))
    ensures endpoint in c <==> r.1.None?
    ensures endpoint in c ==> r.0 == c[endpoint]
    ensures endpoint !in c ==> r.0 == ZERO_ENDPOINT_CONFIG && r.1 == Some(NotConfigured(endpoint))
  {
    if endpoint in c then (c[endpoint], None)
    else (ZERO_ENDPOINT_CONFIG, Some(NotConfigured(endpoint)))
  }

  /** Reads the endpoint back out of a "not configured" message. */
  function NotConfiguredEndpoint(msg: string): Option<string>
  {
    var h, t := |NOT_CONFIGURED_HEAD|, |NOT_CONFIGURED_TAIL|;
    if |msg| >= h + t && msg[..h] == NOT_CONFIGURED_HEAD && msg[|msg| - t..] == NOT_CONFIGURED_TAIL
    then Strconv.Unquote(msg[h..|msg| - t])
    else None
  }

  /** The error message identifies the endpoint that was asked for. */
  lemma NotConfiguredNamesEndpoint(endpoint: string)
    ensures NotConfiguredEndpoint(NotConfigured(endpoint)) == Some(endpoint)
  {
    var msg := NotConfigured(endpoint);
    var h, t := |NOT_CONFIGURED_HEAD|, |NOT_CONFIGURED_TAIL|;
    var q := Strconv.Quote(endpoint);
    assert msg[..h] == NOT_CONFIGURED_HEAD;
    assert msg[|msg| - t..] == NOT_CONFIGURED_TAIL;
    assert msg[h..|msg| - t] == q;
    Strconv.QuoteRoundTrip(endpoint);
  }

  const NO_ENDPOINTS := "error: config file has no endpoints defined"

  /** The check `LoadConfig` applies to an already parsed configuration. */
  function CheckEndpoints(c: Config): (r: Result<Config, string>)
    ensures r.Success? <==> |c| > 0
    ensures r.Success? ==> r.value == c
    ensures r.Failure? ==> r.error == NO_ENDPOINTS
  {
    if |c| == 0 then Failure(NO_ENDPOINTS) else Success(c)
  }

  /** An accepted configuration has an endpoint whose lookup succeeds; a rejected one has none. */
  lemma AcceptedHasEndpoint(c: Config)
    ensures CheckEndpoints(c).Success? <==> exists e :: GetEndpointConfig(c, e).1.None?
  {
    if |c| > 0 {
      var e :| e in c;
      assert GetEndpointConfig(c, e).1.None?;
    }
  }
}
