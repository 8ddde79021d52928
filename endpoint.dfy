/** `_buildURL`: the API URL of an endpoint. */
module Endpoint {
  import opened SdkConfig

  /** The API version every URL carries. */
  const API_VERSION: string := "v1"

  predicate StartsWithSlash(e: string) { |e| > 0 && e[0] == '/' }

  /**
   * The endpoint with a `/` put in front unless it already has one. An empty
   * endpoint has no first character to compare, so it gets the slash.
   */
  function NormalizeEndpoint(e: string): (r: string)
    ensures StartsWithSlash(r)
    ensures r == e <==> StartsWithSlash(e)
    ensures r != e ==> r == "/" + e
  {
    if StartsWithSlash(e) then e else "/" + e
  }

  /** `_buildURL`: the API root, the version, then the normalised endpoint. */
  function BuildUrl(domains: Domains, endpoint: string): string
  {
    domains.api + "/" + API_VERSION + NormalizeEndpoint(endpoint)
  }

  /** Normalising twice is normalising once. */
  lemma NormalizeIdempotent(e: string)
    ensures NormalizeEndpoint(NormalizeEndpoint(e)) == NormalizeEndpoint(e)
  {
  }

  /** An endpoint without its leading slash builds the same URL as with it ("users" and "/users"). */
  lemma BuildUrlSlashAgnostic(domains: Domains, e: string)
    requires !StartsWithSlash(e)
    ensures BuildUrl(domains, e) == BuildUrl(domains, "/" + e)
  {
  }

  /** For a client built from `config`, the URL of endpoint `e` is `url + "/api/v1/..."`. */
  lemma {:induction false} BuildUrlFromConfig(config: ConfigArg, e: string)
    requires ValidateConfig(config).Success?
    ensures BuildUrl(ValidateConfig(config).value.domains, e)
         == config.url.value + "/api/v1" + NormalizeEndpoint(e)
  {
    var url := config.url.value;
    assert url + "/api" + "/" + API_VERSION == url + "/api/v1";
  }
}
