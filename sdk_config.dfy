/** Validation of the configuration array handed to the AdaSdk constructor. */
module SdkConfig {
  import opened Wrappers
  import opened PhpStrings

  /** The exception the SDK throws: a message and a numeric code. */
  datatype SdkError = SdkError(message: string, code: int)

  /** Error code of token-endpoint replies that are not an object. */
  const OAUTH2_ERROR: int := 666
  /** Error code of configuration errors. */
  const ADASDK_ERROR: int := 667
  /** The name PHP's `__CLASS__` gives inside the class. */
  const CLASS_NAME: string := "AdaSdk\\AdaSdk"

  /** The value under the `silentMode` key: unset (or null), a boolean, or anything else. */
  datatype ConfigValue = Unset | Bool(b: bool) | NotBool

  /** The constructor's argument: an array with (possibly null) entries, or not an array at all. */
  datatype ConfigArg =
    | NotAnArray
    | ConfigArray(clientID: Option<string>, clientSecret: Option<string>,
                  url: Option<string>, silentMode: ConfigValue)

  /** The two roots the client calls: the OAuth2 token endpoint's and the API's. */
  datatype Domains = Domains(oauth2: string, api: string)

  /** What a successful construction stores in the object. */
  datatype Settings = Settings(clientID: string, clientSecret: string, domains: Domains, silentMode: bool)

  predicate Given(v: Option<string>) { v.Some? && |v.value| > 0 }

  /**
   * The constructor's checks in the source's order: not an array or any of the
   * three keys null, then an empty clientID, clientSecret or url; each failure
   * throws with code ADASDK_ERROR. The OAuth2 root is `url` passed through a
   * `str_replace` of "http://" by "http://", then "/api".
   */
  function ValidateConfig(config: ConfigArg): (r: Result<Settings, SdkError>)
    ensures r.Success? <==>
      config.ConfigArray? && Given(config.clientID) && Given(config.clientSecret) && Given(config.url)
    ensures r.Failure? ==> r.error.code == ADASDK_ERROR
    ensures r.Success? ==>
      && r.value.clientID == config.clientID.value
      && r.value.clientSecret == config.clientSecret.value
      && r.value.domains.api == config.url.value + "/api"
      && r.value.silentMode == (config.silentMode == Bool(true))
  {
    if config.NotAnArray? || config.clientID.None? || config.clientSecret.None? || config.url.None? then
      Failure(SdkError(CLASS_NAME + ": must provide a valid config array", ADASDK_ERROR))
    else if |config.clientID.value| == 0 then
      Failure(SdkError(CLASS_NAME + ": must provide a clientID in the config array", ADASDK_ERROR))
    else if |config.clientSecret.value| == 0 then
      Failure(SdkError(CLASS_NAME + ": must provide a clientSecret in the config array", ADASDK_ERROR))
    else if |config.url.value| == 0 then
      Failure(SdkError(CLASS_NAME + ": must provide an url in the config array", ADASDK_ERROR))
    else
      var url := config.url.value;
      var domains := Domains(StrReplace("http://", "http://", url) + "/api", url + "/api");
      var silent := if config.silentMode.Bool? then config.silentMode.b else false;
      Success(Settings(config.clientID.value, config.clientSecret.value, domains, silent))
  }

  /** Both roots of a valid configuration are `url + "/api"`: the replacement is the identity. */
  lemma DomainsCoincide(config: ConfigArg)
    requires ValidateConfig(config).Success?
    ensures ValidateConfig(config).value.domains.oauth2 == config.url.value + "/api"
    ensures ValidateConfig(config).value.domains.oauth2 == ValidateConfig(config).value.domains.api
  {
    StrReplaceSelf("http://", config.url.value);
  }
}
