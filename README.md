# ADA PHP SDK — a Dafny model of the `AdaSdk` client

The ADA PHP SDK is a small client for the REST API of an ADA e-learning
installation. A single class, `AdaSdk`, holds the client credentials and the
two URL roots. It obtains an OAuth2 access token with the client-credentials
grant (section 4.4 of RFC 6749) and caches that token in the PHP session. For
each `get`/`post`/`put`/`delete` call it builds one HTTP request: the body is a
form query or JSON, the header lines are kept in an ordered PHP array, and the
libcurl options depend on the verb. It then turns the reply's status into a
return value or an exception.

The model has eight modules, one file each:

| module | file | what it holds |
|---|---|---|
| `Wrappers` | `wrappers.dfy` | `Option`, `Result`, `Outcome` |
| `PhpStrings` | `php_strings.dfy` | the PHP string built-ins the class uses: the decimal text of integers, `strtolower` and `ucfirst` on ASCII, `str_replace` |
| `SdkConfig` | `sdk_config.dfy` | the constructor's checks of the configuration array, and the error codes |
| `Endpoint` | `endpoint.dfy` | `_buildURL` |
| `Headers` | `headers.dfy` | `_headers` as an ordered map from PHP array keys to header lines |
| `Token` | `token.dfy` | the session slot, when a cached token is trusted, and how the token endpoint's reply becomes a token or an exception |
| `Transport` | `transport.dfy` | the request as its cURL options describe it, and the `(status, body)` reply |
| `Pipeline` | `pipeline.dfy` | `_execRequest` as a function of the object's state |
| `Sdk` | `sdk.dfy` | the classes `AdaSdk` and `SessionStore`, whose methods are proved against those functions |

The model runs in two layers:

- **Pure specification.** The pure parts are functions: the configuration check, `_buildURL`, the validity test of the cached token, the reply handling of the token endpoint, the Authorization string, the per-verb options and the status mapping. `Pipeline.Exec` describes one whole `_execRequest` call on a `ClientState` value.
- **Imperative class.** `Sdk.AdaSdk` is a class with the source's fields. `$_SESSION['adasdk']` is a `SessionStore` object that every `AdaSdk` of a session shares. Each method modifies only the fields the PHP method writes.
  - `SetHeaders` is the `foreach` loop with its invariant.
  - `InitFromSession` and `GetOAuth2AccessToken` read the session, then refresh it, then write it.
  - `ExecRequest` runs these steps in the same order as the PHP. Its `ensures` says the object's new state, the number of token requests, the request handed to cURL and the result are exactly what `Exec` gives for the old state.

Inputs the PHP gets from outside are parameters:

- **Clock.** The clock reading when the cache is checked (`time()` in `_initFromSession`) and the reading taken just before the token request (`$startTime`) come in a `TokenEnv`.
- **Token-endpoint reply.** A `TokenEnv` also carries the token endpoint's reply, with its body already JSON-decoded.
- **API reply.** The `Reply` of the API request is a parameter too.
- **Two checks per request.** One request gets two `TokenEnv`s. `getTokenTpye()` and `getAccessToken()` each run `_initFromSession`, so one request checks the cache twice and may ask the token endpoint twice.

Behaviour reproduced as the code has it:

- **The `str_replace` on the OAuth2 root.** It replaces `http://` by `http://`, so both roots are `url + "/api"` (`DomainsCoincide`).
- **The JSON branch's header list.** The JSON branch passes `setHeaders` the list `['ContentType', 'Content-Type: application/json']`, not a keyed array. The two strings land under keys 0 and 1, and both are sent as header lines.
- **Which token the Authorization line takes.** The line takes the token type the first check left and the token the second check left.
- **Headers after a token error.** When getting a token throws, the header reset at the end of `_execRequest` is never reached. The Content-Type entries then stay in the object and go out with the next request (`TokenFailureKeepsContentType`, `LeftoverContentTypeSent`).
- **An empty endpoint.** Under PHP 7, `""{0}` is `""`, which differs from `'/'`, so `_buildURL` prepends a slash to an empty endpoint.
- **A missing `expires_in`.** PHP's null arithmetic counts it as 0, so the new token expires at `$startTime` and the very next check fetches again (`StaleGrantTwoRequests`).

Three consequences of the code's order of steps:

- **The Authorization entry is replaced on each call.** It is written under the key `OAuth2`, so a later call overwrites it instead of adding a second one, as the comment at src/AdaSdk.php:391-395 intends (`PutOverwrites`, `AuthorizationUsesCurrentToken`).
- **Headers are reset only after a request reaches cURL.** The reset is the step after `exec` (src/AdaSdk.php:441-444). When getting a token throws, the call leaves before that step.
- **The cache is checked twice per call.** `getTokenTpye()` and `getAccessToken()` each run `_initFromSession` (src/AdaSdk.php:489-492), and each check may ask the token endpoint. Every failure there throws whatever the silent mode is, with code OAUTH2_ERROR (666) or the HTTP status, as src/AdaSdk.php:516-522 documents.

## Model

| member | source | states |
|---|---|---|
| `SdkConfig.ValidateConfig` | src/AdaSdk.php:155-183 | construction succeeds exactly when the argument is an array whose clientID, clientSecret and url are all non-null and non-empty; every failure has code 667; on success the credentials are stored, the API root is `url + "/api"`, and silent mode is true only when the config gives the boolean `true` |
| `SdkConfig.DomainsCoincide` | src/AdaSdk.php:173-176 | the OAuth2 root equals `url + "/api"` and so equals the API root, because replacing `http://` by itself changes nothing |
| `PhpStrings.StrReplaceSelf` | src/AdaSdk.php:174 | `str_replace` of a string by itself returns the subject unchanged, for every subject |
| `PhpStrings.NatToString` | src/AdaSdk.php:414 | the decimal text PHP makes of a length or a status is non-empty, all digits, and has no leading zero |
| `PhpStrings.ParseNatToString` | src/AdaSdk.php:414 | reading the decimal text of `n` back gives `n` |
| `PhpStrings.ToLower` | src/AdaSdk.php:397 | `strtolower` keeps the length and lower-cases exactly the letters A-Z, character by character |
| `PhpStrings.UcFirst` | src/AdaSdk.php:396-398 | `ucfirst` keeps the length, upper-cases the first character if it is a-z, and leaves the rest as it was |
| `PhpStrings.UcFirstSpaceJoin` | src/AdaSdk.php:396-398 | `ucfirst` of "type token" capitalises only the type |
| `PhpStrings.StrReplace` | src/AdaSdk.php:174 | defines `str_replace` for one search string: occurrences replaced left to right without overlap, an empty search string leaving the subject alone; `StrReplaceSelf` proves that replacing a string by itself is the identity |
| `Endpoint.NormalizeEndpoint` | src/AdaSdk.php:484 | the result starts with `/`; it equals the endpoint exactly when the endpoint already starts with `/`, and otherwise it is `"/" + endpoint` |
| `Endpoint.BuildUrl` | src/AdaSdk.php:481-487 | defines `_buildURL`: the API root, `/`, the API version `v1`, then the normalised endpoint; `BuildUrlSlashAgnostic` and `BuildUrlFromConfig` state its properties, and `Get`/`Post`/`Delete`/`Put` call it |
| `Endpoint.NormalizeIdempotent` | src/AdaSdk.php:481-487 | normalising twice is normalising once |
| `Endpoint.BuildUrlSlashAgnostic` | src/AdaSdk.php:481-487 | `"users"` and `"/users"` build the same URL |
| `Endpoint.BuildUrlFromConfig` | src/AdaSdk.php:481-487 | for a client built from `config`, the URL of an endpoint is `url + "/api/v1"` followed by the normalised endpoint |
| `Headers.Values` | src/AdaSdk.php:432-434 | the lines handed to cURL are the array's values, in array order |
| `Headers.Put` | src/AdaSdk.php:295 | writing a new key appends it; writing an existing key keeps the array's length |
| `Headers.LookupPut` | src/AdaSdk.php:295 | after `$h[$k] = $v`, key `k` holds `v` and every other key holds what it held before |
| `Headers.PutUnique` | src/AdaSdk.php:295 | a write keeps every key unique |
| `Headers.PutAllUnique` | src/AdaSdk.php:290-300 | writing a whole argument array keeps every key unique |
| `Headers.LookupPutAll` | src/AdaSdk.php:290-300 | after `setHeaders(m)`, each key of `m` holds the value of the last pair of `m` with that key, and every other key holds what it held before |
| `Headers.PutAll` | src/AdaSdk.php:294-296 | defines the `foreach` of `setHeaders`: the pairs written one after another in argument order; `LookupPutAll` and `PutAllUnique` state what it leaves, and the `SetHeaders` loop is proved equal to it |
| `Headers.AfterSetHeaders` | src/AdaSdk.php:290-300 | defines `setHeaders`: null clears the field, an array is written with `PutAll` onto the field (a null field counting as empty); `Sdk.AdaSdk.SetHeaders` is proved to leave exactly this value |
| `Headers.PutOverwrites` | src/AdaSdk.php:295 | writing the same key twice leaves one entry, with the second value; this is why repeated calls replace the OAuth2 entry instead of adding one |
| `Headers.LookupInValues` | src/AdaSdk.php:432-434 | a line stored under any key is among the lines sent |
| `Headers.PutAllSingle` | src/AdaSdk.php:396-398 | writing a one-pair array is writing that pair |
| `Token.FetchToken` | src/AdaSdk.php:539-566 | a new token exactly when the status is 200 and the body is an object; its expiry is `startTime + expires_in` and it carries the reply's token and type; a 200 non-object throws 666; a 400 throws its `error_description` (an object body) or "Unknown OAuth2 error " followed by the text PHP makes of the decoded body (empty when the body is not JSON); any other status throws "http error in OAuth2 " followed by the status; the code of a non-200 error is the status |
| `Token.TokenValid` | src/AdaSdk.php:500-504 | defines the test for trusting the cache: expiry and token set, token non-empty, and the clock before the expiry; `FetchedTokenLifetime`, `RefreshIdempotent` and `NonPositiveLifetimeRefetches` state when it holds for a fetched token |
| `Token.TokenRequest` | src/AdaSdk.php:527-530 | defines the token request: a POST of `grant_type=client_credentials` to the OAuth2 root + "/token" with the credentials `clientID:clientSecret`; `Sdk.AdaSdk.GetOAuth2AccessToken` and `InitFromSession` are proved to send exactly this request, and only when the cache fails `TokenValid` |
| `Token.Refresh` | src/AdaSdk.php:494-514 | a cache that passes the validity test is copied into the object and no request is made; otherwise the check succeeds exactly when the token endpoint grants a token, and then the granted token and type go into the object and the session with the new expiry; a failure is the token endpoint's error and changes nothing |
| `Token.RefreshSyncs` | src/AdaSdk.php:509-512 | after a successful check the object's token and type equal the session's |
| `Token.FetchedTokenLifetime` | src/AdaSdk.php:500-504 | a fetched token is stored with expiry `startTime + expires_in` and is trusted at a later instant exactly when it is non-empty and that instant comes before the expiry |
| `Token.RefreshIdempotent` | src/AdaSdk.php:500-510 | checking a synced, still valid cache again asks no one and changes nothing |
| `Token.NonPositiveLifetimeRefetches` | src/AdaSdk.php:548 | a token granted with `expires_in <= 0` is already expired at the next check, which fetches again |
| `Token.GenericErrorNamesStatus` | src/AdaSdk.php:565 | the generic token-endpoint message is the fixed prefix followed by digits that read back as the error code |
| `Pipeline.EncodeParams` | src/AdaSdk.php:384-389 | the body is JSON exactly when the parameters are an object and the verb is POST or PUT; otherwise it is the form query |
| `Pipeline.HttpBuildQuery` | src/AdaSdk.php:388 | defines the form query: `name=value` pairs joined by `&`, without percent-encoding; `EncodeParams` states when it is the body |
| `Pipeline.JsonEncode` | src/AdaSdk.php:385 | defines the JSON object of the parameters, without escaping; `EncodeParams` states when it is the body |
| `Pipeline.CapitalizedShape` | src/AdaSdk.php:397 | the capitalised token type has the type's length and letters, its first character is not a-z, and no later character is A-Z |
| `Pipeline.AuthorizationLineShape` | src/AdaSdk.php:396-398 | the Authorization value is "Authorization: ", then the type lower-cased with its first letter capitalised, then a space, then the token |
| `Pipeline.AuthorizationLine` | src/AdaSdk.php:396-398 | defines the Authorization value as the source computes it, `ucfirst` over the lower-cased type, a space and the token; `AuthorizationLineShape` and `CapitalizedShape` state its form, and `AuthorizationUsesCurrentToken` that it is sent |
| `Pipeline.ContentLengthReadsBack` | src/AdaSdk.php:414 | the Content-Length line is "Content-Length: " followed by digits that read back as the body's length |
| `Pipeline.ContentLengthLine` | src/AdaSdk.php:414 | defines the Content-Length line, the prefix followed by the body's length in decimal; `ContentLengthReadsBack` proves the length reads back from it |
| `Pipeline.Dispatch` | src/AdaSdk.php:407-427 | GET and DELETE send to `url + "?" + query` (also when the query is empty) with no body; POST and PUT send to `url` with the body and a Content-Length line |
| `Pipeline.DispatchMethod` | src/AdaSdk.php:407-427 | whatever the headers, libcurl sends each verb's request with that verb as its HTTP method |
| `Pipeline.MapStatus` | src/AdaSdk.php:460-471 | the call returns exactly when the status is 200, 201 or 202 or silent mode is on, and then returns the raw body; otherwise it throws the body with the status as code |
| `Pipeline.Authorize` | src/AdaSdk.php:396-398 | defines the two token checks of one call (the type check, then the token check) with the state they leave, the number of token requests and the Authorization line or the first error; `Sdk.AdaSdk.AuthorizationHeader` is proved equal to it |
| `Pipeline.Deliver` | src/AdaSdk.php:396-471 | defines the rest of a call once the line is known: the request cURL receives (URL, method options, every header line in order) and the status mapping; `Sdk.AdaSdk.SendRequest` is proved equal to it |
| `Pipeline.Exec` | src/AdaSdk.php:382-472 | defines one whole `_execRequest` on the object's state: the encoding step, `Authorize`, then `Deliver` and the reset, or an early exit with the token error; the lemmas below state its properties, and `Sdk.AdaSdk.ExecRequest` is proved equal to it |
| `Pipeline.ExecSentHeaders` | src/AdaSdk.php:384-434 | when both checks succeed, the lines sent are the headers left by the encoding step, with the Authorization line and the verb's Content-Length line written on top |
| `Pipeline.ExecOutcome` | src/AdaSdk.php:382-472 | a request reaches cURL exactly when both token checks succeed; afterwards the headers are null and the result is the status mapping; if either check throws, the call throws that check's error |
| `Pipeline.SentHeadersFromCleared` | src/AdaSdk.php:384-434 | from cleared headers, a call sends exactly the two Content-Type entries (JSON only), then the Authorization line, then the Content-Length line (POST and PUT only) |
| `Pipeline.NoHeaderCarryOver` | src/AdaSdk.php:444 | after a call that reached cURL, the next call sends only its own header lines |
| `Pipeline.TokenFailureKeepsContentType` | src/AdaSdk.php:384-398 | a JSON call whose token check throws leaves the two Content-Type entries in the object, because the reset is never reached |
| `Pipeline.LeftoverContentTypeSent` | src/AdaSdk.php:384-434 | Content-Type entries left in the object by a call whose token check threw are sent by the next call that gets its tokens, whatever its verb and body |
| `Pipeline.SilentModeOnlyAffectsApiErrors` | src/AdaSdk.php:460-471 | silent mode changes only the result of an API status other than 200, 201 and 202; token errors are thrown either way; the new state, the token requests and the request sent do not depend on it |
| `Pipeline.CachedTokenNoRequest` | src/AdaSdk.php:396-398 | a cache valid at both checks gives a call with no token request, which sends its request with the Authorization line of the cached type and token, and leaves the object holding them |
| `Pipeline.ExpiredTokenOneRequest` | src/AdaSdk.php:396-398 | an invalid cache replaced by a non-empty token that is still valid at the second check costs exactly one token request; the request sent carries the Authorization line of the granted type and token, and the object then holds them |
| `Pipeline.StaleGrantTwoRequests` | src/AdaSdk.php:396-398 | a token granted with `expires_in <= 0` makes one call ask the token endpoint twice |
| `Pipeline.AuthorizationUsesCurrentToken` | src/AdaSdk.php:396-398 | whatever headers were left over, the request sent carries the Authorization line built from the first check's type and the token the object holds afterwards |
| `Sdk.SessionStore.constructor` | src/AdaSdk.php:500-504 | a fresh session holds no token, no type and no expiry |
| `Sdk.AdaSdk.FromSettings` | src/AdaSdk.php:155-183 | the object stores the validated settings and starts with no token, no type and no headers |
| `Sdk.AdaSdk.New` | src/AdaSdk.php:155-183 | construction throws exactly the configuration error `ValidateConfig` gives; otherwise it gives a fresh object holding the validated settings and no token or headers |
| `Sdk.AdaSdk.SetClientID` | src/AdaSdk.php:191-195 | stores the client ID |
| `Sdk.AdaSdk.SetClientSecret` | src/AdaSdk.php:213-217 | stores the client secret |
| `Sdk.AdaSdk.SetAccessToken` | src/AdaSdk.php:236-243 | stores the token in the object and in the session, and changes nothing else in the session |
| `Sdk.AdaSdk.SetTokenType` | src/AdaSdk.php:264-271 | stores the type in the object and in the session, and changes nothing else in the session |
| `Sdk.AdaSdk.SilentMode` | src/AdaSdk.php:318-322 | stores the mode |
| `Sdk.AdaSdk.SetHeaders` | src/AdaSdk.php:290-300 | a null argument clears the field; an array argument is written pair by pair onto the field, a null field counting as empty; each key of the argument ends up with its last value and every other key is kept; keys stay unique |
| `Sdk.AdaSdk.GetHeaders` | src/AdaSdk.php:307-310 | a cleared field reads as the empty array, any other reads as itself |
| `Sdk.AdaSdk.GetOAuth2AccessToken` | src/AdaSdk.php:525-567 | sends the Basic-authenticated POST of `grant_type=client_credentials` to `oauth2 + "/token"`; on a grant it stores the expiry and the type in the session and the type in the object, and returns the token; on an error it throws the `FetchToken` error and changes nothing |
| `Sdk.AdaSdk.InitFromSession` | src/AdaSdk.php:494-514 | asks the token endpoint exactly when the cache is not valid; the new token fields and session are those `Refresh` gives, and on an error nothing changes |
| `Sdk.AdaSdk.GetTokenType` | src/AdaSdk.php:278-282 | runs the cache check, then returns the type that check leaves |
| `Sdk.AdaSdk.GetAccessToken` | src/AdaSdk.php:251-255 | runs the cache check, then returns the token that check leaves |
| `Sdk.AdaSdk.AuthorizationHeader` | src/AdaSdk.php:396-398 | the two checks in order, with the state, the number of token requests and the Authorization line (or the first error) they give |
| `Sdk.AdaSdk.SetVerbOptions` | src/AdaSdk.php:407-427 | the verb's cURL options are `Dispatch`'s; POST and PUT write the Content-Length line under ContentLength |
| `Sdk.AdaSdk.SendRequest` | src/AdaSdk.php:396-471 | stores the Authorization line under OAuth2, sets the verb's options, hands cURL the headers, resets them to null, and maps the status |
| `Sdk.AdaSdk.ExecRequest` | src/AdaSdk.php:382-472 | the new headers, token fields and session, the token requests, the request sent and the result are exactly those `Exec` gives for the old state; header keys stay unique |
| `Sdk.AdaSdk.Get` | src/AdaSdk.php:331-334 | a GET request on the built URL, as `Exec` describes it |
| `Sdk.AdaSdk.Post` | src/AdaSdk.php:343-346 | a POST request on the built URL, as `Exec` describes it |
| `Sdk.AdaSdk.Delete` | src/AdaSdk.php:355-358 | a DELETE request on the built URL, as `Exec` describes it |
| `Sdk.AdaSdk.Put` | src/AdaSdk.php:367-370 | a PUT request on the built URL, as `Exec` describes it |

## Left out

- `session_start` and `_is_session_started`: these are PHP runtime checks. The session is modelled as a `SessionStore` object the caller creates and hands to the constructor.
- The load-time checks for the JSON extension and for `cURL.inc.php`: they run before the class exists.
- `cURL.inc.php` is not part of this model. It forwards method calls to the procedural `curl_*` functions and has no logic of its own. The transport is a `Request` value handed out and a `Reply` value taken in.
- `example.php`: a demonstration script with no logic.
- CURLOPT_RETURNTRANSFER and CURLOPT_HEADER only change how the reply is handed back, and are not modelled.
- The `User-Agent: AdaSdk\AdaSdk v0.1` header that CURLOPT_USERAGENT adds (src/AdaSdk.php:405) is not carried by the model's `Request`.
- A transport failure, where `exec` returns `false` and the status is 0: the reply is always a status and a body.
- The internals of `json_encode`, `json_decode` and `http_build_query`. Their escaping and percent-encoding are not modelled: parameters are name/value strings, and a token-endpoint body arrives already decoded (`Decoded`). A body that is not an object is kept as the text PHP makes of it.
- `Pipeline.ContentLengthLine`: `strlen` counts bytes, but the model counts the characters of the body. The two agree on ASCII bodies.
- `PhpStrings.ToLower`, `PhpStrings.UcFirst`: only the ASCII letters are changed, as PHP 7 does in the default C locale. Case mapping under other locales is not modelled.
- `Sdk.AdaSdk.SetHeaders`: a non-array, non-null argument is not modelled. PHP only turns a null field into an empty array in that case.
- PHP's cast of numeric string keys to integers is not modelled. A header key is either an integer index or a name, as the class uses them.
- Values that PHP accepts but the class never expects are not modelled. Examples are a non-string clientID or url, and a non-integer `expires_in`. The model keeps the `intval` of the stored expiry as the integer it stored.
- Default arguments are not modelled. `silentMode()` called without an argument turns silent mode on (src/AdaSdk.php:318). `get`, `post`, `delete` and `put` called without parameters send an empty array (src/AdaSdk.php:331, 343, 355, 367). In the model, every caller passes the mode and the parameters explicitly, and `ArrayParams([])` is the empty array.
- The fluent `return $this` of the setters carries no information, so the methods return nothing.
- The plain getters `getClientID` and `getClientSecret` read a field. They are the functions `GetClientID` and `GetClientSecret`, without contracts.
