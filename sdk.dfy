/**
 * The AdaSdk object itself: its fields, the setters and getters, the
 * `setHeaders` loop, the session-backed token cache and the request pipeline,
 * each method proved to do what the functions of the other modules describe.
 */
module Sdk {
  import opened Wrappers
  import opened PhpStrings
  import opened SdkConfig
  import opened Endpoint
  import opened Headers
  import opened Token
  import opened Transport
  import opened Pipeline

  /** `$_SESSION`: it outlives the object and every AdaSdk object of the session shares it. */
  class SessionStore {
    var slot: SessionData

    constructor ()
      ensures slot == EmptySession
    {
      slot := EmptySession;
    }
  }

  class AdaSdk {
    var clientID: string
    var clientSecret: string
    var domains: Domains
    var accessToken: Option<string>
    var tokenType: Option<string>
    var headers: Option<HeaderList>
    var silentMode: bool
    const session: SessionStore

    /** `_headers`, when it is an array, has each key once. */
    ghost predicate Valid()
      reads this
    {
      headers.Some? ==> UniqueKeys(headers.value)
    }

    /** The token fields together with the session slot. */
    function Tokens(): TokenState
      reads this, session
    {
      TokenState(accessToken, tokenType, session.slot)
    }

    /** The state `_execRequest` reads and writes. */
    function State(): ClientState
      reads this, session
    {
      ClientState(headers, Tokens(), silentMode)
    }

    /** What the constructor stored. */
    function CurrentSettings(): Settings
      reads this
    {
      Settings(clientID, clientSecret, domains, silentMode)
    }

    /** Stores validated settings; the token fields and headers start null. */
    constructor FromSettings(s: Settings, store: SessionStore)
      ensures Valid() && session == store
      ensures CurrentSettings() == s
      ensures State() == ClientState(None, TokenState(None, None, store.slot), s.silentMode)
    {
      clientID := s.clientID;
      clientSecret := s.clientSecret;
      domains := s.domains;
      accessToken := None;
      tokenType := None;
      headers := None;
      silentMode := s.silentMode;
      session := store;
    }

    /**
     * `new AdaSdk($config)`: throws the configuration error, or gives an object
     * holding the credentials, both domains and the silent mode, with no token
     * and no headers yet.
     */
    static method New(config: ConfigArg, store: SessionStore) returns (r: Result<AdaSdk, SdkError>)
      ensures r.Failure? <==> ValidateConfig(config).Failure?
      ensures r.Failure? ==> r.error == ValidateConfig(config).error
      ensures r.Success? ==>
        && fresh(r.value) && r.value.Valid() && r.value.session == store
        && r.value.CurrentSettings() == ValidateConfig(config).value
        && r.value.State() == ClientState(None, TokenState(None, None, store.slot), r.value.silentMode)
    {
      var validated := ValidateConfig(config);
      if validated.Failure? {
        return Failure(validated.error);
      }
      var sdk := new AdaSdk.FromSettings(validated.value, store);
      r := Success(sdk);
    }

    method SetClientID(id: string)
      modifies this`clientID
      ensures clientID == id
    {
      clientID := id;
    }

    function GetClientID(): string
      reads this
    {
      clientID
    }

    method SetClientSecret(secret: string)
      modifies this`clientSecret
      ensures clientSecret == secret
    {
      clientSecret := secret;
    }

    function GetClientSecret(): string
      reads this
    {
      clientSecret
    }

    /** `setAccessToken`: the token goes into the object and into the session. */
    method SetAccessToken(token: Option<string>)
      modifies this`accessToken, session
      ensures accessToken == token
      ensures session.slot == old(session.slot).(access_token := token)
    {
      accessToken := token;
      session.slot := session.slot.(access_token := token);
    }

    /** `setTokenType`: the type goes into the object and into the session. */
    method SetTokenType(tokenType': Option<string>)
      modifies this`tokenType, session
      ensures tokenType == tokenType'
      ensures session.slot == old(session.slot).(token_type := tokenType')
    {
      tokenType := tokenType';
      session.slot := session.slot.(token_type := tokenType');
    }

    /** `silentMode($mode)`. */
    method SilentMode(mode: bool)
      modifies this`silentMode
      ensures silentMode == mode
    {
      silentMode := mode;
    }

    /**
     * `setHeaders($arg)`: a null field first becomes an empty array; each pair
     * of an array argument is written in order (an existing key is overwritten,
     * every other key kept); a null argument clears the field.
     */
    method SetHeaders(arg: Option<HeaderList>)
      requires Valid()
      modifies this`headers
      ensures Valid()
      ensures headers == AfterSetHeaders(old(headers), arg)
      ensures arg.Some? ==> forall k :: LookupAfter(arg.value, HeadersOrEmpty(old(headers)), headers.value, k)
    {
      if headers.None? {
        headers := Some([]);
      }
      match arg
      case None =>
        headers := None;
      case Some(pairs) =>
        ghost var base := headers.value;
        var i := 0;
        while i < |pairs|
          invariant 0 <= i <= |pairs|
          invariant headers == Some(PutAll(base, pairs[..i]))
          invariant UniqueKeys(headers.value)
        {
          var (k, v) := pairs[i];
          PutUnique(headers.value, k, v);
          assert pairs[..i + 1][..i] == pairs[..i];
          headers := Some(Headers.Put(headers.value, k, v));
          i := i + 1;
        }
        assert pairs[..|pairs|] == pairs;
        forall k {
          LookupPutAll(base, pairs, k);
        }
    }

    /** `getHeaders()`: the array, or an empty one once cleared. */
    function GetHeaders(): (h: HeaderList)
      reads this
      ensures headers.None? ==> h == []
      ensures headers.Some? ==> h == headers.value
    {
      HeadersOrEmpty(headers)
    }

    /**
     * `_getOAuth2AccessToken`: sends the token request; on a 200 object it
     * stores the expiry and the type and returns the token; otherwise it
     * throws and changes nothing.
     */
    method GetOAuth2AccessToken(env: TokenEnv) returns (request: Request, r: Result<Option<string>, SdkError>)
      modifies this`tokenType, session
      ensures request == TokenRequest(CurrentSettings())
      ensures match FetchToken(env.reply, env.startTime)
        case Success(g) =>
          && r == Success(g.accessToken)
          && tokenType == g.tokenType
          && session.slot == old(session.slot).(token_type := g.tokenType, token_expire_time := Some(g.expireTime))
        case Failure(e) =>
          && r == Failure(e)
          && tokenType == old(tokenType)
          && session.slot == old(session.slot)
    {
      request := TokenRequest(CurrentSettings());
      var startTime := env.startTime;
      var reply := env.reply;
      if reply.status == HTTP_OK {
        match reply.body
        case JsonObject(token, grantedType, expiresIn, _) =>
          session.slot := session.slot.(token_expire_time := Some(startTime + expiresIn.GetOr(0)));
          SetTokenType(grantedType);
          r := Success(token);
        case NotObject(_) =>
          r := Failure(SdkError("token endpoint did not returned an object", OAUTH2_ERROR));
      } else if reply.status == HTTP_UNAUTHORIZED {
        var message;
        match reply.body {
          case JsonObject(_, _, _, description) =>
            message := description.GetOr("");
          case NotObject(text) =>
            message := "Unknown OAuth2 error " + text;
        }
        r := Failure(SdkError(message, reply.status));
      } else {
        r := Failure(SdkError(GENERIC_OAUTH2_ERROR + NatToString(reply.status), reply.status));
      }
    }

    /**
     * `_initFromSession`: copies a valid cached token into the object, or asks
     * the token endpoint (exactly then) and stores what it grants.
     */
    method InitFromSession(env: TokenEnv) returns (tokenRequest: Option<Request>, out: Outcome<SdkError>)
      modifies this`accessToken, this`tokenType, session
      ensures tokenRequest.Some? <==> Fetches(old(Tokens()), env)
      ensures tokenRequest.Some? ==> tokenRequest.value == TokenRequest(CurrentSettings())
      ensures match Refresh(old(Tokens()), env)
        case Success(t) => out.Pass? && Tokens() == t
        case Failure(e) => out == Fail(e) && Tokens() == old(Tokens())
    {
      if TokenValid(session.slot, env.now) {
        SetAccessToken(session.slot.access_token);
        SetTokenType(session.slot.token_type);
        tokenRequest := None;
        out := Pass;
      } else {
        var request, token := GetOAuth2AccessToken(env);
        tokenRequest := Some(request);
        match token
        case Failure(e) =>
          out := Fail(e);
        case Success(t) =>
          SetAccessToken(t);
          out := Pass;
      }
    }

    /** `getTokenTpye()`: checks the cache, then gives the type. */
    method GetTokenType(env: TokenEnv) returns (tokenRequest: Option<Request>, r: Result<Option<string>, SdkError>)
      modifies this`accessToken, this`tokenType, session
      ensures tokenRequest.Some? <==> Fetches(old(Tokens()), env)
      ensures tokenRequest.Some? ==> tokenRequest.value == TokenRequest(CurrentSettings())
      ensures match Refresh(old(Tokens()), env)
        case Success(t) => r == Success(t.tokenType) && Tokens() == t
        case Failure(e) => r == Failure(e) && Tokens() == old(Tokens())
    {
      var out;
      tokenRequest, out := InitFromSession(env);
      if out.Fail? {
        return tokenRequest, Failure(out.error);
      }
      r := Success(tokenType);
    }

    /** `getAccessToken()`: checks the cache, then gives the token. */
    method GetAccessToken(env: TokenEnv) returns (tokenRequest: Option<Request>, r: Result<Option<string>, SdkError>)
      modifies this`accessToken, this`tokenType, session
      ensures tokenRequest.Some? <==> Fetches(old(Tokens()), env)
      ensures tokenRequest.Some? ==> tokenRequest.value == TokenRequest(CurrentSettings())
      ensures match Refresh(old(Tokens()), env)
        case Success(t) => r == Success(t.accessToken) && Tokens() == t
        case Failure(e) => r == Failure(e) && Tokens() == old(Tokens())
    {
      var out;
      tokenRequest, out := InitFromSession(env);
      if out.Fail? {
        return tokenRequest, Failure(out.error);
      }
      r := Success(accessToken);
    }

    /**
     * The value of the Authorization line (`Authorize`): `getTokenTpye()`
     * then `getAccessToken()`, then the line from the type and the token.
     */
    method AuthorizationHeader(first: TokenEnv, second: TokenEnv) returns (tokenRequests: nat, auth: Result<string, SdkError>)
      modifies this`accessToken, this`tokenType, session
      ensures Authorization(Tokens(), tokenRequests, auth) == Authorize(old(Tokens()), first, second)
    {
      var request1, tokenType' := GetTokenType(first);
      tokenRequests := if request1.Some? then 1 else 0;
      if tokenType'.Failure? {
        return tokenRequests, Failure(tokenType'.error);
      }
      var request2, token := GetAccessToken(second);
      tokenRequests := tokenRequests + if request2.Some? then 1 else 0;
      if token.Failure? {
        return tokenRequests, Failure(token.error);
      }
      auth := Success(AuthorizationLine(tokenType'.value, token.value));
    }

    /**
     * The `switch ($type)` of `_execRequest`: the cURL options of the verb, and
     * for POST and PUT the Content-Length line written under its key.
     */
    method SetVerbOptions(verb: Verb, url: string, body: string) returns (d: Dispatched)
      requires Valid()
      modifies this`headers
      ensures Valid()
      ensures d == Dispatch(verb, url, body)
      ensures headers == match d.contentLength
        case Some(line) => AfterSetHeaders(old(headers), Some([(LENGTH_KEY, line)]))
        case None => old(headers)
    {
      var requestUrl := url;
      var post := false;
      var customRequest: Option<string> := None;
      var postFields: Option<string> := None;
      var contentLength: Option<string> := None;
      match verb {
        case GET =>
          requestUrl := url + "?" + body;
        case POST =>
          post := true;
          postFields := Some(body);
          contentLength := Some(ContentLengthLine(body));
          SetHeaders(Some([(LENGTH_KEY, contentLength.value)]));
        case DELETE =>
          requestUrl := url + "?" + body;
          customRequest := Some("DELETE");
        case PUT =>
          customRequest := Some("PUT");
          postFields := Some(body);
          contentLength := Some(ContentLengthLine(body));
          SetHeaders(Some([(LENGTH_KEY, contentLength.value)]));
      }
      d := Dispatched(requestUrl, post, customRequest, postFields, contentLength);
    }

    /**
     * The rest of `_execRequest` once the Authorization line is known: store it
     * under OAuth2, set the verb's options, hand cURL the headers, clear them
     * for the next call, and map the status.
     */
    method SendRequest(verb: Verb, url: string, body: string, auth: string, reply: Reply)
      returns (sent: Option<Request>, r: Result<string, SdkError>)
      requires Valid()
      modifies this`headers
      ensures Valid() && headers.None?
      ensures var delivery := Deliver(old(headers), auth, verb, url, body, silentMode, reply);
        sent == Some(delivery.sent) && r == delivery.result
    {
      ghost var h0 := headers;
      SetHeaders(Some([(AUTH_KEY, auth)]));
      var d := SetVerbOptions(verb, url, body);
      assert headers == RequestHeaders(h0, auth, d);
      sent := Some(ToRequest(d, Values(GetHeaders())));
      SetHeaders(None);
      r := MapStatus(reply.status, reply.body, silentMode);
    }

    /**
     * `_execRequest`: runs the pipeline `Exec` describes on the object, and
     * says how many token requests (each `TokenRequest`) it sent.
     */
    method ExecRequest(verb: Verb, url: string, params: Params, first: TokenEnv, second: TokenEnv, reply: Reply)
      returns (tokenRequests: nat, sent: Option<Request>, r: Result<string, SdkError>)
      requires Valid()
      modifies this`headers, this`accessToken, this`tokenType, session
      ensures Valid()
      ensures ExecResult(State(), tokenRequests, sent, r) == Exec(old(State()), verb, url, params, first, second, reply)
    {
      var enc := EncodeParams(verb, params);
      if enc.json {
        SetHeaders(Some(CONTENT_TYPE_LINES));
      }
      assert headers == EncodedHeaders(old(headers), enc);

      var auth;
      tokenRequests, auth := AuthorizationHeader(first, second);
      if auth.Failure? {
        return tokenRequests, None, Failure(auth.error);
      }

      sent, r := SendRequest(verb, url, enc.body, auth.value, reply);
    }

    /** `get($endpoint, $params)`: `_execRequest` on the built URL. */
    method Get(endpoint: string, params: Params, first: TokenEnv, second: TokenEnv, reply: Reply)
      returns (tokenRequests: nat, sent: Option<Request>, r: Result<string, SdkError>)
      requires Valid()
      modifies this`headers, this`accessToken, this`tokenType, session
      ensures Valid()
      ensures ExecResult(State(), tokenRequests, sent, r)
           == Exec(old(State()), GET, BuildUrl(domains, endpoint), params, first, second, reply)
    {
      tokenRequests, sent, r := ExecRequest(GET, BuildUrl(domains, endpoint), params, first, second, reply);
    }

    /** `post($endpoint, $params)`: `_execRequest` on the built URL. */
    method Post(endpoint: string, params: Params, first: TokenEnv, second: TokenEnv, reply: Reply)
      returns (tokenRequests: nat, sent: Option<Request>, r: Result<string, SdkError>)
      requires Valid()
      modifies this`headers, this`accessToken, this`tokenType, session
      ensures Valid()
      ensures ExecResult(State(), tokenRequests, sent, r)
           == Exec(old(State()), POST, BuildUrl(domains, endpoint), params, first, second, reply)
    {
      tokenRequests, sent, r := ExecRequest(POST, BuildUrl(domains, endpoint), params, first, second, reply);
    }

    /** `delete($endpoint, $params)`: `_execRequest` on the built URL. */
    method Delete(endpoint: string, params: Params, first: TokenEnv, second: TokenEnv, reply: Reply)
      returns (tokenRequests: nat, sent: Option<Request>, r: Result<string, SdkError>)
      requires Valid()
      modifies this`headers, this`accessToken, this`tokenType, session
      ensures Valid()
      ensures ExecResult(State(), tokenRequests, sent, r)
           == Exec(old(State()), DELETE, BuildUrl(domains, endpoint), params, first, second, reply)
    {
      tokenRequests, sent, r := ExecRequest(DELETE, BuildUrl(domains, endpoint), params, first, second, reply);
    }

    /** `put($endpoint, $params)`: `_execRequest` on the built URL. */
    method Put(endpoint: string, params: Params, first: TokenEnv, second: TokenEnv, reply: Reply)
      returns (tokenRequests: nat, sent: Option<Request>, r: Result<string, SdkError>)
      requires Valid()
      modifies this`headers, this`accessToken, this`tokenType, session
      ensures Valid()
      ensures ExecResult(State(), tokenRequests, sent, r)
           == Exec(old(State()), PUT, BuildUrl(domains, endpoint), params, first, second, reply)
    {
      tokenRequests, sent, r := ExecRequest(PUT, BuildUrl(domains, endpoint), params, first, second, reply);
    }
  }
}
