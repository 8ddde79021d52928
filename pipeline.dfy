/**
 * `_execRequest` as a function of the object's state: how the body is
 * encoded, which headers are set, which cURL options each verb sets, how many
 * times the token endpoint is asked, and how the status becomes a return value
 * or an exception.
 */
module Pipeline {
  import opened Wrappers
  import opened PhpStrings
  import opened SdkConfig
  import opened Headers
  import opened Token
  import opened Transport

  const HTTP_CREATED: nat := 201
  const HTTP_ACCEPTED: nat := 202

  datatype Verb = GET | POST | PUT | DELETE

  function VerbName(verb: Verb): string {
    match verb
    case GET => "GET"
    case POST => "POST"
    case PUT => "PUT"
    case DELETE => "DELETE"
  }

  /** The `$params` argument: a PHP array or an object, each a list of named scalar fields. */
  datatype Params = ArrayParams(fields: seq<(string, string)>) | ObjectParams(fields: seq<(string, string)>)

  /** `http_build_query`, without the percent-encoding of names and values. */
  function HttpBuildQuery(fields: seq<(string, string)>): string
    decreases |fields|
  {
    if fields == [] then ""
    else if |fields| == 1 then fields[0].0 + "=" + fields[0].1
    else fields[0].0 + "=" + fields[0].1 + "&" + HttpBuildQuery(fields[1..])
  }

  /** The members of a `json_encode`d object, without escaping. */
  function JsonMembers(fields: seq<(string, string)>): string
    decreases |fields|
  {
    if fields == [] then ""
    else
      var member := "\"" + fields[0].0 + "\":\"" + fields[0].1 + "\"";
      if |fields| == 1 then member else member + "," + JsonMembers(fields[1..])
  }

  /** `json_encode` of an object with string-valued properties, without escaping. */
  function JsonEncode(fields: seq<(string, string)>): string {
    "{" + JsonMembers(fields) + "}"
  }

  /** The encoded body and whether the JSON branch was taken. */
  datatype Encoded = Encoded(body: string, json: bool)

  /** Only an object sent by POST or PUT is JSON-encoded; everything else is a form query. */
  function EncodeParams(verb: Verb, params: Params): (e: Encoded)
    ensures e.json <==> params.ObjectParams? && (verb == POST || verb == PUT)
    ensures e.json ==> e.body == JsonEncode(params.fields)
    ensures !e.json ==> e.body == HttpBuildQuery(params.fields)
  {
    if params.ObjectParams? && (verb == POST || verb == PUT) then Encoded(JsonEncode(params.fields), true)
    else Encoded(HttpBuildQuery(params.fields), false)
  }

  /**
   * What the JSON branch passes to `setHeaders`: a list, not a keyed array, so
   * its two strings land under keys 0 and 1 and are both sent as header lines.
   */
  const CONTENT_TYPE_LINES: HeaderList := [(Index(0), "ContentType"), (Index(1), "Content-Type: application/json")]

  /** The key the Authorization line is stored under. */
  const AUTH_KEY: HeaderKey := Name("OAuth2")
  /** The key the Content-Length line is stored under. */
  const LENGTH_KEY: HeaderKey := Name("ContentLength")
  const AUTH_PREFIX: string := "Authorization: "
  const LENGTH_PREFIX: string := "Content-Length: "

  /**
   * The Authorization line as the source computes it: `ucfirst` applied to the
   * lower-cased type, a space and the token; a null type or token reads as "".
   */
  function AuthorizationLine(tokenType: Option<string>, token: Option<string>): string {
    AUTH_PREFIX + UcFirst(ToLower(tokenType.GetOr("")) + " " + token.GetOr(""))
  }

  /** A token type lower-cased with its first letter capitalised ("bearer", "BEARER" give "Bearer"). */
  function Capitalized(t: string): string {
    UcFirst(ToLower(t))
  }

  /**
   * A capitalised type has the type's length and letters: its first character
   * is not a lower-case letter and no later one is an upper-case letter.
   */
  lemma CapitalizedShape(t: string)
    ensures var c := Capitalized(t);
      && |c| == |t|
      && (|c| > 0 ==> !IsLower(c[0]))
      && (forall i :: 1 <= i < |c| ==> !IsUpper(c[i]))
      && ToLower(c) == ToLower(t)
  {
    var c := Capitalized(t);
    assert forall i :: 0 <= i < |c| ==> LowerChar(c[i]) == LowerChar(t[i]);
  }

  /** The line is "Authorization: ", the capitalised type, a space and the token. */
  lemma {:induction false} AuthorizationLineShape(tokenType: Option<string>, token: Option<string>)
    ensures AuthorizationLine(tokenType, token) == AUTH_PREFIX + Capitalized(tokenType.GetOr("")) + " " + token.GetOr("")
  {
    var lower := ToLower(tokenType.GetOr(""));
    var tail := token.GetOr("");
    UcFirstSpaceJoin(lower, tail);
    var capitalized := UcFirst(lower);
    assert AUTH_PREFIX + (capitalized + " " + tail) == AUTH_PREFIX + capitalized + " " + tail;
  }

  /** The Content-Length line for a body: its length in decimal. */
  function ContentLengthLine(body: string): string {
    LENGTH_PREFIX + NatToString(|body|)
  }

  /** The Content-Length line reads back as the body's length. */
  lemma ContentLengthReadsBack(body: string)
    ensures var line := ContentLengthLine(body);
      && line[..|LENGTH_PREFIX|] == LENGTH_PREFIX
      && (forall i :: |LENGTH_PREFIX| <= i < |line| ==> '0' <= line[i] <= '9')
      && ParseDecimal(line[|LENGTH_PREFIX|..]) == |body|
  {
    assert ContentLengthLine(body)[|LENGTH_PREFIX|..] == NatToString(|body|);
    ParseNatToString(|body|);
  }

  /** The options the `switch ($type)` sets, and the Content-Length line it adds. */
  datatype Dispatched = Dispatched(
    url: string, post: bool, customRequest: Option<string>, postFields: Option<string>,
    contentLength: Option<string>)

  /**
   * GET and DELETE put the query after `?` (also when it is empty), POST and
   * PUT send it as the body and announce its length; DELETE and PUT name their
   * method, POST sets CURLOPT_POST.
   */
  function Dispatch(verb: Verb, url: string, body: string): (d: Dispatched)
    ensures verb == GET || verb == DELETE ==>
      d.url == url + "?" + body && d.postFields.None? && d.contentLength.None?
    ensures verb == POST || verb == PUT ==>
      d.url == url && d.postFields == Some(body) && d.contentLength == Some(ContentLengthLine(body))
  {
    match verb
    case GET => Dispatched(url + "?" + body, false, None, None, None)
    case POST => Dispatched(url, true, None, Some(body), Some(ContentLengthLine(body)))
    case DELETE => Dispatched(url + "?" + body, false, Some("DELETE"), None, None)
    case PUT => Dispatched(url, false, Some("PUT"), Some(body), Some(ContentLengthLine(body)))
  }

  /** The request a dispatch describes, with the given header lines. */
  function ToRequest(d: Dispatched, headers: seq<string>): Request {
    Request(d.url, d.post, d.customRequest, d.postFields, headers, None)
  }

  /** Whatever the headers, libcurl sends each verb with its own method. */
  lemma DispatchMethod(verb: Verb, url: string, body: string, headers: seq<string>)
    ensures EffectiveMethod(ToRequest(Dispatch(verb, url, body), headers)) == VerbName(verb)
  {
  }

  predicate IsSuccessStatus(status: nat) {
    status == HTTP_OK || status == HTTP_CREATED || status == HTTP_ACCEPTED
  }

  /**
   * The final `switch ($status)`: 200, 201 and 202 return the raw body; any
   * other status throws the body with the status as code, unless in silent
   * mode, which returns the body.
   */
  function MapStatus(status: nat, body: string, silent: bool): (r: Result<string, SdkError>)
    ensures r.Success? <==> IsSuccessStatus(status) || silent
    ensures r.Success? ==> r.value == body
    ensures r.Failure? ==> r.error == SdkError(body, status)
  {
    if IsSuccessStatus(status) then Success(body)
    else if !silent then Failure(SdkError(body, status))
    else Success(body)
  }

  /** The object's state that `_execRequest` reads and writes. */
  datatype ClientState = ClientState(headers: Option<HeaderList>, tokens: TokenState, silent: bool)

  /**
   * One `_execRequest`: the new state, how many token requests were sent, the
   * API request handed to cURL (none when getting a token threw), and the
   * return value or exception.
   */
  datatype ExecResult = ExecResult(state: ClientState, tokenRequests: nat, sent: Option<Request>, result: Result<string, SdkError>)

  /** The headers set after both token checks: the Authorization line, then for POST and PUT the length. */
  function RequestHeaders(h0: Option<HeaderList>, auth: string, d: Dispatched): Option<HeaderList> {
    var h1 := AfterSetHeaders(h0, Some([(AUTH_KEY, auth)]));
    match d.contentLength
    case Some(line) => AfterSetHeaders(h1, Some([(LENGTH_KEY, line)]))
    case None => h1
  }

  /**
   * `_execRequest(verb, url, params)`: encode the body (the JSON branch sets
   * the Content-Type lines); check the token cache for `getTokenTpye()`
   * (`first`) and again for `getAccessToken()` (`second`), each of which may
   * ask the token endpoint and may throw; set the Authorization line from the
   * type the first check left and the token the second left; set the per-verb
   * options; hand the request to cURL, which answers `reply`; clear the
   * headers; map the status.
   */
  function Exec(s: ClientState, verb: Verb, url: string, params: Params,
                first: TokenEnv, second: TokenEnv, reply: Reply): ExecResult
  {
    var enc := EncodeParams(verb, params);
    var h0 := EncodedHeaders(s.headers, enc);
    var a := Authorize(s.tokens, first, second);
    match a.auth
    case Failure(e) => ExecResult(ClientState(h0, a.tokens, s.silent), a.calls, None, Failure(e))
    case Success(line) =>
      var delivery := Deliver(h0, line, verb, url, enc.body, s.silent, reply);
      ExecResult(ClientState(None, a.tokens, s.silent), a.calls, Some(delivery.sent), delivery.result)
  }

  /** The token fields after the two checks, how many token requests they sent, and the line or the exception. */
  datatype Authorization = Authorization(tokens: TokenState, calls: nat, auth: Result<string, SdkError>)

  /**
   * The value of the Authorization line: `getTokenTpye()` then
   * `getAccessToken()`, each checking the cache (`first`, then `second`) and
   * possibly asking the token endpoint; the line takes the type the first
   * check left and the token the second left. Either check may throw, and a
   * throw keeps what the checks before it stored.
   */
  function Authorize(t: TokenState, first: TokenEnv, second: TokenEnv): Authorization {
    var calls1 := if Fetches(t, first) then 1 else 0;
    match Refresh(t, first)
    case Failure(e) => Authorization(t, calls1, Failure(e))
    case Success(t1) =>
      var calls := calls1 + if Fetches(t1, second) then 1 else 0;
      match Refresh(t1, second)
      case Failure(e) => Authorization(t1, calls, Failure(e))
      case Success(t2) => Authorization(t2, calls, Success(AuthorizationLine(t1.tokenType, t2.accessToken)))
  }

  /** What cURL was handed and what `_execRequest` returns. */
  datatype Delivery = Delivery(sent: Request, result: Result<string, SdkError>)

  /**
   * The tail of `_execRequest` once the Authorization line is known: the
   * request cURL receives (URL, method options, every header line) and the
   * status mapping of the reply.
   */
  function Deliver(h0: Option<HeaderList>, auth: string, verb: Verb, url: string, body: string,
                   silent: bool, reply: Reply): Delivery
  {
    var d := Dispatch(verb, url, body);
    Delivery(ToRequest(d, Values(HeadersOrEmpty(RequestHeaders(h0, auth, d)))), MapStatus(reply.status, reply.body, silent))
  }

  /** The headers after the encoding step: the JSON branch writes the Content-Type list. */
  function EncodedHeaders(h: Option<HeaderList>, enc: Encoded): Option<HeaderList> {
    if enc.json then AfterSetHeaders(h, Some(CONTENT_TYPE_LINES)) else h
  }

  /** Both token checks succeed. */
  predicate TokensObtained(t: TokenState, first: TokenEnv, second: TokenEnv) {
    Refresh(t, first).Success? && Refresh(Refresh(t, first).value, second).Success?
  }

  /** The header lines a call sends when it starts from cleared headers. */
  function FreshHeaderLines(json: bool, auth: string, d: Dispatched): seq<string> {
    (if json then ["ContentType", "Content-Type: application/json"] else [])
    + [auth]
    + (if d.contentLength.Some? then [d.contentLength.value] else [])
  }

  /**
   * A request reaches cURL exactly when both token checks succeed; then the
   * headers are cleared afterwards and the result is the status mapping.
   * Otherwise the call throws the token error and sends nothing.
   */
  lemma ExecOutcome(s: ClientState, verb: Verb, url: string, params: Params,
                    first: TokenEnv, second: TokenEnv, reply: Reply)
    ensures var x := Exec(s, verb, url, params, first, second, reply);
      && (x.sent.Some? <==> TokensObtained(s.tokens, first, second))
      && (x.sent.Some? ==> x.state.headers.None? && x.result == MapStatus(reply.status, reply.body, s.silent))
      && (Refresh(s.tokens, first).Failure? ==> x.result == Failure(Refresh(s.tokens, first).error))
      && (Refresh(s.tokens, first).Success? && Refresh(Refresh(s.tokens, first).value, second).Failure? ==>
            x.result == Failure(Refresh(Refresh(s.tokens, first).value, second).error))
  {
  }

  /** On an array without either key, the Authorization and Content-Length lines are appended in that order. */
  lemma {:induction false} RequestHeadersAppend(h0: Option<HeaderList>, auth: string, d: Dispatched)
    requires Lookup(HeadersOrEmpty(h0), AUTH_KEY).None? && Lookup(HeadersOrEmpty(h0), LENGTH_KEY).None?
    ensures Values(HeadersOrEmpty(RequestHeaders(h0, auth, d)))
         == Values(HeadersOrEmpty(h0)) + [auth] + (if d.contentLength.Some? then [d.contentLength.value] else [])
  {
    var base := HeadersOrEmpty(h0);
    var h1 := base + [(AUTH_KEY, auth)];
    PutAllSingle(base, AUTH_KEY, auth);
    assert AfterSetHeaders(h0, Some([(AUTH_KEY, auth)])) == Some(h1);
    if d.contentLength.Some? {
      var line := d.contentLength.value;
      assert Lookup(h1, LENGTH_KEY).None? by {
        LookupPut(base, AUTH_KEY, auth, LENGTH_KEY);
      }
      PutAllSingle(h1, LENGTH_KEY, line);
      assert HeadersOrEmpty(RequestHeaders(h0, auth, d)) == base + [(AUTH_KEY, auth), (LENGTH_KEY, line)];
    }
  }

  /**
   * When both checks succeed, the lines sent are those of the headers left by
   * the encoding step, with the Authorization line (first check's type, second
   * check's token) and the verb's Content-Length line written on top.
   */
  lemma ExecSentHeaders(s: ClientState, verb: Verb, url: string, params: Params,
                        first: TokenEnv, second: TokenEnv, reply: Reply)
    requires TokensObtained(s.tokens, first, second)
    ensures var enc := EncodeParams(verb, params);
      var t1 := Refresh(s.tokens, first).value;
      var t2 := Refresh(t1, second).value;
      var auth := AuthorizationLine(t1.tokenType, t2.accessToken);
      Exec(s, verb, url, params, first, second, reply).sent.value.headers
        == Values(HeadersOrEmpty(RequestHeaders(EncodedHeaders(s.headers, enc), auth, Dispatch(verb, url, enc.body))))
  {
  }

  /**
   * Starting from cleared headers, a call sends exactly: the two Content-Type
   * list entries when it JSON-encoded, the Authorization line from the first
   * check's type and the second check's token, and for POST and PUT the
   * Content-Length line.
   */
  lemma {:induction false} SentHeadersFromCleared(s: ClientState, verb: Verb, url: string, params: Params,
                                                  first: TokenEnv, second: TokenEnv, reply: Reply)
    requires s.headers.None?
    requires TokensObtained(s.tokens, first, second)
    ensures var enc := EncodeParams(verb, params);
      var t1 := Refresh(s.tokens, first).value;
      var t2 := Refresh(t1, second).value;
      Exec(s, verb, url, params, first, second, reply).sent.value.headers
        == FreshHeaderLines(enc.json, AuthorizationLine(t1.tokenType, t2.accessToken), Dispatch(verb, url, enc.body))
  {
    var enc := EncodeParams(verb, params);
    var t1 := Refresh(s.tokens, first).value;
    var t2 := Refresh(t1, second).value;
    var auth := AuthorizationLine(t1.tokenType, t2.accessToken);
    var d := Dispatch(verb, url, enc.body);
    var h0 := EncodedHeaders(s.headers, enc);
    if enc.json {
      assert PutAll([], CONTENT_TYPE_LINES) == CONTENT_TYPE_LINES by {
        assert CONTENT_TYPE_LINES[..1][..0] == [];
        assert Put([], CONTENT_TYPE_LINES[0].0, CONTENT_TYPE_LINES[0].1) == CONTENT_TYPE_LINES[..1];
      }
      assert HeadersOrEmpty(h0) == CONTENT_TYPE_LINES;
      assert Values(CONTENT_TYPE_LINES) == ["ContentType", "Content-Type: application/json"];
    }
    RequestHeadersAppend(h0, auth, d);
    ExecSentHeaders(s, verb, url, params, first, second, reply);
  }

  /**
   * A call that follows one that reached cURL starts from cleared headers, so
   * it sends only its own lines: nothing of the earlier call carries over.
   */
  lemma {:induction false} NoHeaderCarryOver(s: ClientState, verb: Verb, url: string, params: Params,
                                             first: TokenEnv, second: TokenEnv, reply: Reply,
                                             verb': Verb, url': string, params': Params,
                                             first': TokenEnv, second': TokenEnv, reply': Reply)
    requires Exec(s, verb, url, params, first, second, reply).sent.Some?
    requires TokensObtained(Exec(s, verb, url, params, first, second, reply).state.tokens, first', second')
    ensures var s' := Exec(s, verb, url, params, first, second, reply).state;
      var enc := EncodeParams(verb', params');
      var t1 := Refresh(s'.tokens, first').value;
      var t2 := Refresh(t1, second').value;
      Exec(s', verb', url', params', first', second', reply').sent.value.headers
        == FreshHeaderLines(enc.json, AuthorizationLine(t1.tokenType, t2.accessToken), Dispatch(verb', url', enc.body))
  {
    ExecOutcome(s, verb, url, params, first, second, reply);
    var s' := Exec(s, verb, url, params, first, second, reply).state;
    SentHeadersFromCleared(s', verb', url', params', first', second', reply');
  }

  /**
   * When getting a token throws, the header reset is never reached: a JSON call
   * on cleared headers leaves its two Content-Type entries in the object
   * (`LeftoverContentTypeSent` shows the next call sends them).
   */
  lemma {:induction false} TokenFailureKeepsContentType(s: ClientState, verb: Verb, url: string, params: Params,
                                                        first: TokenEnv, second: TokenEnv, reply: Reply)
    requires s.headers.None?
    requires EncodeParams(verb, params).json
    requires !TokensObtained(s.tokens, first, second)
    ensures Exec(s, verb, url, params, first, second, reply).state.headers == Some(CONTENT_TYPE_LINES)
  {
    assert PutAll([], CONTENT_TYPE_LINES) == CONTENT_TYPE_LINES by {
      assert CONTENT_TYPE_LINES[..1][..0] == [];
      assert Put([], CONTENT_TYPE_LINES[0].0, CONTENT_TYPE_LINES[0].1) == CONTENT_TYPE_LINES[..1];
    }
  }

  /**
   * Content-Type entries left in the object by a call whose token check threw
   * are sent by the next call that gets its tokens, whatever its verb and body.
   */
  lemma {:induction false} LeftoverContentTypeSent(s: ClientState, verb: Verb, url: string, params: Params,
                                                   first: TokenEnv, second: TokenEnv, reply: Reply)
    requires s.headers == Some(CONTENT_TYPE_LINES)
    requires TokensObtained(s.tokens, first, second)
    ensures var sent := Exec(s, verb, url, params, first, second, reply).sent.value.headers;
      "ContentType" in sent && "Content-Type: application/json" in sent
  {
    var enc := EncodeParams(verb, params);
    var t1 := Refresh(s.tokens, first).value;
    var t2 := Refresh(t1, second).value;
    var auth := AuthorizationLine(t1.tokenType, t2.accessToken);
    var d := Dispatch(verb, url, enc.body);
    var h0 := EncodedHeaders(s.headers, enc);
    var base := HeadersOrEmpty(h0);
    forall k | k == Index(0) || k == Index(1)
      ensures Lookup(base, k) == Lookup(CONTENT_TYPE_LINES, k)
    {
      if enc.json {
        LookupPutAll(CONTENT_TYPE_LINES, CONTENT_TYPE_LINES, k);
        assert CONTENT_TYPE_LINES[..1][..0] == [];
      }
    }
    var h1 := PutAll(base, [(AUTH_KEY, auth)]);
    PutAllSingle(base, AUTH_KEY, auth);
    var h := HeadersOrEmpty(RequestHeaders(h0, auth, d));
    forall k | k == Index(0) || k == Index(1)
      ensures Lookup(h, k) == Lookup(CONTENT_TYPE_LINES, k)
    {
      LookupPut(base, AUTH_KEY, auth, k);
      if d.contentLength.Some? {
        PutAllSingle(h1, LENGTH_KEY, d.contentLength.value);
        LookupPut(h1, LENGTH_KEY, d.contentLength.value, k);
      }
    }
    LookupInValues(h, Index(0));
    LookupInValues(h, Index(1));
    ExecSentHeaders(s, verb, url, params, first, second, reply);
  }

  /**
   * Silent mode changes only what a call that reached cURL does with a status
   * other than 200, 201 and 202: it returns the body instead of throwing it.
   * Token errors are thrown either way, and the state, the token requests and
   * the request sent do not depend on the mode.
   */
  lemma SilentModeOnlyAffectsApiErrors(s: ClientState, verb: Verb, url: string, params: Params,
                                       first: TokenEnv, second: TokenEnv, reply: Reply)
    ensures var loud := Exec(s.(silent := false), verb, url, params, first, second, reply);
      var quiet := Exec(s.(silent := true), verb, url, params, first, second, reply);
      && loud.state.(silent := true) == quiet.state
      && loud.tokenRequests == quiet.tokenRequests
      && loud.sent == quiet.sent
      && (loud.result != quiet.result <==> loud.sent.Some? && !IsSuccessStatus(reply.status))
      && (loud.sent.None? ==> quiet.result.Failure?)
  {
  }

  /**
   * A cache valid at both checks is used as it is: no token request, and the
   * Authorization line carries the cached type and token.
   */
  lemma {:induction false} CachedTokenNoRequest(s: ClientState, verb: Verb, url: string, params: Params,
                                                first: TokenEnv, second: TokenEnv, reply: Reply)
    requires TokenValid(s.tokens.slot, first.now) && TokenValid(s.tokens.slot, second.now)
    ensures var x := Exec(s, verb, url, params, first, second, reply);
      && x.tokenRequests == 0
      && x.sent.Some?
      && x.state.tokens == TokenState(s.tokens.slot.access_token, s.tokens.slot.token_type, s.tokens.slot)
      && AuthorizationLine(s.tokens.slot.token_type, s.tokens.slot.access_token) in x.sent.value.headers
  {
    AuthorizationUsesCurrentToken(s, verb, url, params, first, second, reply);
  }

  /**
   * An expired (or missing) cache is replaced by one token request when the
   * new token is non-empty and still valid at the second check; the
   * Authorization line then carries the granted type and token.
   */
  lemma {:induction false} ExpiredTokenOneRequest(s: ClientState, verb: Verb, url: string, params: Params,
                                                  first: TokenEnv, second: TokenEnv, reply: Reply)
    requires !TokenValid(s.tokens.slot, first.now)
    requires first.reply.status == HTTP_OK && first.reply.body.JsonObject?
    requires first.reply.body.access_token.Some? && |first.reply.body.access_token.value| > 0
    requires second.now < first.startTime + first.reply.body.expires_in.GetOr(0)
    ensures var x := Exec(s, verb, url, params, first, second, reply);
      && x.tokenRequests == 1
      && x.sent.Some?
      && x.state.tokens.accessToken == first.reply.body.access_token
      && x.state.tokens.tokenType == first.reply.body.token_type
      && AuthorizationLine(first.reply.body.token_type, first.reply.body.access_token) in x.sent.value.headers
  {
    FetchedTokenLifetime(s.tokens, first, second.now);
    AuthorizationUsesCurrentToken(s, verb, url, params, first, second, reply);
  }

  /**
   * A token granted with a non-positive `expires_in` is already stale at the
   * second check, so one call asks the token endpoint twice.
   */
  lemma {:induction false} StaleGrantTwoRequests(s: ClientState, verb: Verb, url: string, params: Params,
                                                 first: TokenEnv, second: TokenEnv, reply: Reply)
    requires !TokenValid(s.tokens.slot, first.now)
    requires first.reply.status == HTTP_OK && first.reply.body.JsonObject?
    requires first.reply.body.expires_in.GetOr(0) <= 0
    requires first.startTime <= second.now
    ensures Exec(s, verb, url, params, first, second, reply).tokenRequests == 2
  {
    NonPositiveLifetimeRefetches(s.tokens, first, second);
  }

  /**
   * Whatever headers are left over, the request sent carries the Authorization
   * line built from the token the object holds afterwards, under the one key
   * OAuth2.
   */
  lemma {:induction false} AuthorizationUsesCurrentToken(s: ClientState, verb: Verb, url: string, params: Params,
                                                         first: TokenEnv, second: TokenEnv, reply: Reply)
    requires TokensObtained(s.tokens, first, second)
    ensures var x := Exec(s, verb, url, params, first, second, reply);
      var t1 := Refresh(s.tokens, first).value;
      AuthorizationLine(t1.tokenType, x.state.tokens.accessToken) in x.sent.value.headers
  {
    var enc := EncodeParams(verb, params);
    var t1 := Refresh(s.tokens, first).value;
    var t2 := Refresh(t1, second).value;
    var auth := AuthorizationLine(t1.tokenType, t2.accessToken);
    var d := Dispatch(verb, url, enc.body);
    var h0 := EncodedHeaders(s.headers, enc);
    var h := HeadersOrEmpty(RequestHeaders(h0, auth, d));
    var h1 := PutAll(HeadersOrEmpty(h0), [(AUTH_KEY, auth)]);
    PutAllSingle(HeadersOrEmpty(h0), AUTH_KEY, auth);
    LookupPut(HeadersOrEmpty(h0), AUTH_KEY, auth, AUTH_KEY);
    if d.contentLength.Some? {
      var line := d.contentLength.value;
      PutAllSingle(h1, LENGTH_KEY, line);
      LookupPut(h1, LENGTH_KEY, line, AUTH_KEY);
    }
    assert Lookup(h, AUTH_KEY) == Some(auth);
    LookupInValues(h, AUTH_KEY);
  }
}
