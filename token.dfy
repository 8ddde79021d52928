/**
 * The token cache: the session slot that outlives the object, when it is
 * trusted (`_initFromSession`), and how a reply of the OAuth2 token endpoint
 * (`_getOAuth2AccessToken`, the client-credentials grant of section 4.4 of
 * RFC 6749) turns into a new token or an exception.
 */
module Token {
  import opened Wrappers
  import opened PhpStrings
  import opened SdkConfig
  import opened Transport

  const HTTP_OK: nat := 200
  const HTTP_UNAUTHORIZED: nat := 400
  /** The message of a token-endpoint status other than 200 and 400, before the status. */
  const GENERIC_OAUTH2_ERROR: string := "http error in OAuth2 "

  /** `$_SESSION['adasdk']`: its three entries, each possibly unset or null. */
  datatype SessionData = SessionData(
    access_token: Option<string>,
    token_type: Option<string>,
    token_expire_time: Option<int>)

  const EmptySession: SessionData := SessionData(None, None, None)

  /**
   * A token-endpoint body after `json_decode`: an object whose fields may be
   * missing, or anything else, kept as the text PHP makes of it.
   */
  datatype Decoded =
    | JsonObject(access_token: Option<string>, token_type: Option<string>,
                 expires_in: Option<int>, error_description: Option<string>)
    | NotObject(text: string)

  datatype TokenReply = TokenReply(status: nat, body: Decoded)

  /**
   * What one run of `_initFromSession` depends on besides the state: the clock
   * when the cache is checked, the clock just before the token request, and the
   * reply the token endpoint gives if it is asked.
   */
  datatype TokenEnv = TokenEnv(now: int, startTime: int, reply: TokenReply)

  /** A token the endpoint granted, with the instant it expires. */
  datatype Grant = Grant(accessToken: Option<string>, tokenType: Option<string>, expireTime: int)

  /** The object's token fields together with the session slot. */
  datatype TokenState = TokenState(accessToken: Option<string>, tokenType: Option<string>, slot: SessionData)

  /** The cached token may be used: expiry and token set, token non-empty, not yet expired. */
  predicate TokenValid(slot: SessionData, now: int) {
    && slot.token_expire_time.Some?
    && slot.access_token.Some?
    && |slot.access_token.value| > 0
    && now < slot.token_expire_time.value
  }

  /** `_initFromSession` asks the token endpoint exactly when the cache is not valid. */
  predicate Fetches(t: TokenState, env: TokenEnv) {
    !TokenValid(t.slot, env.now)
  }

  /** The object's fields hold what the session holds. */
  predicate Synced(t: TokenState) {
    t.accessToken == t.slot.access_token && t.tokenType == t.slot.token_type
  }

  /** The request `_getOAuth2AccessToken` sends: a Basic-authenticated POST of the grant type. */
  function TokenRequest(s: Settings): Request {
    Request(s.domains.oauth2 + "/token", true, None, Some("grant_type=client_credentials"),
            [], Some(s.clientID + ":" + s.clientSecret))
  }

  /**
   * `_getOAuth2AccessToken` after the request: a 200 object gives a token that
   * expires `expires_in` seconds (a missing value counts as 0, as PHP's null
   * arithmetic does) after the instant taken before the request (section 5.1
   * of RFC 6749); a 200 non-object throws OAUTH2_ERROR; a 400 throws its
   * `error_description` (section 5.2 of RFC 6749); any other status throws a
   * generic message. The code of these last two is the status.
   */
  function FetchToken(reply: TokenReply, startTime: int): (r: Result<Grant, SdkError>)
    ensures r.Success? <==> reply.status == HTTP_OK && reply.body.JsonObject?
    ensures r.Success? ==>
      && r.value.accessToken == reply.body.access_token
      && r.value.tokenType == reply.body.token_type
      && r.value.expireTime == startTime + reply.body.expires_in.GetOr(0)
    ensures r.Failure? ==> r.error.code == if reply.status == HTTP_OK then OAUTH2_ERROR else reply.status
    ensures reply.status == HTTP_UNAUTHORIZED && reply.body.JsonObject? ==>
      r.error.message == reply.body.error_description.GetOr("")
    ensures reply.status == HTTP_UNAUTHORIZED && reply.body.NotObject? ==>
      r.error.message == "Unknown OAuth2 error " + reply.body.text
    ensures reply.status != HTTP_OK && reply.status != HTTP_UNAUTHORIZED ==>
      r.error.message == GENERIC_OAUTH2_ERROR + NatToString(reply.status)
  {
    if reply.status == HTTP_OK then
      match reply.body
      case JsonObject(token, tokenType, expiresIn, _) =>
        Success(Grant(token, tokenType, startTime + expiresIn.GetOr(0)))
      case NotObject(_) =>
        Failure(SdkError("token endpoint did not returned an object", OAUTH2_ERROR))
    else if reply.status == HTTP_UNAUTHORIZED then
      match reply.body
      case JsonObject(_, _, _, description) => Failure(SdkError(description.GetOr(""), reply.status))
      case NotObject(text) => Failure(SdkError("Unknown OAuth2 error " + text, reply.status))
    else
      Failure(SdkError(GENERIC_OAUTH2_ERROR + NatToString(reply.status), reply.status))
  }

  /**
   * `_initFromSession`: a valid cached token is copied into the object (and
   * written back unchanged); otherwise a new one is fetched and the expiry,
   * the type and the token are written to both. A failed fetch changes nothing.
   */
  function Refresh(t: TokenState, env: TokenEnv): (r: Result<TokenState, SdkError>)
    ensures !Fetches(t, env) ==> r == Success(TokenState(t.slot.access_token, t.slot.token_type, t.slot))
    ensures Fetches(t, env) ==> (r.Success? <==> FetchToken(env.reply, env.startTime).Success?)
    ensures r.Failure? ==> r.error == FetchToken(env.reply, env.startTime).error
    ensures Fetches(t, env) && r.Success? ==>
      var g := FetchToken(env.reply, env.startTime).value;
      r.value == TokenState(g.accessToken, g.tokenType, SessionData(g.accessToken, g.tokenType, Some(g.expireTime)))
  {
    if TokenValid(t.slot, env.now) then
      Success(TokenState(t.slot.access_token, t.slot.token_type, t.slot))
    else
      match FetchToken(env.reply, env.startTime)
      case Failure(e) => Failure(e)
      case Success(g) =>
        Success(TokenState(g.accessToken, g.tokenType, SessionData(g.accessToken, g.tokenType, Some(g.expireTime))))
  }

  /** After a successful check the object and the session agree. */
  lemma RefreshSyncs(t: TokenState, env: TokenEnv)
    requires Refresh(t, env).Success?
    ensures Synced(Refresh(t, env).value)
  {
  }

  /**
   * A fetched token is stored with expiry `startTime + expires_in`, and is
   * trusted at a later instant exactly when it is non-empty and that instant
   * comes before the expiry.
   */
  lemma {:induction false} FetchedTokenLifetime(t: TokenState, env: TokenEnv, later: int)
    requires Fetches(t, env) && Refresh(t, env).Success?
    ensures Refresh(t, env).value.slot.token_expire_time == Some(env.startTime + env.reply.body.expires_in.GetOr(0))
    ensures Refresh(t, env).value.accessToken == env.reply.body.access_token
    ensures TokenValid(Refresh(t, env).value.slot, later) <==>
      && env.reply.body.access_token.Some?
      && |env.reply.body.access_token.value| > 0
      && later < env.startTime + env.reply.body.expires_in.GetOr(0)
  {
    var g := FetchToken(env.reply, env.startTime).value;
    assert Refresh(t, env).value.slot == SessionData(g.accessToken, g.tokenType, Some(g.expireTime));
  }

  /** Checking a synced, still valid cache again changes nothing and asks no one. */
  lemma RefreshIdempotent(t: TokenState, env: TokenEnv)
    requires Synced(t) && TokenValid(t.slot, env.now)
    ensures !Fetches(t, env) && Refresh(t, env) == Success(t)
  {
  }

  /**
   * A token granted with a non-positive `expires_in` is already expired at the
   * next check (the clock does not go back), so that check fetches again.
   */
  lemma {:induction false} NonPositiveLifetimeRefetches(t: TokenState, env: TokenEnv, next: TokenEnv)
    requires Fetches(t, env) && Refresh(t, env).Success?
    requires env.reply.body.expires_in.GetOr(0) <= 0
    requires env.startTime <= next.now
    ensures Fetches(Refresh(t, env).value, next)
  {
    FetchedTokenLifetime(t, env, next.now);
  }

  /** The generic token-endpoint message names the status: reading its tail gives the code back. */
  lemma {:induction false} GenericErrorNamesStatus(reply: TokenReply, startTime: int)
    requires reply.status != HTTP_OK && reply.status != HTTP_UNAUTHORIZED
    ensures var e := FetchToken(reply, startTime).error;
      && |e.message| > |GENERIC_OAUTH2_ERROR|
      && e.message[..|GENERIC_OAUTH2_ERROR|] == GENERIC_OAUTH2_ERROR
      && (forall i :: |GENERIC_OAUTH2_ERROR| <= i < |e.message| ==> '0' <= e.message[i] <= '9')
      && ParseDecimal(e.message[|GENERIC_OAUTH2_ERROR|..]) == e.code
  {
    var e := FetchToken(reply, startTime).error;
    assert e.message[|GENERIC_OAUTH2_ERROR|..] == NatToString(reply.status);
    ParseNatToString(reply.status);
  }
}
