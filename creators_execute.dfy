/**
 * One input record of the Creators API node, end to end: a token from the
 * cache (or the token endpoint), then the request assembly and its
 * validation, then the retried POST, then the normalizer.
 */
module CreatorsExecute {
  import opened Wrappers
  import opened JsValue
  import opened TokenCache
  import opened RetryExecutor
  import opened CreatorsRequest
  import opened CreatorsNormalizer

  datatype Credentials = Credentials(id: string, secret: string, version: string, authEndpoint: Option<string>)

  /** Why a record produced no envelope, in the order the stages run. */
  datatype ItemFailure =
    | Auth(auth: AuthError)
    | Invalid(invalid: BuildError)
    | Request(thrown: Thrown)
    | Malformed(malformed: JsError)

  function PolicyOf(req: ApiRequest): Policy {
    Policy(req.maxRetries, req.retryDelayMs)
  }

  function Normalized(r: Result<Envelope, JsError>): Result<Envelope, ItemFailure> {
    match r
    case Success(e) => Success(e)
    case Failure(e) => Failure(Malformed(e))
  }

  /**
   * The outcome of one record. The token is obtained before the input is
   * validated, so a token failure wins over an invalid input, and a valid
   * token is fetched (and cached) even for an input that is then rejected.
   */
  method ExecuteItem(store: TokenStore, creds: Credentials, input: NodeInput, now: int, fetch: TokenFetch,
                     receivedAt: int, script: Script)
    returns (out: Result<Envelope, ItemFailure>, sent: Option<ApiRequest>, delays: seq<real>)
    requires store.Valid()
    modifies store
    ensures store.Valid()
    ensures store.entries == CacheAfter(old(store.entries), creds.id, creds.version, creds.authEndpoint, now, fetch, receivedAt)
    ensures var tok := TokenResult(old(store.entries), creds.id, creds.version, creds.authEndpoint, now, fetch);
            var req := RequestFor(input);
            if tok.Failure? then
              out == Failure(Auth(tok.error)) && sent.None? && delays == []
            else if req.Failure? then
              out == Failure(Invalid(req.error)) && sent.None? && delays == []
            else
              var run := RunFrom(0, PolicyOf(req.value), script);
              && sent == Some(req.value)
              && delays == run.delays
              && (run.result.Failure? ==> out == Failure(Request(run.result.error)))
              && (run.result.Success? ==> out == Normalized(ProcessApiResponse(run.result.value, input.operation)))
  {
    var token, tokenRequest := store.GetAccessToken(creds.id, creds.secret, creds.version, creds.authEndpoint,
                                                    now, fetch, receivedAt);
    if token.Failure? {
      return Failure(Auth(token.error)), None, [];
    }
    var req := AssembleRequest(input);
    if req.Failure? {
      return Failure(Invalid(req.error)), None, [];
    }
    sent := Some(req.value);
    var result;
    result, delays := PostWithRetry(PolicyOf(req.value), script);
    if result.Failure? {
      return Failure(Request(result.error)), sent, delays;
    }
    out := Normalized(ProcessApiResponse(result.value, input.operation));
  }

  /**
   * An input the request assembly rejects still costs a token: a usable
   * answer from the token endpoint is cached before validation fails.
   */
  method RejectedInputStillCachesToken(creds: Credentials, input: NodeInput, now: int, fetch: TokenFetch,
                                       receivedAt: int, script: Script)
    returns (out: Result<Envelope, ItemFailure>, cache: map<string, CachedToken>)
    requires TokenUrl(creds.authEndpoint, creds.version).Some? && Usable(fetch)
    requires RequestFor(input).Failure?
    ensures out == Failure(Invalid(RequestFor(input).error))
    ensures cache == map[CacheKey(creds.id, creds.version, creds.authEndpoint) :=
                         CachedToken(fetch.accessToken.value, Expiry(receivedAt, fetch.expiresIn.value))]
  {
    var store := new TokenStore();
    var sent, delays;
    out, sent, delays := ExecuteItem(store, creds, input, now, fetch, receivedAt, script);
    cache := store.entries;
  }

  /**
   * With an unsupported credential version the record fails on the token,
   * whatever the operation: validation is never reached.
   */
  method TokenFailsBeforeValidation(creds: Credentials, input: NodeInput, now: int, fetch: TokenFetch,
                                    receivedAt: int, script: Script)
    returns (out: Result<Envelope, ItemFailure>)
    requires creds.authEndpoint.None? && creds.version !in TokenEndpoints
    ensures out == Failure(Auth(UnsupportedVersion(creds.version)))
  {
    var store := new TokenStore();
    var sent, delays;
    out, sent, delays := ExecuteItem(store, creds, input, now, fetch, receivedAt, script);
  }
}
