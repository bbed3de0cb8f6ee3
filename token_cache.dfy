/**
 * OAuth2 client-credentials tokens for the Creators API (`getAccessToken`),
 * kept in a process-wide cache keyed by credential, version and endpoint.
 *
 * The clock is read twice by the source: `now` when the cache is consulted
 * and `receivedAt` when a fresh token's expiry is computed. The token POST is
 * an input too: `fetch` is what the endpoint answered, if anything, and the
 * method returns the request it would have sent.
 */
module TokenCache {
  import opened Wrappers
  import opened JsString

  /** A cached token and the instant (ms) from which it is no longer served. */
  datatype CachedToken = CachedToken(token: string, expiresAt: real)

  /**
   * How the token POST ended: the message of the error axios threw, or the two
   * fields of the token response the adapter reads, at their declared types.
   */
  datatype TokenFetch =
    | PostFailed(message: string)
    | Received(accessToken: Option<string>, expiresIn: Option<real>)

  /** The form-encoded POST sent to the token endpoint. */
  datatype TokenRequest = TokenRequest(url: string, form: seq<(string, string)>)

  datatype AuthError =
    | UnsupportedVersion(version: string)
    | NoAccessToken
    | TransportFailed(message: string)
  {
    /** The thrown error's message; a transport error is rethrown as axios raised it. */
    function Message(): (r: string)
      ensures UnsupportedVersion? ==> |r| > |version| && r[|r| - |version|..] == version
      ensures TransportFailed? ==> r == message
    {
      match this
      case UnsupportedVersion(v) => "Unsupported credential version: " + v
      case NoAccessToken => "No access token received from OAuth2 endpoint"
      case TransportFailed(m) => m
    }
  }

  /** The regional Cognito token endpoint of each credential version. */
  const TokenEndpoints: map<string, string> := map[
    "2.1" := "https://creatorsapi.auth.us-east-1.amazoncognito.com/oauth2/token",
    "2.2" := "https://creatorsapi.auth.eu-south-2.amazoncognito.com/oauth2/token",
    "2.3" := "https://creatorsapi.auth.us-west-2.amazoncognito.com/oauth2/token"
  ]

  /** The endpoint part of the cache key: the override as given, or "default" when absent or empty. */
  function EndpointTag(authEndpoint: Option<string>): (r: string)
    ensures r != ""
    ensures authEndpoint.Some? && authEndpoint.value != "" ==> r == authEndpoint.value
  {
    if authEndpoint.Some? && authEndpoint.value != "" then authEndpoint.value else "default"
  }

  /** `<credentialId>:<version>:<endpoint or default>`. */
  function CacheKey(id: string, version: string, authEndpoint: Option<string>): (r: string)
    ensures |r| == |id| + 1 + |version| + 1 + |EndpointTag(authEndpoint)|
    ensures r[|id|] == ':' && r[|id| + 1 + |version|] == ':'
  {
    id + ":" + version + ":" + EndpointTag(authEndpoint)
  }

  /**
   * The token URL: a non-blank override, trimmed, wins over the version
   * table; nothing when neither gives one.
   */
  function TokenUrl(authEndpoint: Option<string>, version: string): (r: Option<string>)
    ensures r.None? <==> (authEndpoint.None? || Trim(authEndpoint.value) == "") && version !in TokenEndpoints
    ensures r.Some? ==> r.value != ""
    ensures authEndpoint.Some? && Trim(authEndpoint.value) != "" ==> r == Some(Trim(authEndpoint.value))
    ensures (authEndpoint.None? || Trim(authEndpoint.value) == "") && version in TokenEndpoints ==>
              r == Some(TokenEndpoints[version])
  {
    if authEndpoint.Some? && Trim(authEndpoint.value) != "" then Some(Trim(authEndpoint.value))
    else if version in TokenEndpoints then Some(TokenEndpoints[version])
    else None
  }

  /** The client-credentials grant for the `creatorsapi/default` scope. */
  function TokenForm(id: string, secret: string): seq<(string, string)> {
    [("grant_type", "client_credentials"), ("client_id", id), ("client_secret", secret),
     ("scope", "creatorsapi/default")]
  }

  /** A token stops being served 30 s before the provider says it expires, and never before it was received. */
  function Expiry(receivedAt: int, expiresIn: real): (r: real)
    ensures r >= receivedAt as real
    ensures expiresIn > 30.0 ==> r == receivedAt as real + (expiresIn - 30.0) * 1000.0
    ensures expiresIn <= 30.0 ==> r == receivedAt as real
  {
    receivedAt as real + (if expiresIn - 30.0 > 0.0 then expiresIn - 30.0 else 0.0) * 1000.0
  }

  /** The cached token under `key` if it has not expired at `now`. */
  function Lookup(entries: map<string, CachedToken>, key: string, now: int): (r: Option<string>)
    ensures r.Some? <==> key in entries && (now as real) < entries[key].expiresAt
    ensures r.Some? ==> r.value == entries[key].token
  {
    if key in entries && (now as real) < entries[key].expiresAt then Some(entries[key].token) else None
  }

  /** A usable token response: a non-empty token and a non-zero lifetime. */
  predicate Usable(fetch: TokenFetch) {
    && fetch.Received?
    && fetch.accessToken.Some? && fetch.accessToken.value != ""
    && fetch.expiresIn.Some? && fetch.expiresIn.value != 0.0
  }

  /**
   * What `getAccessToken` returns or throws: the cached token while it is
   * fresh, else an unsupported version, else the outcome of the token POST.
   */
  function TokenResult(entries: map<string, CachedToken>, id: string, version: string, authEndpoint: Option<string>,
                       now: int, fetch: TokenFetch): (r: Result<string, AuthError>)
    ensures r.Success? <==> Lookup(entries, CacheKey(id, version, authEndpoint), now).Some?
                            || (TokenUrl(authEndpoint, version).Some? && Usable(fetch))
    ensures Lookup(entries, CacheKey(id, version, authEndpoint), now).None? && TokenUrl(authEndpoint, version).None? ==>
              r == Failure(UnsupportedVersion(version))
  {
    var cached := Lookup(entries, CacheKey(id, version, authEndpoint), now);
    if cached.Some? then Success(cached.value)
    else if TokenUrl(authEndpoint, version).None? then Failure(UnsupportedVersion(version))
    else if fetch.PostFailed? then Failure(TransportFailed(fetch.message))
    else if !Usable(fetch) then Failure(NoAccessToken)
    else Success(fetch.accessToken.value)
  }

  /**
   * The cache after `getAccessToken`: a usable answer fetched for a missing or
   * expired entry is stored under the key with its expiry; every other entry,
   * and every other outcome, leaves the cache as it was.
   */
  function CacheAfter(entries: map<string, CachedToken>, id: string, version: string, authEndpoint: Option<string>,
                      now: int, fetch: TokenFetch, receivedAt: int): (r: map<string, CachedToken>)
    ensures forall k :: k != CacheKey(id, version, authEndpoint) ==> (k in r <==> k in entries)
    ensures forall k :: k != CacheKey(id, version, authEndpoint) && k in r ==> r[k] == entries[k]
    ensures Lookup(entries, CacheKey(id, version, authEndpoint), now).None? && TokenUrl(authEndpoint, version).Some? && Usable(fetch) ==>
              && CacheKey(id, version, authEndpoint) in r
              && r[CacheKey(id, version, authEndpoint)] == CachedToken(fetch.accessToken.value, Expiry(receivedAt, fetch.expiresIn.value))
              && TokenResult(entries, id, version, authEndpoint, now, fetch) == Success(fetch.accessToken.value)
    ensures !(Lookup(entries, CacheKey(id, version, authEndpoint), now).None? && TokenUrl(authEndpoint, version).Some? && Usable(fetch)) ==>
              r == entries
  {
    var key := CacheKey(id, version, authEndpoint);
    if Lookup(entries, key, now).None? && TokenUrl(authEndpoint, version).Some? && Usable(fetch) then
      entries[key := CachedToken(fetch.accessToken.value, Expiry(receivedAt, fetch.expiresIn.value))]
    else entries
  }

  /**
   * An answer without a token or without a lifetime is refused: the call
   * fails with "No access token received" and nothing is cached.
   */
  lemma UnusableAnswerFails(entries: map<string, CachedToken>, id: string, version: string, authEndpoint: Option<string>,
                            now: int, fetch: TokenFetch, receivedAt: int)
    requires Lookup(entries, CacheKey(id, version, authEndpoint), now).None?
    requires TokenUrl(authEndpoint, version).Some?
    requires fetch.Received?
    requires fetch.accessToken.None? || fetch.accessToken.value == "" || fetch.expiresIn.None? || fetch.expiresIn.value == 0.0
    ensures TokenResult(entries, id, version, authEndpoint, now, fetch) == Failure(NoAccessToken)
    ensures CacheAfter(entries, id, version, authEndpoint, now, fetch, receivedAt) == entries
  {
  }

  /** The process-wide token cache. */
  class TokenStore {
    var entries: map<string, CachedToken>

    /** Only usable tokens are ever cached. */
    predicate Valid()
      reads this
    {
      forall k :: k in entries ==> entries[k].token != ""
    }

    constructor()
      ensures entries == map[]
      ensures Valid()
    {
      entries := map[];
    }

    /**
     * A cached, unexpired token is returned without a request. Otherwise the
     * grant is posted to the token URL (an unsupported version fails before
     * any request) and a usable answer is cached under the key, with its
     * expiry, and returned; any other outcome leaves the cache as it was.
     */
    method GetAccessToken(id: string, secret: string, version: string, authEndpoint: Option<string>,
                          now: int, fetch: TokenFetch, receivedAt: int)
      returns (r: Result<string, AuthError>, request: Option<TokenRequest>)
      requires Valid()
      modifies this
      ensures Valid()
      ensures r == TokenResult(old(entries), id, version, authEndpoint, now, fetch)
      ensures entries == CacheAfter(old(entries), id, version, authEndpoint, now, fetch, receivedAt)
      ensures var key := CacheKey(id, version, authEndpoint);
              var cached := Lookup(old(entries), key, now);
              var url := TokenUrl(authEndpoint, version);
              if cached.Some? then
                r == Success(cached.value) && request.None? && entries == old(entries)
              else if url.None? then
                r == Failure(UnsupportedVersion(version)) && request.None? && entries == old(entries)
              else
                && request == Some(TokenRequest(url.value, TokenForm(id, secret)))
                && (if fetch.PostFailed? then r == Failure(TransportFailed(fetch.message)) && entries == old(entries)
                    else if !Usable(fetch) then r == Failure(NoAccessToken) && entries == old(entries)
                    else
                      && r == Success(fetch.accessToken.value)
                      && entries == old(entries)[key := CachedToken(fetch.accessToken.value,
                                                                     Expiry(receivedAt, fetch.expiresIn.value))])
    {
      var key := CacheKey(id, version, authEndpoint);
      var cached := Lookup(entries, key, now);
      if cached.Some? {
        return Success(cached.value), None;
      }
      var url := TokenUrl(authEndpoint, version);
      if url.None? {
        return Failure(UnsupportedVersion(version)), None;
      }
      request := Some(TokenRequest(url.value, TokenForm(id, secret)));
      if fetch.PostFailed? {
        return Failure(TransportFailed(fetch.message)), request;
      }
      if !Usable(fetch) {
        return Failure(NoAccessToken), request;
      }
      entries := entries[key := CachedToken(fetch.accessToken.value, Expiry(receivedAt, fetch.expiresIn.value))];
      r := Success(fetch.accessToken.value);
    }
  }

  // ------------------------------------------------------------ properties

  /**
   * Two credentials share a cache entry only when they agree on id, version
   * and endpoint tag, as long as neither id nor version contains ':'.
   */
  lemma CacheKeyInjective(id1: string, v1: string, e1: Option<string>, id2: string, v2: string, e2: Option<string>)
    requires ':' !in id1 && ':' !in v1 && ':' !in id2 && ':' !in v2
    requires CacheKey(id1, v1, e1) == CacheKey(id2, v2, e2)
    ensures id1 == id2 && v1 == v2 && EndpointTag(e1) == EndpointTag(e2)
  {
    var t1, t2 := EndpointTag(e1), EndpointTag(e2);
    assert CacheKey(id1, v1, e1) == id1 + ":" + (v1 + ":" + t1);
    assert CacheKey(id2, v2, e2) == id2 + ":" + (v2 + ":" + t2);
    SplitAtFirstColon(id1, v1 + ":" + t1, id2, v2 + ":" + t2);
    SplitAtFirstColon(v1, t1, v2, t2);
  }

  /** `a + ":" + b` determines `a` and `b` when `a` holds no ':'. */
  lemma SplitAtFirstColon(a: string, b: string, c: string, d: string)
    requires ':' !in a && ':' !in c
    requires a + ":" + b == c + ":" + d
    ensures a == c && b == d
  {
    var k := a + ":" + b;
    ColonAt(a, b);
    ColonAt(c, d);
    assert a == k[..|a|] == c;
    assert b == k[|a| + 1..] == d;
  }

  /** The index of the first ':' in `s`, or `|s|` when there is none. */
  function ColonIndex(s: string): (r: nat)
    ensures r <= |s|
  {
    if s == [] || s[0] == ':' then 0 else 1 + ColonIndex(s[1..])
  }

  lemma {:induction false} ColonAt(a: string, b: string)
    requires ':' !in a
    ensures ColonIndex(a + ":" + b) == |a|
  {
    if a != [] {
      assert (a + ":" + b)[1..] == a[1..] + ":" + b;
      ColonAt(a[1..], b);
    }
  }

  /**
   * A second lookup before the expiry reuses the token obtained by the first,
   * without a request, whatever the endpoint would answer by then.
   */
  method SecondCallReusesToken(id: string, secret: string, version: string, authEndpoint: Option<string>,
                               t0: int, fetch: TokenFetch, receivedAt: int, t1: int, later: TokenFetch)
    returns (first: Result<string, AuthError>, second: Result<string, AuthError>, request: Option<TokenRequest>)
    requires Usable(fetch) && TokenUrl(authEndpoint, version).Some?
    requires (t1 as real) < Expiry(receivedAt, fetch.expiresIn.value)
    ensures first.Success? && second == first && request.None?
  {
    var store := new TokenStore();
    var req0;
    first, req0 := store.GetAccessToken(id, secret, version, authEndpoint, t0, fetch, receivedAt);
    second, request := store.GetAccessToken(id, secret, version, authEndpoint, t1, later, t1);
  }

  /** Once the cached token has expired the next call goes back to the endpoint. */
  method RefreshAfterExpiry(id: string, secret: string, version: string, authEndpoint: Option<string>,
                            t0: int, fetch: TokenFetch, receivedAt: int, t1: int, refreshed: TokenFetch)
    returns (second: Result<string, AuthError>, request: Option<TokenRequest>)
    requires Usable(fetch) && Usable(refreshed) && TokenUrl(authEndpoint, version).Some?
    requires (t1 as real) >= Expiry(receivedAt, fetch.expiresIn.value)
    ensures request == Some(TokenRequest(TokenUrl(authEndpoint, version).value, TokenForm(id, secret)))
    ensures second == Success(refreshed.accessToken.value)
  {
    var store := new TokenStore();
    var first, req0 := store.GetAccessToken(id, secret, version, authEndpoint, t0, fetch, receivedAt);
    second, request := store.GetAccessToken(id, secret, version, authEndpoint, t1, refreshed, t1);
  }
}
