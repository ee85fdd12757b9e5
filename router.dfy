/** The session middleware and the OAuth callback handler of the mta-backend
    router. Each request runs against two per-user stores: the plugin cache,
    from user id to access token (with a time-to-live), and the refresh-token
    table of the storage object. The OIDC client is an oracle: its answers
    are given with the request. */
module Router {
  import opened Wrappers
  import opened Storage

  /** The configuration read once when the router is created. */
  datatype Config = Config(frontEndBaseUrl: string, backendBaseUrl: string)

  /** What the middleware reads of a request. */
  datatype Request = Request(path: string, referer: Option<string>)

  /** A redirect URI: the callback URL's path and its `continueTo` query
      parameter, if set. Serialising it to text is the URL library's job. */
  datatype RedirectUri = RedirectUri(path: string, continueTo: Option<string>)

  /** The parameters the OIDC client extracts from a callback request. */
  datatype CallbackParams = CallbackParams(code: string, state: Option<string>)

  /** An OIDC token set; any field may be missing. */
  datatype TokenSet = TokenSet(
    accessToken: Option<string>,
    refreshToken: Option<string>,
    expiresIn: Option<int>)

  /** The OIDC client's answers: the authorization URL for a redirect URI,
      the result of a refresh-grant (None when the grant yields nothing), and
      the token set of an authorization-code exchange. */
  datatype OidcClient = OidcClient(
    authorizationUrl: RedirectUri -> string,
    refresh: string -> Option<TokenSet>,
    callback: (RedirectUri, CallbackParams) -> TokenSet)

  /** A cached access token and the ttl it was stored with. */
  datatype CacheEntry = CacheEntry(token: string, ttl: int)

  /** JSON bodies of a 401 answer. */
  datatype Body = LoginUrl(loginURL: string) | EmptyObject

  /** How a handler ends: `next()` with `response.locals.accessToken` (None
      when the middleware did not set it), a 401 with a body, or a redirect. */
  datatype Response =
    | Next(accessToken: Option<string>)
    | Unauthorized(body: Body)
    | Redirect(location: string)

  /** The external reads and OIDC calls the middleware makes, in order. */
  datatype Call =
    | GetIdentity
    | CacheGet(key: string)
    | StoreGet(key: string)
    | Refresh(refreshToken: string)
    | AuthorizationUrl(redirect: RedirectUri)

  /** The ttl used when the provider gives no `expires_in`, literally `60 * 1000`. */
  const DefaultTtl: int := 60 * 1000

  function Ttl(expiresIn: Option<int>): int
  {
    OrElse(expiresIn, DefaultTtl)
  }

  /** The caller id: the identity's `userEntityRef`, or the text "undefined". */
  function CallerId(userEntityRef: Option<string>): string
  {
    OrElse(userEntityRef, "undefined")
  }

  function CallbackPath(config: Config, user: string): string
  {
    config.backendBaseUrl + "/api/mta/cb/" + user
  }

  /** The redirect URI of a login challenge: `continueTo` is always set, to
      the referer or else to the front end. */
  function LoginRedirect(config: Config, id: string, referer: Option<string>): RedirectUri
  {
    RedirectUri(CallbackPath(config, id), Some(OrElse(referer, config.frontEndBaseUrl)))
  }

  /** The redirect URI the callback rebuilds: `continueTo` only when truthy. */
  function CallbackRedirect(config: Config, user: string, continueTo: Option<string>): RedirectUri
  {
    RedirectUri(CallbackPath(config, user), if Truthy(continueTo) then continueTo else None)
  }

  function Lookup(cache: map<string, CacheEntry>, key: string): Option<string>
  {
    if key in cache then Some(cache[key].token) else None
  }

  /** JavaScript's `s.includes(sub)`. */
  predicate Includes(s: string, sub: string)
  {
    sub <= s || (s != [] && Includes(s[1..], sub))
  }

  /** `sub` occurs in `s` starting at position `i`. */
  ghost predicate OccursAt(s: string, sub: string, i: int)
  {
    0 <= i <= |s| - |sub| && s[i..i + |sub|] == sub
  }

  /** `Includes` holds exactly when `sub` occurs at some position of `s`. */
  lemma {:induction false} IncludesIffOccurs(s: string, sub: string)
    ensures Includes(s, sub) <==> exists i :: OccursAt(s, sub, i)
  {
    if sub <= s {
      assert OccursAt(s, sub, 0);
    } else if s == [] {
    } else {
      IncludesIffOccurs(s[1..], sub);
      assert OccursAt(s, sub, 0) ==> sub <= s;
      if Includes(s[1..], sub) {
        var i :| OccursAt(s[1..], sub, i);
        SliceOfTail(s, i + 1, |sub|);
        assert OccursAt(s, sub, i + 1);
      } else {
        forall i | OccursAt(s, sub, i) && i != 0 ensures OccursAt(s[1..], sub, i - 1) {
          SliceOfTail(s, i, |sub|);
        }
      }
    }
  }

  lemma SliceOfTail(s: string, i: int, n: nat)
    requires 1 <= i && i + n <= |s|
    ensures s[i..i + n] == s[1..][i - 1..i - 1 + n]
  {
  }

  /** Paths the middleware lets through untouched. */
  predicate Bypassed(path: string)
  {
    Includes(path, "/cb") || Includes(path, "/health")
  }

  class MtaRouter {
    const config: Config
    const storage: EntityApplicationStorage
    var cache: map<string, CacheEntry>

    /** The refresh-token table keeps its own invariant. */
    ghost predicate Valid()
      reads this, storage
    {
      storage.Valid()
    }

    /** The plugin cache may already hold entries when the router is
        created. */
    constructor (config: Config, storage: EntityApplicationStorage, cache: map<string, CacheEntry>)
      requires storage.Valid()
      ensures Valid()
      ensures this.config == config && this.storage == storage && this.cache == cache
    {
      this.config := config;
      this.storage := storage;
      this.cache := cache;
    }

    /** The session middleware: bypass, a login challenge, or `next()` with
        an access token, obtained from the cache or by one refresh-grant. */
    method HandleRequest(request: Request, userEntityRef: Option<string>, oidc: OidcClient)
      returns (response: Response, calls: seq<Call>)
      requires Valid()
      modifies this, storage
      ensures Valid() && storage.entities == old(storage.entities)
      ensures Bypassed(request.path) ==>
        && response == Next(None) && calls == []
        && cache == old(cache) && storage.oauth == old(storage.oauth)
      ensures !Bypassed(request.path) ==>
        var id := CallerId(userEntityRef);
        var u := LoginRedirect(config, id, request.referer);
        var cached := Lookup(old(cache), id);
        var stored := StoredToken(old(storage.oauth), id);
        var lookups := [GetIdentity, CacheGet(id), StoreGet(id)];
        if !Truthy(cached) && !Truthy(stored) then
          && response == Unauthorized(LoginUrl(oidc.authorizationUrl(u)))
          && calls == lookups + [AuthorizationUrl(u)]
          && cache == old(cache) && storage.oauth == old(storage.oauth)
        else if !Truthy(cached) then
          var tokenSet := oidc.refresh(stored.value);
          if tokenSet.None? || !Truthy(tokenSet.value.accessToken) then
            && response == Unauthorized(LoginUrl(oidc.authorizationUrl(u)))
            && calls == lookups + [Refresh(stored.value), AuthorizationUrl(u)]
            && cache == old(cache) && storage.oauth == old(storage.oauth)
          else
            var ts := tokenSet.value;
            var rotated := Truthy(ts.refreshToken) && ts.refreshToken.value != stored.value;
            && response == Next(ts.accessToken)
            && calls == lookups + [Refresh(stored.value)]
            && cache == old(cache)[id := CacheEntry(ts.accessToken.value, Ttl(ts.expiresIn))]
            && storage.oauth ==
                 (if rotated then SavedTokenRows(old(storage.oauth), id, ts.refreshToken.value)
                  else old(storage.oauth))
            && (rotated && id != "" ==> StoredToken(storage.oauth, id) == ts.refreshToken)
        else
          && response == Next(cached)
          && calls == lookups
          && cache == old(cache) && storage.oauth == old(storage.oauth)
      ensures response.Next? && !Bypassed(request.path) ==> Truthy(response.accessToken)
    {
      if Bypassed(request.path) {
        return Next(None), [];
      }
      var id := CallerId(userEntityRef);
      var u := LoginRedirect(config, id, request.referer);
      var accessToken := Lookup(cache, id);
      var refreshToken := storage.GetRefreshTokenForUser(id);
      calls := [GetIdentity, CacheGet(id), StoreGet(id)];
      if !Truthy(accessToken) && !Truthy(refreshToken) {
        var authorizationURL := oidc.authorizationUrl(u);
        return Unauthorized(LoginUrl(authorizationURL)), calls + [AuthorizationUrl(u)];
      }
      if !Truthy(accessToken) && Truthy(refreshToken) {
        var tokenSet := oidc.refresh(refreshToken.value);
        calls := calls + [Refresh(refreshToken.value)];
        if tokenSet.None? || !Truthy(tokenSet.value.accessToken) {
          var authorizationURL := oidc.authorizationUrl(u);
          return Unauthorized(LoginUrl(authorizationURL)), calls + [AuthorizationUrl(u)];
        }
        var ts := tokenSet.value;
        accessToken := ts.accessToken;
        cache := cache[id := CacheEntry(ts.accessToken.value, Ttl(ts.expiresIn))];
        if Truthy(ts.refreshToken) && ts.refreshToken.value != refreshToken.value {
          var _ := storage.SaveRefreshTokenForUser(id, ts.refreshToken.value);
        }
      }
      response := Next(accessToken);
    }

    /** The callback handler (the wildcard and the `:username` callback routes
        have the same body):
        exchange the code against the rebuilt redirect URI; reject a token set
        missing either token; otherwise cache the access token under the
        user, save the refresh token and redirect. */
    method Callback(user: string, continueTo: Option<string>, params: CallbackParams, oidc: OidcClient)
      returns (response: Response)
      requires Valid()
      modifies this, storage
      ensures Valid() && storage.entities == old(storage.entities)
      ensures
        var ts := oidc.callback(CallbackRedirect(config, user, continueTo), params);
        if !Truthy(ts.accessToken) || !Truthy(ts.refreshToken) then
          && response == Unauthorized(EmptyObject)
          && cache == old(cache) && storage.oauth == old(storage.oauth)
        else
          && response == Redirect(OrElse(continueTo, config.frontEndBaseUrl))
          && cache == old(cache)[user := CacheEntry(ts.accessToken.value, Ttl(ts.expiresIn))]
          && storage.oauth == SavedTokenRows(old(storage.oauth), user, ts.refreshToken.value)
          && (user != "" ==> StoredToken(storage.oauth, user) == ts.refreshToken)
    {
      var u := CallbackRedirect(config, user, continueTo);
      var tokenSet := oidc.callback(u, params);
      if !Truthy(tokenSet.accessToken) || !Truthy(tokenSet.refreshToken) {
        return Unauthorized(EmptyObject);
      }
      cache := cache[user := CacheEntry(tokenSet.accessToken.value, Ttl(tokenSet.expiresIn))];
      var _ := storage.SaveRefreshTokenForUser(user, tokenSet.refreshToken.value);
      response := Redirect(OrElse(continueTo, config.frontEndBaseUrl));
    }
  }

  /** A request that proceeds leaves its token in the cache: the same
      caller's next request proceeds with the same token, with no
      refresh-grant and no authorization URL. */
  method RepeatRequestUsesCache(
    router: MtaRouter, request: Request, userEntityRef: Option<string>,
    first: OidcClient, second: OidcClient)
    returns (r1: Response, r2: Response, calls2: seq<Call>)
    requires router.Valid()
    modifies router, router.storage
    ensures router.Valid()
    ensures !Bypassed(request.path) && r1.Next? ==>
      var id := CallerId(userEntityRef);
      r2 == r1 && calls2 == [GetIdentity, CacheGet(id), StoreGet(id)]
  {
    var calls1;
    r1, calls1 := router.HandleRequest(request, userEntityRef, first);
    r2, calls2 := router.HandleRequest(request, userEntityRef, second);
  }

  /** A successful login lets the user's next request through with the
      access token from the code exchange, without a refresh-grant. */
  method LoginThenRequest(
    router: MtaRouter, continueTo: Option<string>, params: CallbackParams,
    request: Request, userEntityRef: Option<string>, oidc: OidcClient)
    returns (login: Response, r: Response, calls: seq<Call>)
    requires router.Valid()
    modifies router, router.storage
    ensures router.Valid()
    ensures
      var user := CallerId(userEntityRef);
      var ts := oidc.callback(CallbackRedirect(router.config, user, continueTo), params);
      login.Redirect? && !Bypassed(request.path) ==>
        && r == Next(ts.accessToken)
        && calls == [GetIdentity, CacheGet(user), StoreGet(user)]
  {
    var user := CallerId(userEntityRef);
    login := router.Callback(user, continueTo, params, oidc);
    r, calls := router.HandleRequest(request, userEntityRef, oidc);
  }
}
