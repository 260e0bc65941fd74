/**
 * The open-platform application object (`OpenPlatform\Application`): lazily
 * built collaborators (account, encryptor, access token), the authorizer
 * token cache, the JS-bridge ticket request and the HTTP defaults.
 *
 * `getAccessToken()` and `getOauthClientToken()` fill one and the same slot,
 * so whichever runs first decides the object both return from then on.
 */
module OpenPlatformApplication {
  import opened Php
  import opened Kernel
  import opened Transport
  import opened CredentialCache
  import OpenPlatformAccessToken
  import OpenPlatformOauthClientToken

  /** `OpenPlatform\Account`: the credentials the application works with. */
  datatype Account = Account(appId: string, secret: string, token: string, aesKey: string, isSandbox: bool)

  /** `(string)$this->config->get($name)`. */
  function ConfigString(config: map<string, Json>, name: string): string {
    ToStr(ConfigGet(config, [name], JNull))
  }

  /** The account `getAccount()` builds from the configuration; `isSandbox` keeps its default. */
  function ConfigAccount(config: map<string, Json>): Account {
    Account(ConfigString(config, "app_id"), ConfigString(config, "secret"), ConfigString(config, "token"),
            ConfigString(config, "aes_key"), false)
  }

  /** The encryptor `getEncryptor()` builds: the app id is also the receive id. */
  function EncryptorFor(account: Account): EncryptorConfig {
    EncryptorConfig(account.appId, account.token, account.aesKey, account.appId)
  }

  /** The shared `accessToken` slot holds one of two managers. */
  datatype TokenSlot =
    | AppToken(app: OpenPlatformAccessToken.AccessToken)
    | ClientToken(client: OpenPlatformOauthClientToken.OauthClientToken)

  /** What `createClient()` configures: the token the client attaches and whether failures throw. */
  datatype AwareClient = AwareClient(accessToken: TokenSlot, throwOnFailure: bool)

  /** The `failureJudge` of `createClient()`: `(bool)($response['errcode'] ?? 0)`. */
  function FailureJudge(response: Json): (failed: bool)
    ensures failed <==> Truthy(Get(response, "errcode"))
    ensures Get(response, "errcode") == JNull ==> !failed
  {
    Truthy(GetOr(response, "errcode", JInt(0)))
  }

  const SandboxBaseUri := "https://open-sandbox.douyin.com/"
  const BaseUri := "https://open.douyin.com/"

  /** `(array)$this->config->get('http', [])`, restricted to its string keys. */
  function HttpOptions(config: map<string, Json>): map<string, Json> {
    match ConfigGet(config, ["http"], JList([]))
    case JMap(fields) => fields
    case _ => map[]
  }

  /**
   * `getHttpClientDefaultOptions()`: the base URI chosen by the configured
   * sandbox flag (the method's own parameter is not consulted), with the
   * configured `http` options merged over it.
   */
  function HttpClientDefaultOptions(config: map<string, Json>): (options: map<string, Json>)
    ensures "base_uri" in options
    ensures "base_uri" !in HttpOptions(config) ==>
      options["base_uri"] == JStr(if Truthy(ConfigGet(config, ["is_sandbox"], JNull)) then SandboxBaseUri else BaseUri)
    ensures forall k :: k in HttpOptions(config) ==> k in options && options[k] == HttpOptions(config)[k]
    ensures options.Keys == HttpOptions(config).Keys + {"base_uri"}
  {
    var base := if Truthy(ConfigGet(config, ["is_sandbox"], JNull)) then SandboxBaseUri else BaseUri;
    map["base_uri" := JStr(base)] + HttpOptions(config)
  }

  /** The request of `jsbTicket($oauthClientToken)`, given the token it obtained. */
  function TicketRequest(accessToken: string): Request {
    Request("GET", "js/getticket", [("Scope", One("js.ticket"))],
            [("access-token", One(accessToken)), ("content-type", One("application/json"))], JNull, None)
  }

  /**
   * What `jsbTicket` makes of the reply: an empty `data.ticket` throws, a
   * ticket that is not a string fails the `string` return type, otherwise the
   * ticket itself is returned.
   */
  function TicketOutcome(ext: Externals, reply: Result<Json>): (r: Result<string>)
    ensures reply.Err? ==> r == Err(reply.error)
    ensures reply.Ok? && Empty(Get(Get(reply.value, "data"), "ticket")) ==>
      r == Err(Http("Failed to get ticket: " + ext.jsonEncode(reply.value)))
    ensures r.Ok? <==> reply.Ok? && !Empty(Get(Get(reply.value, "data"), "ticket"))
                       && Get(Get(reply.value, "data"), "ticket").JStr?
    ensures r.Ok? ==> JStr(r.value) == Get(Get(reply.value, "data"), "ticket") && !EmptyStr(r.value)
  {
    match reply
    case Err(e) => Err(e)
    case Ok(response) =>
      var ticket := Get(Get(response, "data"), "ticket");
      if Empty(ticket) then Err(Http("Failed to get ticket: " + ext.jsonEncode(response)))
      else if ticket.JStr? then Ok(ticket.s)
      else Err(TypeError("Return value must be of type string"))
  }

  /** The request of `refreshAuthorizerToken($authorizerAppId, $authorizerRefreshToken)`. */
  function AuthorizerRequest(componentAppId: string, authorizerAppId: string, refreshToken: string): Request {
    Request("POST", "cgi-bin/component/api_authorizer_token", [], [],
            JMap(map["component_appid" := JStr(componentAppId), "authorizer_appid" := JStr(authorizerAppId),
                     "authorizer_refresh_token" := JStr(refreshToken)]), None)
  }

  /** What `refreshAuthorizerToken` makes of the reply: the whole response, unless its token is empty. */
  function RefreshOutcome(ext: Externals, reply: Result<Json>): (r: Result<Json>)
    ensures reply.Err? ==> r == Err(reply.error)
    ensures reply.Ok? && Empty(Get(reply.value, "authorizer_access_token")) ==>
      r == Err(Http("Failed to get authorizer_access_token: " + ext.jsonEncode(reply.value)))
    ensures r.Ok? <==> reply.Ok? && !Empty(Get(reply.value, "authorizer_access_token"))
    ensures r.Ok? ==> r.value == reply.value
  {
    match reply
    case Err(e) => Err(e)
    case Ok(response) =>
      if Empty(Get(response, "authorizer_access_token"))
      then Err(Http("Failed to get authorizer_access_token: " + ext.jsonEncode(response)))
      else Ok(response)
  }

  const AuthorizerKeyPrefix := "open-platform.authorizer_access_token."

  /** `sprintf('open-platform.authorizer_access_token.%s.%s', $appId, md5($refreshToken))`. */
  function AuthorizerKey(ext: Externals, appId: string, refreshToken: string): string {
    AuthorizerKeyPrefix + appId + "." + ext.md5(refreshToken)
  }

  /** `(string)$cache->get($cacheKey)` when it is truthy: the token `getAuthorizerAccessToken` reuses. */
  function CachedAuthorizerToken(entries: map<string, Entry>, key: string): (r: Option<string>)
    ensures r.Some? <==> !EmptyStr(ToStr(Read(entries, key)))
    ensures r.Some? ==> r.value == ToStr(Read(entries, key))
  {
    var s := ToStr(Read(entries, key));
    if EmptyStr(s) then None else Some(s)
  }

  /** `intval($response['expires_in'] ?? 7200) - 500`. */
  function AuthorizerTtl(response: Json): int {
    IntVal(GetOr(response, "expires_in", JInt(7200))) - 500
  }

  /**
   * The miss path of `getAuthorizerAccessToken`: the refreshed token, cast to
   * a string, is cached under `key` and returned; a refused refresh changes
   * nothing. Whatever is stored is then served from the cache.
   */
  function AuthorizerFetch(ext: Externals, entries: map<string, Entry>, key: string, reply: Result<Json>): (f: Fetched)
    ensures RefreshOutcome(ext, reply).Err? ==> f == Fetched(Err(RefreshOutcome(ext, reply).error), entries)
    ensures RefreshOutcome(ext, reply).Ok? ==>
      var token := ToStr(Get(reply.value, "authorizer_access_token"));
      && f.result == Ok(token)
      && f.entries == entries[key := Entry(JStr(token), AuthorizerTtl(reply.value))]
    ensures f.result.Ok? ==> CachedAuthorizerToken(f.entries, key) == Some(f.result.value)
    ensures forall k :: k != key ==> Read(f.entries, k) == Read(entries, k)
  {
    match RefreshOutcome(ext, reply)
    case Err(e) => Fetched(Err(e), entries)
    case Ok(response) =>
      TruthyToStr(Get(response, "authorizer_access_token"));
      var token := ToStr(Get(response, "authorizer_access_token"));
      Fetched(Ok(token), entries[key := Entry(JStr(token), AuthorizerTtl(response))])
  }

  /** Different authorizer apps never share a cached authorizer token. */
  lemma AuthorizerKeysSeparateApps(ext: Externals, app1: string, app2: string,
                                                     token1: string, token2: string)
    requires app1 != app2 && '.' !in app1 && '.' !in app2
    ensures AuthorizerKey(ext, app1, token1) != AuthorizerKey(ext, app2, token2)
  {
    var k1, k2 := AuthorizerKey(ext, app1, token1), AuthorizerKey(ext, app2, token2);
    var n := |AuthorizerKeyPrefix|;
    assert k1[n..] == app1 + "." + ext.md5(token1);
    assert k2[n..] == app2 + "." + ext.md5(token2);
    if |app1| < |app2| {
      assert k1[n + |app1|] == '.' != app2[|app1|] == k2[n + |app1|];
    } else if |app2| < |app1| {
      assert k2[n + |app2|] == '.' != app1[|app2|] == k1[n + |app2|];
    } else {
      assert k1[n..n + |app1|] == app1 != app2 == k2[n..n + |app2|];
    }
  }

  class Application {
    const config: map<string, Json>
    const cache: Cache
    /** `getHttpClient()`. */
    const http: HttpClient
    /** The client an `OauthClientToken` creates for itself. */
    const oauthHttp: HttpClient
    var account: Option<Account>
    var encryptor: Option<Encryptor>
    var accessToken: Option<TokenSlot>

    constructor (config: map<string, Json>, cache: Cache, http: HttpClient, oauthHttp: HttpClient)
      ensures this.config == config && this.cache == cache && this.http == http && this.oauthHttp == oauthHttp
      ensures account.None? && encryptor.None? && accessToken.None?
    {
      this.config := config;
      this.cache := cache;
      this.http := http;
      this.oauthHttp := oauthHttp;
      account := None;
      encryptor := None;
      accessToken := None;
    }

    /** `getAccount()`: the set account, or the one built from the configuration, which is then kept. */
    method GetAccount() returns (a: Account)
      modifies this
      ensures a == if old(account).Some? then old(account).value else ConfigAccount(config)
      ensures account == Some(a)
      ensures encryptor == old(encryptor) && accessToken == old(accessToken)
    {
      if account.None? {
        account := Some(ConfigAccount(config));
      }
      a := account.value;
    }

    /** `setAccount($account)`. */
    method SetAccount(a: Account)
      modifies this
      ensures account == Some(a)
      ensures encryptor == old(encryptor) && accessToken == old(accessToken)
    {
      account := Some(a);
    }

    /** `getEncryptor()`: built once from the account, then the same object every time. */
    method GetEncryptor() returns (e: Encryptor)
      modifies this
      ensures old(encryptor).Some? ==> e == old(encryptor).value && account == old(account)
      ensures old(encryptor).None? ==>
        var a := if old(account).Some? then old(account).value else ConfigAccount(config);
        fresh(e) && e.config == EncryptorFor(a) && account == Some(a)
      ensures encryptor == Some(e) && accessToken == old(accessToken)
    {
      if encryptor.None? {
        var a := GetAccount();
        var created := new Encryptor(EncryptorFor(a));
        encryptor := Some(created);
      }
      e := encryptor.value;
    }

    /** `setEncryptor($encryptor)`. */
    method SetEncryptor(e: Encryptor)
      modifies this
      ensures encryptor == Some(e) && account == old(account) && accessToken == old(accessToken)
    {
      encryptor := Some(e);
    }

    /**
     * `getAccessToken()`: when the shared slot is empty, an application token
     * manager for the account's app id and secret fills it; in every case the
     * slot's occupant is returned.
     */
    method GetAccessToken() returns (t: TokenSlot)
      modifies this
      ensures old(accessToken).Some? ==> t == old(accessToken).value && account == old(account)
      ensures old(accessToken).None? ==>
        var a := if old(account).Some? then old(account).value else ConfigAccount(config);
        && t.AppToken? && fresh(t.app)
        && t.app.appId == a.appId && t.app.secret == a.secret && t.app.key.None?
        && t.app.scope == Some(OpenPlatformAccessToken.DefaultScope)
        && t.app.cache == cache && t.app.http == http
        && account == Some(a)
      ensures accessToken == Some(t) && encryptor == old(encryptor)
    {
      if accessToken.None? {
        var a := GetAccount();
        var created := new OpenPlatformAccessToken.AccessToken(a.appId, a.secret, None, cache, http,
                                                               Some(OpenPlatformAccessToken.DefaultScope));
        accessToken := Some(AppToken(created));
      }
      t := accessToken.value;
    }

    /**
     * `getOauthClientToken()`: the same slot, filled with a client-credential
     * manager when empty; a slot already holding an application token is
     * returned as it is.
     */
    method GetOauthClientToken() returns (t: TokenSlot)
      modifies this
      ensures old(accessToken).Some? ==> t == old(accessToken).value && account == old(account)
      ensures old(accessToken).None? ==>
        var a := if old(account).Some? then old(account).value else ConfigAccount(config);
        && t.ClientToken? && fresh(t.client)
        && t.client.clientKey == a.appId && t.client.clientSecret == a.secret && t.client.key.None?
        && t.client.cache == cache && t.client.http == oauthHttp
        && account == Some(a)
      ensures accessToken == Some(t) && encryptor == old(encryptor)
    {
      if accessToken.None? {
        var a := GetAccount();
        var created := new OpenPlatformOauthClientToken.OauthClientToken(a.appId, a.secret, cache, oauthHttp);
        accessToken := Some(ClientToken(created));
      }
      t := accessToken.value;
    }

    /** `createClient()`: the client carries the shared token slot; failures throw unless `http.throw` is falsy. */
    method CreateClient() returns (c: AwareClient)
      modifies this
      ensures old(accessToken).Some? ==> c.accessToken == old(accessToken).value && account == old(account)
      ensures old(accessToken).None? ==>
        var a := if old(account).Some? then old(account).value else ConfigAccount(config);
        && c.accessToken.AppToken? && fresh(c.accessToken.app)
        && c.accessToken.app.appId == a.appId && c.accessToken.app.secret == a.secret
        && account == Some(a)
      ensures accessToken == Some(c.accessToken) && encryptor == old(encryptor)
      ensures c.throwOnFailure <==> Truthy(ConfigGet(config, ["http", "throw"], JBool(true)))
    {
      var t := GetAccessToken();
      c := AwareClient(t, Truthy(ConfigGet(config, ["http", "throw"], JBool(true))));
    }

    /**
     * `jsbTicket($oauthClientToken)`, given what `$oauthClientToken->getToken()`
     * produced: a failed token request sends nothing; otherwise one ticket
     * request carrying that token is sent and `TicketOutcome` decides.
     */
    method JsbTicket(ext: Externals, token: Result<string>) returns (r: Result<string>)
      modifies http
      ensures token.Err? ==> r == Err(token.error) && http.sent == old(http.sent) && http.replies == old(http.replies)
      ensures token.Ok? ==>
        http.sent == old(http.sent) + [TicketRequest(token.value)] && r == TicketOutcome(ext, NextReply(old(http.replies)))
    {
      if token.Err? {
        return Err(token.error);
      }
      var reply := http.Send(TicketRequest(token.value));
      r := TicketOutcome(ext, reply);
    }

    /** `refreshAuthorizerToken($authorizerAppId, $authorizerRefreshToken)`. */
    method RefreshAuthorizerToken(ext: Externals, authorizerAppId: string, refreshToken: string) returns (r: Result<Json>)
      modifies this, http
      ensures var a := if old(account).Some? then old(account).value else ConfigAccount(config);
        && http.sent == old(http.sent) + [AuthorizerRequest(a.appId, authorizerAppId, refreshToken)]
        && account == Some(a)
      ensures r == RefreshOutcome(ext, NextReply(old(http.replies)))
      ensures encryptor == old(encryptor) && accessToken == old(accessToken)
    {
      var a := GetAccount();
      var reply := http.Send(AuthorizerRequest(a.appId, authorizerAppId, refreshToken));
      r := RefreshOutcome(ext, reply);
    }

    /**
     * `getAuthorizerAccessToken($appId, $refreshToken)`: a truthy cached token
     * is returned without a request; otherwise the token is refreshed, cached
     * under the same key and returned.
     */
    method GetAuthorizerAccessToken(ext: Externals, appId: string, refreshToken: string) returns (r: Result<string>)
      modifies this, cache, http
      ensures var cached := CachedAuthorizerToken(old(cache.entries), AuthorizerKey(ext, appId, refreshToken));
        cached.Some? ==> r == Ok(cached.value) && cache.entries == old(cache.entries)
                         && http.sent == old(http.sent) && http.replies == old(http.replies)
      ensures var key := AuthorizerKey(ext, appId, refreshToken);
        var a := if old(account).Some? then old(account).value else ConfigAccount(config);
        var f := AuthorizerFetch(ext, old(cache.entries), key, NextReply(old(http.replies)));
        CachedAuthorizerToken(old(cache.entries), key).None? ==>
          && http.sent == old(http.sent) + [AuthorizerRequest(a.appId, appId, refreshToken)]
          && r == f.result && cache.entries == f.entries
          && account == Some(a)
      ensures CachedAuthorizerToken(old(cache.entries), AuthorizerKey(ext, appId, refreshToken)).Some? ==>
        account == old(account)
      ensures encryptor == old(encryptor) && accessToken == old(accessToken)
    {
      var key := AuthorizerKey(ext, appId, refreshToken);
      var cached := ToStr(cache.Get(key));
      if !EmptyStr(cached) {
        return Ok(cached);
      }
      var response := RefreshAuthorizerToken(ext, appId, refreshToken);
      if response.Err? {
        return Err(response.error);
      }
      var token := ToStr(Get(response.value, "authorizer_access_token"));
      cache.Set(key, JStr(token), AuthorizerTtl(response.value));
      r := Ok(token);
    }
  }
}
