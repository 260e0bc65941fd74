/**
 * The mini-program application object (`MiniProgram\Application`): lazily
 * built account, encryptor, webhook server and access token, the retry and
 * failure rules of its API client, and its HTTP defaults.
 *
 * `getAccount()` and `getAccessToken()` are modelled twice: as written, where
 * each passes a named argument `isSandbox` that the constructor it calls does
 * not declare, and as evidently intended. The other members use the intended
 * versions.
 */
module MiniProgramApplication {
  import opened Php
  import opened Kernel
  import opened Transport
  import opened CredentialCache
  import MiniProgramAccessToken
  import OpenPlatformApplication

  type Account = OpenPlatformApplication.Account

  /** The account the intended `getAccount()` builds: configured values, cast to strings, and the sandbox flag. */
  function ConfigAccount(config: map<string, Json>): Account {
    OpenPlatformApplication.Account(
      OpenPlatformApplication.ConfigString(config, "app_id"), OpenPlatformApplication.ConfigString(config, "secret"),
      OpenPlatformApplication.ConfigString(config, "token"), OpenPlatformApplication.ConfigString(config, "aes_key"),
      Truthy(ConfigGet(config, ["is_sandbox"], JNull)))
  }

  /**
   * The decision of the retry strategy given the response body (null when
   * there is none): an expired-token body, carrying both the `42001` code and
   * the `access_token expired` text. The emptiness test in front adds
   * nothing: a string containing `42001` is neither `""` nor `"0"`.
   */
  function ShouldRetry(content: Option<string>): (retry: bool)
    ensures retry <==> content.Some? && Contains(content.value, "42001") && Contains(content.value, "access_token expired")
  {
    content.Some? && !EmptyStr(content.value)
    && Contains(content.value, "42001") && Contains(content.value, "access_token expired")
  }

  /** The `failureJudge` of `createClient()`: a truthy `errcode`, or an `error` that is present and not null. */
  function FailureJudge(response: Json): (failed: bool)
    ensures failed <==> Truthy(Get(response, "errcode")) || Get(response, "error") != JNull
  {
    Truthy(GetOr(response, "errcode", JInt(0))) || GetOr(response, "error", JNull) != JNull
  }

  /** Whether `createClient()` wraps the transport in a retrying client, and how often it retries. */
  datatype RetryPolicy = NoRetry | Retry(maxRetries: int)

  /** `http.retry` switches the wrapper on; `(int)http.max_retries`, 2 when absent, bounds it. */
  function RetryPolicyOf(config: map<string, Json>): (p: RetryPolicy)
    ensures p.Retry? <==> Truthy(ConfigGet(config, ["http", "retry"], JBool(false)))
    ensures p.Retry? ==> p.maxRetries == IntVal(ConfigGet(config, ["http", "max_retries"], JInt(2)))
    ensures p.Retry? && "http" in config && config["http"].JMap? && "max_retries" !in config["http"].fields ==> p.maxRetries == 2
  {
    if Truthy(ConfigGet(config, ["http", "retry"], JBool(false)))
    then Retry(IntVal(ConfigGet(config, ["http", "max_retries"], JInt(2))))
    else NoRetry
  }

  const SandboxBaseUri := "https://open-sandbox.douyin.com/"
  const BaseUri := "https://developer.toutiao.com/"

  /** `getHttpClientDefaultOptions()`: as for the open platform, with the mini-program's own base URI. */
  function HttpClientDefaultOptions(config: map<string, Json>): (options: map<string, Json>)
    ensures "base_uri" in options
    ensures "base_uri" !in OpenPlatformApplication.HttpOptions(config) ==>
      options["base_uri"] == JStr(if Truthy(ConfigGet(config, ["is_sandbox"], JNull)) then SandboxBaseUri else BaseUri)
    ensures forall k :: k in OpenPlatformApplication.HttpOptions(config) ==>
      k in options && options[k] == OpenPlatformApplication.HttpOptions(config)[k]
    ensures options.Keys == OpenPlatformApplication.HttpOptions(config).Keys + {"base_uri"}
  {
    var base := if Truthy(ConfigGet(config, ["is_sandbox"], JNull)) then SandboxBaseUri else BaseUri;
    map["base_uri" := JStr(base)] + OpenPlatformApplication.HttpOptions(config)
  }

  /** `MiniProgram\Server` as far as the application configures it: with or without an encryptor. */
  class Server {
    const encryptor: Option<Encryptor>

    constructor (encryptor: Option<Encryptor>)
      ensures this.encryptor == encryptor
    {
      this.encryptor := encryptor;
    }
  }

  /** What `createClient()` configures. */
  datatype AwareClient = AwareClient(retry: RetryPolicy, accessToken: object, throwOnFailure: bool)

  const EncryptorConfigMessage := "token or aes_key cannot be empty."

  class Application {
    const config: map<string, Json>
    const cache: Cache
    /** `getHttpClient()`. */
    const http: HttpClient
    var account: Option<Account>
    var encryptor: Option<Encryptor>
    var server: Option<Server>
    /** Any access-token object: the mini-program manager, or one given to `setAccessToken`. */
    var accessToken: Option<object>

    constructor (config: map<string, Json>, cache: Cache, http: HttpClient)
      ensures this.config == config && this.cache == cache && this.http == http
      ensures account.None? && encryptor.None? && server.None? && accessToken.None?
    {
      this.config := config;
      this.cache := cache;
      this.http := http;
      account := None;
      encryptor := None;
      server := None;
      accessToken := None;
    }

    /**
     * `getAccount()` as written: with no account set, the call to the account
     * constructor fails on the undeclared `isSandbox` parameter, and nothing
     * is stored.
     */
    method GetAccount() returns (r: Result<Account>)
      modifies this
      ensures old(account).Some? ==> r == Ok(old(account).value)
      ensures old(account).None? ==> r == Err(UnknownNamedParameter("isSandbox"))
      ensures account == old(account) && encryptor == old(encryptor)
      ensures server == old(server) && accessToken == old(accessToken)
    {
      if account.None? {
        return Err(UnknownNamedParameter("isSandbox"));
      }
      r := Ok(account.value);
    }

    /** `getAccount()` as intended: the configured account is built once and kept. */
    method GetAccountCorrected() returns (a: Account)
      modifies this
      ensures a == if old(account).Some? then old(account).value else ConfigAccount(config)
      ensures account == Some(a) && encryptor == old(encryptor)
      ensures server == old(server) && accessToken == old(accessToken)
    {
      if account.None? {
        account := Some(ConfigAccount(config));
      }
      a := account.value;
    }

    /** `setAccount($account)`. */
    method SetAccount(a: Account)
      modifies this
      ensures account == Some(a) && encryptor == old(encryptor)
      ensures server == old(server) && accessToken == old(accessToken)
    {
      account := Some(a);
    }

    /**
     * `getEncryptor()`: refuses an empty token or AES key; otherwise builds the
     * encryptor once and returns the same object from then on.
     */
    method GetEncryptor() returns (r: Result<Encryptor>)
      modifies this
      ensures old(encryptor).Some? ==> r == Ok(old(encryptor).value) && account == old(account)
      ensures old(encryptor).None? ==>
        var a := if old(account).Some? then old(account).value else ConfigAccount(config);
        && account == Some(a)
        && (EmptyStr(a.token) || EmptyStr(a.aesKey) ==> r == Err(InvalidConfig(EncryptorConfigMessage)))
        && (r.Ok? <==> !EmptyStr(a.token) && !EmptyStr(a.aesKey))
        && (r.Ok? ==> fresh(r.value) && r.value.config == OpenPlatformApplication.EncryptorFor(a))
      ensures r.Ok? ==> encryptor == Some(r.value)
      ensures r.Err? ==> encryptor == old(encryptor)
      ensures server == old(server) && accessToken == old(accessToken)
    {
      if encryptor.None? {
        var a := GetAccountCorrected();
        if EmptyStr(a.token) || EmptyStr(a.aesKey) {
          return Err(InvalidConfig(EncryptorConfigMessage));
        }
        var created := new Encryptor(OpenPlatformApplication.EncryptorFor(a));
        encryptor := Some(created);
      }
      r := Ok(encryptor.value);
    }

    /** `setEncryptor($encryptor)`. */
    method SetEncryptor(e: Encryptor)
      modifies this
      ensures encryptor == Some(e) && account == old(account)
      ensures server == old(server) && accessToken == old(accessToken)
    {
      encryptor := Some(e);
    }

    /**
     * `getServer()`: built once; it gets the encryptor exactly when the
     * account's AES key is non-empty, and no encryptor otherwise.
     */
    method GetServer() returns (r: Result<Server>)
      modifies this
      ensures old(server).Some? ==> r == Ok(old(server).value) && account == old(account) && encryptor == old(encryptor)
      ensures old(server).None? ==>
        var a := if old(account).Some? then old(account).value else ConfigAccount(config);
        && account == Some(a)
        && (EmptyStr(a.aesKey) || r.Err? ==> encryptor == old(encryptor))
        && (!EmptyStr(a.aesKey) && r.Ok? ==> encryptor == r.value.encryptor)
        && (EmptyStr(a.aesKey) ==> r.Ok? && r.value.encryptor.None?)
        && (!EmptyStr(a.aesKey) && old(encryptor).Some? ==> r.Ok? && r.value.encryptor == old(encryptor))
        && (!EmptyStr(a.aesKey) && old(encryptor).None? ==>
              (r.Ok? <==> !EmptyStr(a.token))
              && (r.Ok? ==> r.value.encryptor.Some? && r.value.encryptor.value.config == OpenPlatformApplication.EncryptorFor(a)))
        && (r.Ok? ==> fresh(r.value))
      ensures r.Ok? ==> server == Some(r.value)
      ensures r.Err? ==> server == old(server)
      ensures accessToken == old(accessToken)
    {
      if server.None? {
        var a := GetAccountCorrected();
        var withEncryptor: Option<Encryptor> := None;
        if !EmptyStr(a.aesKey) {
          var e := GetEncryptor();
          if e.Err? {
            return Err(e.error);
          }
          withEncryptor := Some(e.value);
        }
        var created := new Server(withEncryptor);
        server := Some(created);
      }
      r := Ok(server.value);
    }

    /**
     * `getAccessToken()` as written: with the slot empty, the account is read
     * first (and fails as `GetAccount` does); with an account set, the token
     * constructor fails on the undeclared `isSandbox` parameter. A filled slot
     * is returned.
     */
    method GetAccessToken() returns (r: Result<object>)
      modifies this
      ensures old(accessToken).Some? ==> r == Ok(old(accessToken).value)
      ensures old(accessToken).None? ==> r == Err(UnknownNamedParameter("isSandbox"))
      ensures accessToken == old(accessToken) && account == old(account)
      ensures encryptor == old(encryptor) && server == old(server)
    {
      if accessToken.None? {
        var a := GetAccount();
        if a.Err? {
          return Err(a.error);
        }
        return Err(UnknownNamedParameter("isSandbox"));
      }
      r := Ok(accessToken.value);
    }

    /** `getAccessToken()` as intended: an empty slot gets a mini-program token manager for the account. */
    method GetAccessTokenCorrected() returns (t: object)
      modifies this
      ensures old(accessToken).Some? ==> t == old(accessToken).value && account == old(account)
      ensures old(accessToken).None? ==>
        var a := if old(account).Some? then old(account).value else ConfigAccount(config);
        && account == Some(a)
        && fresh(t) && t is MiniProgramAccessToken.AccessToken
        && (var m := t as MiniProgramAccessToken.AccessToken;
            m.appId == a.appId && m.secret == a.secret && m.key.None? && !m.stable
            && m.cache == cache && m.http == http)
      ensures accessToken == Some(t) && encryptor == old(encryptor) && server == old(server)
    {
      if accessToken.None? {
        var a := GetAccountCorrected();
        var created := new MiniProgramAccessToken.AccessToken(a.appId, a.secret, None, cache, http, false);
        accessToken := Some(created);
      }
      t := accessToken.value;
    }

    /** `setServer($server)`. */
    method SetServer(s: Server)
      modifies this
      ensures server == Some(s) && account == old(account)
      ensures encryptor == old(encryptor) && accessToken == old(accessToken)
    {
      server := Some(s);
    }

    /** `setAccessToken($accessToken)`: from then on `getAccessToken()` returns it. */
    method SetAccessToken(t: object)
      modifies this
      ensures accessToken == Some(t) && account == old(account)
      ensures encryptor == old(encryptor) && server == old(server)
    {
      accessToken := Some(t);
    }

    /**
     * `createClient()`: retrying only when `http.retry` is truthy, carrying the
     * application's access token, throwing on failures unless `http.throw` is
     * falsy.
     */
    method CreateClient() returns (c: AwareClient)
      modifies this
      ensures c.retry == RetryPolicyOf(config)
      ensures old(accessToken).Some? ==> c.accessToken == old(accessToken).value && account == old(account)
      ensures old(accessToken).None? ==>
        var a := if old(account).Some? then old(account).value else ConfigAccount(config);
        && account == Some(a)
        && fresh(c.accessToken) && c.accessToken is MiniProgramAccessToken.AccessToken
        && (var m := c.accessToken as MiniProgramAccessToken.AccessToken; m.appId == a.appId && m.secret == a.secret)
      ensures accessToken == Some(c.accessToken) && encryptor == old(encryptor) && server == old(server)
      ensures c.throwOnFailure <==> Truthy(ConfigGet(config, ["http", "throw"], JBool(true)))
    {
      var t := GetAccessTokenCorrected();
      c := AwareClient(RetryPolicyOf(config), t, Truthy(ConfigGet(config, ["http", "throw"], JBool(true))));
    }
  }

  /** After `setAccessToken($t)` the application hands out `$t`, whatever was there before. */
  method SetThenGetAccessToken(app: Application, t: object) returns (got: object)
    modifies app
    ensures got == t && app.accessToken == Some(t)
  {
    app.SetAccessToken(t);
    got := app.GetAccessTokenCorrected();
    var asWritten := app.GetAccessToken();
    assert asWritten == Ok(t);
  }
}
