/**
 * The open-platform client-credential token manager
 * (`OpenPlatform\OauthClientToken`): a cached token under a key derived from
 * the client key and secret; on a miss, `POST oauth/client_token/` with an
 * explicit JSON content type, whose token sits under `data`.
 */
module OpenPlatformOauthClientToken {
  import opened Php
  import opened Kernel
  import opened Transport
  import opened CredentialCache
  import OpenPlatformAccessToken

  const CacheKeyPrefix := "douyin_open_platform"
  const FailurePrefix := "Failed to get access_token: "

  /** `sprintf('%s.oauth.client_token.%s.%s', CACHE_KEY_PREFIX, client_key, client_secret)`. */
  function DefaultKey(clientKey: string, clientSecret: string): string {
    CacheKeyPrefix + ".oauth.client_token." + clientKey + "." + clientSecret
  }

  function EffectiveKey(key: Option<string>, clientKey: string, clientSecret: string): string {
    if key.Some? then key.value else DefaultKey(clientKey, clientSecret)
  }

  /** The request of `getAccessToken()`. */
  function TokenRequest(clientKey: string, clientSecret: string): Request {
    Request("POST", "oauth/client_token/", [], [("Content-Type", One("application/json"))],
            JMap(map["grant_type" := JStr("client_credential"), "client_key" := JStr(clientKey),
                     "client_secret" := JStr(clientSecret)]), None)
  }

  /**
   * The client token and the application token share a cache and a prefix,
   * yet their default keys never meet: they part at the character after
   * `douyin_open_platform.`.
   */
  lemma ClientTokenKeyIsNotAnAppTokenKey(clientKey: string, clientSecret: string,
                                         appId: string, secret: string, scope: Option<string>)
    ensures DefaultKey(clientKey, clientSecret) != OpenPlatformAccessToken.DefaultKey(appId, secret, scope)
  {
    var ours, theirs := DefaultKey(clientKey, clientSecret), OpenPlatformAccessToken.DefaultKey(appId, secret, scope);
    assert ours[21] == 'o';
    assert theirs[21] == 'a';
  }

  class OauthClientToken {
    const clientKey: string
    const clientSecret: string
    const cache: Cache
    const http: HttpClient
    /** Not declared by the class; it exists once `getKey()` or `setKey()` wrote it. */
    var key: Option<string>

    constructor (clientKey: string, clientSecret: string, cache: Cache, http: HttpClient)
      ensures this.clientKey == clientKey && this.clientSecret == clientSecret && key.None?
      ensures this.cache == cache && this.http == http
    {
      this.clientKey := clientKey;
      this.clientSecret := clientSecret;
      this.cache := cache;
      this.http := http;
      key := None;
    }

    /** `getKey()`: the set key, or the default one, which is then remembered. */
    method GetKey() returns (k: string)
      modifies this
      ensures k == EffectiveKey(old(key), clientKey, clientSecret)
      ensures old(key).None? ==> k == DefaultKey(clientKey, clientSecret)
      ensures key == Some(k)
    {
      if key.None? {
        key := Some(DefaultKey(clientKey, clientSecret));
      }
      k := key.value;
    }

    /** `setKey($key)`. */
    method SetKey(k: string)
      modifies this
      ensures key == Some(k)
    {
      key := Some(k);
    }

    /** `getAccessToken()`: one request, then the cache write of `FetchOutcome`. */
    method GetAccessToken(ext: Externals) returns (r: Result<string>)
      modifies this, cache, http
      ensures http.sent == old(http.sent) + [TokenRequest(clientKey, clientSecret)]
      ensures var f := FetchOutcome(ext, old(cache.entries), EffectiveKey(old(key), clientKey, clientSecret),
                                    NextReply(old(http.replies)), OpenPlatformAccessToken.DataTokenOf,
                                    OpenPlatformAccessToken.DataTtlOf, FailurePrefix);
        r == f.result && cache.entries == f.entries
      ensures key == if TokenArrived(NextReply(old(http.replies)), OpenPlatformAccessToken.DataTokenOf)
                     then Some(EffectiveKey(old(key), clientKey, clientSecret)) else old(key)
    {
      var reply := http.Send(TokenRequest(clientKey, clientSecret));
      if reply.Err? {
        return Err(reply.error);
      }
      var response := reply.value;
      var token := OpenPlatformAccessToken.DataTokenOf(response);
      var ttl := OpenPlatformAccessToken.DataTtlOf(response);
      var failure := Http(FailurePrefix + ext.jsonEncode(response));
      if Empty(token) {
        return Err(failure);
      }
      var k := GetKey();
      var stored := StoreToken(cache.entries, k, token, ttl, failure);
      cache.Set(k, token, ttl);
      r := stored.result;
    }

    /** `refresh()`: `getAccessToken()`. */
    method Refresh(ext: Externals) returns (r: Result<string>)
      modifies this, cache, http
      ensures http.sent == old(http.sent) + [TokenRequest(clientKey, clientSecret)]
      ensures var f := FetchOutcome(ext, old(cache.entries), EffectiveKey(old(key), clientKey, clientSecret),
                                    NextReply(old(http.replies)), OpenPlatformAccessToken.DataTokenOf,
                                    OpenPlatformAccessToken.DataTtlOf, FailurePrefix);
        r == f.result && cache.entries == f.entries
      ensures key == if TokenArrived(NextReply(old(http.replies)), OpenPlatformAccessToken.DataTokenOf)
                     then Some(EffectiveKey(old(key), clientKey, clientSecret)) else old(key)
    {
      r := GetAccessToken(ext);
    }

    /**
     * `getToken()`: a usable cached token is returned without any request;
     * otherwise the token is fetched and cached under the same key.
     */
    method GetToken(ext: Externals) returns (r: Result<string>)
      modifies this, cache, http
      ensures key == Some(EffectiveKey(old(key), clientKey, clientSecret))
      ensures var cached := CachedToken(old(cache.entries), EffectiveKey(old(key), clientKey, clientSecret));
        cached.Some? ==> r == Ok(cached.value) && cache.entries == old(cache.entries)
                         && http.sent == old(http.sent) && http.replies == old(http.replies)
      ensures var k := EffectiveKey(old(key), clientKey, clientSecret);
        var f := FetchOutcome(ext, old(cache.entries), k, NextReply(old(http.replies)), OpenPlatformAccessToken.DataTokenOf,
                              OpenPlatformAccessToken.DataTtlOf, FailurePrefix);
        CachedToken(old(cache.entries), k).None? ==>
          r == f.result && cache.entries == f.entries
          && http.sent == old(http.sent) + [TokenRequest(clientKey, clientSecret)]
    {
      var k := GetKey();
      var cached := CachedToken(cache.entries, k);
      if cached.Some? {
        return Ok(cached.value);
      }
      r := Refresh(ext);
    }

    /** `toQuery()`: `['access_token' => getToken()]`. */
    method ToQuery(ext: Externals) returns (r: Result<Params>)
      modifies this, cache, http
      ensures var k := EffectiveKey(old(key), clientKey, clientSecret);
        var cached := CachedToken(old(cache.entries), k);
        var f := FetchOutcome(ext, old(cache.entries), k, NextReply(old(http.replies)), OpenPlatformAccessToken.DataTokenOf,
                              OpenPlatformAccessToken.DataTtlOf, FailurePrefix);
        var token := if cached.Some? then Ok(cached.value) else f.result;
        r == if token.Ok? then Ok([("access_token", One(token.value))]) else Err(token.error)
      ensures key == Some(EffectiveKey(old(key), clientKey, clientSecret))
      ensures var k := EffectiveKey(old(key), clientKey, clientSecret);
        CachedToken(old(cache.entries), k).Some? ==>
          cache.entries == old(cache.entries) && http.sent == old(http.sent) && http.replies == old(http.replies)
      ensures var k := EffectiveKey(old(key), clientKey, clientSecret);
        var f := FetchOutcome(ext, old(cache.entries), k, NextReply(old(http.replies)), OpenPlatformAccessToken.DataTokenOf,
                              OpenPlatformAccessToken.DataTtlOf, FailurePrefix);
        CachedToken(old(cache.entries), k).None? ==>
          cache.entries == f.entries && http.sent == old(http.sent) + [TokenRequest(clientKey, clientSecret)]
    {
      var token := GetToken(ext);
      if token.Err? {
        return Err(token.error);
      }
      r := Ok([("access_token", One(token.value))]);
    }
  }
}
