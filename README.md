# hello-douyin core, modelled in Dafny

The model covers the core of the hello-douyin PHP SDK for the Douyin open
platform, the Douyin mini-program API and the VeGame cloud-gaming API. It has
three protocol pieces and the rules around them:

- **Webhook envelope check and decryption** (`DecryptXmlMessage`, used by the
  open-platform `Server`).
  - A callback is accepted only when its non-empty `signature` equals the SHA-1
    of the token, timestamp, nonce and ciphertext, sorted as strings and
    concatenated.
  - Only an accepted callback is decrypted; its parsed fields are then merged
    into the message.
  - `Server::serve` echoes a truthy `echostr` back.
  - Otherwise it prepends the decryption step to the handler pipeline. Each
    handler fires for one `InfoType`.
- **Canonical request signing** (VeGame `STSToken` and `InteractWithClient`).
  This is an AWS Signature Version 4-style scheme with these parts:
  - a key-sorted, URL-encoded canonical query;
  - a fixed canonical-request layout;
  - the credential scope `YYYYMMDD/cn-north-1/veGame/request`;
  - a four-step HMAC-SHA256 key chain;
  - the `Authorization` header.
- **Credential cache-or-refresh managers**: the mini-program access token, the
  open-platform access token, the OAuth client token, the VeGame STS token and
  the open-platform authorizer token.
  - Each one derives a memoised cache key.
  - It returns a truthy cached token without calling the provider.
  - On a miss it fetches the token, rejects an empty one and caches it under the
    same key, with a TTL taken from the response.
- **The application objects' small rules**:
  - lazily filled slots (account, encryptor, server, access token);
  - the `getEncryptor` configuration check;
  - the failure judges and the retry predicate;
  - the retry wrapping rule;
  - the sandbox base URI.

How the pieces are modelled:

- Digests, the cipher, the XML parser and `json_encode` are the function-valued
  fields of `Kernel.Externals`. The model never looks inside them.
- A cache is a class holding a map from key to (value, TTL).
- An HTTP client is a class that logs every request it sends and answers from a
  script of decoded replies. An exhausted script stands for a transport failure.
- The current time (`now`, the UTC date string) and `strtotime` are parameters.
- PHP values are the datatype `Php.Json`. PHP's `empty`, `(bool)`, `(string)`,
  `intval`, `??`, `str_contains`, `urlencode`, `ksort`/`sort`, `rtrim` and
  `array_merge_recursive` are written out for it in `php.dfy`, `php_sort.dfy`,
  `transport.dfy` and `vegame_client.dfy`.
- A thrown exception or PHP error is the `Err` side of `Kernel.Result`.

Modules, one per file:

| file | module | source |
|---|---|---|
| `php.dfy`, `php_sort.dfy` | `Php`, `PhpSort` | PHP built-ins the core relies on |
| `kernel.dfy` | `Kernel` | errors, configuration lookup, the `Encryptor` handle |
| `transport.dfy`, `cache.dfy` | `Transport`, `CredentialCache` | the HTTP client and cache interfaces, and the shared cache-or-fetch step |
| `decrypt_xml_message.dfy` | `DecryptXmlMessage` | `src/Kernel/Traits/DecryptXmlMessage.php` |
| `vegame_signing.dfy` | `VeGameSigning` | `buildParams` and `authorization` of both VeGame files |
| `vegame_sts_token.dfy` | `VeGameSTSToken` | `src/VeGame/STSToken.php` |
| `vegame_client.dfy` | `VeGameClient` | `src/VeGame/Traits/InteractWithClient.php` |
| `miniprogram_access_token.dfy` | `MiniProgramAccessToken` | `src/MiniProgram/AccessToken.php` |
| `openplatform_access_token.dfy` | `OpenPlatformAccessToken` | `src/OpenPlatform/AccessToken.php` |
| `openplatform_oauth_client_token.dfy` | `OpenPlatformOauthClientToken` | `src/OpenPlatform/OauthClientToken.php` |
| `openplatform_server.dfy` | `OpenPlatformServer` | `src/OpenPlatform/Server.php` |
| `openplatform_application.dfy` | `OpenPlatformApplication` | `src/OpenPlatform/Application.php` |
| `miniprogram_application.dfy` | `MiniProgramApplication` | `src/MiniProgram/Application.php` |

## Model

| member | source | states |
|---|---|---|
| Php.CoerceToString | src/Kernel/Traits/DecryptXmlMessage.php:42-48 | passing a value to a `string` parameter fails exactly for null and arrays, and a string passes unchanged |
| Php.NatToString | src/MiniProgram/AccessToken.php:51 | a decimal rendering is non-empty and made only of digits |
| Php.PositiveNatToString | src/OpenPlatform/Application.php:328-330 | a positive number never renders as `"0"` |
| Php.TruthyToStr | src/OpenPlatform/Application.php:328-332 | `(string)` of a truthy value is a truthy string, so a stored authorizer token counts as a cache hit |
| Php.DigitRun | src/MiniProgram/AccessToken.php:140 | the digit run read by `intval` stays inside the string, is all digits and stops at the first non-digit |
| Php.DigitsValueOfNatToString | src/MiniProgram/AccessToken.php:140 | reading back a rendered natural number gives that number |
| Php.IntValOfIntToString | src/MiniProgram/AccessToken.php:140 | `intval((string)$i) == $i` for every integer, so a numeric-string TTL means what it says |
| Php.ContainsIff | src/MiniProgram/Application.php:184-185 | `str_contains` holds exactly when the needle occurs at some offset |
| Php.UrlEncodeChar | src/VeGame/STSToken.php:248-251 | an encoded byte never contains `&` or `=` |
| Php.UrlEncodeHasNoSeparators | src/VeGame/STSToken.php:248-251 | an encoded string never contains `&` or `=` |
| PhpSort.StrLeTotal | src/Kernel/Traits/DecryptXmlMessage.php:55 | the string order compares any two strings |
| PhpSort.StrLeAntisymmetric | src/Kernel/Traits/DecryptXmlMessage.php:55 | strings ordered both ways are equal |
| PhpSort.StrLeTransitive | src/Kernel/Traits/DecryptXmlMessage.php:55 | the string order is transitive |
| PhpSort.InsertByPermutes | src/Kernel/Traits/DecryptXmlMessage.php:55 | inserting adds exactly the inserted element and loses none |
| PhpSort.InsertBySorted | src/Kernel/Traits/DecryptXmlMessage.php:55 | inserting into an ordered sequence keeps it ordered |
| PhpSort.SortByCorrect | src/Kernel/Traits/DecryptXmlMessage.php:55 | `sort` and `ksort` yield an ordered permutation of their input |
| PhpSort.SortBySorted | src/Kernel/Traits/DecryptXmlMessage.php:55 | the sort's result is in ascending key order |
| PhpSort.SortByPermutes | src/Kernel/Traits/DecryptXmlMessage.php:55 | the sort's result holds exactly the input's elements, each as often |
| PhpSort.SortedPermutationUnique | src/Kernel/Traits/DecryptXmlMessage.php:55 | two ordered permutations of the same elements, keyed injectively, are equal |
| PhpSort.SortByIgnoresOrder | src/VeGame/STSToken.php:243 | sorting two permutations of the same uniquely keyed entries gives the same result |
| Kernel.ConfigGet | src/MiniProgram/Application.php:159-163 | a dotted configuration lookup yields the stored value, or the default once a segment is missing or not an array; stated outright for one segment and for two (`http.throw`): the nested value when both keys exist, else the default |
| Transport.Lookup | src/VeGame/Traits/InteractWithClient.php:64-79 | a key has a value in an ordered array exactly when some entry carries it |
| Transport.IndexOf | src/VeGame/Traits/InteractWithClient.php:64-79 | the position found is the first entry with the key, and there is none when no entry has it |
| Transport.SetEntryLookup | src/VeGame/Traits/InteractWithClient.php:81 | after `$ps[$k] = $v` the key `$k` has value `$v` and every other key keeps its value |
| Transport.LookupAppend | src/VeGame/Traits/InteractWithClient.php:64-79 | an appended entry is found only when its key was new |
| Transport.HttpClient.Send | src/MiniProgram/AccessToken.php:156-166 | a request is logged in order and answered with the next scripted reply, or a transport failure when the script is exhausted |
| CredentialCache.Cache.Set | src/MiniProgram/AccessToken.php:172 | `set` stores (value, TTL) under the key and changes no other key |
| CredentialCache.StoreToken | src/MiniProgram/AccessToken.php:168-174 | an empty token throws and leaves the cache alone; otherwise it is stored under the key with the TTL and returned, and then it is a cache hit; other keys are untouched |
| CredentialCache.FetchOutcome | src/OpenPlatform/AccessToken.php:124-142 | a fetch passes on a transport error, throws `HttpException` with the prefix and the JSON reply for an empty token and leaves the cache unchanged, or stores and returns the token; other keys are never touched |
| DecryptXmlMessage.ValidateSignature | src/Kernel/Traits/DecryptXmlMessage.php:42-60 | an empty signature (`""` or `"0"`) is refused with the empty-signature error; a non-empty one is accepted iff it equals `sha1` of the sorted, concatenated four values; every refusal is a `BadRequestException` |
| DecryptXmlMessage.ValidateSignatureIgnoresOrder | src/Kernel/Traits/DecryptXmlMessage.php:53-57 | for any arrangement of the four values, the outcome is that of hashing that arrangement sorted: the supply order never matters |
| DecryptXmlMessage.SignedStringIsSortedArrangement | src/Kernel/Traits/DecryptXmlMessage.php:53-55 | the hashed string is an ordered permutation of exactly token, timestamp, nonce and ciphertext |
| DecryptXmlMessage.Message.Merge | src/Kernel/Traits/DecryptXmlMessage.php:27-34 | merged fields take their new values and every other attribute keeps its old one |
| DecryptXmlMessage.DecryptMessage | src/Kernel/Traits/DecryptXmlMessage.php:16-37 | the message's attributes become the outcome of check-then-decrypt on its own `Encrypt` field, the same message object is returned, and on failure the message is left unchanged |
| DecryptXmlMessage.RejectedEnvelopeIsNeverDecrypted | src/Kernel/Traits/DecryptXmlMessage.php:25-34 | when validation fails the outcome is that failure, whatever the cipher and the parser would do |
| DecryptXmlMessage.AcceptedMessageMerge | src/Kernel/Traits/DecryptXmlMessage.php:23-34 | on success the `Encrypt` field was the checked value and the decrypted one, parsed fields took their parsed values (none when parsing gives null), and the other attributes kept theirs |
| DecryptXmlMessage.EmptySignatureAlwaysRejected | src/Kernel/Traits/DecryptXmlMessage.php:49-51 | an empty signature always fails, with the empty-signature message whenever the message has a string ciphertext |
| VeGameSigning.Pair | src/VeGame/STSToken.php:248-251 | a pair `urlencode(k)=urlencode(v)` has exactly one `=` and no `&` |
| VeGameSigning.RTrim | src/VeGame/STSToken.php:254 | `rtrim` yields a prefix that does not end with the trimmed character |
| VeGameSigning.TrimTerminated | src/VeGame/STSToken.php:245-254 | trimming the `&`-terminated pairs gives exactly the pairs joined by `&` |
| VeGameSigning.BuildParams | src/VeGame/STSToken.php:240-255 | the loop builds exactly the canonical query: key-sorted entries, one encoded pair per value in order, joined by `&` |
| VeGameSigning.AppendEntry | src/VeGame/Traits/InteractWithClient.php:172-181 | one turn of the outer loop appends the entry's pairs, each followed by `&` |
| VeGameSigning.AppendValues | src/VeGame/Traits/InteractWithClient.php:175-178 | the inner loop appends one pair per array element, in the array's order |
| VeGameSigning.TrimAmpersands | src/VeGame/Traits/InteractWithClient.php:183 | the trimming loop computes `rtrim($query, '&')` |
| VeGameSigning.CanonicalQueryShape | src/VeGame/Traits/InteractWithClient.php:169-184 | the canonical query uses the entries sorted by key and permuted from the input, is empty iff there is no value, and never ends with `&` |
| VeGameSigning.CanonicalQueryIgnoresOrder | src/VeGame/STSToken.php:243 | two listings of the same uniquely keyed entries give the same canonical query |
| VeGameSigning.SignatureLayout | src/VeGame/STSToken.php:205-234 | for a `YYYYMMDDTHHMMSSZ` date: the scope is `date[..8]/cn-north-1/veGame/request`, the key chain is the four HMAC steps keyed by the raw previous digest, and the header has the fixed `HMAC-SHA256 Credential=…, SignedHeaders=…, Signature=…` form |
| VeGameSigning.SigningKeyIsPerDay | src/VeGame/STSToken.php:221-231 | two dates of the same day derive the same signing key and scope |
| VeGameSigning.HeaderLayoutLookups | src/VeGame/STSToken.php:138-147 | in the STS header list, `Host`, `Content-Type`, `X-Date`, `X-Content-Sha256` and `Authorization` are each found with the value listed for them |
| VeGameSigning.AuthorizationIgnoresQueryOrder | src/VeGame/Traits/InteractWithClient.php:127-162 | for any method and path, listing the query entries in another order gives the same `Authorization` header |
| VeGameSTSToken.STSRequest | src/VeGame/STSToken.php:127-161 | the STS request is a `GET /` carrying the fixed `Host` and `Content-Type`, whose `X-Date`, body hash and query are those its signature covers, so a receiver with the key pair accepts it; it has `Action=STSToken` and the `expire` string |
| VeGameSTSToken.STSFetch | src/VeGame/STSToken.php:161-172 | an empty `Result.token` throws and caches nothing; otherwise `Result.token` is cached under the key with TTL `strtotime(expire_at) - now` and returned; other keys are untouched |
| VeGameSTSToken.STSToken.constructor | src/VeGame/STSToken.php:38-52 | the manager keeps its collaborators and takes its date from the current UTC time |
| VeGameSTSToken.STSToken.GetKey | src/VeGame/STSToken.php:54-57 | the key is `douyin_vegame:AK_SK:sts_token` on first use and remembered, or the key already set |
| VeGameSTSToken.STSToken.SetKey | src/VeGame/STSToken.php:59-64 | after `setKey(k)` the key is `k` |
| VeGameSTSToken.STSToken.GetAccessToken | src/VeGame/STSToken.php:158-173 | exactly the signed STS request is sent and the cache and result follow `STSFetch` |
| VeGameSTSToken.STSToken.Fetch | src/VeGame/STSToken.php:160-172 | the given request is sent once; the result, the cache and the remembered key follow `STSFetch` |
| VeGameSTSToken.STSToken.Refresh | src/VeGame/STSToken.php:112-115 | `refresh()` is `getAccessToken()` with the empty body |
| VeGameSTSToken.STSToken.GetToken | src/VeGame/STSToken.php:75-84 | a usable cached token is returned with no request and no cache change; otherwise one STS request is sent and `STSFetch` decides |
| VeGameSTSToken.STSToken.ToQuery | src/VeGame/STSToken.php:98-101 | `toQuery()` is `['access_token' => getToken()]`, or `getToken`'s error; the key is then remembered, a hit changes neither the cache nor the requests, and a miss sends the one refresh request and leaves the cache as the fetch decides |
| VeGameClient.MergeEntryLookup | src/VeGame/Traits/InteractWithClient.php:64-79 | merging one caller entry changes only its own key's value |
| VeGameClient.MergeRecursiveLookup | src/VeGame/Traits/InteractWithClient.php:64-79 | after `array_merge_recursive` a key keeps the default's value, takes the caller's, or holds both as one array with the default's first |
| VeGameClient.ActionInQuery | src/VeGame/Traits/InteractWithClient.php:64-90 | after `setAction(a)` the signed query's `Action` is `a`, or `a` followed by the caller's own values |
| VeGameClient.GetRequestIsSigned | src/VeGame/Traits/InteractWithClient.php:61-84 | the request `get('/', $options)` sends verifies under the configured key pair exactly when the caller sets none of `Host`, `Content-Type`, `X-Date` and `X-Content-Sha256` |
| VeGameClient.SignedForRequestIsSigned | src/VeGame/Traits/InteractWithClient.php:61-84 | a request carrying the options signed for its own method and path verifies exactly when the caller sets none of the four signed headers; a caller value turns that header into a two-element array |
| VeGameClient.GetRequestCarriesBothBodies | src/VeGame/Traits/InteractWithClient.php:63-79 | with a caller `body`, the request `get` sends carries that value both as `json` and as the raw `body` option, since `$this->options` holds both |
| VeGameClient.SignedHeaderLookups | src/VeGame/Traits/InteractWithClient.php:72-81 | after merging the caller's headers and setting `Authorization`, each of `Host`, `Content-Type`, `X-Date` and `X-Content-Sha256` holds its default, or the default and the caller's value as one array when the caller also sets it; `Authorization` holds the signature |
| VeGameClient.PostRequestIsUnsigned | src/VeGame/Traits/InteractWithClient.php:189-195 | the request `post` sends as written carries no header, so no key pair verifies it |
| VeGameClient.Client.SetAction | src/VeGame/Traits/InteractWithClient.php:86-90 | sets the action and nothing else |
| VeGameClient.Client.SetUTCDate | src/VeGame/Traits/InteractWithClient.php:92-98 | sets the date to the current UTC time and nothing else |
| VeGameClient.Client.Authorization | src/VeGame/Traits/InteractWithClient.php:127-162 | an unset date is an error, unset options fail the `array` access, and otherwise the header is the signing scheme's for `GET /` over the options' query and the configured `ak`/`sk` |
| VeGameClient.Client.AuthorizationFor | src/VeGame/Traits/InteractWithClient.php:127-162 | the same steps and errors as `authorization()`, with the canonical request laid out for the given method and path |
| VeGameClient.Client.SetHttpClientOptions | src/VeGame/Traits/InteractWithClient.php:61-84 | an unset action or date fails and changes nothing; otherwise the defaults are merged with the caller's options and stored; a non-array body fails after storing; otherwise `Authorization` for `GET /` over the merged query is added |
| VeGameClient.Client.SignOptions | src/VeGame/Traits/InteractWithClient.php:61-84 | the steps and errors of `setHttpClientOptions`, with `Authorization` signed for the given method and path |
| VeGameClient.Client.Get | src/VeGame/Traits/InteractWithClient.php:200-206 | a fresh date, then the signed options, then exactly one `GET` request carrying all of them: query, headers, `json` and the caller's `body` entry; with no action nothing is sent and the options stay; with a non-array body the merged options are stored unsigned, a `TypeError` is raised and nothing is sent |
| VeGameClient.Client.Post | src/VeGame/Traits/InteractWithClient.php:189-195 | as written: the date is refreshed and the options are signed and stored, but the request is sent without them; the failure paths are those of `Get` |
| VeGameClient.Client.PostSigned | src/VeGame/Traits/InteractWithClient.php:189-195 | as intended: the options are signed for the `POST` to the requested path, and the request carries them all; the failure paths are those of `Get` |
| VeGameClient.PostSignedRequestIsSigned | src/VeGame/Traits/InteractWithClient.php:189-195 | the corrected `post` request verifies under the configured key pair for every path, exactly when the caller sets none of the four signed headers |
| MiniProgramAccessToken.StableAndPlainKeysDiffer | src/MiniProgram/AccessToken.php:49-52 | the stable and the plain token of one app are cached under different keys |
| MiniProgramAccessToken.AccessToken.GetKey | src/MiniProgram/AccessToken.php:49-52 | the key is `mini_app.access_token.appId.secret.(0/1)` on first use and remembered, or the key already set |
| MiniProgramAccessToken.AccessToken.SetKey | src/MiniProgram/AccessToken.php:54-59 | after `setKey(k)` the key is `k` |
| MiniProgramAccessToken.AccessToken.Fetch | src/MiniProgram/AccessToken.php:136-142 | one request is sent; the top-level `access_token` is stored and returned, or its emptiness throws and nothing is stored (`FetchOutcome`) |
| MiniProgramAccessToken.AccessToken.GetStableAccessToken | src/MiniProgram/AccessToken.php:121-143 | one POST to the stable endpoint with `client_credential`, appid, secret and `force_refresh`; outcome as `FetchOutcome` with the stable failure prefix |
| MiniProgramAccessToken.AccessToken.GetAccessToken | src/MiniProgram/AccessToken.php:154-175 | one GET of `cgi-bin/token` with `client_credential`, appid and secret; outcome as `FetchOutcome` |
| MiniProgramAccessToken.AccessToken.Refresh | src/MiniProgram/AccessToken.php:107-110 | the stable endpoint (not forced) exactly when the manager is stable, otherwise the plain one |
| MiniProgramAccessToken.AccessToken.GetToken | src/MiniProgram/AccessToken.php:70-79 | a truthy cached string is returned with no request and no cache change; otherwise `refresh()` sends one request and caches under the same key |
| MiniProgramAccessToken.AccessToken.ToQuery | src/MiniProgram/AccessToken.php:93-96 | `toQuery()` is `['access_token' => getToken()]`, or `getToken`'s error; the key is then remembered, a hit changes neither the cache nor the requests, and a miss sends the one refresh request and leaves the cache as the fetch decides |
| OpenPlatformAccessToken.ScopesKeepKeysApart | src/OpenPlatform/AccessToken.php:52-55 | tokens of different scopes are cached under different keys |
| OpenPlatformAccessToken.AccessToken.constructor | src/OpenPlatform/AccessToken.php:35-50 | the manager keeps its app id, secret, key, cache, client and scope |
| OpenPlatformAccessToken.AccessToken.GetKey | src/OpenPlatform/AccessToken.php:52-55 | the key is `douyin_open_platform.access_token.appId.secret.scope` on first use and remembered, or the key already set |
| OpenPlatformAccessToken.AccessToken.SetKey | src/OpenPlatform/AccessToken.php:57-62 | after `setKey(k)` the key is `k` |
| OpenPlatformAccessToken.AccessToken.GetAccessToken | src/OpenPlatform/AccessToken.php:124-142 | one POST of `api/apps/v2/token`; the nested `data.access_token` is stored with TTL `intval(data.expires_in)` and returned, or its emptiness throws and nothing is stored |
| OpenPlatformAccessToken.AccessToken.Refresh | src/OpenPlatform/AccessToken.php:110-113 | `refresh()` is `getAccessToken()` |
| OpenPlatformAccessToken.AccessToken.GetToken | src/OpenPlatform/AccessToken.php:73-82 | a truthy cached string is returned with no request; otherwise one fetch caches under the same key |
| OpenPlatformAccessToken.AccessToken.ToQuery | src/OpenPlatform/AccessToken.php:96-99 | `toQuery()` is `['access_token' => getToken()]`, or `getToken`'s error; the key is then remembered, a hit changes neither the cache nor the requests, and a miss sends the one refresh request and leaves the cache as the fetch decides |
| OpenPlatformOauthClientToken.ClientTokenKeyIsNotAnAppTokenKey | src/OpenPlatform/OauthClientToken.php:50-53 | a client-token key never equals an open-platform access-token key |
| OpenPlatformOauthClientToken.OauthClientToken.GetKey | src/OpenPlatform/OauthClientToken.php:50-53 | the key is `douyin_open_platform.oauth.client_token.key.secret` on first use and remembered, or the key already set |
| OpenPlatformOauthClientToken.OauthClientToken.SetKey | src/OpenPlatform/OauthClientToken.php:55-60 | after `setKey(k)` the key is `k` |
| OpenPlatformOauthClientToken.OauthClientToken.GetAccessToken | src/OpenPlatform/OauthClientToken.php:122-140 | one JSON POST of `oauth/client_token/`; `data.access_token` is stored and returned, or its emptiness throws and nothing is stored |
| OpenPlatformOauthClientToken.OauthClientToken.Refresh | src/OpenPlatform/OauthClientToken.php:108-111 | `refresh()` is `getAccessToken()` |
| OpenPlatformOauthClientToken.OauthClientToken.GetToken | src/OpenPlatform/OauthClientToken.php:71-80 | a truthy cached string is returned with no request; otherwise one fetch caches under the same key |
| OpenPlatformOauthClientToken.OauthClientToken.ToQuery | src/OpenPlatform/OauthClientToken.php:94-97 | `toQuery()` is `['access_token' => getToken()]`, or `getToken`'s error; the key is then remembered, a hit changes neither the cache nor the requests, and a miss sends the one refresh request and leaves the cache as the fetch decides |
| OpenPlatformServer.Without | src/OpenPlatform/Server.php:118-120 | removing a closure drops every occurrence of it and keeps all the other closures |
| OpenPlatformServer.WithoutAbsent | src/OpenPlatform/Server.php:118-120 | removing a closure that is not registered changes nothing |
| OpenPlatformServer.WithoutForwardingClosureRemovesNothing | src/OpenPlatform/Server.php:109-120 | removing the default's forwarding closure removes nothing, because only its wrapper is ever registered |
| OpenPlatformServer.GetDecryptedMessage | src/OpenPlatform/Server.php:158-171 | a message that cannot be read is that error; a missing `signature` always fails; success means the message decrypted under its own query |
| OpenPlatformServer.DecryptRunsFirst | src/OpenPlatform/Server.php:129-144 | with the decryption step first, a rejected envelope fails the run whatever the handlers do, and an accepted one hands the decrypted message to the rest |
| OpenPlatformServer.UnsignedRequestNeverHandled | src/OpenPlatform/Server.php:137-139 | a request without `signature` never reaches a handler; with a ciphertext it fails with the empty-signature error |
| OpenPlatformServer.InfoTypeRouting | src/OpenPlatform/Server.php:73-75 | a filter calls its handler iff `InfoType` is exactly its string, and otherwise passes the message on unchanged |
| OpenPlatformServer.UnansweredRunSucceeds | src/OpenPlatform/Server.php:59 | with no answering closure the pipeline answers `200 success` |
| OpenPlatformServer.DefaultVerifyTicketHandlerSurvives | src/OpenPlatform/Server.php:107-124 | as written: after a default handler and a replacement, the default's wrapper is still registered and answers a verify-ticket message first |
| OpenPlatformServer.ReplacedVerifyTicketHandlerIsGone | src/OpenPlatform/Server.php:107-124 | as intended: the default's wrapper is gone and only the replacement answers |
| OpenPlatformServer.Server.With | src/OpenPlatform/Server.php:73 | a new closure is appended after the registered ones |
| OpenPlatformServer.Server.Prepend | src/OpenPlatform/Server.php:57 | a new closure is placed before the registered ones |
| OpenPlatformServer.Server.WithoutHandler | src/OpenPlatform/Server.php:119 | the pipeline loses exactly the given closure |
| OpenPlatformServer.Server.HandleAuthorized | src/OpenPlatform/Server.php:71-78 | appends one fresh filter closure on `authorized` and keeps the rest; the default-handler and wrapper slots are unchanged |
| OpenPlatformServer.Server.HandleUnauthorized | src/OpenPlatform/Server.php:83-90 | appends one fresh filter closure on `unauthorized` and keeps the rest; the default-handler and wrapper slots are unchanged |
| OpenPlatformServer.Server.HandleAuthorizeUpdated | src/OpenPlatform/Server.php:95-102 | appends one fresh filter closure on `updateauthorized` and keeps the rest; the default-handler and wrapper slots are unchanged |
| OpenPlatformServer.Server.HandleVerifyTicketRefreshed | src/OpenPlatform/Server.php:116-127 | as written: removes nothing and appends one fresh filter on `component_verify_ticket`; both default slots are unchanged |
| OpenPlatformServer.Server.WithDefaultVerifyTicketHandler | src/OpenPlatform/Server.php:107-111 | as written: a fresh forwarding closure becomes the default and a fresh filter forwarding to it is appended; earlier wrappers stay and the wrapper slot is not updated |
| OpenPlatformServer.Server.HandleVerifyTicketRefreshedCorrected | src/OpenPlatform/Server.php:116-127 | as intended: the registered default wrapper is removed, then a fresh filter is appended; both default slots are unchanged |
| OpenPlatformServer.Server.WithDefaultVerifyTicketHandlerCorrected | src/OpenPlatform/Server.php:107-111 | as intended: the pipeline becomes the old one without an earlier default's wrapper, plus a fresh wrapper that forwards to a fresh default closure; both are remembered |
| OpenPlatformServer.Server.Serve | src/OpenPlatform/Server.php:49-66 | a truthy `echostr` is answered 200 with exactly that text and the pipeline untouched; otherwise an unreadable message is that error, and a readable one runs the pipeline with the decryption step prepended; the default slots are unchanged |
| OpenPlatformApplication.FailureJudge | src/OpenPlatform/Application.php:309 | a response has failed iff its `errcode` is truthy |
| OpenPlatformApplication.HttpClientDefaultOptions | src/OpenPlatform/Application.php:343-351 | the base URI is the sandbox one iff `is_sandbox` is truthy, unless the `http` options set one; every `http` option is kept |
| OpenPlatformApplication.TicketOutcome | src/OpenPlatform/Application.php:198-207 | an empty `data.ticket` throws `Failed to get ticket: ` with the JSON; a non-string ticket fails the return type; otherwise the result is exactly the ticket |
| OpenPlatformApplication.RefreshOutcome | src/OpenPlatform/Application.php:231-240 | an empty `authorizer_access_token` throws; otherwise the result is the whole response |
| OpenPlatformApplication.CachedAuthorizerToken | src/OpenPlatform/Application.php:328-330 | a cached authorizer token is reused iff its string form is truthy |
| OpenPlatformApplication.AuthorizerFetch | src/OpenPlatform/Application.php:331-336 | a refused refresh changes nothing; otherwise the token's string form is cached with TTL `intval(expires_in ?? 7200) - 500` and returned, and it is then a cache hit; other keys are untouched |
| OpenPlatformApplication.AuthorizerKeysSeparateApps | src/OpenPlatform/Application.php:325 | authorizer apps with dot-free ids never share a cache key |
| OpenPlatformApplication.Application.GetAccount | src/OpenPlatform/Application.php:55-67 | the set account, or the one built from the configuration, which is then kept |
| OpenPlatformApplication.Application.SetAccount | src/OpenPlatform/Application.php:69-74 | replaces the account only |
| OpenPlatformApplication.Application.GetEncryptor | src/OpenPlatform/Application.php:83-95 | built once from the account, with the app id as the receive id, then the same object |
| OpenPlatformApplication.Application.SetEncryptor | src/OpenPlatform/Application.php:97-102 | replaces the encryptor only |
| OpenPlatformApplication.Application.GetAccessToken | src/OpenPlatform/Application.php:128-141 | an empty shared slot gets a fresh application token manager for the account; the slot's occupant is returned |
| OpenPlatformApplication.Application.GetOauthClientToken | src/OpenPlatform/Application.php:143-155 | the same slot, filled with a fresh client-token manager when empty, so whichever getter runs first decides both |
| OpenPlatformApplication.Application.CreateClient | src/OpenPlatform/Application.php:304-312 | the client carries the shared token slot (a fresh application token manager for the account when it was empty, which also fixes the account) and throws on failure unless `http.throw` is falsy; the encryptor is unchanged |
| OpenPlatformApplication.Application.JsbTicket | src/OpenPlatform/Application.php:184-208 | a failed token sends nothing; otherwise exactly one ticket request with the token header is sent and `TicketOutcome` decides |
| OpenPlatformApplication.Application.RefreshAuthorizerToken | src/OpenPlatform/Application.php:219-241 | one POST with the component app id and the authorizer's id and refresh token; `RefreshOutcome` decides |
| OpenPlatformApplication.Application.GetAuthorizerAccessToken | src/OpenPlatform/Application.php:323-337 | a truthy cached token is returned with no request and the account unchanged; otherwise one refresh for the (now fixed) account, cached under the same key as `AuthorizerFetch` says; the encryptor and token slot are unchanged |
| MiniProgramApplication.ShouldRetry | src/MiniProgram/Application.php:182-186 | the retry predicate holds iff there is a body containing both `42001` and `access_token expired` (the emptiness test adds nothing) |
| MiniProgramApplication.FailureJudge | src/MiniProgram/Application.php:170-172 | a response has failed iff `errcode` is truthy or `error` is present and not null |
| MiniProgramApplication.RetryPolicyOf | src/MiniProgram/Application.php:159-165 | the retry wrapper is used iff `http.retry` is truthy, with `(int)http.max_retries` retries, 2 when that key is absent |
| MiniProgramApplication.HttpClientDefaultOptions | src/MiniProgram/Application.php:193-201 | the base URI is the sandbox one iff `is_sandbox` is truthy and `developer.toutiao.com` otherwise, unless the `http` options set one; every `http` option is kept |
| MiniProgramApplication.Application.GetAccount | src/MiniProgram/Application.php:50-63 | as written: with no account set the call fails on the undeclared `isSandbox` argument and stores nothing |
| MiniProgramApplication.Application.GetAccountCorrected | src/MiniProgram/Application.php:50-63 | as intended: the configured account is built once and kept |
| MiniProgramApplication.Application.SetAccount | src/MiniProgram/Application.php:65-70 | replaces the account only |
| MiniProgramApplication.Application.GetEncryptor | src/MiniProgram/Application.php:75-94 | an empty token or AES key throws `token or aes_key cannot be empty.` and stores nothing; otherwise the encryptor is built once and the same object is returned from then on; built on `GetAccountCorrected`, so it shows the getter once the `isSandbox` error is fixed |
| MiniProgramApplication.Application.SetEncryptor | src/MiniProgram/Application.php:96-101 | replaces the encryptor only |
| MiniProgramApplication.Application.GetServer | src/MiniProgram/Application.php:108-118 | built once; it gets the encryptor iff the AES key is non-empty, and none otherwise; the account is fixed, the encryptor slot changes only when the server is built with a new encryptor, and the token slot is unchanged; built on `GetAccountCorrected`, so it shows the getter once the `isSandbox` error is fixed |
| MiniProgramApplication.Application.SetServer | src/MiniProgram/Application.php:120-125 | replaces the server only |
| MiniProgramApplication.Application.GetAccessToken | src/MiniProgram/Application.php:127-140 | as written: a filled slot is returned; an empty one fails on the undeclared `isSandbox` argument; no slot changes |
| MiniProgramApplication.Application.GetAccessTokenCorrected | src/MiniProgram/Application.php:127-140 | as intended: an empty slot gets a fresh non-stable mini-program manager for the account's app id and secret; the slot's occupant is returned; the encryptor and server slots are unchanged |
| MiniProgramApplication.Application.SetAccessToken | src/MiniProgram/Application.php:142-147 | the slot holds the given token object; the account, encryptor and server slots are unchanged |
| MiniProgramApplication.SetThenGetAccessToken | src/MiniProgram/Application.php:127-147 | after `setAccessToken(t)` both `getAccessToken()` versions return `t` |
| MiniProgramApplication.Application.CreateClient | src/MiniProgram/Application.php:155-175 | the client follows `RetryPolicyOf`, carries the slot's token (a fresh manager for the account's app id and secret when it was empty) and throws on failure unless `http.throw` is falsy; built on `GetAccessTokenCorrected`, so it shows the method once the `isSandbox` error is fixed; the encryptor and server slots are unchanged |

## Left out

- SHA-1, SHA-256, HMAC-SHA256, `hex2bin`, `md5`, AES-CBC decryption, `Xml::parse` and `json_encode` are opaque functions. No property of theirs is assumed.
- The transport is not modelled: `HttpClient::create`, `ScopingHttpClient`, base-URI resolution, status codes, `toArray` decoding and JSON body encoding. A reply is a decoded value, or a transport failure.
- Client construction is not modelled: `getClient` memoisation, `AccessTokenAwareClient` attaching the token to each request, `setPresets`, `options_by_regexp`, and the default cache and HTTP-client construction in the token managers' constructors.
- The re-sending done by `RetryableHttpClient` and `RequestUtil::mergeDefaultRetryOptions` is not modelled; only the retry decision and the wrapping rule are.
- Cache TTL expiry is not modelled. An entry stays readable until it is overwritten, and its TTL is only recorded.
- CredentialCache.StoreToken: the cache-hit clauses (and those of `CredentialCache.FetchOutcome`, `VeGameSTSToken.STSFetch`, `OpenPlatformApplication.AuthorizerFetch` and the `GetAccessToken` methods built on them) assume the TTL is positive. PSR-16 `set` with a TTL of zero or less deletes the entry instead, so the next read misses. Such TTLs arise from an `expire_at` already in the past (src/VeGame/STSToken.php:170), from an absent or non-numeric `expires_in`, where `intval` gives 0 (src/OpenPlatform/AccessToken.php:139, src/OpenPlatform/OauthClientToken.php:137, src/MiniProgram/AccessToken.php:140 and :172), and from an `expires_in` of 500 or less after the `- 500` (src/OpenPlatform/Application.php:333).
- `Kernel\Config`, `InteractWithHandlers`, `RespondXmlMessage`, `ServerResponse` and `Message::createFromRequest` are not part of this model.
  - Configuration lookup is taken to descend dotted paths.
  - Handler identity is taken to be object identity.
  - A message that cannot be read is an error.
- Handler returns are simplified. A non-response return value becomes an XML reply in the abstract, and the `?? $result` fallback for a null handler result is not modelled.
- OAuth redirects, user mapping, Pay and the other application getters are not part of this model: `getOAuth`, `setOAuthFactory`, `getMiniProgram*`, the open-platform `getServer`/`setServer`, and `getUtils`.
- `OpenPlatformApplication.Application.JsbTicket`: it is given the outcome of `$oauthClientToken->getToken()`, not the token object. The token managers' `GetToken` models that call.
- `OpenPlatformApplication.HttpOptions`: `(array)` of the `http` configuration keeps its string keys only. Numeric keys and a non-array `http` value are not modelled.
- Account fields are strings and their getters' null checks are not modelled, because accounts built from configuration always hold strings.
- `MiniProgramApplication.Application.GetAccessToken`: an account set through `setAccount` is taken to have an `isSandbox()` method. An account without one would fail on the undefined method instead, also before any manager exists.
- `MiniProgramAccessToken.AccessToken.constructor`: a `null` `stable` flag is treated as `false`, which is how it behaves in both of its uses.
- `VeGameSTSToken.STSToken.constructor`: the `date` constructor argument is not a parameter, because the constructor always overwrites it with the current time.
- Query and header values are strings or lists of strings. Integer, boolean and nested values, and `urlencode` of multi-byte characters, are not modelled.
- `Php.IntVal` reads leading whitespace, a sign and digits. Exponent and hexadecimal forms and overflow to float are not modelled.
- PHP integers are unbounded here. TTL arithmetic does not wrap at 64 bits.
- VeGameClient.Client.Get: the request carries the `json` body and the caller's raw `body` entry side by side, as `$this->options` does. The HTTP library's handling of a request with both options is not modelled (it may refuse it), so `SignedBy` judges the `json` body only. Caller option keys other than `body`, `query` and `headers`, and a caller `json` entry merged into the default one, are not modelled.
- VeGameClient.GetRequestIsSigned: covers the path `/` only. `authorization()` always signs `GET /`, so `get` to any other path carries a signature over `/`; whether a receiver refuses it depends on the digests, which are opaque here, so the model claims nothing for it.
- VeGameSigning.SignedBy: the receiver is taken to rebuild the canonical request from the method, path, query, JSON body and the four signed headers it receives, and to require the fixed `Host` and `Content-Type`. Digest collisions are not modelled.
- VeGameSigning.BuildParams: query keys are taken to be non-numeric strings, compared byte by byte. PHP turns a decimal-integer key such as `"5"` into an integer, and `urlencode` of an integer raises a TypeError under `strict_types`. `ksort`'s default order compares two numeric-string keys as numbers. Neither is modelled.
- MiniProgramApplication.Application.GetEncryptor: built on `GetAccountCorrected`. As written, a fresh application fails first with the `isSandbox` error of `getAccount()`.
- MiniProgramApplication.Application.GetServer: built on `GetEncryptor`, so on `GetAccountCorrected`. As written, a fresh application fails first with the `isSandbox` error of `getAccount()`.
- MiniProgramApplication.Application.CreateClient: built on `GetAccessTokenCorrected`. As written, `createClient()` fails with the `isSandbox` error whenever the token slot is empty, even when an account is set.
- OpenPlatformServer.Without: removes every registration of the closure. A handler list that unsets only the first matching index behaves differently only when one closure is registered twice.

## Findings

| source | as written | input that shows it | evidently intended | confidence | as-written member | corrected member |
|---|---|---|---|---|---|---|
| src/MiniProgram/Application.php:58 and :135 | `getAccount()` and `getAccessToken()` pass the named argument `isSandbox:` to `MiniProgram\Account` and `MiniProgram\AccessToken`, and neither constructor declares such a parameter, so PHP throws an `Error` | a fresh application: the first `getAccount()`, `getEncryptor()` or `getAccessToken()` | build the account and the token manager from the configured values, without that argument | high, not executed | MiniProgramApplication.Application.GetAccount, MiniProgramApplication.Application.GetAccessToken | MiniProgramApplication.Application.GetAccountCorrected, MiniProgramApplication.Application.GetAccessTokenCorrected |
| src/VeGame/Traits/InteractWithClient.php:194 | `post()` signs and stores the options but calls `request('POST', $path)` without them, so no query, signature header or body is sent | any `post('/', ['body' => ...])` with an action set | send the signed options, as `get()` does, signed for the `POST` to the requested path rather than for `GET /` | high, not executed | VeGameClient.Client.Post, VeGameClient.PostRequestIsUnsigned | VeGameClient.Client.PostSigned, VeGameClient.PostSignedRequestIsSigned |
| src/OpenPlatform/Server.php:107-124 | `withDefaultVerifyTicketHandler` stores the forwarding closure but registers a different wrapper closure, so the later `withoutHandler($this->defaultVerifyTicketHandler)` removes nothing | `withDefaultVerifyTicketHandler(d)` then `handleVerifyTicketRefreshed(u)`, with a `component_verify_ticket` message that `d` answers | the default handler is replaced by `u` | medium (depends on `withoutHandler` comparing closures by identity), not executed | OpenPlatformServer.Server.HandleVerifyTicketRefreshed, OpenPlatformServer.DefaultVerifyTicketHandlerSurvives | OpenPlatformServer.Server.HandleVerifyTicketRefreshedCorrected, OpenPlatformServer.ReplacedVerifyTicketHandlerIsGone |
