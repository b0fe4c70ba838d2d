# Cadence authentication strategies and session store, in Dafny

This project models the authentication core of the Cadence Subsonic client.

- **Strategies.** Three credential schemes (basic, token, API key) each turn
  credentials into the query parameters of a Subsonic request.
- **Salt encoder.** The token scheme's salt is random bytes written as
  lowercase hexadecimal.
- **Restoration registry.** It maps a persisted strategy tag to a variant.
- **Login glue.** It saves a session and then rebuilds an API client from it.
- **API client.** It normalises its base URL and builds fresh parameters for
  every request.
- **Browser session store.** It keeps the session in memory and persists it
  encrypted in IndexedDB, under a key derived from a passphrase.
- **Fetch classifier.** `safeFetch` sorts the outcome of a fetch into a value
  or a network, HTTP or parse error.

Everything is modelled with immutable datatypes and pure functions.

- MD5 is the parameter `md5: string -> string` and is left uninterpreted.
- Random bytes are inputs: a `SaltDraw` of six bytes per token call, the
  `kdfSaltBytes` bytes of a new key-derivation salt, and a 12-byte `Iv` per
  encryption.
- Storage failures are inputs too: a set of the storage requests that fail
  during a call.
- Cryptography is symbolic (module `Sealing`). A derived key is the triple of
  its inputs. A ciphertext made by the store remembers its key, nonce and
  plaintext. Decryption succeeds exactly under the same key and nonce. The
  round trip `decrypt(k, encrypt(k, iv, x)) = x` is therefore a lemma, not an
  assumption.

Modules, one per file:

- `outcomes.dfy`: `Option` and `Result`.
- `session.dfy`: strategy types and session records.
- `hex.dfy`: the salt encoder.
- `strategies.dfy`: the strategies and the `Auth` factories.
- `legacy_auth.dfy`: the older standalone helper.
- `restore.dfy`: the restoration registry.
- `client.dfy`: the API client.
- `auth_utils.dfy`: login and restore glue.
- `sealing.dfy`: key derivation and encryption.
- `web_session_store.dfy`: the browser store.
- `store_lifecycle.dfy` and `login_flow.dfy`: properties across several calls.
- `http.dfy`: the fetch classifier.

Three behaviours of the code are worth stating up front:

- **No caching.** A token strategy draws a new salt and token on every
  `buildAuthParams` call. It never reuses a cached pair.
- **Hydration fails closed.** A stored session that does not decrypt makes
  `create` fail. The store does not start logged out.
- **Passphrase required.** There is no passphrase-less mode: `create` throws
  without a passphrase.

## Model

| member | source | states |
|---|---|---|
| Session.ParseTag | packages/api/src/auth/session-manager.ts:1 | a tag names a strategy type exactly when it is "token", "basic" or "apikey" |
| Session.TagRoundTrip | packages/api/src/auth/session-manager.ts:1 | each strategy type has one of the three tags, and parsing undoes tagging in both directions |
| Strategies.BaseParams | packages/api/src/auth/strategy/auth-strategy.ts:4-8 | the base parameters are exactly `c`, `v`, `f`: the client name, the API version and "json", independent of any credential |
| Strategies.BuildAuthParams | packages/api/src/auth/strategy/auth-strategy.ts:10 | every strategy's parameters are a string map that carries the client identity and `u` equal to the strategy's user |
| Strategies.BasicParams | packages/api/src/auth/strategy/basic-strategy.ts:11-17 | basic parameters have exactly the keys c, v, f, u, p, with u the user and p the password |
| Strategies.DeterministicUnlessToken | packages/api/src/auth/strategy/basic-strategy.ts:11-17 | basic and API-key parameters do not depend on the random draw, so repeated calls return equal maps |
| Hex.PaddedRadix16IsByteToHex | packages/api/src/auth/strategy/token-strategy.ts:16 | `b.toString(16).padStart(2, "0")` is always the high-nibble digit followed by the low-nibble digit |
| Hex.HexEncode | packages/api/src/auth/strategy/token-strategy.ts:15-17 | encoding n bytes gives 2n characters, all lowercase hexadecimal digits |
| Hex.GenerateSalt | packages/api/src/auth/strategy/token-strategy.ts:12-18 | the loop builds the hex encoding of the drawn bytes: length 2n, lowercase hex, and it decodes back to the bytes |
| Hex.HexRoundTrip | packages/api/src/auth/strategy/token-strategy.ts:15-17 | hex-decoding a salt gives back exactly the bytes it was made from |
| Hex.HexDecodeCanonical | packages/api/src/auth/strategy/token-strategy.ts:15-17 | every string the decoder accepts is the encoding of its result, so each byte sequence has a single spelling |
| Hex.HexEncodeInjective | packages/api/src/auth/strategy/token-strategy.ts:12-18 | two draws give equal salts if and only if the draws are equal |
| Strategies.TokenParams | packages/api/src/auth/strategy/token-strategy.ts:20-30 | token parameters have exactly the keys c, v, f, u, t, s. `s` is 12 lowercase hex characters that decode to the draw, `t = md5(password + s)`, and there is no `p` key |
| Strategies.TokenSaltIsFreshPerCall | packages/api/src/auth/strategy/token-strategy.ts:20-22 | no caching: two token calls send the same salt if and only if their random draws are equal |
| Strategies.ApiKeyParams | packages/api/src/auth/strategy/api-key-strategy.ts:11-17 | API-key parameters have exactly the keys c, v, f, u, apiKey, with no p, t or s, and the key is passed through verbatim |
| Strategies.ParamsIdentifyVariant | packages/api/src/auth/strategy/api-key-strategy.ts:12-16 | `p` appears only for basic, `t` and `s` only for token, `apiKey` only for API-key strategies, each as an if-and-only-if |
| LegacyAuth.LegacyBuildAuthParams | packages/api/src/auth.ts:12-24 | the legacy helper returns exactly u, t, s, c, v, f, with f = "json", a 12-character salt that decodes to the draw, and t = md5(password + s) |
| LegacyAuth.LegacyAgreesWithTokenStrategy | packages/api/src/auth.ts:12-24 | for the same salt bytes, the legacy helper's map equals the token strategy's map |
| Strategies.AuthBasic | packages/api/src/auth/auth.ts:7-9 | `Auth.basic` gives the basic variant holding exactly the user and the password |
| Strategies.AuthWithToken | packages/api/src/auth/auth.ts:11-13 | `Auth.withToken` gives the token variant holding the user and the password, with no salt or token yet |
| Strategies.AuthWithApiKey | packages/api/src/auth/auth.ts:15-17 | `Auth.withApiKey` gives the API-key variant holding the user and the key |
| Restore.RegistryIsTotal | packages/lib/src/context/auth-context/restore-auth-strategy.ts:25-29 | the registry's keys are exactly the three tags, and each tag maps to its own variant |
| Restore.GetStrategy | packages/lib/src/context/auth-context/restore-auth-strategy.ts:31-37 | a lookup succeeds exactly for the three tags and returns the entry with that tag; any other tag fails with "Unknown strategy type: " followed by the tag |
| Restore.RestoreAuthStrategy | packages/lib/src/context/auth-context/restore-auth-strategy.ts:39-42 | restoring dispatches on the session's tag alone and passes the session and manager unchanged to that variant's `fromSession`; a session whose tag is not one of the three always fails, with no fallback |
| AuthUtils.CreateApiFromSession | packages/lib/src/context/auth-context/auth-utils.ts:6-17 | no client when `load()` is null or `baseUrl` is missing or empty; otherwise a client on `baseUrl` with the restored strategy; a restore error propagates |
| AuthUtils.PerformLogin | packages/lib/src/context/auth-context/auth-utils.ts:26-39 | the saved record has the strategy's tag, the user, and one call's parameters plus `baseUrl = url`, which overrides a parameter of that name; the result is what `createApiFromSession` gives on the same manager once its `save` has run, so `fromSession` sees a manager that already holds the saved record |
| AuthUtils.LoginYieldsClientIffUrl | packages/lib/src/context/auth-context/auth-utils.ts:32-38 | with a manager whose load returns the last save, and a `fromSession` that accepts a record given the manager that saved it, login yields a client exactly when the URL is non-empty, on that URL less one trailing slash; the saved salt is that login's salt |
| Client.StripTrailingSlash | packages/api/src/api-client.ts:13 | the result is the URL itself, or the URL with one final '/' removed; it is the URL itself exactly when the URL does not end in '/' |
| Client.StripRemovesOnlyOneSlash | packages/api/src/api-client.ts:13 | "x//" becomes "x/", so stripping is not idempotent |
| Client.NewApiClient | packages/api/src/api-client.ts:12-15 | the strategy is stored unchanged, and the base URL loses at most one trailing slash |
| Client.GetApiUrl | packages/api/src/api-client.ts:17-25 | each request's path is "rest/" + path under the client's base; its query is exactly the map of one `buildAuthParams` call with this request's draw (so basic sends `p`, API key sends `apiKey`, and no other keys appear); it carries the client identity and the user, and for a token client a salt that decodes to this call's draw, with t = md5(password + s) |
| Client.TokenRequestsDoNotReuseSalt | packages/api/src/api-client.ts:17-19 | two requests whose draws differ carry different salts |
| Client.AsWrittenDropsMountPoint | packages/api/src/api-client.ts:13-21 | for base path "/music/" the request as written goes to "/rest/ping", while the corrected resolution reaches "/music/rest/ping" |
| Client.RequestPath | packages/api/src/api-client.ts:21 | the corrected resolution keeps the whole base path and appends "rest/" + path |
| Client.RootMountsAgree | packages/api/src/api-client.ts:13-21 | for a server at the root, the as-written resolution and the corrected one agree |
| WebSessionStore.ResolveOptions | apps/web/src/lib/session-manager.ts:27-37 | supplied options win; missing ones default to "subsonic-auth", "session", "meta", "kdf_salt", 100000 iterations and 16 salt bytes; the passphrase comes from the environment |
| WebSessionStore.GetOrCreateSalt | apps/web/src/lib/session-manager.ts:127-140 | a stored non-empty salt is returned without writing; otherwise the fresh bytes are written under `keyId` and returned. A storage failure is an error, and the session store is never touched |
| WebSessionStore.SaltIsStable | apps/web/src/lib/session-manager.ts:127-140 | once a salt has been obtained, asking again returns the same salt and writes nothing, whatever the second draw is |
| WebSessionStore.EnsureCryptoKey | apps/web/src/lib/session-manager.ts:100-125 | a memoised key is returned with no storage request; otherwise the salt comes from `getOrCreateSalt` (the persisted one is reused), its errors propagate with the database it left, and on success the key derived from the passphrase and that salt is memoised and returned |
| WebSessionStore.ReadSession | apps/web/src/lib/session-manager.ts:86-98 | with no record or no payload there is no session; otherwise the result is the decryption under the manager's key, and a decryption error propagates |
| WebSessionStore.Create | apps/web/src/lib/session-manager.ts:27-45 | creation fails with "VITE_SESSION_PASSPHRASE is required" exactly when the passphrase is undefined or empty; storage and decryption errors carry other messages. A created manager has a key that matches the stored salt, and a cache equal to the decryption of the stored record. The session store is not written, and an existing salt is left as it is. With a passphrase, a failed meta or session read makes creation fail |
| WebSessionStore.CreateFailsExactlyOnUnreadableSession | apps/web/src/lib/session-manager.ts:39-44 | when storage answers, `create` fails exactly when the stored session does not decrypt under the derived key; a wrong passphrase is an error, not a logged-out start |
| WebSessionStore.Save | apps/web/src/lib/session-manager.ts:47-56 | `load` returns the saved session whatever storage does, and failures are only logged: a failed put is logged and leaves the session store unchanged. On success the singleton record holds the session sealed under the memoised key; once the key is memoised nothing else is written (a manager without a key may first write a new salt), and at most one session record exists |
| WebSessionStore.Clear | apps/web/src/lib/session-manager.ts:62-69 | `load` returns null whatever storage does. A successful delete leaves the session store as it was less the singleton record, a failed one is logged and changes nothing, and the meta store is untouched |
| Sealing.DeriveKey | apps/web/src/lib/session-manager.ts:104-123 | the key depends on the passphrase, the salt and the iteration count alone, and each can be read back from it (symbolic key) |
| Sealing.DeriveKeyInjective | apps/web/src/lib/session-manager.ts:104-123 | two derivations give the same key if and only if passphrase, salt and iteration count are all equal |
| Sealing.EncryptJson | apps/web/src/lib/session-manager.ts:142-153 | the payload carries the given 12-byte nonce, decrypts to the session under the sealing key, and under no other key |
| Sealing.DecryptJson | apps/web/src/lib/session-manager.ts:155-162 | decryption succeeds exactly for a ciphertext sealed under this key with the payload's nonce |
| Sealing.DecryptEncrypt | apps/web/src/lib/session-manager.ts:142-162 | decrypting under the sealing key returns the sealed session, and decrypting under any other key fails |
| StoreLifecycle.ReopenRestoresSavedSession | apps/web/src/lib/session-manager.ts:27-56 | a session saved without storage errors is the cache of a later `create` with the same options and passphrase |
| StoreLifecycle.WrongPassphraseFailsCreate | apps/web/src/lib/session-manager.ts:42-43 | reopening a store that holds a session with a different passphrase makes `create` fail |
| StoreLifecycle.ClearForgetsAcrossReopen | apps/web/src/lib/session-manager.ts:62-69 | after a clear that reached storage, reopening with the options the clearing manager was created with finds no session |
| StoreLifecycle.CacheIsAuthoritative | apps/web/src/lib/session-manager.ts:47-69 | save then load gives the saved session, and clear then load gives null, under any storage failures |
| LoginFlow.LoginThroughBrowserStore | packages/lib/src/context/auth-context/auth-utils.ts:32-38 | logging in through the browser store yields a client exactly when the URL is non-empty, even when persisting fails and the store began with an empty cache, given a `fromSession` that accepts a record whenever the manager it receives loads that record |
| Http.AsError | packages/lib/src/http.ts:32-37 | an `Error` reason keeps its message; any other reason is wrapped in an `Error` carrying its string form |
| Http.ErrorBodyOf | packages/lib/src/http.ts:40-47 | a non-ok response's body is its parsed JSON, or `{}` when it does not parse |
| Http.SafeFetch | packages/lib/src/http.ts:28-65 | a rejection is a network error; a non-ok response is an HTTP error with its status and headers, never a parse error; an ok response whose body does not parse is a parse error |
| Http.SafeFetchKinds | packages/lib/src/http.ts:32-64 | the result is a value exactly when fetch resolves, the response is ok and the body parses, and then it is that body. Each error kind occurs exactly under its own condition |

## Findings

| source | as written | input that shows it | evidently intended | confidence | as-written member | corrected member |
|---|---|---|---|---|---|---|
| packages/api/src/api-client.ts:13-21 | the constructor strips the base URL's trailing slash; `new URL("rest/" + path, baseUrl)` then replaces the base's last path segment | base URL "https://host/music/" and path "ping" reach "https://host/rest/ping" | "https://host/music/rest/ping": a server mounted below the root keeps its mount point | medium; not executed | Client.RequestPathAsWritten, shown by Client.AsWrittenDropsMountPoint | Client.RequestPath |

The finding is stated on the path component of the base URL. Resolution
follows the merge rule of section 5.2.3 of RFC 3986. `Client.RootMountsAgree`
shows why the bug is invisible for servers at the root.

## Left out

- Cryptographic internals are not modelled: PBKDF2 with SHA-256 (section 5.2 of RFC 8018), AES-GCM, MD5 (RFC 1321) and `crypto.getRandomValues`. Keys and ciphertexts are symbolic, MD5 is a parameter, and random bytes are inputs. Symbolic keys also mean that different derivation inputs never give the same key.
- IndexedDB mechanics are not modelled: opening, upgrade callbacks and transaction events. The database is two maps. Each `get`, `put` or `delete` either applies atomically or fails, as the fault set says. `dbName`, `storeName` and `metaStoreName` are not modelled: the database is one session store and one meta store whatever the names say, so the store lemmas speak only of managers created with the same options.
- Base64 helpers: `b64ToBuffer` and `bufferToB64` live in apps/web/src/lib/utils.ts, which is not part of this model. Salts, nonces and ciphertexts are stored as bytes. An empty stored salt counts as missing, as the empty base64 string is falsy.
- The text of a failed IndexedDB request is the browser's and is not modelled. A fixed message, `StorageFailure`, stands for it and differs from the passphrase and decryption messages.
- JSON: `JSON.stringify` followed by `JSON.parse` is taken to return the same record. The `as SessionData` cast is unchecked, which is why a session's tag is a raw string.
- Concurrency is not modelled, as every operation runs to completion. Two effects of the code therefore go unmodelled:
  - Overlapping `ensureCryptoKey` calls each derive a key.
  - A `save` that is not awaited can finish its write after a later `clear` deletes the record.
- URL handling: WHATWG URL serialisation and `URLSearchParams` encoding are not modelled. `GetApiUrl` returns the base, the relative path and the query map. Only the path merge is modelled, for the finding, and dot segments in `path` are not handled.
- Client.GetApiUrl: URL resolution is not modelled, so neither is its `TypeError` for a base that is not an absolute URL (such as "localhost:4533"). `createApiFromSession` accepts any non-empty `baseUrl`, and such a client would throw on every request; the model builds a request for every base.
- `fromSession` has no body in the shown strategy classes. It is a parameter (`Restore.FromSession`) that may succeed or fail.
- Inherited object names in the registry are not modelled. JavaScript lookup in `strategies` would also find inherited names such as "toString" or "constructor". Those lookups would throw a `TypeError` at `.fromSession` instead of "Unknown strategy type". The registry is modelled on its three own keys.
- `performLogin` reads `authStrategy.type`, but the shown strategy classes declare no `type` property. As written, `type` is `undefined`, the saved tag is the string "undefined", and every login with a non-empty URL throws "Unknown strategy type: undefined" when the session is restored. The model records each variant's own tag instead, so `AuthUtils.LoginYieldsClientIffUrl` and `LoginFlow.LoginThroughBrowserStore` hold only under that substitution.
- Query parameter order is not modelled: parameters are a map, so two parameter sets are equal when their keys and values are. `LegacyAuth.LegacyAgreesWithTokenStrategy` therefore ignores that the legacy helper inserts u, t, s, c, v, f while the token strategy inserts c, v, f, u, t, s, which makes their `URLSearchParams` and `JSON.stringify` text differ.
- The extra `sessionManager` option passed to `ApiClient` is ignored by its constructor and is not modelled.
- Option values given explicitly as `undefined` are not modelled. The object spread would copy them over the defaults; the model treats them as absent.
- Invalid `kdfIterations` or `kdfSaltBytes` values (zero, negative, or too large for `getRandomValues`) would make WebCrypto throw. Key derivation is total in the model, and `kdfSaltBytes` is a natural number.
- `safeFetch` uses two JSON body types (`T` for success, `E` for errors). They are merged into one type parameter, and `Headers` is a string map.
- `load()` only returns the cache and has no row of its own. Its behaviour is stated through `Save`, `Clear` and `StoreLifecycle.CacheIsAuthoritative`.
- The React provider, hooks, layout and app components, the ESLint configurations and the Vite type declarations are not modelled.
