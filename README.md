# chesscord-oauth account linking, modelled in Dafny

The server links a Discord user to a Lichess account with OAuth 2.0 and PKCE
(RFC 7636). The user's browser visits `/?id=<discord id>`, then `/login`, which
creates a code verifier, keeps it in the browser's session and redirects to
Lichess with its `S256` challenge. Lichess redirects back to `/callback?code=…`.
The handler exchanges the code and the stored verifier for an access token,
encrypts the token, fetches the Lichess username and inserts
(discord id, username, encrypted token, expiry) into `linked_users`.

The model has three modules:

- `Base64` (`base64.dfy`) covers `base64URLEncode`. Node's padded base64
  (section 4 of RFC 4648) is a pure function, and the three `replace` passes
  are each a function. They are proved equal to the unpadded base64url of
  section 5 of RFC 4648, which is written out independently from Table 2. A
  decoder and a round trip show that the encoding is injective.
- `Pkce` (`pkce.dfy`) covers `sha256`, `createVerifier` and `createChallenge`.
  SHA-256 is a parameter of type `seq<byte> -> Digest`, with 32-octet digests.
  The random octets are an input of length 32. Node hashes the verifier's
  UTF-8 octets, so UTF-8 encoding is modelled too, and it is proved equal to
  ASCII on verifier text.
- `LinkFlow` (`link_flow.dfy`) covers the three handlers. Class `App` holds
  the session store, a `map` from session id to `{discordID?, codeVerifier?}`,
  and the log of effects of `/callback`. `Index`, `Login` and `Callback`
  update these fields. `Callback` runs step by step: token request, encrypt,
  profile fetch, acquire connection, insert, release. Its effects and reply
  are proved equal to the function `HandleCallback`, and the lemmas state the
  flow's properties about that function. The token response, the profile,
  the clock's date text and the database outcome are inputs
  (`Answers`). The cipher is an abstract function with AES-CBC-shaped hex
  output.

In these places the code does something other than what the flow is evidently for, and the model keeps the code's behaviour:

- `/callback` does not stop when the session has no Discord id or no
  verifier. It sends the token request without the verifier and may insert
  an `undefined` id.
- A failed profile fetch is not an error. The username is then `undefined`
  in the insert.
- The statement is a plain `INSERT`, not an upsert.
- The connection is not released when the query throws (see Findings).
- `expires_at` is `new Date() + expires_in`. JavaScript concatenates the
  date's text with the digits of `expires_in`, for example
  `"Thu Oct 15 2026 …" + "3600"`. The result is not a time `expires_in`
  seconds from now. `ExpiresAt` models this concatenation.

## Model

| member | source | states |
|---|---|---|
| `Base64.Encode` | app.js:51 | Node's base64 of n octets has 4·⌈n/3⌉ characters, which is 44 for 32 octets |
| `Base64.ReplaceAll` | app.js:52-53 | `replace(/x/g, y)` keeps the length, replaces every `x` by `y` and leaves every other character where it was |
| `Base64.RemoveAll` | app.js:54 | `replace(/=/g, '')` leaves no `x` and removes every occurrence of `x` and nothing else: the result's multiset of characters is the input's with `x` taken out |
| `Base64.RemoveAllAppend` | app.js:54 | deleting distributes over concatenation, so the characters that stay keep their order |
| `Base64.UrlSafe` | app.js:52-54 | after the three passes, the text contains no `+`, `/` or `=`, whatever the input |
| `Base64.UrlSafeIsCharwise` | app.js:50-54 | the three passes together are a character-wise rewrite: `+`→`-`, `/`→`_`, `=` deleted, every other character kept in order |
| `Base64.Base64UrlEncode` | app.js:49-55 | `base64URLEncode` output has no `+`, `/` or `=` and equals unpadded base64url (section 5 of RFC 4648) of the same octets |
| `Base64.UrlEncode` | app.js:49-55 | unpadded base64url of n octets has ⌈4n/3⌉ characters, which is 43 for 32 octets, all from Table 2 of RFC 4648 |
| `Base64.CharwiseEncode` | app.js:50-54 | rewriting Node's padded base64 character by character yields exactly the unpadded base64url encoding |
| `Base64.UrlSafeMatchesRfc` | app.js:49-55 | Node's base64 followed by the three passes equals the unpadded base64url encoding |
| `Base64.UrlDecodeEncode` | app.js:49-55 | the encoding loses nothing: decoding base64url text gives back the octets |
| `Base64.UrlEncodeInjective` | app.js:49-55 | two octet strings have the same encoding exactly when they are equal |
| `Pkce.Utf8` | app.js:57 | `hash.update(string)` hashes the string's UTF-8 octets: at least one octet per character, and exactly one per character exactly when the string is ASCII |
| `Pkce.Utf8OfAscii` | app.js:57 | for an ASCII string, the UTF-8 octets that `hash.update` receives are the string's ASCII codes |
| `Pkce.CreateVerifier` | app.js:59 | a verifier is the unpadded base64url of the 32 random octets; it has 43 characters from the base64url alphabet, so it is a valid code verifier (section 4.1 of RFC 7636, 43 to 128 unreserved characters) |
| `Pkce.VerifierKeepsRandom` | app.js:59 | two verifiers are equal exactly when their random octets are: the verifier keeps all 32 of them |
| `Pkce.CreateChallenge` | app.js:61 | the challenge has 43 base64url characters and is the unpadded base64url of the SHA-256 of the verifier's UTF-8 octets |
| `Pkce.ChallengeIsS256` | app.js:57-61 | for every verifier `createVerifier` makes, the challenge is BASE64URL(SHA256(ASCII(verifier))), the `S256` method of section 4.2 of RFC 7636 |
| `Pkce.ChallengeBindsDigest` | app.js:57-61 | `createChallenge` is deterministic, and two verifiers give the same challenge exactly when their SHA-256 digests agree |
| `LinkFlow.ExpiresAt` | app.js:131 | `new Date() + expires_in` is longer than the date's text and starts with it: it is a string concatenation |
| `LinkFlow.ExpiresAtGluesDigits` | app.js:131 | with `expires_in` 3600 the column receives the date text followed by "3600"; with no `expires_in` it receives the date text followed by "undefined" |
| `LinkFlow.AuthorizationFor` | app.js:67-77 | the `/login` redirect goes to Lichess's authorization endpoint with `response_type` `code`, the client id, the callback URI, the scope, `code_challenge_method` `S256` and the given challenge |
| `LinkFlow.TokenRequestFor` | app.js:85-91 | the token request body carries `grant_type` `authorization_code`, the callback URI, the client id, the code and the session's verifier, each absent when undefined |
| `LinkFlow.HandleCallback` | app.js:101-105 | every `/callback` starts with a token request carrying the code and the verifier stored in that session |
| `LinkFlow.CallbackFollowsPipeline` | app.js:101-155 | the effects of `/callback` are a prefix of: exchange, encrypt, profile fetch, acquire, insert, release |
| `LinkFlow.NoAccessTokenNoEffects` | app.js:107-115 | the token-failure page is sent exactly when no truthy `access_token` came back; then the token request is the only effect, with no encryption, profile fetch, connection or insert |
| `LinkFlow.InsertComesFromSessionAndProfile` | app.js:125-138 | an insert happens only after a truthy access token came back, and its row is (session `discordID`, profile username, ciphertext of that token, `expires_at`) |
| `LinkFlow.LinkedExactlyOnSuccess` | app.js:133-146 | the success page is sent exactly when the token came back and both database calls succeeded; then the effects are one insert of that row, followed by the release |
| `LinkFlow.DatabaseFailures` | app.js:133-154 | if `getConnection` or the query throws, the failure page is sent and no release happens; a failing `getConnection` acquires nothing and inserts nothing |
| `LinkFlow.QueryFailureLeaksConnection` | app.js:133-154 | as written, a query that throws leaves one connection held |
| `LinkFlow.HandleCallbackReleasing` | app.js:133-154 | with the release moved into a `finally`, `/callback` sends the same reply as written and performs the same effects, followed by at most one extra release |
| `LinkFlow.ReleasingNeverLeaks` | app.js:133-154 | with the release in a `finally`, no run of `/callback` leaves a connection held |
| `LinkFlow.App.constructor` | app.js:18-27 | the server starts with an empty session store and no effects |
| `LinkFlow.App.Index` | app.js:29-46 | `/` writes `req.query.id` into the session even when it is absent; it sends the failure script when the id is falsy and the landing page otherwise; no other session changes |
| `LinkFlow.App.Login` | app.js:63-78 | `/login` stores a fresh valid verifier in the session, replacing any earlier one; it redirects with `code_challenge_method` `S256` and the challenge of exactly that verifier; no other session changes |
| `LinkFlow.App.Callback` | app.js:101-155 | `/callback` performed step by step appends exactly the effects of `HandleCallback` for the session it reads, sends its reply, and leaves the sessions unchanged |
| `LinkFlow.Visit` | app.js:29-78 | after `/?id=…` and `/login`, the browser's session holds that id and the new verifier, and every other session is unchanged |
| `LinkFlow.LinkOneAccount` | app.js:29-155 | visiting `/?id=12345`, `/login` and `/callback?code=abc` with token "tok1", 3600 s and username "alice" gives the success page and one insert of ("12345", "alice", ciphertext of "tok1", `expires_at`); the code is exchanged with the verifier whose challenge went to Lichess |
| `LinkFlow.TwoSessionsStayApart` | app.js:29-155 | two overlapping browsers each run `/callback` exactly as if their own session were alone, with their own verifier and Discord id |

## Findings

| source | as written | input that shows it | evidently intended | confidence | as-written member | corrected member |
|---|---|---|---|---|---|---|
| app.js:133-154 | `connection.release()` is inside the `try`, after the query, so a query that throws skips it and the `catch` only sends the failure page | a token comes back, `pool.getConnection()` succeeds and the `INSERT` throws (for example, if `id` is a unique key of `linked_users` and the Discord id is already linked) | give the connection back on every path, in a `finally` | high; not executed | `LinkFlow.QueryFailureLeaksConnection` | `LinkFlow.ReleasingNeverLeaks` |

## Left out

- Express setup, cookie-parser, the session middleware's options, `res.sendFile`, `app.listen` and console output are framework plumbing. Sessions never expire in the model, so the 24-hour `maxAge` is not modelled.
- The `fetch` calls to the token and account endpoints are network I/O. Their parsed JSON answers are inputs (`Answers`). A `fetch` or `res.json()` that rejects ends the handler with an unhandled promise rejection, and that path is not modelled.
- AES-256-CBC, its key and its IV come from the environment through a foreign library. The cipher is an abstract function (`Cipher`) whose output is a positive multiple of 32 lower-case hex digits. The `update`/`final` pair is folded into one call. An invalid key or IV, which throws, is not modelled. There is no decryption in the code, so no round trip is stated.
- SHA-256 is a parameter of the model with a 32-octet result, and its internals are not modelled. `crypto.randomBytes(32)` is an input of 32 octets.
- The MySQL pool and the SQL text are external storage. They appear only as `DbOutcome` and the effect log. Table contents, and whether an insert that throws wrote anything, are not modelled.
- LinkFlow.ExpiresAt: `expires_in` is taken as an integer written in decimal digits. JavaScript writes numbers of magnitude 10^21 or more in exponent form ("1e+21"), and `JSON.parse` rounds integers beyond 2^53, so for such answers the text appended differs from `Digits`. Those inputs are not modelled.
- `new Date()` is an input: the text the date converts to. `expires_in` is modelled as an integer or absent. Non-integer JSON numbers and other JSON types are not modelled.
- The HTML and script bodies of the replies become the `Reply` enum. The `URLSearchParams` percent-encoding of the redirect becomes the `AuthorizationRedirect` record of its parameters.
- `req.query.id` and `req.query.code` are modelled as a string or absent. Repeated query parameters, which Express turns into arrays, are not modelled.
- JavaScript strings are UTF-16. The model's strings hold Unicode scalar values, so `hash.update` on a lone surrogate is not modelled. Verifiers are ASCII, so they are not affected.
- Concurrency is modelled only as interleaving whole handlers (`TwoSessionsStayApart`). express-session loads a request's session when the request starts, so `Callback` reads the session once, at its start. Each request also saves its own copy back when it ends (`resave: true`). Two requests of the same browser that overlap can therefore overwrite each other's writes, and this is not modelled.
