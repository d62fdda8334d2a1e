# jetono authentication core, in Dafny

jetono is a hapi plugin. It keeps users and opaque access tokens in two
collections and registers three authentication schemes:

- `jetono-token` accepts a bearer token, from the `Authorization` header or from
  a query parameter.
- `jetono-signin` exchanges a user name and password for a new access token. The
  credentials come from a `Basic` header or from the payload.
- `jetono-signup` creates a user and its first access token from the payload.

This project models the decision logic under the plugin's framework plumbing.
The store is in memory. Hashing is an uninterpreted function. Random bytes,
object ids and base64 decoding are parameters. Each scheme is modelled as the
code runs it, and its contracts prove what it decides and how it changes the
store.

Modules, one per component:

- `Common` (common.dfy): `undefined` as `Option`, JavaScript truthiness, the
  hapi errors, and `Result`.
- `Tokens` (tokens.dfy): the 62-character alphabet and the token generator of
  the access-token pre-save hook.
- `Passwords` (passwords.dfy): the user record, and the user document with
  `setPassword` and `comparePassword`.
- `Requests` (requests.dfy): the request, JavaScript `split`, bearer-token
  extraction and `Basic` header parsing. All of it is pure.
- `Store` (store.dfy): the `users` and `accessTokens` collections (class
  `Models`, the source's `request.models`) and the access-token document with
  its pre-save hook.
- `Schemes` (schemes.dfy): the options, `createToken`, and the `authenticate`
  and `payload` phases of the three schemes. `request.auth` is the class
  `RequestAuth`, which the payload phases assign to in place.

How the model represents the source:

- Hashing is a parameter `hash: string -> Digest`. It stands for any digest
  bcrypt would accept for its input. A stored digest matches a candidate
  exactly when it equals `hash(candidate + pepper)`.
- The random bytes of `crypto.randomBytes(24)` are a parameter `buf`. So is the
  object id of a new user, which must not be in use.
- Base64 decoding of the `Basic` field is a parameter `decode`.
- The `validateToken` hooks are functions from the resolved access token to an
  optional error.
- A missing `request.models` is a `null` `Models?`.
- Credentials are a JavaScript object, `map<string, Value>`, so the key names
  the code writes and reads can be seen.

Where the code differs from what it evidently aims at, the model follows the
code:

- The sign-in payload phase is meant to do nothing when the authenticate phase
  has already signed the user in from a `Basic` header, so that one sign-in
  mints one token. The code tests `credentials.userName`,
  but every writer sets `credentials.username`. So the test never passes for
  credentials the plugin wrote (`ShortCircuitNeverFires`). A `Basic` sign-in
  whose request has a payload runs `createToken` a second time (`SigninRequest`).
- A password that is too short is rejected with `unauthorized`, not with a
  separate weak-password error.
- A `minPasswordLength` of 0 means 6 (`options.minPasswordLength || 6`).
- A taken user name and a token collision are the store's own unique-index
  errors (`DuplicateKey`), which hapi renders as 500.
- A sign-up whose token save fails keeps the user it has already saved.
- A missing password field reaches the hash as the string `"undefined"`. So a
  user whose password is `"undefined"` is accepted without one
  (`SetThenCompare`), for instance from a `Basic` header with no colon
  (`BasicWithoutColon`).

## Model

| member | source | states |
|---|---|---|
| `Tokens.GenerateToken` | index.js:59-71 | From 24 bytes the loop builds a token of exactly 24 characters. Character `i` is `chars[buf[i] % 62]`, every character is an ASCII letter or digit, and the token equals `TokenOf(buf)`. |
| `Tokens.TokenOfSpec` | index.js:66-71 | A token has one character per byte, character `i` is the character of byte `i`, and every character is alphanumeric. |
| `Tokens.AlphabetIsAlphanumeric` | index.js:8 | A character is in the alphabet exactly when it is an ASCII letter or digit. |
| `Tokens.AlphabetDistinct` | index.js:8 | No character occurs twice in the alphabet. |
| `Tokens.CharsLiteral` | index.js:8 | The alphabet, defined as three runs, is the source's 62-character string. |
| `Tokens.CharsAt` | index.js:8-9 | The alphabet has 62 characters: upper-case letters, then lower-case letters, then digits, in order. |
| `Tokens.CharOfSpec` | index.js:68-69 | A byte maps to an alphanumeric character, and two bytes map to the same character exactly when they agree modulo 62. |
| `Tokens.TokenOfResidues` | index.js:66-71 | Two byte strings give the same token exactly when they have the same residues modulo 62, position by position. |
| `Tokens.ByteBias` | index.js:68 | The modulo-62 map is biased: the first 8 characters each come from 5 byte values, the other 54 each from 4. |
| `Store.AccessTokenDocument.PreSave` | index.js:58-74 | A document that already has a token keeps it and nothing is generated. Otherwise its token becomes the one generated from the bytes. |
| `Common.StatusCode` | index.js:114-119 | `unauthorized` renders 401 and `badRequest` 400; the internal error and the store's own errors render 500. |
| `Passwords.MinLength` | index.js:37 | The effective minimum is the configured length, except that a configured 0 (falsy) gives 6. |
| `Passwords.ComparePassword` | index.js:44-46 | The candidate matches exactly when a digest is stored and it equals the hash of the candidate (as JavaScript stringifies it) plus the pepper. A missing digest, compared as `""`, never matches, since digests are never empty. |
| `Passwords.UserDocument.SetPassword` | index.js:32-43 | A falsy password clears the digest without error. A shorter password gives unauthorized with the minimum and leaves the digest unchanged. Any other password stores `hash(password + pepper)`. |
| `Passwords.SetThenCompare` | index.js:32-46 | A password that was set is accepted by comparison. With an injective hash it is the only candidate accepted, or a missing candidate when the password is `"undefined"`. |
| `Common.JsString` | index.js:45 | `password + pepper` turns an undefined password into `"undefined"`. |
| `Requests.Split` | index.js:110 | JavaScript `split` always gives at least one piece, and no piece contains the separator. |
| `Requests.JoinSplit` | index.js:110 | Joining the pieces of a split with the separator gives back the original string. |
| `Requests.SplitJoin` | index.js:150-152 | Pieces without the separator, once joined, split back into the same pieces. |
| `Requests.ExtractToken` | index.js:110-116 | The token is the second space-separated header field, else the `tokenField` query parameter. A result is never empty, and no token means none. |
| `Requests.HeaderToken` | index.js:110 | For a header `<scheme> <token>`, with or without further space-separated fields, the header token is used, whatever the query holds. |
| `Requests.QueryToken` | index.js:111-116 | Without a second header field the query parameter is the token when it is non-empty, and there is no token otherwise. |
| `Requests.ParseBasic` | index.js:150-152 | Basic credentials are read exactly when the first header field lower-cases to `basic` and the second field is non-empty. |
| `Requests.BasicHeader` | index.js:150-153 | A `Basic` header (scheme in any case, further header fields ignored) whose field decodes to `name:password` yields that name and password. A password is cut at its first colon. |
| `Requests.BasicWithoutColon` | index.js:150-153 | A `Basic` header (further header fields ignored) whose field decodes to a string without a colon yields that string as the user name and an undefined password. |
| `Requests.PayloadField` | index.js:174-176 | A payload field is defined exactly when the payload exists and has that key, and its value is the payload's value for that key. |
| `Requests.FieldName` | index.js:175-176 | `config.<field> || default`: an undefined or empty configured name gives the default, any other gives itself. |
| `Requests.HeaderText` | index.js:110 | `request.headers.authorization || ""`: the header when present, `""` otherwise. |
| `Requests.QueryParameter` | index.js:112 | A query parameter is defined exactly when the query has that key, and is its value. |
| `Requests.ToLower` | index.js:151 | Lower-casing keeps the length and maps each ASCII capital to its small letter, leaving every other character as it is. |
| `Requests.LeadingFields` | index.js:110 | `<a><sep><b>` followed by nothing or by more separated pieces splits with `a` and `b` as its first two pieces. |
| `Requests.EmptyFieldQueryToken` | index.js:110-116 | A header whose second field is empty (`Bearer `, or two spaces after the scheme) falls back to the query parameter, or gives no token. |
| `Store.Models.FindUser` | index.js:135 | The lookup finds a user exactly when the name is defined and stored, and the user found has that name. |
| `Store.Models.Resolve` | index.js:97-101 | A token resolves exactly when it is stored, to its own user, the one whose id it is bound to. |
| `Store.Models.SaveUser` | index.js:28 | Saving a user is refused for an empty name or a taken name, and the store is then unchanged. Otherwise the user is added under its name and id. |
| `Store.Models.SaveAccessToken` | index.js:54 | The pre-save hook runs. A token already stored gives a unique-index error and no change. Otherwise exactly that token is added, bound to the user. |
| `Schemes.DefaultOptions` | index.js:12-19 | Defaults: `tokenField` is "token", there is no hook, the minimum is 6, and the pepper has at least 10 characters. |
| `Schemes.Identity` | index.js:125 | The credentials written for a user are exactly `{username, id}`, with the user's name and id. |
| `Schemes.ActiveHook` | index.js:121 | The route's `validateToken` hook takes precedence over the global one. |
| `Schemes.TokenAuthenticate` | index.js:108-126 | Checks in order: no token gives unauthorized (even with no store); no store gives an internal error; an unknown token gives unauthorized "Invalid token". A stored token succeeds with its owner's `{username, id}` when the active hook is absent or accepts, and gives the hook's error when it rejects. |
| `Schemes.BearerTokenAuthenticates` | index.js:110-125 | A stored token sent as `Bearer <token>` authenticates as its owner unless the active hook rejects it. If the hook rejects it, the hook's error is the result. |
| `Schemes.QueryTokenAuthenticates` | index.js:110-125 | A stored token given only as the `tokenField` query parameter authenticates as its owner unless the active hook rejects it, whose error is then the result. |
| `Schemes.CreateTokenOutcome` | index.js:131-143 | No store gives an internal error. An unknown user or a wrong password gives unauthorized. Success means the user exists, the password matches and the generated token is new, and the result is that user and token. |
| `Schemes.GeneratedTokenShape` | index.js:59-71 | A generated token is 24 characters long and has no space. |
| `Schemes.CreateToken` | index.js:131-143 | The result is `CreateTokenOutcome`. On success exactly one new token, bound to the user, is added and resolves to that user, and users are unchanged. On failure the store is unchanged. |
| `Schemes.SigninAuthenticate` | index.js:148-163 | A `Basic` header runs `createToken` on its name and password and replies `{username, id}` and `{token}`, or the error. Any other request gets `{}` and the store is unchanged. |
| `Schemes.TokenArtifacts` | index.js:156 | The artifacts written on sign-in and sign-up are exactly `{token}`. |
| `Schemes.ShortCircuits` | index.js:168-171 | The payload phase's early-return test passes only when the credentials have a `userName` key and the artifacts a `token` key. |
| `Schemes.ShortCircuitReadsUserName` | index.js:168-171 | The test ignores `username`: setting it never changes the verdict. Credentials with a truthy `userName` and a non-empty token artifact pass it. |
| `Schemes.ShortCircuitNeverFires` | index.js:168-172 | The payload phase's `credentials.userName` test fails for `{}` and for every `{username, id}` the plugin writes. |
| `Schemes.SigninUserName` | index.js:175 | The sign-in user name is the payload's value for the configured user-name field, `username` when none is configured, and undefined when the payload lacks it. |
| `Schemes.SigninPassword` | index.js:176 | The sign-in password is the payload's value for the configured password field, `password` when none is configured, and undefined when the payload lacks it. |
| `Schemes.SigninPayload` | index.js:165-181 | If the short-circuit test passes, nothing changes. Otherwise `createToken` runs on the configured payload fields, and on success credentials and artifacts are set to the user and the new token. On failure `request.auth` is unchanged. |
| `Schemes.SigninRequest` | index.js:148-181 | A Basic sign-in whose request has a payload, once both phases succeed, has minted two distinct new tokens, and its artifacts carry the second. |
| `Schemes.SignupAuthenticate` | index.js:188-190 | The sign-up authenticate phase always replies empty credentials. |
| `Schemes.SignupCheck` | index.js:194-205 | A missing or empty username, password or repeatPassword gives badRequest. Otherwise a mismatched repeat gives unauthorized "Passwords are mismatched". Otherwise the name and password are returned. |
| `Schemes.CreateUser` | index.js:209-211 | A password that is too short, or a taken name, gives the error and leaves the store unchanged. Otherwise a user with the given id, name and `hash(password + pepper)` is added. |
| `Schemes.SignupPayload` | index.js:192-216 | Checks in order: field errors, then no store, then a short password or a taken name; none of these changes the store or `request.auth`. Then the user is saved. A token collision keeps the user. Success adds one token bound to the new user and sets its credentials and artifacts. Afterwards its password compares and its token resolves to it. |

## Left out

- The access-token cache (`getOrGenerate`, its lifetime, single flight and sharing between concurrent requests) is a library that is not part of this model. Token validation is a plain store lookup. Only the default lifetime (300000) is recorded, as a constant.
- bcrypt is not modelled: no salts, no work factor (4 in tests, 10 otherwise), and no 72-byte input limit. Hashing is the uninterpreted `hash` parameter, so a digest is a function of its input.
- `crypto.randomBytes`: the bytes are a parameter, and its error path (an I/O failure) is not modelled.
- The Joi validation and annotation of the options is a library. Only the defaults are recorded.
- The mongoose schemas, `extendUserModel`/`extendAccessTokenModel`, the plugin dependency wiring and model registration are framework plumbing. Object ids are a parameter, required to be unused.
- The `co` generators, callbacks, `reply` and `next` are async plumbing. Each phase is one sequential method, and hapi's passing of the authenticate reply into `request.auth` is the `RequestAuth` constructor.
- `new Buffer(..., "base64")` decoding is the `decode` parameter.
- The `validateToken` hooks are abstract functions of the resolved token. They cannot see or change anything else.
- Payload and query values are strings, or absent. Numbers and other JSON values in the payload are not modelled.
- Password length is counted in Unicode scalar values, where JavaScript counts UTF-16 code units.
- `toLowerCase` is modelled for ASCII letters only. No other character lower-cases into `basic`.
- `findOne({userName: undefined})` is modelled as matching no user.
- An access token whose user is missing is excluded by the store invariant (`Models.Valid`). With no deletion, the core cannot create one.
- Concurrency between requests is not modelled. Each operation runs alone on the store.
- The `validateToken` hooks can throw only the errors of `Error`. A real hook can throw any hapi error (403, say), whose status `StatusCode` does not cover.
- The id written into credentials is the model's numeric `Id`. The store's `user.id` is the hex string of the object id.
- Digests are non-empty strings. A stored empty digest, which bcrypt never produces, is not modelled.
- `Store.Models.SaveUser`: the store's other validation failures and connection errors are not modelled. Only the `required` and unique-index checks are.
