# Account linkage state machine of fb_msngr_backend

This project models the account-record logic inside the Express handlers of
`App.js`: a user store keyed by email, signup and login against it, the
Facebook OAuth callback that links an account in two writes (a long-lived token
checkpoint, then a profile write that marks the account "connected"), and the
unlink (logout) handler. Each handler is a pure transition from a store and its
inputs to a new store and the payload it answers with.

- `wrappers.dfy` — `Option`, standing for JavaScript `null`/`undefined`.
- `accounts.dfy` — the `user` schema as `Account`, the store as
  `map<string, Account>`, and `updateOne` as `UpdateOne` applying a `Patch`.
  Frame predicates `SameExcept`/`StoreFrame` say which fields a write may change.
- `session.dfy` — `/signup` and `/login`; bcrypt and `jwt.sign` are the functions
  of a `Crypto` value passed in.
- `facebook.dfy` — the SDK client configuration, the redirect target built from
  an email, the `:email` route parameter read back from it, and the provider's
  answers to the three stages of a callback.
- `linkage.dfy` — `/facebook/callback/:email` and `/facebook/logout`, the stage
  lemmas, and a guarded variant of the callback (see Findings).
- `server.dfy` — runs of requests and the invariants they keep.

Modelling decisions:
- The store is keyed by email; `WellKeyed` (every record sits under its own
  email) stands in for the schema's unique email index and for queries by the
  email field. Every handler keeps it.
- The provider's answers are inputs. Each stage is either rejected (its promise
  rejects, the chain stops, nothing more is written) or resolved with the JSON
  fields it carried, each of which may be absent.
- A field whose value is `undefined` is stripped from an `updateOne` document
  (the behaviour of Mongoose 6 and later), so an absent reply field leaves the
  stored field unchanged (`Linkage.FromReply`).
- A missing or empty `code` is falsy: the callback does nothing and sends nothing.
- The callback does not check that the account exists before calling the
  provider; writes for an unknown email match nothing, while the provider is
  still called (`Linkage.CallbackUnknownEmail`).
- A profile fetch that fails after the checkpoint leaves status as it was before
  the attempt, which is "not connected" only when it was so already.
- Logout of an unknown email writes nothing and then fails reading the record
  back (`LogoutFailed`); it does not succeed as an idempotent no-op.
- Login takes the store and returns no store, so it is read-only by its type.

## Model

| member | source | states |
|---|---|---|
| Accounts.StatusText | App.js:165-168 | the two status strings the handlers write, each naming exactly one `Status`; it only records those strings, the replies carry the `Status` itself |
| Accounts.Apply | App.js:131-136 | an update document rewrites exactly the keys it sets; identity, name and digest never change |
| Accounts.UpdateOne | App.js:100-102 | `updateOne` by email changes only the touched fields of that one record; an unknown email matches nothing |
| Accounts.UpdateOneIdempotent | App.js:131-136 | repeating the same update document changes nothing further |
| Accounts.View | App.js:140-147 | the reply's public fields are exactly the record's email, name, Facebook id, page name, token and status, the same selection login makes at App.js:202-207 |
| Session.SignupReply.Error | App.js:173-181 | the `Error` field is "None" exactly for an accepted signup and "User already exists" exactly for a duplicate |
| Session.LoginReply.Login | App.js:209 | the `Login` field is true exactly for a successful login |
| Session.LoginReply.Error | App.js:201-240 | the `Error` field is "None", "Password Incorrect" or "user doesn't exist", each exactly for its outcome |
| Linkage.CodeGiven | App.js:86 | a missing or empty code is falsy and any non-empty code is truthy |
| Linkage.FromReply | App.js:98-109 | a reply field becomes an update value exactly when it is present, so an `undefined` field is stripped and leaves the stored field as it was |
| Session.NewAccount | App.js:161-169 | a new user has the given id, email, name and digest, null provider fields, "not connected", and satisfies the linkage invariant |
| Session.Signup | App.js:171-181 | an existing email gets "User already exists" and an unchanged store; a fresh email adds exactly one record, the new account, and leaves every other record as it was |
| Session.SignupPreserves | App.js:30-34 | signup keeps each record under its own email and keeps the linkage invariant |
| Session.SignupTwice | App.js:171-175 | a second signup with the same email is refused and the first record keeps its name and digest |
| Session.Login | App.js:196-240 | unknown email or email mismatch gives "user doesn't exist"; a rejected password gives "Password Incorrect" with only email and name; otherwise `Login:true`, the record's public fields and a token signed over its email and id |
| Session.LoginOutcome | App.js:196-199 | in a well-keyed store the outcome depends only on whether the email is present and whether bcrypt accepts the password; claims carry the queried email |
| Session.SignupThenLogin | App.js:164-209 | logging in right after signing up succeeds when bcrypt accepts its own digest, showing a not-connected account and claims with the new id |
| Facebook.RedirectUrl | App.js:60 | the redirect target is the callback base followed by the email |
| Facebook.PathPart | App.js:74-77 | the router matches on the prefix before the first `?` or `#`, which holds neither |
| Facebook.CallbackEmail | App.js:74-77 | the route parameter read from a target is routable, and the callback base followed by it is a prefix of the target ending at its end, a `/`, `?` or `#` |
| Facebook.CallbackEmailIgnoresSlash | App.js:74-77 | a target with one trailing `/` yields the same email as the bare target |
| Facebook.CallbackEmailIgnoresQuery | App.js:74-77 | a target followed by any query yields the same email as the bare target |
| Facebook.PathPartPrefix | App.js:74-77 | the path part stops exactly at the first `?` or `#` |
| Facebook.RedirectRoundTrip | App.js:74-82 | the callback route reads back exactly the email a target was built for, if and only if the email is routable |
| Facebook.ClientFor | App.js:79-84 | the SDK client for an email carries the app identity, graph version v17.0 and the redirect target for that email, which routes back to it |
| Facebook.FacebookLogin | App.js:53-66 | the login-URL handler asks the SDK for scope "email" under a client whose target routes back to the email |
| Linkage.TokenPatch | App.js:100-102 | the checkpoint touches the access token only |
| Linkage.ConnectPatch | App.js:105-109 | the profile write touches id, page name and status, and sets status "connected" |
| Linkage.Callback | App.js:74-124 | no code: no reply, no calls, no change; rejected exchange: provider's error data and one call; otherwise redirect to the front end; calls are made in order with the client for this email, the short token, then the long-lived token, and a rejected token fetch ends them at two |
| Linkage.CallbackEarlyFailure | App.js:86-98 | nothing is written if and only if the code, the exchange or the token fetch fails; then the store is unchanged |
| Linkage.CallbackCheckpoint | App.js:98-102 | the first write changes only this record's access token, to the token the provider returned |
| Linkage.CallbackProfileFailure | App.js:100-111 | after a failed profile fetch the token stays set while status, id and page name keep their earlier values |
| Linkage.CallbackConnectStep | App.js:104-109 | a second write happens exactly when the profile fetch resolves; it changes only id, page name and status, leaves status "connected", and puts the reply's id and name when present |
| Linkage.CallbackConnectsOnlyAtProfileStep | App.js:105-109 | a record becomes "connected" only through the profile write for its own email |
| Linkage.CallbackFullSuccess | App.js:97-109 | a fully successful run leaves token, id and page name equal to the provider's values, status "connected", and nothing else changed |
| Linkage.CallbackUnknownEmail | App.js:77-114 | for an unknown email the provider is still called and the browser redirected, while the store stays unchanged |
| Linkage.SameRedirectTarget | App.js:57-84 | the callback exchanges the code under the same client and target, `http://localhost:2000/facebook/callback/` + email, that the login-URL handler used |
| Linkage.CallbackPreservesWellKeyed | App.js:100-109 | the callback's writes never move a record to another key |
| Linkage.CallbackBreaksLinked | App.js:104-109 | there is a linked store and provider answers after which the callback leaves a record connected without provider fields |
| Linkage.GuardedCallback | App.js:97-111 | the corrected callback keeps the linkage invariant and well-keyedness, only touches provider fields, writes nothing before the token, and makes the same calls and reply as the original |
| Linkage.GuardedAgreesOnCompleteReplies | App.js:97-111 | when every reply carries its fields, the corrected callback is the original one |
| Linkage.Logout | App.js:126-153 | an existing record gets all provider fields nulled and "not connected" and is sent back; other fields and records are untouched; an unknown email changes nothing and fails |
| Linkage.LogoutIdempotent | App.js:131-138 | logging out twice gives the same store and reply as logging out once |
| Linkage.LogoutPreserves | App.js:131-136 | logout keeps well-keyedness and the linkage invariant |
| Server.Step | App.js:53-248 | login and login-URL requests leave the store unchanged; only signup adds a key |
| Server.Run | App.js:53-248 | a run of requests never removes a record |
| Server.RunKeeps | App.js:53-248 | a property that every request keeps holds after any run of requests that starts in it |
| Server.StepPreservesWellKeyed | App.js:30-34 | no single request moves a record to another key |
| Server.StepKeepsLinked | App.js:105-109 | with the corrected callback, no single request breaks the linkage invariant |
| Server.RunPreservesWellKeyed | App.js:30-34 | every run of requests keeps each record under its own email |
| Server.GuardedRunKeepsLinked | App.js:105-109 | with the corrected callback, no run leaves a record connected without id, page name and token |
| Server.SignupLinkUnlinkScenario | App.js:156-248 | signup, login (not connected), full linkage (connected, provider fields set), unlink (not connected, fields null, digest kept) |

## Left out

- HTTP transport: Express routing beyond the callback's `:email` parameter, status codes, CORS, cookies, `res.redirect` as an action; only payloads are modelled.
- Missing query parameters other than `code` (an `undefined` email, name or password) are not modelled; inputs are strings.
- Percent-decoding of the `:email` route parameter is not modelled.
- Facebook.CallbackEmail: compares the path case-sensitively and with the host included, while the router by default ignores case and matches only the path.
- The MongoDB connection and schema machinery; the store is an immutable map.
- bcrypt and JWT internals; they are the functions of `Session.Crypto`. The URL the SDK's `getLoginUrl` returns is foreign; the model states what it is asked for.
- The fetch calls and the SDK's code exchange are foreign; their outcomes are the `Facebook.Answers` of an attempt.
- Concurrency: the un-awaited `new_user.save()`, the fetch chain that keeps running after the redirect, and interleaved callbacks for one email. Every handler is atomic and sequential.
- Environment configuration (port, secrets, URLs read at start-up); the app identity is an input.
- Error paths from thrown exceptions: the `catch` around the callback (it sees only synchronous throws), a `jwt.sign` failure, a rejected exchange whose error has no `response`, and the malformed `res.send(404).send(...)` in logout, reduced to `LogoutFailed`.
- A JSON reply field that is present but `null` is not distinguished from an absent one.
- Session.Login: read-only because it returns no store, not because of a stated contract.

## Findings

| source | as written | input that shows it | evidently intended | confidence | as-written member | corrected member |
|---|---|---|---|---|---|---|
| App.js:97-109 | the profile write sets status "connected" with whatever `id` and `name` came back, and runs even when the token reply had no `access_token` | a fresh account; exchange resolves, token reply `{error}` without `access_token`, profile reply `{error}` without `id` and `name`: the record ends "connected" with no token, id or page name | mark an account connected only with a token, an id and a name, as the linkage invariant requires | medium, not executed | Linkage.CallbackBreaksLinked | Linkage.GuardedCallback |

`Server.Run` takes a `Linker` choosing either callback: the invariant over runs
(`Server.GuardedRunKeepsLinked`) is proved for the corrected one.
