# User session controller: a Dafny model

This project models the account and session handlers of a small Express
back end (`src/controllers/user.controller.js`):

- registration;
- login, which issues an access/refresh token pair;
- logout, which clears the account's refresh-token slot;
- refresh, which checks a presented refresh token against the slot and
  rotates it.

The handlers work on one piece of mutable state. That state is a table of
user documents, each with a single nullable refresh-token slot.

Files:

- `model.dfy` (module `Model`): the values.
  - Tokens are `Token(kind, subject, serial)`. The serial comes from the
    store's counter, so no two issued tokens are equal.
  - `Account` records, the error kinds and statuses, and the ASCII
    lower-casing applied to usernames.
- `session.dfy` (module `Session`): each handler as a function from a store
  `State` to a `Step` (outcome plus new state). The store invariant `Valid`
  says:
  - serials and ids are below their counters;
  - every filled slot holds a refresh token that the store issued to that
    account.
- `properties.dfy` (module `SessionProperties`): the lemmas that relate
  several calls:
  - one live token per account;
  - a rotated token is stale;
  - logout revokes;
  - the two defects listed under Findings;
  - the login/refresh/refresh scenario.
- `user_controller.dfy` (module `UserController`): class `UserStore`.
  - Its fields are the store's map, the set of issued tokens and the two
    counters.
  - It has one `modifies this` method per handler, which runs the handler's
    guards in order and updates the fields.
  - Each method is proved to yield the outcome and new state that its
    `Session` function describes, and to keep `Valid`.

Abstractions:

- Signing and `jwt.verify`: a token "verifies" with the refresh secret
  exactly when the store issued it and its kind is `Refresh`. It then yields
  its subject.
- `isPasswordCorrect` lives in the account model, which is not part of this
  model. It is an injected predicate `(Account, string) -> bool`: a `const`
  field of `UserStore`, and a parameter of `Session.Login`.
- `user.save` may fail. Its outcome is the input `saveOk`.
- `User.findOne({$or: [{username}, {email}]})` is modelled as choosing the
  matching account with the least id; the store itself does not promise
  which match it returns. An absent identifier matches no account.
- The image uploads are inputs:
  - `hasAvatarFile` says whether the request carried an avatar file;
  - `avatarUrl` and `coverUrl` are the URLs the image host returned, absent
    when it returned nothing.
- Logout takes the id of the already-authenticated account. The route puts
  the handler behind `verifyJWT` (`src/routes/user.routes.js:27`).
- If issuance fails (missing account or failed save), the store is left
  exactly as it was.

The model follows the code, including where the code departs from a sound
protocol:

- Login distinguishes "no such account" (404) from "wrong password" (401).
- Any pair-issuance failure is a 500.
- The refresh handler's presence guard is modelled as written, inverted (see
  Findings). The corrected handler only appears as
  `RefreshAccessTokenIntended`.
- Line 193 reads `throws new ApiError(...)`, which does not parse. Taken
  literally, the whole controller module fails to load, so no handler
  (register, login, logout, refresh) runs at all. "As written" in this model
  therefore means the file with the evidently intended `throw` at line 193:
  a stale token is rejected with 401.

## Model

| member | source | states |
|---|---|---|
| `Model.ToLower` | src/controllers/user.controller.js:86 | the stored username has the input's length and each character is the input's character lower-cased |
| `Model.ToLowerIsLower` | src/controllers/user.controller.js:86 | a lower-cased username has no upper-case letter, one without upper-case letters is unchanged, and lower-casing is idempotent |
| `Session.FindFrom` | src/controllers/user.controller.js:54-56 | the least id in a range whose account matches the username or the email, or none when no account in the range matches |
| `Session.FindAccount` | src/controllers/user.controller.js:117-119 | `findOne` on `$or` of username and email: a matching account with no earlier match; none exactly when no stored account matches, in a valid store |
| `Session.IssuePair` | src/controllers/user.controller.js:8-23 | succeeds iff the account exists and the save succeeds; then the account's slot holds the returned refresh token, the tokens are fresh and of the right kind and subject, no other account changes and the invariant is kept; otherwise 500, no tokens and the store unchanged |
| `Session.Register` | src/controllers/user.controller.js:41-87 | empty fullname, username, email, password give 400 in that order; an account matching username or email gives 409; no avatar file or no upload result gives 400; otherwise one new account is inserted, under an id that is fresh in a valid store, holding the input's fullname, email and password, the lower-cased username and an empty refresh-token slot; every failure leaves the store unchanged |
| `Session.Login` | src/controllers/user.controller.js:111-131 | neither identifier gives 400, no matching account 404, a failed password check 401; success exactly when all three pass and the save succeeds, and then the returned pair is the one `IssuePair` mints for the found account (access and refresh token of that account, both fresh) and its slot holds the returned refresh token; failures leave the store unchanged |
| `Session.Logout` | src/controllers/user.controller.js:153-159 | the account's slot is cleared, its other fields and every other account are unchanged, and a missing id changes nothing |
| `Session.RefreshBody` | src/controllers/user.controller.js:181-201 | verification succeeds only on a refresh token the store signed: an absent token fails with "jwt must be provided", an access token or one the store never signed with "invalid", the store unchanged; the body succeeds exactly for a live token (issued, refresh kind, account present, equal to its slot) with a successful save; a token for a missing account is 401 invalid, one that differs from the slot is 401 expired-or-used; on success the outcome is exactly the pair `IssuePair` mints for the token's subject, the slot holds the new refresh token, which differs from the presented one, and the presented token is no longer live; failures leave the store unchanged |
| `Session.RefreshAccessToken` | src/controllers/user.controller.js:173-213 | as written: a present token (cookie or body) is rejected with 401 unauthorized, and an absent one fails verification, which the catch turns into 401 "jwt must be provided"; the store never changes |
| `Session.RefreshAccessTokenIntended` | src/controllers/user.controller.js:173-213 | guard corrected: absent token 401; success exactly for a live token with a successful save, returning a fresh access token for the token's subject and the new refresh token, the refresh token being then the live token of the account while the presented one is not; every failure, whatever its origin, is 401 with the store unchanged |
| `SessionProperties.AtMostOneLiveToken` | src/controllers/user.controller.js:192-194 | two live refresh tokens of one account are the same token |
| `SessionProperties.LoginTokenIsLive` | src/controllers/user.controller.js:131 | the refresh token a successful login returns names that account and is its one live token |
| `SessionProperties.RotatedTokenIsStale` | src/controllers/user.controller.js:192-201 | after a rotation, presenting the old token again is rejected as expired or used with the store unchanged |
| `SessionProperties.LogoutIdempotent` | src/controllers/user.controller.js:153-159 | logging out twice leaves the same store as logging out once |
| `SessionProperties.LogoutRevokes` | src/controllers/user.controller.js:153-159 | after logout every token of the account fails refresh without changing the store, and a refresh token the store signed for an existing account is rejected as expired or used |
| `SessionProperties.UnsignedOrAccessTokenRejected` | src/controllers/user.controller.js:181-184 | an access token or a token the store never signed fails verification, never reaching the slot check |
| `SessionProperties.RefreshGuardInverted` | src/controllers/user.controller.js:176-178 | after a login, the handler as written rejects the login's refresh token with 401 and changes nothing, while the corrected handler accepts it |
| `SessionProperties.RefreshResponseLosesToken` | src/controllers/user.controller.js:201-206 | after a rotation the response as written has no refresh token although the slot holds a new live one and the presented token is dead; the intended response carries the live one |
| `SessionProperties.LoginRefreshScenario` | src/controllers/user.controller.js:103-213 | with the corrected handler: login, then refresh with its token succeeds, the same token again is expired or used, and the new token refreshes |
| `SessionProperties.StaleStaysStale` | src/controllers/user.controller.js:14-15 | no request (issue, register, login, logout, refresh as written or corrected) makes a stale refresh token (signed, but no longer in its account's slot) live again, and each keeps the store invariant |
| `SessionProperties.StaleForever` | src/controllers/user.controller.js:192-194 | once a refresh token is stale it stays stale after any sequence of requests, so a rotated or logged-out token never refreshes again |
| `SessionProperties.RegisterTwiceConflicts` | src/controllers/user.controller.js:54-60 | registering the same details again after a successful registration gives 409 and changes nothing |
| `UserController.UserStore.GenerateAccessAndRefreshTokens` | src/controllers/user.controller.js:8-23 | the result and new fields are those of `IssuePair`; on success the account's slot holds the returned refresh token, on failure 500 and nothing changes |
| `UserController.UserStore.RegisterUser` | src/controllers/user.controller.js:38-87 | the result and new fields are those of `Register`; on success exactly one fresh id is added, holding the lower-cased username |
| `UserController.UserStore.LoginUser` | src/controllers/user.controller.js:103-131 | the result and new fields are those of `Login`; on success the slot holds the returned refresh token |
| `UserController.UserStore.LogoutUser` | src/controllers/user.controller.js:152-159 | the new fields are those of `Logout`; the account's slot is empty |
| `UserController.UserStore.RefreshBody` | src/controllers/user.controller.js:181-201 | the result and new fields are those of `Session.RefreshBody` |
| `UserController.UserStore.RefreshAccessToken` | src/controllers/user.controller.js:173-213 | the result and new fields are those of `Session.RefreshAccessToken`: always a 401 and the store unchanged |
| `UserController.UserStore.RefreshAccessTokenIntended` | src/controllers/user.controller.js:173-213 | the result and new fields are those of `Session.RefreshAccessTokenIntended`; a success returns the new live refresh token |

## Findings

| source | as written | input that shows it | evidently intended | confidence | as-written member | corrected member |
|---|---|---|---|---|---|---|
| src/controllers/user.controller.js:176 | `if(incomingRefreshToken)` throws 401 when a token is present; with no token, `jwt.verify(undefined, …)` throws and the catch turns it into 401, so refresh never succeeds | log in, then present the returned refresh token in the `refreshToken` cookie | reject only when no token is presented (`if(!incomingRefreshToken)`) | high (not executed) | `Session.RefreshAccessToken`, `SessionProperties.RefreshGuardInverted` | `Session.RefreshAccessTokenIntended`, `SessionProperties.LoginRefreshScenario` |
| src/controllers/user.controller.js:201 | destructures `newrefreshToken`, but the issuer returns `refreshToken`, so the JSON body has no `refreshToken` field and the `refreshToken` cookie is set from `undefined`, while the slot holds the new token | any refresh that passes the slot check (reachable once the guard above is corrected) | `const {accessToken, refreshToken: newrefreshToken} = …` | high (not executed) | `SessionProperties.RefreshResponseLosesToken` | `Session.RefreshAccessTokenIntended` |

## Left out

- FindAccount: when different accounts match the username and the email, the model returns the least id; which one the store returns is not modelled.
- Model.ToLower: lower-cases only the ASCII letters A-Z. JavaScript's `toLowerCase` also maps other Unicode letters; this model has no Unicode tables.
- The image uploads (lines 72-78) are network calls. Only their outcome is an input.
- The re-read of the created user and its 500 branch (lines 89-95) are not modelled. In a sequential in-memory store the document just inserted is always found. The `select` projections (lines 89-91, 133) only shape the response.
- Request fields are modelled as present strings. An absent (undefined) registration field passes the source's `=== ""` guards. It would then fail in the account schema or in `toLowerCase`, and neither is part of this model.
- An absent login identifier is taken to match no account. How the store treats `undefined` inside a filter is not modelled.
- Schema-level behaviour is not modelled: unique indexes, lower-case setters and the password-hashing hook. The duplicate check compares the username as supplied, as the controller writes it.
- Token signing, the secrets and expiry are abstract. An expired token is not distinguished from a valid one.
- Password hashing and `isPasswordCorrect` are an injected predicate.
- HTTP is not modelled: cookies and their options, status and JSON response building, `asyncHandler`, `console.log`. An outcome is `Ok(value)` or an error with its status and a message tag. How the response layer turns the missing refresh token of line 201 into a cookie value is not modelled, nor that line 203 sets the access token in a cookie named `accesstoken` where login (line 140) uses `accessToken`.
- Concurrency is not modelled. The read of the slot (line 192) and the rotation (line 201) are not atomic in the source, and the model runs each operation as one sequential step.
- IssuePair, RefreshBody: every issued token is distinct from every earlier one because each carries a fresh serial from the store's counter. Real tokens are a deterministic function of their claims; if the account model's `generateRefreshToken` (not part of this model) signs only the id and second-resolution issue and expiry times, a refresh in the same second as the previous issuance yields the same string, and the presented token would stay live. The staleness results (`RotatedTokenIsStale`, `RefreshResponseLosesToken`, `LoginRefreshScenario`) rest on this freshness assumption.
- Logout: `$set: {refreshToken: undefined}` (lines 153-159) is modelled as clearing the slot. Whether the store clears the field or drops the undefined key from the update depends on the store library and its settings, which are not part of this model; `LogoutRevokes` rests on the field being cleared.
- A failed save discards the tokens that were signed for it. The model does not record them as issued, because no caller ever receives them.
- The route file is Express wiring. The only fact used from it is that logout runs behind `verifyJWT`.
