# Passage .NET client: client-side state and decisions

This project models the client side of the Passage identity-service library for .NET and proves properties of the model. The library's remote operations go through a generated HTTP client. The model keeps the logic around those calls:

- **Configuration check.** Construction fails with `MissingAppId` for a null configuration or a missing application ID. The API key is kept only when it is non-empty.
- **Transport provision.** An injected transport is used as it is. Otherwise the first request builds one transport carrying `Authorization: Bearer <key>` and `Passage-Version` headers, and it is kept. Without an API key this fails with `MissingApiKey`. The generated API client is also built at most once, and always over the instance's transport.
- **Error normalisation.** `CallClientMethod` returns a value unchanged and rethrows a `PassageException` as it is. It wraps an `ApiException` with that exception's status code, and anything else as an unexpected error with status 500. The transport is obtained before this boundary, so `MissingApiKey` is never reclassified.
- **Token validation.** Each `Session` caches the application's JSON Web Key Set (RFC 7517, section 5). The cache is filled only by a successful download from `https://auth.passage.id/v1/apps/<appId>/.well-known/jwks.json`. Validation then:
  - selects the unique signing key whose `kid` matches the token header's `kid` (RFC 7515, section 4.1.4);
  - requires a signed token, the exact issuer `https://auth.passage.id/v1/apps/<appId>` (RFC 7519, section 4.1.1) and an unexpired token (section 4.1.4); audience is not checked;
  - returns the first name-identifier (`sub`) claim, which may be absent.

  Whatever the token handler rejects becomes one `VerificationFailed` error with status 500.
- **Facades.** `App.Get`, the `User` operations other than `GetByIdentifier`, and `Session.RevokeRefreshToken` each make one classified call scoped to the instance's application ID. `GetByIdentifier` makes up to two classified calls: it lists at most one user with the identifier, and only when exactly one user is listed does it get that user; otherwise it fails with `IdentifierNotFound`. `Session.ValidateToken` makes one unclassified GET of the key set, and none once the key set is cached. Every operation keeps the API client once built, leaves the headers of a transport in use untouched, and builds a transport only as a fresh one carrying the bearer header (`Base.BaseClient.Kept`). `Passage` builds the three facades from one configuration and one optional shared transport.

Modules:
- `Wrappers`: `Option`.
- `Api`: the generated client's data, requests, the `Transport` (HttpClient) and the `ApiClient`.
- `Errors`: messages, `ApiException`, `PassageException` and its three constructors, call outcomes.
- `Base`: `BaseClient`.
- `Tokens`: the JWT and key-set decisions.
- `Sessions`, `Users` and `Apps`: the facades.
- `AppScenarios`: the App tests replayed against the App facade's contracts.
- `SessionScenarios`: two validations on a session with an API key, replayed against the Session contracts.
- `Facade`: `Passage`.

How the outside world appears in the model:
- **Remote calls.** A call is the `Request` it sends, appended to the transport's ghost `sent` log, together with the reply it receives (`Outcome`: a value or a thrown `Fault`). The reply is a parameter of the operation.
- **The JWT library.** A token is a record: its `kid`, issuer, expiry, claims, and the material of the key that signed it (standing in for the signature). The handler's decision follows the flags the client sets. Reading a key-set document is a function parameter. The clock is a parameter `now`.
- **Inheritance.** Dafny has no class inheritance here, so each facade holds its `BaseClient` as `base`.
- **Construction failure.** The C# constructors can throw. They are modelled as static `New` methods returning a `Result`.
- **Both overloads.** The two `CallClientMethod` overloads are one generic method; the valueless one is the instance at `()`. Each facade's two constructors are one `New` with a nullable transport. This matches C#, where passing a null `HttpClient` behaves like the one-argument constructor.

Behaviour the model follows as the code has it:
- **JWKS download failures.** Only an empty body becomes `CannotDownloadJwks`. A failed HTTP request escapes as the transport's own exception (`Sessions.Download`).
- **Errors before the verification boundary.** An unreadable token (`Tokens.KidOf`) and a `kid` that matches several signing keys (`Tokens.AmbiguousKidEscapes`) fail outside the `try`. They escape unwrapped, not as `VerificationFailed`.
- **Validation needs a transport.** Validating a token needs an injected transport or an API key, because the key set is fetched through `GetHttpClient` (`Sessions.DisconnectedRunFetchesNothing`).
- **Configuration field names.** `PassageConfig` declares `AppKey`, but `BaseClient` reads `ApiKey`. The configuration is modelled as `{appId, apiKey}`, both nullable.

## Model

| member | source | states |
|---|---|---|
| `Errors.FromMessage` | src/Passage/Exceptions/PassageException.cs:11-21 | the message-only exception keeps the message, has no cause and the default status 500 |
| `Errors.FromApiException` | src/Passage/Exceptions/PassageException.cs:28-31 | wrapping an ApiException keeps the message, records the cause and copies its status code |
| `Errors.FromFault` | src/Passage/Exceptions/PassageException.cs:38-41 | wrapping any exception keeps the message, records the cause and keeps status 500 |
| `Base.CheckConfig` | src/Passage/BaseClient.cs:24-37 | fails with MissingAppId exactly when the configuration or its app id is null or empty; otherwise keeps the app id, and keeps the API key exactly when it is non-empty (empty string otherwise) |
| `Base.BearerHeader` | src/Passage/BaseClient.cs:68 | the authorization value is the scheme `Bearer ` followed by the API key itself |
| `Base.BaseClient.constructor` | src/Passage/BaseClient.cs:31-48 | a checked configuration gives the app id, the kept key, and the injected transport (or none) in use, with no API client yet |
| `Base.BaseClient.New` | src/Passage/BaseClient.cs:24-48 | construction fails with MissingAppId exactly when the configuration check does, and otherwise yields a valid instance holding the checked credentials and the injected transport |
| `Base.BaseClient.GetHttpClient` | src/Passage/BaseClient.cs:55-72 | an existing (injected or built) transport is returned untouched; with none and no key it fails with MissingApiKey and builds nothing; otherwise it builds, stores and returns a fresh transport with the bearer and version headers |
| `Base.BaseClient.CreateClient` | src/Passage/BaseClient.cs:74-75 | the API client is built at most once, always over the instance's transport, and fails only with MissingApiKey when no transport can be had |
| `Base.Classify` | src/Passage/BaseClient.cs:87-103 | success iff the call returned, with the value unchanged; a PassageException passes through; an ApiException becomes the ApiException message with its status; anything else the unexpected-error message with 500; causes recorded |
| `Base.ClassifyIdempotent` | src/Passage/BaseClient.cs:92-95 | classifying again what a classified call rethrows gives the same result (no double wrapping) |
| `Base.ClassifiedStatus` | src/Passage/BaseClient.cs:92-103 | a classified error's status is the passed-through exception's, the ApiException's, or 500 |
| `Base.CallResult` | src/Passage/BaseClient.cs:86-103 | without a transport, the MissingApiKey error with no cause and status 500; otherwise the classified reply, a success exactly when the call returned, with its value unchanged |
| `Base.BaseClient.CallClientMethod` | src/Passage/BaseClient.cs:84-131 | without a transport the result is the unclassified MissingApiKey and nothing is sent; otherwise exactly the one request is sent through the instance's transport and the reply is classified; the API client, once built, is kept, an existing transport keeps its headers, and a transport built on the way is fresh with the bearer header |
| `Tokens.ExpectedIssuer` | src/Passage/Session.cs:47 | the valid issuer is the fixed Passage prefix followed by the app id |
| `Tokens.ExpectedIssuerInjective` | src/Passage/Session.cs:47 | different app ids have different valid issuers |
| `Tokens.JwksUrl` | src/Passage/Session.cs:86 | the key-set URL is the tenant's issuer followed by `/.well-known/jwks.json` |
| `Tokens.JwksUrlInjective` | src/Passage/Session.cs:86 | different app ids fetch from different URLs |
| `Tokens.SigningKeys` | src/Passage/Session.cs:40 | a key is among the signing keys iff it is in the set and is a signing key |
| `Tokens.SigningKeysKeepsEntries` | src/Passage/Session.cs:40 | every signing entry of the key set is kept as often as it occurs and no other entry is, so repeated signing entries with the token's kid still make the lookup ambiguous |
| `Tokens.Matching` | src/Passage/Session.cs:40 | a key is among the matches iff it is in the set and has the token's kid |
| `Tokens.AmbiguousMatching` | src/Passage/Session.cs:40 | two positions holding the kid give at least two matches |
| `Tokens.MatchingAmbiguous` | src/Passage/Session.cs:40 | at least two matches come from two distinct positions holding the kid |
| `Tokens.SelectKey` | src/Passage/Session.cs:40 | no key iff nothing matches; a key only if it is in the set, has the kid and every matching position holds it; an InvalidOperationException iff two positions match |
| `Tokens.FirstValue` | src/Passage/Session.cs:56 | none iff no claim has the type; otherwise the value of a claim of that type with no such claim before it |
| `Tokens.KidOf` | src/Passage/Session.cs:77-82 | an unreadable token throws; a readable one yields its header kid |
| `Tokens.Parameters` | src/Passage/Session.cs:43-51 | signed tokens required, issuer validated against the tenant's exact issuer, lifetime validated, audience not validated, only the selected key trusted |
| `Tokens.Handle` | src/Passage/Session.cs:55 | the handler returns claims only for a readable token, and then exactly that token's claims |
| `Tokens.Verify` | src/Passage/Session.cs:39-61 | a result is only ever returned for a readable token, and it is the token's first name-identifier claim; a wrapped error is always VerificationFailed |
| `Tokens.VerifyAccepts` | src/Passage/Session.cs:39-56 | a token is accepted iff readable, its kid names a unique signing key that signed it, its issuer is exactly the tenant's and it is unexpired; the result is then its first name-identifier claim |
| `Tokens.VerifyRejectsAsOneError` | src/Passage/Session.cs:53-61 | every rejection of a readable token with an unambiguous kid is VerificationFailed with status 500 |
| `Tokens.WrongIssuerRejected` | src/Passage/Session.cs:46-47 | a token with any other issuer is rejected as VerificationFailed, whatever its signature |
| `Tokens.UnknownKidRejected` | src/Passage/Session.cs:40-50 | a kid naming no signing key leaves a null key, and the token is rejected as VerificationFailed |
| `Tokens.AmbiguousKidEscapes` | src/Passage/Session.cs:39-40 | a kid matching several signing keys fails with the InvalidOperationException, not VerificationFailed |
| `Tokens.MalformedTokenEscapes` | src/Passage/Session.cs:39 | an unreadable token fails with the reader's ArgumentException, before and outside the VerificationFailed boundary |
| `Sessions.Download` | src/Passage/Session.cs:84-92 | MissingApiKey without a transport; a failed request escapes as it is; an empty body is CannotDownloadJwks; any other body is read as a key set |
| `Sessions.Validate` | src/Passage/Session.cs:37-62 | fetches iff nothing is cached and a transport is available; the cache is filled iff it was or the download succeeds; with a key set the result is its verification, without one the download's error |
| `Sessions.CachedRunFetchesNothing` | src/Passage/Session.cs:37 | once the key set is cached, any number of later validations fetch nothing |
| `Sessions.RunFetchesOnce` | src/Passage/Session.cs:37 | when the first download succeeds, a whole series of validations fetches exactly once |
| `Sessions.DisconnectedRunFetchesNothing` | src/Passage/Session.cs:37-86 | without a transport or an API key no validation ever fetches |
| `Sessions.Session.New` | src/Passage/Session.cs:15-27 | construction applies the configuration check and starts with an empty cache |
| `Sessions.Session.DownloadJwks` | src/Passage/Session.cs:84-92 | sends one GET of the tenant's key-set URL when a transport is available, and returns the download decision; an existing transport keeps its headers, and a transport built on the way is fresh with the bearer header |
| `Sessions.Session.ValidateToken` | src/Passage/Session.cs:35-62 | result, new cache and requests sent are those of Validate on the old cache; an existing transport keeps its headers, and a transport built on the way is fresh with the bearer header |
| `SessionScenarios.KeyedReplay` | src/Passage/Session.cs:35-62 | on a session with an API key and no injected transport, a first and a second validation of the same token both give that token's verification against the downloaded key set |
| `Sessions.Session.RevokeRefreshToken` | src/Passage/Session.cs:71-74 | one classified revoke call for this app id and the given user; the API client, once built, is kept, an existing transport keeps its headers, and a transport built on the way is fresh with the bearer header |
| `Users.SoleUserId` | src/Passage/User.cs:62-67 | succeeds iff exactly one user is listed, with that user's id; otherwise IdentifierNotFound with status 500 |
| `Users.ByIdentifier` | src/Passage/User.cs:45-68 | the listing's classified error, IdentifierNotFound unless exactly one user is listed, or else the classified Get of that user |
| `Users.ByIdentifierNeedsExactlyOne` | src/Passage/User.cs:62-65 | a user is returned only when the listing returned exactly one user and the follow-up Get succeeded, and it is that Get's user |
| `Users.User.New` | src/Passage/User.cs:13-23 | construction applies the configuration check; an app id without an API key succeeds |
| `Users.User.Get` | src/Passage/User.cs:32-36 | one classified GetUser call for this app id; the result is the response's user; the API client, once built, is kept, an existing transport keeps its headers, and a transport built on the way is fresh with the bearer header |
| `Users.User.GetByIdentifier` | src/Passage/User.cs:45-68 | a ListUsers request with limit 1, the identifier and this app id, then a GetUser of the one listed user iff exactly one is listed; result as ByIdentifier; the API client, once built, is kept, an existing transport keeps its headers, and a transport built on the way is fresh with the bearer header |
| `Users.User.Create` | src/Passage/User.cs:78-82 | one classified CreateUser call for this app id; the result is the response's user; the API client, once built, is kept, an existing transport keeps its headers, and a transport built on the way is fresh with the bearer header |
| `Users.User.Delete` | src/Passage/User.cs:90-93 | one classified DeleteUser call for this app id; no value; the API client, once built, is kept, an existing transport keeps its headers, and a transport built on the way is fresh with the bearer header |
| `Users.User.Update` | src/Passage/User.cs:104-108 | one classified UpdateUser call for this app id and user; the result is the response's user; the API client, once built, is kept, an existing transport keeps its headers, and a transport built on the way is fresh with the bearer header |
| `Users.User.Activate` | src/Passage/User.cs:117-121 | one classified ActivateUser call for this app id; the result is the response's user; the API client, once built, is kept, an existing transport keeps its headers, and a transport built on the way is fresh with the bearer header |
| `Users.User.Deactivate` | src/Passage/User.cs:130-134 | one classified DeactivateUser call for this app id; the result is the response's user; the API client, once built, is kept, an existing transport keeps its headers, and a transport built on the way is fresh with the bearer header |
| `Apps.App.New` | src/Passage/App.cs:13-25 | construction applies the configuration check |
| `Apps.App.Get` | src/Passage/App.cs:32-36 | one classified GetApp call for this app id; the result is the response's app; the API client, once built, is kept, an existing transport keeps its headers, and a transport built on the way is fresh with the bearer header |
| `Apps.GetOutcomes` | test/Passage.Tests/AppTests.cs:54-116 | a reply yields its app; a 404 ApiException yields the ApiException message with 404; any other exception the unexpected-error message with 500 |
| `AppScenarios.Replay` | test/Passage.Tests/AppTests.cs:16-130 | a missing config or app id fails construction with MissingAppId; a keyless Get fails with MissingApiKey; over an injected transport three Gets send exactly three GetApp requests, leave the transport's headers unchanged and yield the app, a 404 and a 500 |
| `Facade.Passage.New` | src/Passage/Passage.cs:40-58 | fails with MissingAppId exactly when the configuration check does; otherwise three fresh facades with distinct client states, the same app id and key, and the same injected transport |

## Left out

- Network I/O, the generated `PassageClient`, its JSON (de)serialisation and the response DTOs' other fields: a remote call is its request plus the reply passed in; DTOs keep only a few fields.
- async/await, `ConfigureAwait` and `CancellationToken`: calls are synchronous outcomes; cancellation is only passed through by the source.
- Races in the `??=` memoisation of the transport, API client and key set under concurrent first calls: the model has one sequential caller.
- The JWT library's parsing and cryptography: a token is a record, signature validity is "signed with the key's material", and reading a key-set document is a parameter.
- `Tokens.Handle`: lifetime is "an expiry is present and `now` is before it"; the library's default five-minute clock skew and its not-before check are not modelled.
- `Tokens.SigningKeys`: one key-set entry gives at most one signing key; the library can derive two keys with the same `kid` from one RSA entry carrying both an `x5c` certificate and `n`/`e` parameters, which would make the `SingleOrDefault` lookup throw, and the model does not represent the key encodings.
- `Tokens.FirstValue`: claim types are compared exactly; the library's `FindFirst` compares them ignoring case, and the model has no case folding.
- `Tokens.Verify`: the handler's rejection is modelled as a thrown exception recorded as the cause of `VerificationFailed`; the library's `ValidateTokenAsync` can instead report an invalid result, after which reading the claims fails with a null reference, so the recorded cause differs (the message and status 500 are the same).
- `Base.ClientVersion`: the `Passage-Version` header value is the assembly version at run time; the model uses a fixed constant.
- The dependency-injection package, the interface files, `AuthStrategy` (never read), and the older duplicate `src/Passage/PassageException.cs`: framework wiring, signatures or unused code.
- The `GetApp` tests in `test/Passage.Tests/PassageTests.cs`: they call a `Passage.GetApp` and an `Errors.App.CannotGet` that the library does not define.
