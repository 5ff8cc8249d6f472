# Grant check of the OAuth authorize flow

A Dafny model of `pkg/auth/oauth/handlers/grant.go`. This is the step of the OAuth2 authorize flow that decides
whether an already-authenticated, already-authorized request may go on.

- `GrantCheck.HandleAuthorize` works on a request whose `Authorized` flag an earlier stage has set. It resets
  the flag to false, then turns it back on in only two cases: the user's prior grant for this client and scope
  is confirmed by a `GrantChecker`, or a `GrantHandler` approves the grant now.
- Errors from the user-data check and from the checker go to a `GrantErrorHandler`, whose reply is returned as
  it is. A grant handler's `(handled, err)` is returned unchanged.
- There are four grant handlers. `emptyGrant` denies and `autoGrant` approves. `redirectGrant` sends the user
  to a consent page. `perClientGrant` picks one of those by the client's configured grant method.

Files:

- `errors.dfy`, module `Errors`: Go's nil-or-value results and the errors this layer creates. Also the `%q`
  quoting used in the "unrecognized grant method" message. The round-trip and injectivity of that quoting are
  proved.
- `types.dfy`, module `Types`: stand-ins for the values the layer receives.
  - `AuthorizeRequest` is a class. Its only mutable field is `authorized`. The others are constants because
    this code only reads them.
  - `ResponseWriter` is a class with a ghost log of the redirects written to it.
  - Also here: `User`, `Client`, `Grant`, `HttpRequest`, `Url`, and Go's `int32`/`int64`.
- `grant_handlers.dfy`, module `GrantHandlers`:
  - the closed `Handler` datatype with its four variants;
  - `Need`, the pure meaning of `GrantNeeded`;
  - the method `GrantNeeded`, which writes the consent redirect to the response writer.
- `grant_check.dfy`, module `Authorize`:
  - `Decide`, the pure meaning of `HandleAuthorize`, for any checker, grant handler and error handler;
  - class `GrantCheck`, whose method `HandleAuthorize` mutates `ar.authorized` step by step and is proved
    equal to `Decide`.

Collaborators are parameters of the model:

- The checker is a function `(User, Grant) -> CheckResult`.
- The error handler is a function `(Error, HttpRequest) -> Reply`.
- `url.Parse` is a function `string -> Result<Url>`, passed to the handlers and to `HandleAuthorize`.
- `Decide` takes the grant handler as an arbitrary function, because `GrantHandler` is an open interface. This
  covers handlers outside this file too, such as one that approves and also returns an error.
- `GrantCheck` holds one of the four handlers of this file.

Each decision records the collaborators it consulted, in order, as a list of `Call`s. That list is how the
model states that a step "does not consult" the checker, the handler or the error handler.

The `oauthapi.GrantHandlerType` constants are `"auto"`, `"prompt"` and `"deny"`. pkg/oauth/api is not part of
this model, so those values are written into `GrantHandlers` directly.

## Model

| member | source | states |
|---|---|---|
| `Authorize.GrantCheck.HandleAuthorize` | pkg/auth/oauth/handlers/grant.go:35-73 | Sets `ar.authorized`, the returned `(handled, err)`, the collaborator calls and the redirects written exactly as `Decide` prescribes for the flag the request arrived with; nothing else changes. |
| `Authorize.Decide` | pkg/auth/oauth/handlers/grant.go:37-72 | An unauthorized request gives `(false, nil)`, stays unauthorized and consults nobody. User data that is not a `user.Info` means not authorized and the error handler's reply verbatim. The checker is asked first, about the request's own grant. A checker error means not authorized, the error handler's reply for that error, and no handler call. A prior grant means authorized, `(false, nil)` and no handler call. Otherwise the final flag is the handler's `authorized` and the reply is the handler's `(handled, err)` verbatim, even when it approves and also errs. Fail closed: authorized only on a prior grant or the handler's approval. Only the handler writes a redirect. |
| `Authorize.NewGrant` | pkg/auth/oauth/handlers/grant.go:50-55 | The grant is a verbatim copy of the request's client, scope and redirect URI, and the 32-bit expiry is widened to 64 bits with its value unchanged. |
| `Authorize.DecideSettles` | pkg/auth/oauth/handlers/grant.go:37-72 | Deciding again from the flag a decision left, with the same stateless collaborators, leaves the flag unchanged. |
| `Authorize.FixedHandlerDecisions` | pkg/auth/oauth/handlers/grant.go:58-72 | If the checker answers `(false, nil)`, the auto handler authorizes and the empty handler does not, both with reply `(false, nil)`. If the checker answers `(true, nil)`, the request is authorized with `(false, nil)` whatever the handler, and the handler is never called. |
| `Authorize.GrantCheck.ApprovalIsQuiet` | pkg/auth/oauth/handlers/grant.go:62-72 | With this file's handlers, a request that ends authorized has reply `(false, nil)` and no redirect written. |
| `Authorize.GrantCheck.HandledMeansWritten` | pkg/auth/oauth/handlers/grant.go:33-34 | When the error handler was not consulted, the returned `handled` is true exactly when a response (the consent redirect) was written. |
| `Authorize.GrantCheck.constructor` | pkg/auth/oauth/handlers/grant.go:24-27 | `NewGrantCheck` keeps the given checker, handler and error handler. |
| `GrantHandlers.Need` | pkg/auth/oauth/handlers/grant.go:83-172 | For every handler, including nested per-client ones: `handled` holds exactly when a redirect is written; approval comes with no error and no written response; an error comes with neither approval nor `handled`; any redirect carries the four-parameter consent query. |
| `GrantHandlers.GrantNeeded` | pkg/auth/oauth/handlers/grant.go:83-172 | Returns `Need`'s `(authorized, handled, err)` and appends to the response writer exactly the redirect `Need` describes, or nothing. |
| `GrantHandlers.EmptyDenies` | pkg/auth/oauth/handlers/grant.go:83-85 | `emptyGrant` yields `(false, false, nil)` and writes nothing. |
| `GrantHandlers.AutoApproves` | pkg/auth/oauth/handlers/grant.go:96-98 | `autoGrant` yields `(true, false, nil)` and writes nothing. |
| `GrantHandlers.RedirectDefers` | pkg/auth/oauth/handlers/grant.go:115-128 | If the base URL fails to parse, the result is `(false, false, err)` with the parse error and nothing is written. Otherwise the result is `(false, true, nil)` after one redirect to the parsed base URL, whose query is replaced by the consent query. |
| `GrantHandlers.RedirectQuery` | pkg/auth/oauth/handlers/grant.go:120-125 | The consent query has exactly the keys `then`, `client_id`, `scopes` and `redirect_uri`, each with one value: the request URL, the client id, the scope and the redirect URI. |
| `GrantHandlers.ResolvedMethod` | pkg/auth/oauth/handlers/grant.go:153-157 | The client's grant method is used when it is non-empty, and the configured default when it is empty. |
| `GrantHandlers.PerClientDispatch` | pkg/auth/oauth/handlers/grant.go:147-172 | A client that is not an `OAuthClient` gives `(false, false, error)`. Resolved `auto`, `prompt` and `deny` give exactly the result of the matching sub-handler. Any other method gives `(false, false, error)` naming that method. |
| `GrantHandlers.NewPerClientGrant` | pkg/auth/oauth/handlers/grant.go:137-145 | The per-client handler uses the auto handler for `auto`, the caller's handler for `prompt` and the empty handler for `deny`, with the given default. |
| `GrantHandlers.NewPerClientGrantDispatch` | pkg/auth/oauth/handlers/grant.go:137-172 | Under `NewPerClientGrant`, `auto` approves silently, `deny` denies silently and `prompt` is the caller's handler's result. A client's own non-empty method wins over the default. |
| `GrantHandlers.BogusMethodRejected` | pkg/auth/oauth/handlers/grant.go:169-170 | A client whose method is `bogus` is rejected with `(false, false, err)`, and the message has `bogus` right after the opening quote. |
| `Errors.Message` | pkg/auth/oauth/handlers/grant.go:170 | The unrecognized-method message starts with the fixed prefix, ends with the fixed suffix, and holds exactly the `%q`-quoted method between them. |
| `Errors.GrantMethodMessage` | pkg/auth/oauth/handlers/grant.go:170 | A method without special characters appears verbatim after the opening quote. Different methods always produce different messages. |
| `Errors.UnescapeEscape` | pkg/auth/oauth/handlers/grant.go:170 | The quoted body of any method reads back as that method. |
| `Errors.Quote` | pkg/auth/oauth/handlers/grant.go:170 | `%q` renders a method as its escaped body between two double quotes. |
| `Errors.EscapePlain` | pkg/auth/oauth/handlers/grant.go:170 | Quoting leaves a string without special characters unchanged between the quotes. |

## Left out

- The HTTP response is not modelled. That covers `http.Redirect`, status 302, the `Location` header and
  anything the error handler writes. The model keeps only a ghost log of the redirect targets.
- `url.Parse` is a parameter, so its parsing rules are not modelled.
- `url.Values.Encode` is not modelled: a redirect target is kept as the base URL plus the unencoded query map.
  Percent-encoding and key order are library behaviour.
- `GrantChecker` and `GrantErrorHandler` implementations, and grant persistence, are not modelled. They are
  arbitrary functions, so their own side effects are not represented.
- `user.Info` and `osin.Client` are reduced to simple datatypes. osin's `AuthorizeRequest` is reduced to the
  fields read here, and its fields other than `Authorized` are constants in the model.
- A typed nil `*OAuthClient` in a client's user data is not modelled. Such a value would pass the type
  assertion at line 148 and then fail at line 153; the model has only an `OAuthClient` record or some other
  value.
- `Grant` is shared by pointer in Go. The model passes it by value, so it assumes the checker does not mutate
  it before the handler runs.
- A typed nil pointer that implements `user.Info` passes the checks at lines 45-46 and reaches the checker; the
  model has no such value.
- Errors are values, not pointers. Two `errors.New` results with the same text are equal in the model but
  distinct in Go.
- Errors.Quote: escapes only `"`, `\`, newline, carriage return and tab. Go's `%q` also escapes other control
  and non-printable characters and invalid UTF-8. Strings are sequences of characters, not bytes.
- `GrantCheck` holds one of the four handlers of this file. Other `GrantHandler` implementations are covered
  only through `Decide`.
- Concurrency across requests is not modelled, because each call is synchronous and request-local.
