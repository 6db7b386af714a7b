# crud-go: the decision logic of a phone-catalogue REST service

crud-go is a small Go REST backend. It serves CRUD endpoints for a "phone"
resource under `/api/phones`, and sign-up and sign-in endpoints under
`/api/users`. Sign-in issues an HS256-signed JWT. An authentication
middleware checks that token on every phones route.

This project models, in Dafny, the decisions the repository's own code makes.

- **The bearer-header parser** (`getTokenFromRequest`). It accepts exactly
  `Bearer <token>`, where the token is non-empty and has no space. The scheme
  is case-sensitive.
- **The two middlewares.**
  - Logging always forwards the request unchanged.
  - Auth either answers 401, so the handler never runs, or forwards the
    request with the user id in its context.
- **The router built by `InitRouter`.** Only the `/api/phones` subrouter
  installs the auth middleware.
- **The path-id validator** (`getIdFromReq`). It parses a base-10 `int64`
  and refuses 0.
- **Every handler, as a status-code decision table.** This covers the
  `Controller` handlers in phone.go and user.go, and the older `Phones`
  handlers in phoneController.go. The older file redeclares `PhonesService`
  and `getIdFromReq`, so it has its own module.
- **The user service.**
  - Sign-up hashes the password before storing the user.
  - Sign-in builds the claims: `sub` is the decimal user id, `iat` is now,
    and `exp` is now plus 15 minutes. It returns `" "` on error and discards
    the signing error.
  - `ParseToken` rejects tokens through a chain of checks.
  - The project proves the round trip from an issued token back to the user
    id.

Each handler is modelled twice:

- `XSteps` is a function that gives the writer calls and the service calls
  the handler makes for given step outcomes. Its contract states the status
  sent, the headers and body, and which service calls happen.
- `X` is a method that performs those steps on a `ResponseWriter` object,
  one call at a time. Its contract ties the writer's new state to `XSteps`.

`Http.Apply` encodes the `net/http` rule that the first `WriteHeader` wins.
Under that rule, `signIn`'s missing `return` shows up as follows: when
marshalling fails, the handler writes 500 and then goes on to
`WriteHeader(200)` and `Write`. The 500 is what the client gets. The
writer records the second `WriteHeader` as superfluous. `encoding/json`
returns no bytes on failure, so the body is empty.

The model records these quirks and proves them:

- a failed update still answers 200;
- a missing phone on get answers 400;
- sign-up answers 200, not the 201 its documentation announces;
- the configured token TTL is never used;
- two of `ParseToken`'s checks never fire: `jwt.Parse` marks every token it
  returns without error as valid, and always with map claims.

Foreign code is modelled as function-valued fields of datatypes, called
oracles: the model takes their answers as given. This covers the phones and
users services as the handlers see them, `encoding/json`, the input
validators, the password hasher, the users repository, and the JWT signer,
decoder and signature checker. Clock readings are explicit parameters, in
nanoseconds since the Unix epoch. What `jwt.Parse` decides from the codec's
answers is modelled:

- which signing methods are registered;
- the `exp`, `iat` and `nbf` checks;
- which error is reported.

The parts of `strconv`, `strings`, `net/http` and `gorilla/mux` that the
code relies on are modelled too.

## Model

| member | source | states |
|---|---|---|
| RestMiddleware.GetTokenFromRequest | internal/transport/rest/middleware.go:57-73 | an accepted token is non-empty and contains no space; every refusal returns the empty token with an error |
| RestMiddleware.TokenAcceptedIff | internal/transport/rest/middleware.go:57-73 | the header is accepted exactly when it is "Bearer " followed by a non-empty token without spaces (exactly two space-separated parts, the first exactly "Bearer"), and the token returned is the text after "Bearer " |
| RestMiddleware.BearerRoundTrip | internal/transport/rest/middleware.go:63-72 | for every non-empty token t without spaces, the header "Bearer " + t yields t |
| RestMiddleware.TokenErrors | internal/transport/rest/middleware.go:58-70 | a missing or empty header gives "empty auth header"; "Bearer " gives "token is empty"; every other refused header ("Bearer  t", "Bearer t x", "bearer t", another scheme) gives "invalid auth header" |
| RestMiddleware.AuthMiddleware | internal/transport/rest/middleware.go:28-55 | the middleware either answers 401 or forwards; it forwards exactly when the header is a bearer header and the users service accepts its token, and the forwarded request is the original with the user id the service returned stored under the user-id context key |
| RestMiddleware.LoggingMiddleware | internal/transport/rest/middleware.go:18-26 | the logging middleware always forwards, and the request it forwards is the one it received |
| RestMiddleware.ApplyChain | internal/transport/rest/controller.go:43-53 | a route's middlewares run outermost first, and the first one that answers stops the request; only the auth middleware answers, always with 401, and a request that gets through differs from the original only in its context |
| RestMiddleware.LoggingTransparent | internal/transport/rest/middleware.go:18-26 | putting the logging middleware in front of any chain does not change where the request ends up, or with what request |
| RestMiddleware.UngatedChainForwards | internal/transport/rest/middleware.go:18-26 | a chain without the auth middleware always reaches the handler once, with the request unchanged |
| RestMiddleware.GatedChainRejects | internal/transport/rest/middleware.go:28-48 | a request the auth middleware refuses is answered 401 by every chain that contains that middleware, so the handler never runs |
| RestMiddleware.PhonesRoutesGated | internal/transport/rest/controller.go:51-58 | on every /api/phones route, the middleware chain decides exactly as the auth middleware does; a request without a bearer header is answered 401 |
| RestMiddleware.OtherRoutesUngated | internal/transport/rest/controller.go:45-49 | sign-up, sign-in and the documentation route always reach their handler with the request unchanged |
| RestController.GetIdFromReq | internal/transport/rest/controller.go:69-81 | the id is accepted exactly when the path variable is base-10 text (optional sign, digits) whose value fits in int64 and is not 0; an accepted id equals that value and may be negative; on every error the id is 0 |
| RestController.IdRoundTrip | internal/transport/rest/controller.go:71-80 | every nonzero int64, written in decimal, is read back unchanged |
| RestController.ZeroIdRefused | internal/transport/rest/controller.go:76-78 | text that parses to 0 ("0", "-0", "+00") is refused with "id can't be 0" |
| RestController.MalformedIdRefused | internal/transport/rest/controller.go:71-74 | text that is not an int64 (bad syntax, overflow) is refused with the parser's error and id 0 |
| RestController.ControllerRoutesShape | internal/transport/rest/controller.go:41-67 | the routes registered are the two /api/users routes behind logging, the five /api/phones routes behind logging then auth, and the documentation route behind logging |
| RestController.OnlyPhonesRoutesAuthenticated | internal/transport/rest/controller.go:41-67 | every route is logged first; a route is behind the auth middleware exactly when its path starts with /api/phones; sign-up and sign-in are not |
| RestController.InitRouter | internal/transport/rest/controller.go:41-67 | building the router step by step yields logging as the only global middleware, the users subrouter with no middleware, the phones subrouter with auth, and the documentation route; the routes it registers are the table above |
| Mux.Router.constructor | internal/transport/rest/controller.go:42 | a new router has no middleware, subrouter or route |
| Mux.Router.Use | internal/transport/rest/controller.go:43 | appends one middleware to the router's chain and changes nothing else |
| Mux.Router.PathPrefixSubrouter | internal/transport/rest/controller.go:45 | appends one empty subrouter with the prefix and returns its position |
| Mux.Router.SubrouterUse | internal/transport/rest/controller.go:53 | appends one middleware to that subrouter only |
| Mux.Router.SubrouterHandleFunc | internal/transport/rest/controller.go:47-48 | appends one route to that subrouter only |
| Mux.Router.PathPrefixHandler | internal/transport/rest/controller.go:61-64 | appends one any-method prefix route to the router |
| Http.Apply | internal/transport/rest/user.go:71-75 | one writer call under net/http's rules: a status already sent never changes; the first WriteHeader sets the status; a Write before any status sends 200; a later WriteHeader only adds one to the superfluous count; the body grows only by what Write writes; AddHeader sends no status and appends its value to that key's values, leaving other keys alone |
| Http.ResponseWriter.WriteHeader | internal/transport/rest/user.go:71-74 | the first status written is the one sent; a later WriteHeader changes nothing but the superfluous count |
| Http.ResponseWriter.Write | internal/transport/rest/phone.go:56 | a body write appends to the body, and sends 200 first if no status was written |
| Http.ResponseWriter.AddHeader | internal/transport/rest/phone.go:55 | appends one value under the header key |
| Http.OutcomeOfJsonWrite | internal/transport/rest/phone.go:55-56 | setting the JSON Content-Type and then writing the body gives a 200 response with that header and body |
| Http.ReplaySnoc | internal/transport/rest/user.go:71-75 | replaying one more writer call is applying it to the replayed state, so writes can be accounted for one at a time |
| RestPhone.GetPhoneByIdSteps | internal/transport/rest/phone.go:24-57 | the status is 200 or 400, never 500; it is 200 exactly when the id is valid, the service finds the phone and it marshals; then the response carries the JSON Content-Type and the marshalled phone; otherwise it is a bare 400; the service is asked once, and only with a valid id |
| RestPhone.GetPhoneById | internal/transport/rest/phone.go:24-57 | performing the steps leaves the writer in the state of replaying GetPhoneByIdSteps, and makes its service calls |
| RestPhone.GetAllPhonesSteps | internal/transport/rest/phone.go:67-90 | the status is 200 or 500; it is 200 exactly when the service and the marshaller succeed, and then the body is the JSON list; otherwise a bare 500; the service is asked exactly once |
| RestPhone.GetAllPhones | internal/transport/rest/phone.go:67-90 | the writer ends in the state of replaying GetAllPhonesSteps |
| RestPhone.CreatePhoneSteps | internal/transport/rest/phone.go:102-137 | only a status line is written; 400 exactly when the body cannot be read or decoded, and then the service is not asked; 500 exactly on a service error; 201 exactly on success |
| RestPhone.CreatePhone | internal/transport/rest/phone.go:102-137 | the writer ends in the state of replaying CreatePhoneSteps |
| RestPhone.UpdatePhoneByIdSteps | internal/transport/rest/phone.go:152-187 | only a status line is written, 200 or 400; 200 exactly when the id is valid and the body reads and decodes, whatever the service answers; the update is asked for only then |
| RestPhone.UpdatePhoneById | internal/transport/rest/phone.go:152-187 | the writer ends in the state of replaying UpdatePhoneByIdSteps |
| RestPhone.UpdateIgnoresServiceResult | internal/transport/rest/phone.go:185-186 | replacing the service's update by any other function leaves the handler's steps unchanged |
| RestPhone.DeletePhoneByIdSteps | internal/transport/rest/phone.go:199-221 | only a status line is written; 400 exactly for an invalid id, and then the service is not asked; 500 exactly on a service error; 200 exactly on success |
| RestPhone.DeletePhoneById | internal/transport/rest/phone.go:199-221 | the writer ends in the state of replaying DeletePhoneByIdSteps |
| RestPhone.NoServiceCallWithoutValidId | internal/transport/rest/phone.go:25-35 | get, update and delete make no service call when the id is refused, and every id they pass to the service is nonzero and equal to the path variable's value |
| RestPhoneController.GetIdFromReq | internal/transport/rest/phoneController.go:168-180 | the older validator accepts exactly the same ids with the same result and errors as the controller's, on every request |
| RestPhoneController.InitRouter | internal/transport/rest/phoneController.go:33-47 | the older router has logging as its only middleware and one /api/phones subrouter with no middleware and the same five routes |
| RestPhoneController.PhonesHandlerRoutesUngated | internal/transport/rest/phoneController.go:33-44 | all five phone routes of the older router are only logged, so every request reaches its handler unchanged, with or without a token |
| RestPhoneController.GetPhoneByIdSteps | internal/transport/rest/phoneController.go:49-73 | the older handler makes the same writer calls and service calls as RestPhone.GetPhoneByIdSteps for the same service; the status is 200 or 400, and no service call happens with a refused id |
| RestPhoneController.GetPhoneById | internal/transport/rest/phoneController.go:49-73 | the writer ends in the state of replaying the older GetPhoneByIdSteps |
| RestPhoneController.GetAllPhonesSteps | internal/transport/rest/phoneController.go:75-92 | same steps as RestPhone.GetAllPhonesSteps; the status is 200 or 500 |
| RestPhoneController.GetAllPhones | internal/transport/rest/phoneController.go:75-92 | the writer ends in the state of replaying the older GetAllPhonesSteps |
| RestPhoneController.CreatePhoneSteps | internal/transport/rest/phoneController.go:94-120 | same steps as RestPhone.CreatePhoneSteps; 400 exactly when the service is not asked |
| RestPhoneController.CreatePhone | internal/transport/rest/phoneController.go:94-120 | the writer ends in the state of replaying the older CreatePhoneSteps |
| RestPhoneController.UpdatePhoneByIdSteps | internal/transport/rest/phoneController.go:122-148 | same steps as RestPhone.UpdatePhoneByIdSteps; 200 exactly when the update is asked for, whatever it answers |
| RestPhoneController.UpdatePhoneById | internal/transport/rest/phoneController.go:122-148 | the writer ends in the state of replaying the older UpdatePhoneByIdSteps |
| RestPhoneController.DeletePhoneByIdSteps | internal/transport/rest/phoneController.go:150-166 | same steps as RestPhone.DeletePhoneByIdSteps; 400 exactly when the service is not asked |
| RestPhoneController.DeletePhoneById | internal/transport/rest/phoneController.go:150-166 | the writer ends in the state of replaying the older DeletePhoneByIdSteps |
| RestUser.SignInSteps | internal/transport/rest/user.go:23-76 | 400 exactly when the body cannot be read, decoded or validated, and then the service is not asked; a service error gives a bare 500; a token that marshals gives 200 with body {"token": token}; when marshalling fails, the status is 500, the handler still writes whatever the marshaller returned, and one WriteHeader is superfluous |
| RestUser.MarshalFailureIsBare500 | internal/transport/rest/user.go:63-75 | with a codec that returns no bytes on failure, as encoding/json does, a marshalling failure reaches the client as a bare 500 with one superfluous WriteHeader |
| RestUser.WriteAfter | internal/transport/rest/user.go:66-75 | WriteHeader(200) then Write, after nothing, sends 200 and the body; after a stray WriteHeader(500), it sends 500 with the body and one superfluous WriteHeader |
| RestUser.SignIn | internal/transport/rest/user.go:23-76 | the writer ends in the state of replaying SignInSteps, the double WriteHeader included |
| RestUser.SignUpSteps | internal/transport/rest/user.go:88-129 | only a status line is written; 400 exactly when the body cannot be read, decoded or validated, and then the service is not asked; 500 exactly on a service error; 200, not 201, exactly on success |
| RestUser.SignUp | internal/transport/rest/user.go:88-129 | the writer ends in the state of replaying SignUpSteps |
| UserService.SignUp | internal/service/userService.go:36-50 | a hasher error is returned and nothing is stored; otherwise exactly one user is created, with the name and email as given, the hash as password and the clock reading as registration time, and the repository's answer is returned |
| UserService.PlaintextNeverStored | internal/service/userService.go:42-49 | whenever the hash differs from the plaintext, no created user carries the plaintext password |
| UserService.IssuedClaims | internal/service/userService.go:63-67 | sub is the decimal user id, iat is the first clock reading in Unix seconds, and exp is 15 minutes after the second reading; with one reading, exp = iat + 15 minutes |
| UserService.SignIn | internal/service/userService.go:52-71 | a hasher or lookup error returns the token " " with that error; the lookup uses the email and the hash; once the user is found, the result is the signer's output for the issued claims under HS256, with a nil error whatever signing did |
| UserService.SignFailureGivesEmptyToken | internal/service/userService.go:69-70 | with a signer that returns "" on failure, as SignedString does, a signing failure after a successful lookup gives the empty token with a nil error |
| UserService.TokenTtlIgnored | internal/service/userService.go:63-70 | sign-in gives the same result for every configured TTL |
| UserService.KeyFunc | internal/service/userService.go:74-80 | the key function returns the HMAC secret exactly for the HMAC algorithms, and fails otherwise |
| UserService.ParseToken | internal/service/userService.go:73-105 | an accepted token decodes, has an HMAC algorithm, a signature that checks out under the secret, and time claims that hold now; its sub is a string that Atoi accepts, and the id returned is that value; a refused token gives id 0 |
| UserService.ValidityChecksNeverFire | internal/service/userService.go:85-92 | ParseToken equals the same chain without the "invalid token" and "invalid claims" checks, so those two errors are never produced by those checks |
| UserService.ParseTokenAccepts | internal/service/userService.go:73-104 | conversely, a token that decodes, has an HMAC algorithm, a signature that checks out, time claims that hold now and a decimal string sub is accepted, and the id is Atoi of that sub |
| UserService.ParseTokenRejections | internal/service/userService.go:74-102 | each refusal's error, in order: the decoder's error, an unregistered algorithm, "Unexpected signing method: alg" for a registered non-HMAC algorithm (EdDSA included), the signature verifier's own error (the base64url decoder's error or "signature is invalid"), the time-claim error, and "invalid subject" for a missing, non-string or non-decimal sub |
| UserService.IssuedTokenAccepted | internal/service/userService.go:63-104 | given a codec sound for the token it signs, the token issued to user u is read back as u's id at every moment from its iat to its exp |
| UserService.IssuedTokenExpires | internal/service/userService.go:63-67 | after its exp, the issued token is refused with "Token is expired" |
| Jwt.ClaimsMap | internal/service/userService.go:63-67 | the serialised standard claims hold sub, iat and exp exactly when they are non-empty or nonzero (omitempty), with their values, and never nbf |
| Jwt.ClaimsError | internal/service/userService.go:74 | claim validation passes exactly when exp (absent, zero, or not yet passed), iat and nbf (absent, zero, or already reached) all hold |
| Jwt.Parse | internal/service/userService.go:74-83 | parsing succeeds exactly when the token decodes, its algorithm is registered, the key function gives a key, the time claims hold, and the signature checks out under that key |
| Jwt.ParsedTokenShape | internal/service/userService.go:85-92 | a parsed token is marked valid exactly when parsing succeeded, and its claims are always the decoded map |
| Strconv.ParseDecimal | internal/transport/rest/controller.go:71 | base-10 parsing succeeds exactly on an optional sign followed by digits with a value in int64, and returns that value; bad syntax returns 0, an out-of-range value the nearest int64 bound; every error names the function and the input |
| Strconv.ParseInt | internal/transport/rest/controller.go:71 | ParseInt(s, 10, 64) accepts exactly the decimal text in int64 range and returns its value; its errors come from ParseInt |
| Strconv.Atoi | internal/service/userService.go:99 | Atoi accepts exactly the same text with the same value; its errors come from Atoi |
| Strconv.FormatInt | internal/service/userService.go:64 | Itoa gives canonical decimal text (no plus sign, no leading zero, no "-0") that denotes n |
| Strconv.Digits | internal/service/userService.go:64 | the decimal digits of n are non-empty, have no leading zero, and denote n |
| Strconv.ParseFormatRoundTrip | internal/service/userService.go:64 | the decimal text of every int64 is canonical, and both ParseInt and Atoi read it back unchanged |
| Strconv.FormatParseRoundTrip | internal/service/userService.go:99 | canonical decimal text in int64 range is what formatting its value gives back |
| Strings.Split | internal/transport/rest/middleware.go:63 | splitting gives at least one part, no part contains the separator, and joining the parts gives the text back |
| Strings.SplitJoin | internal/transport/rest/middleware.go:63 | splitting the join of separator-free parts gives those parts back |
| Strings.SplitOnce | internal/transport/rest/middleware.go:63-64 | a text with exactly one separator splits into the two sides |
| AuthFlow.IssuedTokenOpensPhonesRoutes | internal/transport/rest/middleware.go:40-53 | before expiry, a request carrying the issued token as a bearer header passes every /api/phones route's middlewares, and reaches the handler with the signed-in user's id in its context |
| AuthFlow.ExpiredTokenLocksPhonesRoutes | internal/transport/rest/middleware.go:40-47 | after expiry, the same request is answered 401 on every /api/phones route |

## Left out

- The PostgreSQL repositories (internal/repository/psql). Their behaviour is the database's. The users repository is an oracle, and phoneService.go, a pass-through, is replaced by the `PhonesService` oracle.
- cmd/main.go: configuration, the database connection and `ListenAndServe`. `AuthFlow` models only the wiring of the user service into the controller. In main.go the HMAC secret is an empty byte slice and the 2-minute TTL is passed in but never used. The model keeps the secret as a parameter, and `TokenTtlIgnored` states that the TTL is unused.
- URL matching in gorilla/mux and `mux.Vars`. A request's path variables are given, and the router model records only which handler and which middlewares each registration names. The id pattern `"/{id:[0-9]+"` has no closing brace, so whether those routes match at all depends on mux internals.
- logrus logging. It is a side effect only, so `LoggingMiddleware` just forwards.
- Per-request goroutines and concurrent access. Every handler is modelled as one sequential run.
- The swagger handler. Only its registration is modelled.
- entity/user.go, which holds the input validators, is not part of this model. The validators are an oracle.
- `encoding/json`, the SHA-1 hasher and HMAC are oracles. They are modelled through what they return, not how they compute it.
- Http.ResponseWriter.AddHeader: a header added after the status line is still recorded. Real `net/http` drops it. No handler here adds a header after writing the status.
- Http.ResponseWriter.Write: the Content-Type that `net/http` sniffs for a body written without one (sign-in's body) is not recorded.
- RestUser.SignInSteps: the marshal-failure branch is modelled in full. `json.Marshal` of a `map[string]string` never fails in practice, so that branch is unreachable with the real library.
- Strconv.ParseDecimal:
  - Error messages put the input in plain double quotes. Go uses `strconv.Quote`, and the two agree on printable ASCII without quotes or backslashes.
  - For text that overflows before it reaches a non-digit (`"99999999999999999999x"`), Go reports a range error and returns the nearest int64 bound (MaxInt64, or MinInt64 for negative text). The model reports a syntax error and returns 0. `getIdFromReq` refuses both with id 0.
- Jwt.Parse:
  - The model assumes golang-jwt v3.2.2: a present `exp`, `iat` or `nbf` that is not a number fails validation, and EdDSA is a registered signing method. The module's go.mod is not part of this model.
  - Claim numbers are modelled as integers. The float64 precision of JSON numbers is not modelled.
  - A non-string `alg` header is folded into the decoder's error.
  - The signing method's `Verify` is an oracle that returns its own error. The model reports that error unchanged. It does not derive the text, whether the base64url decoder's error or "signature is invalid".
- UserService.IssuedClaims: Unix times are unbounded integers. An `int64` overflow of the clock is not modelled.
- UserService.IssuedTokenExpires: it requires clock readings at or after the Unix epoch. `omitempty` drops an `exp` of exactly 0, and such a token would never expire.
