# go-gitlab-ci request layer in Dafny

This project models the request-handling layer of the `gogin` gists service, a gin HTTP microservice. It covers these parts:

- **Structured logger** (`logger.dfy`, module `Logger`).
  - A logger is a value: a configuration, a shared sink and a persisted field map.
  - Deriving a child merges fields, and on a clash the new value wins. The parent is never changed.
  - Every emit variant hands one record (level, fields, message) to the sink.
  - The `Error` variants force the `error` field.
  - Configuration sets the formatter, which never fails, and then the level, which can fail.
- **gin and net/http pieces** (`http.dfy`, module `Http`):
  - canonical header keys (section 5.1 of RFC 9110: field names are case-insensitive) and header maps;
  - gin's key store and request-scoped context values;
  - the engine's route table, router groups, and the per-request context.
- **Correlation ids**:
  - `middleware.dfy`, module `Middleware`. The middleware generates a 15-character id from the 62-letter alphabet when `X-Request-Id` is missing. It sets the header, copies the header into gin's key store, and runs the rest of the chain once.
  - `log_correlation.dfy`, module `LogCorrelation`. `FromGin` and `FromContext` put that id into the request logger and the request context.
- **Header-based API version router** (`apiver.dfy`, module `ApiVersion`).
  - Registration installs a forwarder on the plain path and the real handlers on `version + path`, each only when `isRouteExist` does not find its path.
  - gin stores every path joined onto `"/"` and panics on a path registered twice. `isRouteExist` compares the path as given, so registration behaves as intended only for clean absolute paths: repeating a relative one panics.
  - The forwarder rewrites the path and dispatches the request again.
  - Registering a version twice panics.
- **Models and helpers** (`models.dfy`, `helpers.dfy`):
  - the `Gist`, `GistInfo`, `GistDetails` and `Error` records;
  - their JSON keys and required-field validity;
  - binding a request body;
  - context parsing;
  - the single-error reply.
- **Gists handler, v1 router, component factory and metrics reporter** (`gists_handlers.dfy`, `v1_router.dfy`, `components.dfy`, `metrics.dfy`):
  - the five routes and the reply each handler chooses;
  - the nil-argument guards of the constructors;
  - the request counters, keyed by label tuples.

Random draws (`math/rand`), level parsing (`logrus.ParseLevel`), and the query, path parameters and body of a request are inputs of the model.

The model follows the code. These behaviours may surprise a reader:

- **Forwarded path.** The forwarder rewrites the path to `"/" + <Accept-version> + path`, not to `<version> + path`. So `WithVersion("/v1")` routes are reached with the header `v1`.
- **Empty `Accept-version`.** The forwarder writes a 400 and does not return. The request is still forwarded, to `"/" + path`.
- **`Default()`.** Its version is `""`, so `version + path` is the path the forwarder has just taken. For an absolute path the handlers given to the default router are never installed. For a relative path their registration panics, because the forwarder went in under `"/" + path`.
- **`postGist`.** It answers 201 with a fixed `GistInfo` (language `haskell`), whatever body was sent. It does not echo the name and language.
- **Formatter names.** An unknown formatter name does not fail logger construction: it selects JSON. Only the level can fail.

## Model

| member | source | states |
|---|---|---|
| Logger.Combined | internal/pkg/logger/logger.go:259-273 | the merged map has the keys of both; an extra's value wins on a clash, otherwise the persisted value is kept |
| Logger.CombinedIsUnion | internal/pkg/logger/logger.go:259-273 | combineFields is the right-biased map union |
| Logger.CombinedAssociative | internal/pkg/logger/logger.go:259-273 | merging a then b equals merging once with (a merged with b) |
| Logger.Log.CombineFields | internal/pkg/logger/logger.go:259-273 | the two loops fill a fresh map equal to Combined(fields, extra), reading the persisted fields only |
| Logger.Log.WithFields | internal/pkg/logger/logger.go:105-110 | the child shares the sink, does not copy the config, and has the merged fields |
| Logger.Log.WithField | internal/pkg/logger/logger.go:113-115 | the child's fields are the parent's with one key set |
| Logger.WithFieldIsWithFields | internal/pkg/logger/logger.go:113-115 | WithField(k, v) is WithFields({k: v}) |
| Logger.WithFieldsTwice | internal/pkg/logger/log.go:13-23 | deriving with a then b equals deriving once with a overridden by b |
| Logger.Log.Emit | internal/pkg/logger/logger.go:117-179 | a plain emitter appends exactly one record carrying the persisted fields |
| Logger.Log.EmitWithFields | internal/pkg/logger/logger.go:157-163 | a *WithFields emitter appends the merged fields, and the logger keeps its own |
| Logger.ErrorFields | internal/pkg/logger/logger.go:181-189 | the Error field set is the persisted fields with "error" set to err, replacing any persisted "error" |
| Logger.Log.Error | internal/pkg/logger/logger.go:181-189 | Error/Errorf append one error-level record with ErrorFields |
| Logger.ErrorFieldsWith | internal/pkg/logger/logger.go:191-201 | "error" is set after merging the extras, so err wins even over an "error" extra |
| Logger.Log.ErrorWithFields | internal/pkg/logger/logger.go:191-201 | ErrorWithFields appends one record with ErrorFieldsWith |
| Logger.ErrorFieldsNoExtras | internal/pkg/logger/logger.go:181-201 | Error is ErrorWithFields with no extras |
| Logger.GetFormatter | internal/pkg/logger/logger.go:276-291 | never fails; the text formatter exactly for "text", JSON otherwise |
| Logger.ApplyConfig | internal/pkg/logger/logger.go:236-257 | the formatter is always set; fails exactly when the level does not parse, and then the level is unchanged |
| Logger.New | internal/pkg/logger/logger.go:83-95 | succeeds exactly when the level parses: a fresh sink, no fields, the given config |
| Logger.Sink.constructor | internal/pkg/logger/logger.go:84-87 | logrus.New(): text formatter, info level, nothing logged |
| Http.CanonicalHeaderKey | internal/pkg/api/middleware/correlation.go:62 | canonicalisation keeps the length of the name |
| Http.CanonicalHeaderKeyIgnoresCase | internal/pkg/api/middleware/correlation.go:62 | token names that differ only in case have the same canonical key |
| Http.CanonicalHeaderKeyIdempotent | internal/pkg/api/middleware/correlation.go:62-68 | canonicalising a canonical key changes nothing |
| Http.Lookup | internal/app/api/helpers/gincontext.go:49 | a present key gives its value and a missing one Go's zero string (GetString, Query, Param, absent JSON members) |
| Http.HeaderGet | internal/app/api/extensions/apiver.go:90 | the first value under the name's canonical key, and "" when there is none |
| Http.HeaderSet | internal/pkg/api/middleware/correlation.go:68 | Get under the same name returns the value set; every other name keeps its values |
| Http.AddRouteTo | internal/app/api/extensions/apiver.go:89-101 | a path without a leading '/' or a registered (method, path) pair panics and changes nothing; otherwise exactly that route is appended |
| Http.AddRouteKeepsValid | internal/app/api/extensions/apiver.go:89-101 | registering keeps the table absolute and duplicate-free, and a successful registration is routed |
| Http.AddRoutes | internal/app/api/v1/handlers/gists.go:70-82 | registrations in order, stopping at the first panic |
| Http.AddRoutesFresh | internal/app/api/v1/handlers/gists.go:70-82 | absolute, pairwise distinct routes not yet registered are all appended in order without a panic |
| Http.AddRoutesExtends | internal/app/api/v1/handlers/gists.go:70-82 | registering keeps every earlier route in place |
| Http.JoinPaths | internal/app/api/v1/router.go:68 | joining onto an absolute base gives an absolute path |
| Http.RootJoinFixesAbsolute | internal/app/api/extensions/apiver.go:88-101 | joining onto "/" leaves a path unchanged exactly when it is absolute |
| Http.RootJoinKeepsClean | internal/app/api/extensions/apiver.go:89-101 | a clean path (no empty, "." or ".." segment, the first included) joined onto "/" is clean, so the path gin stores for it is exactly that join |
| Http.Engine.AddRoute | internal/app/api/extensions/apiver.go:89-101 | the table and the panic are AddRouteTo of the old table and the route |
| Http.Engine.Handle | internal/app/api/extensions/apiver.go:89-101 | the path joined onto "/" goes through addRoute: it is appended, or the panic is returned and the table is unchanged |
| Http.Engine.HandleContext | internal/app/api/extensions/apiver.go:95 | the key store is reset and the context is dispatched once more under its current path; path, header, writes and request context are kept |
| Http.RouterGroup.Group | internal/app/api/v1/router.go:68 | a new group on the same engine under the joined path |
| Http.RouterGroup.Handle | internal/app/api/v1/handlers/gists.go:70-82 | the route under JoinPaths(base, rel) is appended, or addRoute's panic is returned |
| Http.Context.String | internal/app/api/extensions/apiver.go:92 | one (status, text) written; nothing else changes |
| Http.Context.Next | internal/pkg/api/middleware/correlation.go:75 | the rest of the chain runs once and sees the current header and keys |
| LogCorrelation.FromGin | internal/pkg/logger/correlation.go:28-48 | the logger gains function and the key store's x-request-id; the context carries the same id under CorrelationId |
| LogCorrelation.FromContext | internal/pkg/logger/correlation.go:53-69 | the logger gains function and the context's correlation value (nil when absent); other fields are kept |
| LogCorrelation.FromContextAfterFromGin | internal/pkg/logger/correlation.go:28-69 | FromContext over the context from FromGin rebuilds FromGin's logger |
| LogCorrelation.CorrelationSurvivesDerivation | internal/pkg/logger/correlation.go:38-41 | loggers derived from the request logger keep its correlationId unless they set it themselves |
| Middleware.LettersAreAlphanumerics | internal/pkg/api/middleware/correlation.go:18 | the alphabet has 62 characters and holds exactly the ASCII letters and digits |
| Middleware.IdFrom | internal/pkg/api/middleware/correlation.go:22-29 | the id has 15 characters, all alphanumeric |
| Middleware.RndCorrelationId | internal/pkg/api/middleware/correlation.go:22-29 | the loop fills 15 positions, each a letter of the alphabet picked by the next draw mod 62 |
| Middleware.CorrelationHeaderIsCanonical | internal/pkg/api/middleware/correlation.go:62 | the middleware looks up "X-Request-Id" |
| Middleware.EnsuredHeader | internal/pkg/api/middleware/correlation.go:62-69 | a header map that has the key is unchanged; otherwise the key holds exactly the generated id |
| Middleware.ResolvedCorrelationId | internal/pkg/api/middleware/correlation.go:65-73 | the stored id is the caller's header value, or the generated 15-character id |
| Middleware.CorrelationMiddleware.Serve | internal/pkg/api/middleware/correlation.go:56-76 | logs, sets the header only if missing (with a warning), copies it into the key store, then runs the chain exactly once |
| Middleware.EnsureCorrelationId | internal/pkg/api/middleware/correlation.go:48-54 | the middleware's logger gains package "middleware" and function "EnsureCorrelationId" |
| ApiVersion.HandleStep | internal/app/api/extensions/apiver.go:88-101 | a step is skipped after a panic or when isRouteExist finds the path as given; otherwise it is addRoute of the joined path |
| ApiVersion.Registered | internal/app/api/extensions/apiver.go:87-103 | handle is the forwarder step on p followed by the handlers' step on version + p |
| ApiVersion.FoundIsStored | internal/app/api/extensions/apiver.go:105-112 | a path isRouteExist finds in a valid table is absolute and equal to its join onto "/" |
| ApiVersion.RegisteredKeepsAbsolute | internal/app/api/extensions/apiver.go:87-103 | handle only ever stores absolute paths |
| ApiVersion.RegisteredRoutesBoth | internal/app/api/extensions/apiver.go:87-103 | after a handle(m, p) that does not panic, both p and version + p are routed for m, joined onto "/" |
| ApiVersion.RegisteredKeepsValid | internal/app/api/extensions/apiver.go:87-103 | handle keeps the table absolute and free of duplicate (method, path) pairs, whether or not it panics |
| ApiVersion.RegisteredIdempotent | internal/app/api/extensions/apiver.go:87-112 | for clean p and version + p, repeating a successful handle adds nothing exactly when both are absolute; otherwise the repeat panics |
| ApiVersion.SecondVersionReusesForwarder | internal/app/api/extensions/apiver.go:88 | for a clean absolute path a second version reuses the installed forwarder and only attempts its versioned route |
| ApiVersion.DefaultInstallsOnlyForwarder | internal/app/api/extensions/apiver.go:99-101 | with version "" and a clean absolute path only the forwarder is installed; with a clean relative path the handlers' registration panics on the forwarder's path "/" + p, the path gin stores and names |
| ApiVersion.ForwardedPath | internal/app/api/extensions/apiver.go:94 | the forwarded path is "/", then the header's value, then the original path |
| ApiVersion.ForwardReachesVersionedRoute | internal/app/api/extensions/apiver.go:90-101 | for a clean absolute path with "/" + v + p clean, a request carrying header v is forwarded to the route a successful handle registered under WithVersion("/" + v) |
| ApiVersion.EmptyHeaderStillForwards | internal/app/api/extensions/apiver.go:91-94 | with an empty header the request goes on to "/" + path |
| ApiVersion.Router.constructor | internal/app/api/extensions/apiver.go:52-57 | a new router has no version groups |
| ApiVersion.Router.Default | internal/app/api/extensions/apiver.go:59-61 | the default router carries version "" over the same router |
| ApiVersion.Router.WithVersion | internal/app/api/extensions/apiver.go:63-70 | panics on a known version and leaves the groups as they were; otherwise adds exactly that version |
| ApiVersion.VersionedRouter.IsRouteExist | internal/app/api/extensions/apiver.go:105-112 | true exactly when some route has this method and exactly this path |
| ApiVersion.VersionedRouter.Handle | internal/app/api/extensions/apiver.go:87-103 | the new table and the panic, if any, are Registered(old table, version, m, p, hs) |
| ApiVersion.VersionedRouter.Get | internal/app/api/extensions/apiver.go:72-74 | handle with GET, its panic passed on |
| ApiVersion.VersionedRouter.Post | internal/app/api/extensions/apiver.go:76-78 | handle with POST, its panic passed on |
| ApiVersion.VersionedRouter.Forward | internal/app/api/extensions/apiver.go:89-96 | an empty header writes a 400 and does not return; the path becomes ForwardedPath; exactly one re-dispatch, with the key store reset |
| Models.ErrorToJson | internal/app/api/v1/models/error.go:9-35 | an error serialises under exactly code, message and detail |
| Models.GistToJson | internal/app/api/v1/models/gist.go:6-19 | a gist serialises under exactly name, description, language and code |
| Models.GistFromJson | internal/app/api/v1/models/gist.go:6-19 | decoding an empty object gives the all-empty gist |
| Models.GistRoundTrip | internal/app/api/v1/models/gist.go:6-19 | decoding an encoded gist gives it back |
| Models.ValidGist | internal/app/api/v1/models/gist.go:9-18 | name, language and code are required (non-empty); description is not |
| Models.ValidGistFromJson | internal/app/api/v1/models/gist.go:9-18 | a decoded gist is valid exactly when name, language and code are present and non-empty |
| Models.BindGist | internal/app/api/v1/models/gist.go:9-18 | binding succeeds exactly on an object with the required members, and yields a valid gist with the sent values |
| Models.BindEncodedGist | internal/app/api/v1/models/gist.go:9-18 | a gist sent as JSON binds back to itself exactly when it is valid |
| Models.EmptyObjectFailsToBind | internal/app/api/v1/models/gist.go:9-18 | `{}` does not bind |
| Models.ValidGistInfo | internal/app/api/v1/models/gist.go:27-36 | id, name and language are required; description is not |
| Models.GistInfoToJson | internal/app/api/v1/models/gist.go:25-37 | an info serialises under exactly id, name, description and language |
| Models.GistInfoRoundTrip | internal/app/api/v1/models/gist.go:25-37 | decoding an encoded info gives it back |
| Models.ValidGistDetails | internal/app/api/v1/models/gist.go:46-74 | id, name, language, code and createdAt are required; the rest are not |
| Models.GistDetailsToJson | internal/app/api/v1/models/gist.go:44-75 | lastUpdated and lastAccessed are left out when empty; every other member is always present |
| Models.GistDetailsRoundTrip | internal/app/api/v1/models/gist.go:44-75 | omitting empty optional members loses nothing |
| Helpers.ExtractContextModel | internal/app/api/helpers/gincontext.go:46-60 | never fails; the model's correlation id is the key store's x-request-id |
| Helpers.ParseContextWith | internal/app/api/helpers/gincontext.go:88-111 | always the FromGin logger; on failure, the error is logged with a nil context and an empty model; otherwise the FromGin context and the model |
| Helpers.ParseContext | internal/app/api/helpers/gincontext.go:88-111 | over the real extraction it never fails, logs nothing, and the model's correlation id is the key store's x-request-id |
| Helpers.ParseContextSucceeds | internal/app/api/helpers/gincontext.go:96-110 | the model, the logger and the context carry the same correlation id |
| Helpers.AbortWithError | internal/app/api/helpers/errors.go:14-36 | the given status; exactly one Error with the code and message and an empty detail; the code is logged as the error |
| Metrics.Inc | internal/pkg/metrics/reporter.go:37 | the labelled counter grows by exactly one, and every other counter stays |
| Metrics.IncCommutes | internal/pkg/metrics/reporter.go:45-46 | the counters do not depend on the order of increments |
| Metrics.ProcessedKeepsBound | internal/pkg/metrics/reporter.go:37 | a processed request keeps every failure count within its operation's total |
| Metrics.FailedKeepsBound | internal/pkg/metrics/reporter.go:45-46 | a failed request keeps every failure count within its operation's total |
| Metrics.Counters.constructor | internal/pkg/metrics/metrics.go:9-24 | both counter vectors start empty |
| Metrics.Reporter.ApiRequestProcessed | internal/pkg/metrics/reporter.go:31-38 | requests_total[op] grows by one, the failures stay, and one info line is logged |
| Metrics.Reporter.ApiRequestFailed | internal/pkg/metrics/reporter.go:41-47 | requests_total[op] and failures[(op, f)] grow by one each; logged under function "ApiRequestProcessed" |
| Metrics.NewReporter | internal/pkg/metrics/reporter.go:20-28 | a nil logger gives ErrNoLoggerProvided; otherwise the reporter keeps the logger |
| Handlers.GistsRoutes | internal/app/api/v1/handlers/gists.go:69-82 | GET and POST on the group path, then GET, PUT and DELETE on its ":id" child, in that order |
| Handlers.GistsRoutesUnique | internal/app/api/v1/handlers/gists.go:67-85 | the five registrations never collide |
| Handlers.GistsRoutesUnderApi | internal/app/api/v1/handlers/gists.go:69-82 | under /api/gists the routes are GET and POST /api/gists, and GET, PUT and DELETE /api/gists/:id |
| Handlers.GistsHandler.AttachTo | internal/app/api/v1/handlers/gists.go:67-85 | the five routes are registered in order, the first panic stops the rest and is passed on; nil is returned |
| Handlers.AttachToFreshGroup | internal/app/api/v1/handlers/gists.go:67-85 | on an absolute group path whose five routes are free, all five are appended without a panic |
| Handlers.AttachTwicePanics | internal/app/api/v1/handlers/gists.go:67-85 | attaching twice to the same group panics on the first route |
| Handlers.ApiMountSucceeds | internal/app/api/v1/handlers/gists.go:67-85 | the resource mounted at /api/gists (the path its comments give) on a fresh engine registers all five routes without a panic |
| Handlers.NewGistsHandler | internal/app/api/v1/handlers/gists.go:50-63 | never fails; the logger gains package "api.v1.handlers"; logic and metrics are kept |
| Handlers.ContextFailure | internal/app/api/v1/handlers/gists.go:99-106 | a failed parse answers 500 unknown-error after ParseContext's own log line |
| Handlers.BindFailure | internal/app/api/v1/handlers/gists.go:157-163 | a body that does not bind answers 400 failed-to-parse-request-json with one error |
| Handlers.GistsHandler.GetGists | internal/app/api/v1/handlers/gists.go:98-131 | 500 on a failed parse; otherwise 200 with the two fixed gists in the lang query's language |
| Handlers.GistsHandler.PostGist | internal/app/api/v1/handlers/gists.go:144-174 | 500 on a failed parse, 400 when the body does not bind, otherwise 201 with the fixed info; the handling line is logged, and on a 400 also the error line with the failed-to-parse code |
| Handlers.GistsHandler.GetGist | internal/app/api/v1/handlers/gists.go:186-213 | 500 on a failed parse; otherwise 200 with details under the path id, valid exactly when the id is non-empty, and the handling line logged |
| Handlers.GistsHandler.PutGist | internal/app/api/v1/handlers/gists.go:228-259 | 500 on a failed parse, 400 when the body does not bind, otherwise 201 echoing the id and the body's name, description and language; the handling line is logged, and on a 400 also the error line with the failed-to-parse code |
| Handlers.GistsHandler.DeleteGist | internal/app/api/v1/handlers/gists.go:272-295 | 500 on a failed parse; otherwise 204 with an info under the path id, and the handling line logged |
| Handlers.HandlersNeverFailOnParse | internal/app/api/helpers/gincontext.go:46-60 | with the real extraction no handler answers 500 |
| Handlers.PostIgnoresBody | internal/app/api/v1/handlers/gists.go:165-173 | postGist's answer to any body that binds is the same |
| Handlers.PostEmptyObject | internal/app/api/v1/handlers/gists.go:157-163 | posting `{}` answers 400 with exactly one failed-to-parse-request-json error |
| Handlers.PostWithoutDescription | internal/app/api/v1/handlers/gists.go:157-173 | a gist without a description binds and is answered 201 with the fixed info |
| Handlers.PutAnswersValidInfo | internal/app/api/v1/handlers/gists.go:250-258 | with a non-empty id and a body that binds, putGist answers with a valid GistInfo |
| Handlers.GetGistsValidIffLanguage | internal/app/api/v1/handlers/gists.go:110-128 | the infos are valid exactly when a lang query is given |
| V1.NewV1Router | internal/app/api/v1/router.go:42-59 | a nil logger is refused first, then a nil handler; otherwise the logger gains package "v1" |
| V1.LoggerCheckedFirst | internal/app/api/v1/router.go:47-53 | with both nil the error is ErrNoLoggerProvided |
| V1.V1Router.AttachTo | internal/app/api/v1/router.go:62-76 | logs once and mounts the gists routes under "gists", passing on a registration panic; returns nil |
| Components.NewComponentFactory | internal/app/components/factory.go:24-34 | a nil logger gives ErrNoLoggerProvided; otherwise the factory keeps it unchanged |
| Components.ComponentFactory.CreateApiMetricsReporter | internal/app/components/factory.go:37-42 | always a reporter over the factory logger with function "CreateApiMetricsReporter", after one info line |
| Components.ComponentFactory.CreateGistsLogic | internal/app/components/factory.go:45-56 | the reporter never fails here, so the logic is always built, after one info line |
| Components.NewGistsLogic | internal/app/logic/gists.go:13-20 | the stateless logic is always built |

## Left out

- Process lifecycle and servers are not part of this model: internal/app/cli/run.go, internal/pkg/status, internal/pkg/metrics/server.go, internal/app/cli/config.go and cmd/gogin/main.go. They are goroutines, signals, listeners and configuration plumbing.
- internal/pkg/metrics/prometheus.go duplicates the counters and holds an older reporter, so it is not part of this model.
- internal/app/api/builder.go and internal/app/api/v1/factory.go call functions that do not exist with those signatures, so the wiring is not modelled.
- internal/pkg/logic/gists.go and internal/app/logic/gists_test.go are not part of this model. The test asserts errors that the logic constructor never returns.
- logrus is modelled as the record a call hands to the sink. Output, formatting, timestamps and the level threshold are not modelled: every call appends a record whatever the sink's level.
- Logger.Log.Emit: Fatal and Panic are modelled as appending their record only, because exiting and unwinding are process control.
- Logger.Log.Emit: the `f` forms take the formatted message, because Go's formatting is not modelled.
- Field values are limited to strings, error values and nil, the only kinds this service stores.
- Logger.New: `NewNullLogger` (a test helper) is left out.
- Logger.ApplyConfig: setting the output to standard output is left out.
- logrus.ParseLevel is the parameter `parseLevel` of ApplyConfig and New.
- Middleware.RndCorrelationId: math/rand is the sequence of non-negative draws passed in. The model does not capture uniformity.
- Middleware.CorrelationMiddleware.Serve: the source tests for a nil value slice, and the model tests for absence of the key. The two differ only for a key stored with a nil slice, which request parsing never produces.
- Http.CanonicalHeaderKey covers header names made of token characters. Other names are returned unchanged, as net/http does.
- Http.JoinPaths covers joins that are clean (Http.IsClean): no empty segment and no "." or ".." segment, a leading one of a relative path ("./x", "../x", ".") included. gin's path cleaning of other paths is not modelled.
- ApiVersion.VersionedRouter.Handle: apiver.go:99 concatenates version and path with no separator check. A version ending in '/', or the version "/", makes version + path unclean ("/v1/" + "/user" is "/v1//user"). gin stores the cleaned path, so isRouteExist misses it as it misses a relative path: the first registration can already panic, and a repeat does. The model does not clean, so for such paths its route table differs from gin's.
- RegisteredIdempotent: stated only for clean p and version + p, because of the gap above. For a version such as "/v1/", gin's repeat panics.
- ForwardReachesVersionedRoute: stated only when "/" + v + p is clean. For v "v1/", gin stores "/v1/user" and does not route the forwarded "/v1//user". For v "", registering under "/" panics in gin.
- SecondVersionReusesForwarder and DefaultInstallsOnlyForwarder: stated only for clean paths, for the same reason. A relative p such as "./x" is not clean: gin stores and names "/x" for it, where the model would use "/./x".
- Http.AddRouteTo: gin's route tree is a list of (method, path) pairs. It refuses exact duplicates and paths without a leading '/'. Conflicts between different paths over a wildcard segment (`:id`, `*any`), route matching and path parameters are not modelled.
- Http.AddRouteTo: the empty path panics with the "must begin with '/'" message. In gin it fails on an index out of range, which is also a panic.
- Http.Engine.Handle: gin's checks for an empty method, an invalid method name and an empty handler chain are not modelled. The methods used here are constants, and gin.Default's middleware always makes the chain non-empty.
- Http.RouterGroup.Handle: the group's middleware, which gin prepends to each route's chain, is not part of the stored route.
- Http.Engine.HandleContext: what the re-dispatched chain does is not modelled, as with Http.Context.Next. Only the reset of the key store and the dispatch itself are recorded.
- ApiVersion.Router.WithVersion records the version name only. The gin group it creates is never used by the router, so it is not stored.
- Models.BindGist: a body is modelled by its string members. encoding/json's case-insensitive key matching, non-string members, gin's validator engine, and the 400 that BindJSON itself writes are not modelled. Malformed input is the `Malformed` body.
- Handlers.GistsHandler.GetGists: the call to GistsLogic.GetGists is left out, because its result is discarded. A nil logic, which would make that call panic, is not modelled.
- Handlers: replies are returned as values rather than written to the gin context. Abort's effect of skipping later handlers has no counterpart here. gin sends no body with a 204, so the info in deleteGist's reply is never sent.
- Metrics.Reporter.ApiRequestProcessed: the duration observations (float64 summary and histogram) and the `milliseconds` argument are left out.
- V1.V1Router.AttachTo: the child is the gists handler, the only path handler in the service. Its AttachTo never reports an error, and the router discards the result either way.
