# Karate request dispatch, modelled in Dafny

This project models the server-side dispatch decision of Karate's embedded HTTP
server, `RequestHandler.handle` with its helpers `signInPath` and `isExpired`.
For each inbound request the handler:

1. strips the host context path from the request path, when stripping is switched
   on and the path starts with it, then rewrites a path of exactly `/` to the home page;
2. asks the context factory for a `ServerContext`, then infers the resource type from
   the file extension if the factory left it unset;
3. serves a static resource straight away when the context is not an API context, the
   request is a GET for a static resource and the context allows GET;
4. otherwise, unless the context already holds a session or is stateless, resolves a
   session: the cookie's session from the store (evicted if expired, touched if not),
   else the global session, else an auto-created one, else the temporary session on
   the sign-in and sign-out pages, else a 302 redirect to the sign-in page;
5. forwards the request and its session to the request cycle.

The model is functional. `RequestHandler.Handle` takes the configuration, the
collaborators (`Env`), the session store (a `map<string, Session>`), the request and
the current time, and returns a `Dispatch`: the response, the store afterwards, the
context's session slot afterwards and whether `setSession` was called.

Files:
- `optional.dfy`: `Option`, standing for a nullable Java reference.
- `java_strings.dfy`: `String.startsWith`.
- `server_model.dfy`: requests, contexts, configuration, sessions, responses.
- `request_handler.dfy`: the stages of `handle`, `signInPath`, `isExpired`.
- `request_handler_properties.dfy`: runs of several requests, and edge-case lemmas.

Behaviour of the code worth noting:

- A live session's `expires` is set to the deadline computed from its OLD `updated`
  (`updated + expirySeconds`), not to `now + expirySeconds`; `updated` becomes `now`.
  The next check uses `updated`, and the recorded `expires` lags one touch behind
  (`ExpiresFieldLags`). The handler itself never writes the touched session back. As
  far as the handler's own store calls go (the get at line 105 and the delete at line
  109), the touch reaches the next request only when the store hands out its own
  session objects (`Env.storeSharesSessions`), and then the window slides to the last
  touch plus the expiry; with a store that hands out copies, the handler alone leaves
  the deadline at the stored `updated` plus the expiry (`RunSlidingWindow`). The
  request cycle receives the touched session on the context (lines 153-156) and may
  save it; that is left out of this model.
- A stateless context's session slot is not written at all: `setSession` sits inside
  the branch that resolves a session.
- The root path reaches the home page unless the stripped prefix is `/` itself, which
  turns `/` into the empty path (`RootUnderSlashPrefix`).
- The prefix is stripped once and character by character, so `/apple` under `/app`
  becomes `le`, and `/app/app/x` keeps a leading `/app` (`StripIsCharacterWise`,
  `StripHappensOnce`).
- With auto-create on and global-session mode off, a context whose `init()` creates
  no session is forwarded with no session (`AutoCreateCanForwardNoSession`).
- With stripping on, the sign-in redirect target is the host context path followed by
  the sign-in page minus its first character, and the next request strips the host
  context path again, so it arrives at the sign-in page minus its first character,
  which is not the sign-in page. Without a global or auto-created session such a
  request is redirected to the same target again (`SignInTargetNormalises`,
  `SignInRedirectLoops`). Whether this happens in a running server depends on how
  `Request.setPath` treats a leading `/`, and `Request` is not part of this model.
- An empty sign-in page path under a host context path makes `signInPath` throw
  (`substring(1)` of an empty string); the model returns `IndexOutOfBounds`, after any
  eviction has already happened.

The contracts below are written in terms of these definitions in `request_handler.dfy`,
each a transcription of source conditions (lines of
`karate-core/src/main/java/com/intuit/karate/http/RequestHandler.java`):

- `FactoryInput`: the request with its normalised path, as handed to the factory (lines 61-75).
- `ContextOf`: the factory applied to that request (line 75).
- `Prepared`: the request with the factory's resource type and path, then the resource type filled in (lines 75-79).
- `ServesStatic`: not an API context, a GET for a static resource, and GET allowed (line 81).
- `SkipsResolution`: not static, and the context holds a session or is stateless (lines 99-100).
- `Resolves`: neither static nor skipped, the branch at lines 100-154.
- `Evicts`: a cookie is presented, the store holds its session, and that session has expired (lines 102-106).
- `IsAuthPage`: the path equals the sign-in or the sign-out page (lines 127-128).

## Model

| member | source | states |
|---|---|---|
| JavaStrings.StartsWith | karate-core/src/main/java/com/intuit/karate/http/RequestHandler.java:63 | the prefix test holds exactly when the prefix is an initial segment of the path |
| RequestHandler.StripPrefix | karate-core/src/main/java/com/intuit/karate/http/RequestHandler.java:56 | a strip prefix exists only when stripping is on and a host context path is configured, and it is that path |
| RequestHandler.StripContextPath | karate-core/src/main/java/com/intuit/karate/http/RequestHandler.java:61-68 | when the prefix applies, prefix followed by the result gives back the path; otherwise the path is unchanged |
| RequestHandler.NormalisePath | karate-core/src/main/java/com/intuit/karate/http/RequestHandler.java:61-74 | a stripped path of exactly `/` becomes the home page and any other stripped path is left alone; the bare root never survives; prefix + `/` and (unless the prefix is `/`) `/` itself become the home page; with no prefix other paths are unchanged |
| RequestHandler.FillResourceType | karate-core/src/main/java/com/intuit/karate/http/RequestHandler.java:75-80 | only the resource type can change; a type the factory set is kept; an unset one comes from the file extension |
| RequestHandler.CheckExpiry | karate-core/src/main/java/com/intuit/karate/http/RequestHandler.java:166-179 | expiry -1 never expires and leaves the session as it is; otherwise expired iff now is past updated + expiry; a live session gets updated = now and expires = old updated + expiry |
| RequestHandler.LookUp | karate-core/src/main/java/com/intuit/karate/http/RequestHandler.java:102-113 | a session is found iff a cookie names a stored, unexpired one, and it is the touched session; an expired one is deleted from the store under the cookie id; a store sharing its objects holds the touched session afterwards; otherwise the store is unchanged and never gains an id |
| RequestHandler.ChooseFallback | karate-core/src/main/java/com/intuit/karate/http/RequestHandler.java:115-131 | the global session iff global mode; auto-create iff not global and auto-create on; the temporary session iff neither and the path is the sign-in or sign-out page |
| RequestHandler.SignInPath | karate-core/src/main/java/com/intuit/karate/http/RequestHandler.java:160-164 | the sign-in page without a context path; with one, the context path followed by the sign-in page minus its first character, and no result for an empty sign-in page |
| RequestHandler.RedirectToSignIn | karate-core/src/main/java/com/intuit/karate/http/RequestHandler.java:132-148 | status 302, the presented cookie deleted, AJAX redirect iff the request is AJAX, target the sign-in path; the exception when that path cannot be built |
| RequestHandler.Handle | karate-core/src/main/java/com/intuit/karate/http/RequestHandler.java:59-158 | static iff not API, static GET and GET allowed, with store and session untouched and resource path defaulted; skip forwards the context's session untouched; the store changes only by the eviction, or by the touch in a sharing store; the store's live session, then the fallbacks in order, then the redirect; setSession is called iff resolution ran and forwarded; global or auto-create modes never redirect; a forward without a session needs a stateless context or an empty init() |
| RequestHandlerProperties.Serve | karate-core/src/main/java/com/intuit/karate/http/RequestHandler.java:99-113 | in a run of dispatches over one store, every store left behind holds only ids of the initial store and of the store before it |
| RequestHandlerProperties.ServeSteps | karate-core/src/main/java/com/intuit/karate/http/RequestHandler.java:45 | the i-th dispatch of a run is the handler applied to the i-th request and the store the previous dispatch left |
| RequestHandlerProperties.StoresShrink | karate-core/src/main/java/com/intuit/karate/http/RequestHandler.java:105-111 | a later store in a run holds no id an earlier one lacks: the handler's own store calls, the get and the delete, never add sessions |
| RequestHandlerProperties.EvictedAtMostOnce | karate-core/src/main/java/com/intuit/karate/http/RequestHandler.java:105-111 | a session removed during a run is absent from every later store, so it is evicted once |
| RequestHandlerProperties.StaticIgnoresStoreAndClock | karate-core/src/main/java/com/intuit/karate/http/RequestHandler.java:81-97 | a static response does not depend on the store or the clock, and the store is unchanged |
| RequestHandlerProperties.SkipIgnoresStoreAndClock | karate-core/src/main/java/com/intuit/karate/http/RequestHandler.java:99-100 | a skipped resolution does not depend on the store or the clock, and the store is unchanged |
| RequestHandlerProperties.EvictionIsFinal | karate-core/src/main/java/com/intuit/karate/http/RequestHandler.java:105-111 | after an eviction the id is gone, and a later request with the same cookie leaves the store as it is |
| RequestHandlerProperties.SlidingWindow | karate-core/src/main/java/com/intuit/karate/http/RequestHandler.java:166-179 | after a touch at now, a later check is live iff it comes no later than now + expiry |
| RequestHandlerProperties.ExpiresFieldLags | karate-core/src/main/java/com/intuit/karate/http/RequestHandler.java:172-177 | the recorded expires is the old deadline, short of updated + expiry iff the session was last touched before now |
| RequestHandlerProperties.FillResourceTypeIdempotent | karate-core/src/main/java/com/intuit/karate/http/RequestHandler.java:76-79 | inferring the resource type twice gives the same request as inferring it once |
| RequestHandlerProperties.StripIsCharacterWise | karate-core/src/main/java/com/intuit/karate/http/RequestHandler.java:63-65 | for every prefix and rest, prefix + rest strips to rest, whether or not rest starts a new path segment |
| RequestHandlerProperties.StripHappensOnce | karate-core/src/main/java/com/intuit/karate/http/RequestHandler.java:61-68 | for every prefix p and rest, p + p + rest strips to p + rest, which still starts with p |
| RequestHandlerProperties.NormaliseUnderPrefix | karate-core/src/main/java/com/intuit/karate/http/RequestHandler.java:61-74 | a path below the strip prefix normalises as the bare path does with stripping off |
| RequestHandlerProperties.SignInTargetNormalises | karate-core/src/main/java/com/intuit/karate/http/RequestHandler.java:160-164 | with stripping on, the redirect target normalises to the sign-in page minus its first character (the home page if that is `/`), never the sign-in page itself unless it is the home page |
| RequestHandlerProperties.SignInRedirectLoops | karate-core/src/main/java/com/intuit/karate/http/RequestHandler.java:127-148 | with stripping on and no global or auto-created session, following the redirect without a valid session yields the same redirect again |
| RequestHandlerProperties.RunSlidingWindow | karate-core/src/main/java/com/intuit/karate/http/RequestHandler.java:103-111 | for two requests with one cookie, the second evicts iff it comes after the first request's time plus the expiry in a sharing store, or after the stored updated plus the expiry in a copying store; otherwise it gets the session touched at its own time |
| RequestHandlerProperties.RootUnderSlashPrefix | karate-core/src/main/java/com/intuit/karate/http/RequestHandler.java:61-73 | with a strip prefix of `/`, the root becomes the empty path and not the home page |
| RequestHandlerProperties.AutoCreateCanForwardNoSession | karate-core/src/main/java/com/intuit/karate/http/RequestHandler.java:122-126 | whenever resolution runs with global mode off, auto-create on, no live stored session and an init() that makes none, the request is forwarded with no session, which is also assigned to the context |

## Left out

- Logging and the elapsed-time computation around static serving: side effects with no bearing on the response.
- Branch-coverage instrumentation (`branchFlags`, `BranchCoverageInfo`): not behaviour.
- `Instant.now()`: the current time is the parameter `now`.
- `ResponseBuilder`, `RequestCycle`, `TemplateUtils` and the template engine: the response constructors `Static`, `Redirect` and `Forward` stand for their calls.
- `ResourceType.fromFileExtension`, `Request.isHttpGetForStaticResource` and the context factory: their code is not part of this model, so they enter as functions in `Env`.
- `ServerContext.init()`: its effect enters as `Context.sessionAfterInit`.
- The context factory may set the resource type, the resource path and the session; a factory that rewrites the path, the method or the AJAX flag is not modelled.
- Null configuration paths (home, sign-in, sign-out page) are not modelled; a null request path after the home-page rewrite is not either.
- Session data other than id, `updated` and `expires` is not modelled.
- Store writes by `ServerContext.init()` and by the request cycle (saving a new or changed session) are not modelled: `Dispatch.store` is the store as the handler leaves it, before the request cycle runs.
- The store's sharing of session objects is one flag for the whole store (`Env.storeSharesSessions`); which store implementations share them is not part of this model.
- CheckExpiry: does not model 64-bit overflow of `updated + expirySeconds`, which needs epoch seconds near 2^63.
- Concurrent dispatches racing on the store or the global session: the model is single-threaded.
- The outbound side of the HTTP layer (`HttpRequestBuilder`, `MultiPartBuilder`) is outside the scope of this model.
