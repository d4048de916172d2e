/** The values the request handler reads and produces: the inbound request,
    the per-request server context, the server configuration, sessions and
    the session store, and the outcome of one dispatch. */
module ServerModel {
  import opened Optional

  /** A member of Karate's `ResourceType` enum, kept opaque: only its name. */
  datatype ResourceType = ResourceType(name: string)

  /** A session record; `updated` and `expires` are epoch seconds. */
  datatype Session = Session(id: string, updated: int, expires: int)

  /** The session store, keyed by session id (the value of the session cookie). */
  type Store = map<string, Session>

  /** The inbound request as far as dispatch looks at it. `resourceType` and
      `resourcePath` are null until something fills them in. */
  datatype Request = Request(
    path: string,
    httpMethod: string,
    isAjax: bool,
    resourceType: Option<ResourceType>,
    resourcePath: Option<string>)

  /** What the context factory hands back for one request.
      `session` is the session slot as the factory left it (it may pre-resolve one);
      `sessionAfterInit` is what the slot holds once `init()` has run;
      `resourceType` and `resourcePath` are the request's fields after the factory,
      which may set either of them. */
  datatype Context = Context(
    isApi: bool,
    isStateless: bool,
    isHttpGetAllowed: bool,
    session: Option<Session>,
    sessionCookieValue: Option<string>,
    sessionAfterInit: Option<Session>,
    resourceType: Option<ResourceType>,
    resourcePath: Option<string>)

  /** The handler's configuration. An expiry of -1 means sessions never expire. */
  datatype Config = Config(
    homePagePath: string,
    signinPagePath: string,
    signoutPagePath: string,
    sessionExpirySeconds: int,
    useGlobalSession: bool,
    autoCreateSession: bool,
    stripContextPathFromRequest: bool,
    hostContextPath: Option<string>)

  /** Collaborators whose code is not part of this model: the pluggable context
      factory, `ResourceType.fromFileExtension`, `Request.isHttpGetForStaticResource`,
      the two fixed sessions `ServerConfig.GLOBAL_SESSION` and `Session.TEMPORARY`, and
      whether the session store hands out its own session objects (so that a change to a
      session it returned is a change to the store) rather than copies. */
  datatype Env = Env(
    contextFactory: Request -> Context,
    fromFileExtension: string -> Option<ResourceType>,
    isHttpGetForStaticResource: Request -> bool,
    globalSession: Session,
    temporarySession: Session,
    storeSharesSessions: bool)

  /** How a redirect tells the client where to go. */
  datatype RedirectSignal = AjaxRedirect | LocationHeader

  /** The response `handle` returns.
      `Static`: `ResponseBuilder.buildStatic` on the request;
      `Redirect`: the sign-in redirect, with the session cookie to delete if any;
      `Forward`: `RequestCycle.init(...).handle()` on the resolved request and session;
      `IndexOutOfBounds`: the exception `signInPath` raises for an empty sign-in path
      under a host context path. */
  datatype Response =
    | Static(request: Request)
    | Redirect(status: int, deleteCookie: Option<string>, signal: RedirectSignal, target: string)
    | Forward(request: Request, session: Option<Session>)
    | IndexOutOfBounds

  /** One dispatch: the response, the session store afterwards, the context's
      session slot afterwards, and whether `setSession` was called on the context. */
  datatype Dispatch = Dispatch(
    response: Response,
    store: Store,
    session: Option<Session>,
    sessionAssigned: bool)
}
