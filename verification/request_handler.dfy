/** The dispatch decision of Karate's `RequestHandler`: path fix-up, resource-type
    inference, the static short-circuit, session resolution and the sign-in redirect. */
module RequestHandler {
  import opened Optional
  import opened JavaStrings
  import opened ServerModel

  const Slash := "/"

  /** The prefix stripped from inbound paths: the host context path, and only when
      stripping is switched on in the configuration. */
  function StripPrefix(c: Config): (p: Option<string>)
    ensures p.Some? <==> c.stripContextPathFromRequest && c.hostContextPath.Some?
    ensures p.Some? ==> p == c.hostContextPath
  {
    if c.stripContextPathFromRequest then c.hostContextPath else None
  }

  /** Removes a configured prefix, once, when the path starts with it. */
  function StripContextPath(prefix: Option<string>, path: string): (r: string)
    ensures prefix.Some? && prefix.value <= path ==> prefix.value + r == path
    ensures !(prefix.Some? && prefix.value <= path) ==> r == path
  {
    if prefix.Some? && StartsWith(path, prefix.value) then path[|prefix.value|..] else path
  }

  /** The path the context factory sees: stripped first, then `/` becomes the home page. */
  function NormalisePath(c: Config, path: string): (r: string)
    // the bare root never survives normalisation
    ensures r == Slash ==> c.homePagePath == Slash
    // exactly a stripped path of `/` is rewritten; any other stripped path is left alone
    ensures StripContextPath(StripPrefix(c), path) == Slash ==> r == c.homePagePath
    ensures StripContextPath(StripPrefix(c), path) != Slash ==> r == StripContextPath(StripPrefix(c), path)
    ensures StripPrefix(c).Some? && path == StripPrefix(c).value + Slash ==> r == c.homePagePath
    ensures path == Slash && StripPrefix(c) != Some(Slash) ==> r == c.homePagePath
    ensures path == Slash && StripPrefix(c) == Some(Slash) ==> r == ""
    ensures path != Slash && StripPrefix(c).None? ==> r == path
  {
    var stripped := StripContextPath(StripPrefix(c), path);
    // the only prefixes of "/" are "" and "/" itself
    assert path == Slash && StripPrefix(c).Some? && StripPrefix(c).value <= path ==>
      StripPrefix(c).value == [] || StripPrefix(c).value == Slash;
    if stripped == Slash then c.homePagePath else stripped
  }

  /** Infers the resource type from the path's extension, but only when it is still unset. */
  function FillResourceType(q: Request, fromFileExtension: string -> Option<ResourceType>): (r: Request)
    ensures r == q.(resourceType := r.resourceType)
    ensures q.resourceType.Some? ==> r.resourceType == q.resourceType
    ensures q.resourceType.None? ==> r.resourceType == fromFileExtension(q.path)
  {
    if q.resourceType.None? then q.(resourceType := fromFileExtension(q.path)) else q
  }

  /** The request handed to the context factory. */
  function FactoryInput(c: Config, req: Request): Request {
    req.(path := NormalisePath(c, req.path))
  }

  /** The context the factory builds for the normalised request. */
  function ContextOf(c: Config, env: Env, req: Request): Context {
    env.contextFactory(FactoryInput(c, req))
  }

  /** The request after the factory has run and the resource type has been filled in. */
  function Prepared(c: Config, env: Env, req: Request): Request {
    var ctx := ContextOf(c, env, req);
    FillResourceType(FactoryInput(c, req).(resourceType := ctx.resourceType, resourcePath := ctx.resourcePath),
                     env.fromFileExtension)
  }

  /** A GET for a static resource, outside an API context, where GET is allowed. */
  predicate ServesStatic(c: Config, env: Env, req: Request) {
    var ctx := ContextOf(c, env, req);
    !ctx.isApi && env.isHttpGetForStaticResource(Prepared(c, env, req)) && ctx.isHttpGetAllowed
  }

  /** Not static, and the context already holds a session or declares itself stateless. */
  predicate SkipsResolution(c: Config, env: Env, req: Request) {
    var ctx := ContextOf(c, env, req);
    !ServesStatic(c, env, req) && (ctx.session.Some? || ctx.isStateless)
  }

  /** Not static and not skipped: the handler looks for a session. */
  predicate Resolves(c: Config, env: Env, req: Request) {
    !ServesStatic(c, env, req) && !SkipsResolution(c, env, req)
  }

  /** The result of checking a session's age. */
  datatype Expiry = Expired | Live(session: Session)

  /** `isExpired`: with an expiry of -1 nothing expires and nothing changes; otherwise
      the session is expired once `now` is past `updated + expirySeconds`, and a live
      session is touched: `updated` becomes `now` and `expires` the deadline computed
      from the OLD `updated`. */
  function CheckExpiry(expirySeconds: int, s: Session, now: int): (e: Expiry)
    ensures expirySeconds == -1 ==> e == Live(s)
    ensures expirySeconds != -1 ==> (e.Expired? <==> now > s.updated + expirySeconds)
    ensures expirySeconds != -1 && e.Live? ==>
      e.session == s.(updated := now, expires := s.updated + expirySeconds)
  {
    if expirySeconds == -1 then Live(s)
    else
      var expires := s.updated + expirySeconds;
      if now > expires then Expired
      else Live(s.(updated := now, expires := expires))
  }

  /** What the cookie lookup found and the store it left behind. */
  datatype Lookup = Lookup(found: Option<Session>, store: Store)

  /** The cookie's session is in the store but has expired. */
  predicate Evicts(expirySeconds: int, store: Store, cookie: Option<string>, now: int) {
    cookie.Some? && cookie.value in store && CheckExpiry(expirySeconds, store[cookie.value], now).Expired?
  }

  /** Looks the cookie's session up; an expired one is deleted and counts as absent.
      A live one is touched; when the store hands out its own session objects
      (`shared`) the touch is visible in the store, otherwise the store keeps its record. */
  function LookUp(expirySeconds: int, shared: bool, store: Store, cookie: Option<string>, now: int): (l: Lookup)
    ensures l.found.Some? <==> cookie.Some? && cookie.value in store && !Evicts(expirySeconds, store, cookie, now)
    ensures l.found.Some? ==> Live(l.found.value) == CheckExpiry(expirySeconds, store[cookie.value], now)
    ensures Evicts(expirySeconds, store, cookie, now) ==> l.store == store - {cookie.value}
    ensures l.found.Some? && shared ==> l.store == store[cookie.value := l.found.value]
    ensures !Evicts(expirySeconds, store, cookie, now) && !(l.found.Some? && shared) ==> l.store == store
    ensures l.store.Keys <= store.Keys
  {
    if cookie.None? || cookie.value !in store then Lookup(None, store)
    else match CheckExpiry(expirySeconds, store[cookie.value], now)
      case Expired => Lookup(None, store - {cookie.value})
      case Live(s) => Lookup(Some(s), if shared then store[cookie.value := s] else store)
  }

  /** Where the session comes from when no valid one was found. */
  datatype Fallback = UseGlobal | UseAutoCreated | UseTemporary | NotFound

  /** The sign-in and sign-out pages may be reached without a session. */
  predicate IsAuthPage(c: Config, path: string) {
    c.signinPagePath == path || c.signoutPagePath == path
  }

  /** The fallbacks in priority order: global session, auto-create, auth-flow page. */
  function ChooseFallback(c: Config, path: string): (f: Fallback)
    ensures f == UseGlobal <==> c.useGlobalSession
    ensures f == UseAutoCreated <==> !c.useGlobalSession && c.autoCreateSession
    ensures f == UseTemporary <==> !c.useGlobalSession && !c.autoCreateSession && IsAuthPage(c, path)
  {
    if c.useGlobalSession then UseGlobal
    else if c.autoCreateSession then UseAutoCreated
    else if IsAuthPage(c, path) then UseTemporary
    else NotFound
  }

  /** `signInPath`: the sign-in page, with its leading character replaced by the host
      context path when one is configured. Java's `substring(1)` throws on an empty
      string, which is the `None` case. */
  function SignInPath(c: Config): (r: Option<string>)
    ensures c.hostContextPath.None? ==> r == Some(c.signinPagePath)
    ensures c.hostContextPath.Some? ==> (r.Some? <==> c.signinPagePath != [])
    ensures c.hostContextPath.Some? && r.Some? ==>
      r.value == c.hostContextPath.value + c.signinPagePath[1..]
  {
    match c.hostContextPath
    case None => Some(c.signinPagePath)
    case Some(contextPath) =>
      if |c.signinPagePath| >= 1 then Some(contextPath + c.signinPagePath[1..]) else None
  }

  /** The 302 redirect to the sign-in page. */
  function RedirectToSignIn(c: Config, cookie: Option<string>, isAjax: bool): (r: Response)
    ensures r.Redirect? <==> SignInPath(c).Some?
    ensures r.Redirect? ==> r.status == 302 && r.deleteCookie == cookie && SignInPath(c) == Some(r.target)
    ensures r.Redirect? ==> (r.signal == AjaxRedirect <==> isAjax)
    ensures !r.Redirect? ==> r == IndexOutOfBounds
  {
    match SignInPath(c)
    case None => IndexOutOfBounds
    case Some(target) => Redirect(302, cookie, if isAjax then AjaxRedirect else LocationHeader, target)
  }

  /** `handle`: one dispatch of an inbound request against the session store at time `now`. */
  function Handle(c: Config, env: Env, store: Store, req: Request, now: int): (d: Dispatch)
    // static short-circuit: the store is untouched and no session is assigned
    ensures d.response.Static? <==> ServesStatic(c, env, req)
    ensures d.response.Static? ==>
      && d.store == store && d.session == ContextOf(c, env, req).session && !d.sessionAssigned
      && var q := Prepared(c, env, req);
         d.response.request == q.(resourcePath := Some(q.resourcePath.GetOr(q.path)))
    // a pre-resolved session or a stateless context skips resolution altogether
    ensures SkipsResolution(c, env, req) ==>
      var ctx := ContextOf(c, env, req);
      d == Dispatch(Forward(Prepared(c, env, req), ctx.session), store, ctx.session, false)
    // downstream sees the prepared request and the context's final session
    ensures d.response.Forward? ==> d.response.request == Prepared(c, env, req) && d.response.session == d.session
    // the store changes only by evicting the cookie's expired session, or, in a store
    // that shares its session objects, by the touch of the cookie's live session
    ensures var ctx := ContextOf(c, env, req);
      var l := LookUp(c.sessionExpirySeconds, env.storeSharesSessions, store, ctx.sessionCookieValue, now);
      if Resolves(c, env, req) && Evicts(c.sessionExpirySeconds, store, ctx.sessionCookieValue, now)
      then d.store == store - {ctx.sessionCookieValue.value}
      else if Resolves(c, env, req) && l.found.Some? && env.storeSharesSessions
      then d.store == store[ctx.sessionCookieValue.value := l.found.value]
      else d.store == store
    ensures d.store.Keys <= store.Keys
    // a live session from the store wins, touched by the expiry check
    ensures var ctx := ContextOf(c, env, req);
      var l := LookUp(c.sessionExpirySeconds, env.storeSharesSessions, store, ctx.sessionCookieValue, now);
      Resolves(c, env, req) && l.found.Some? ==> d.response == Forward(Prepared(c, env, req), l.found)
    // otherwise the fallbacks, in order
    ensures var ctx := ContextOf(c, env, req);
      var l := LookUp(c.sessionExpirySeconds, env.storeSharesSessions, store, ctx.sessionCookieValue, now);
      var q := Prepared(c, env, req);
      Resolves(c, env, req) && l.found.None? ==>
        match ChooseFallback(c, q.path)
        case UseGlobal => d.response == Forward(q, Some(env.globalSession))
        case UseAutoCreated => d.response == Forward(q, ctx.sessionAfterInit)
        case UseTemporary => d.response == Forward(q, Some(env.temporarySession))
        case NotFound => d.response == RedirectToSignIn(c, ctx.sessionCookieValue, req.isAjax)
    // the context's session is written exactly when resolution ran and did not fail
    ensures d.sessionAssigned <==> Resolves(c, env, req) && d.response.Forward?
    ensures !d.sessionAssigned ==> d.session == ContextOf(c, env, req).session
    // with a global or auto-created session available the handler never redirects
    ensures c.useGlobalSession || c.autoCreateSession ==> d.response.Static? || d.response.Forward?
    // a forward without a session needs a stateless context or an init() that made none
    ensures d.response.Forward? && d.response.session.None? ==>
      var ctx := ContextOf(c, env, req);
      (ctx.isStateless && ctx.session.None?)
      || (!c.useGlobalSession && c.autoCreateSession && ctx.sessionAfterInit.None?)
  {
    var ctx := ContextOf(c, env, req);
    var q := Prepared(c, env, req);
    if !ctx.isApi && env.isHttpGetForStaticResource(q) && ctx.isHttpGetAllowed then
      var staticRequest := if q.resourcePath.None? then q.(resourcePath := Some(q.path)) else q;
      Dispatch(Static(staticRequest), store, ctx.session, false)
    else if ctx.session.Some? || ctx.isStateless then
      Dispatch(Forward(q, ctx.session), store, ctx.session, false)
    else
      var l := LookUp(c.sessionExpirySeconds, env.storeSharesSessions, store, ctx.sessionCookieValue, now);
      if l.found.Some? then
        Dispatch(Forward(q, l.found), l.store, l.found, true)
      else
        match ChooseFallback(c, q.path)
        case UseGlobal => Dispatch(Forward(q, Some(env.globalSession)), l.store, Some(env.globalSession), true)
        case UseAutoCreated => Dispatch(Forward(q, ctx.sessionAfterInit), l.store, ctx.sessionAfterInit, true)
        case UseTemporary => Dispatch(Forward(q, Some(env.temporarySession)), l.store, Some(env.temporarySession), true)
        case NotFound => Dispatch(RedirectToSignIn(c, ctx.sessionCookieValue, q.isAjax), l.store, ctx.session, false)
  }
}
